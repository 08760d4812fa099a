/** The file generators and the duplicate filter. A generator appends a
    marked section of prompts to a tool's file, keeping what the file already
    holds; the filter keeps only the prompts whose trimmed text the file does
    not already contain, which is what makes a repeated `apply` add nothing. */
module Generators {
  import opened Common
  import opened Strings
  import opened Storage
  import opened Files

  /** The three renderers: the two built-in tools and the descriptor-driven one. */
  datatype Generator = Claude | Cursor | Dynamic(config: ToolConfig)

  /** The renderer for `tool`: built-ins first, then the stored descriptor;
      a tool with neither is `UnsupportedTool`. */
  function NewGenerator(toolCfgs: map<string, ConfigFile>, tool: string): (r: Result<Generator>)
    ensures r.Ok? <==> tool == "claude" || tool == "cursor" || ToolConfigAt(toolCfgs, tool).Ok?
    ensures r.Err? ==> r.error == UnsupportedTool
    ensures tool == "claude" ==> r == Ok(Claude)
    ensures tool == "cursor" ==> r == Ok(Cursor)
    ensures r.Ok? && r.value.Dynamic? ==> ToolConfigAt(toolCfgs, tool) == Ok(r.value.config)
  {
    if tool == "claude" then Ok(Claude)
    else if tool == "cursor" then Ok(Cursor)
    else match ToolConfigAt(toolCfgs, tool)
      case Ok(config) => Ok(Dynamic(config))
      case Err(_) => Err(UnsupportedTool)
  }

  /** The separator a descriptor uses when it stores none. */
  const DefaultSeparator: string := "# ---"

  /** The separator line between consecutive prompts. */
  function Separator(g: Generator): string {
    match g
    case Claude => "---"
    case Cursor => "---"
    case Dynamic(config) => if config.separator == "" then DefaultSeparator else config.separator
  }

  /** A descriptor's own separator wins; without one the default is used, so
      the separator is never empty. */
  lemma SeparatorShape(g: Generator)
    ensures |Separator(g)| > 0
    ensures g.Dynamic? && g.config.separator != "" ==> Separator(g) == g.config.separator
    ensures g.Dynamic? && g.config.separator == "" ==> Separator(g) == DefaultSeparator
  {
  }

  /** What is written between two consecutive prompts. */
  function Glue(g: Generator): string {
    "\n" + Separator(g) + "\n\n"
  }

  /** Between two prompts the separator stands on a line of its own,
      followed by a blank line. */
  lemma GlueHoldsSeparator(g: Generator)
    ensures Contains(Glue(g), Separator(g))
    ensures Glue(g)[0] == '\n' && HasSuffix(Glue(g), "\n\n")
  {
    assert Glue(g)[1..1 + |Separator(g)|] == Separator(g);
    ContainsAt(Glue(g), Separator(g), 1);
  }

  /** What comes before the marker: the existing content and a blank line,
      or, for a new or empty file, the descriptor's header and a blank line. */
  function Lead(g: Generator, existing: string): string {
    if |existing| > 0 then existing + "\n\n"
    else if g.Dynamic? && g.config.header != "" then g.config.header + "\n\n"
    else ""
  }

  /** The lead keeps the existing content, is empty only for an empty file
      without a header to write, and otherwise ends in a blank line. */
  lemma LeadShape(g: Generator, existing: string)
    ensures existing <= Lead(g, existing)
    ensures Lead(g, existing) == "" <==> existing == "" && !(g.Dynamic? && g.config.header != "")
    ensures Lead(g, existing) != "" ==> HasSuffix(Lead(g, existing), "\n\n")
  {
  }

  /** The lines announcing the appended section, stamped with `timestamp`. */
  function Marker(g: Generator, timestamp: string): string {
    match g
    case Claude =>
      "# aide 프롬프트\n\n" + "다음 프롬프트는 aide에 의해 " + timestamp + "에 추가되었습니다.\n\n"
    case Cursor =>
      "# aide 프롬프트\n" + "# 다음 규칙은 aide에 의해 " + timestamp + "에 추가되었습니다.\n\n"
    case Dynamic(config) =>
      Separator(g) + "\n" + "# " + config.description + " - aide에 의해 " + timestamp + "에 추가됨\n\n"
  }

  /** Each prompt verbatim, followed by a newline. */
  function Lines(prompts: seq<string>): (lines: seq<string>)
    ensures |lines| == |prompts|
    ensures forall i :: 0 <= i < |prompts| ==> lines[i] == prompts[i] + "\n"
  {
    seq(|prompts|, i requires 0 <= i < |prompts| => prompts[i] + "\n")
  }

  /** The new content of the file: the lead, the marker and the prompts
      joined by the generator's separator. */
  function Render(g: Generator, existing: string, timestamp: string, prompts: seq<string>): string
  {
    Lead(g, existing) + Marker(g, timestamp) + Join(Lines(prompts), Glue(g))
  }

  /** The rendered file carries the time of the run. */
  lemma RenderStamped(g: Generator, existing: string, timestamp: string, prompts: seq<string>)
    ensures Contains(Render(g, existing, timestamp, prompts), timestamp)
  {
    MarkerStamped(g, timestamp);
    ContainsInside(Lead(g, existing), Marker(g, timestamp), Join(Lines(prompts), Glue(g)), timestamp);
  }

  /** The marker carries the time of the run. */
  lemma MarkerStamped(g: Generator, timestamp: string)
    ensures Contains(Marker(g, timestamp), timestamp)
  {
    var marker := Marker(g, timestamp);
    ContainsAt(timestamp, timestamp, 0);
    match g
    case Claude =>
      var head := "# aide 프롬프트\n\n" + "다음 프롬프트는 aide에 의해 ";
      var tail := "에 추가되었습니다.\n\n";
      assert marker == head + timestamp + tail;
      ContainsInside(head, timestamp, tail, timestamp);
    case Cursor =>
      var head := "# aide 프롬프트\n" + "# 다음 규칙은 aide에 의해 ";
      var tail := "에 추가되었습니다.\n\n";
      assert marker == head + timestamp + tail;
      ContainsInside(head, timestamp, tail, timestamp);
    case Dynamic(config) =>
      var head := Separator(g) + "\n" + "# " + config.description + " - aide에 의해 ";
      var tail := "에 추가됨\n\n";
      assert marker == head + timestamp + tail;
      ContainsInside(head, timestamp, tail, timestamp);
  }

  /** Non-empty existing content survives verbatim at the start, followed by
      a blank line. */
  lemma RenderKeepsExisting(g: Generator, existing: string, timestamp: string, prompts: seq<string>)
    requires |existing| > 0
    ensures existing + "\n\n" <= Render(g, existing, timestamp, prompts)
    ensures existing <= Render(g, existing, timestamp, prompts)
    ensures existing + "\n\n" + Marker(g, timestamp) <= Render(g, existing, timestamp, prompts)
  {
  }

  /** Only a descriptor with a header writes one, and only into an empty file;
      everything else starts an empty file with the marker. */
  lemma RenderHeader(g: Generator, timestamp: string, prompts: seq<string>)
    ensures g.Dynamic? && g.config.header != "" ==>
      g.config.header + "\n\n" + Marker(g, timestamp) <= Render(g, "", timestamp, prompts)
    ensures !(g.Dynamic? && g.config.header != "") ==>
      Marker(g, timestamp) <= Render(g, "", timestamp, prompts)
  {
  }

  /** One more prompt is one more line. */
  lemma LinesSnoc(prompts: seq<string>, p: string)
    ensures Lines(prompts + [p]) == Lines(prompts) + [p + "\n"]
  {
    var more := Lines(prompts + [p]);
    forall k | 0 <= k < |more| ensures more[k] == (Lines(prompts) + [p + "\n"])[k] {
      if k < |prompts| {
        assert (prompts + [p])[k] == prompts[k];
      }
    }
  }

  /** Rendering one more prompt appends the separator (unless it is the
      first), the prompt and a newline: the file is built front to back. */
  lemma {:induction false} RenderSnoc(g: Generator, existing: string, timestamp: string, prompts: seq<string>, p: string)
    ensures Render(g, existing, timestamp, prompts + [p]) ==
      Render(g, existing, timestamp, prompts) + (if prompts == [] then "" else Glue(g)) + p + "\n"
  {
    var lines := Lines(prompts);
    LinesSnoc(prompts, p);
    JoinSnoc(lines, Glue(g), p + "\n");
    assert lines == [] <==> prompts == [];
  }

  /** Every prompt written is found verbatim in the new content. */
  lemma RenderContainsPrompt(g: Generator, existing: string, timestamp: string, prompts: seq<string>, k: nat)
    requires k < |prompts|
    ensures Contains(Render(g, existing, timestamp, prompts), prompts[k])
  {
    var lines := Lines(prompts);
    JoinContainsItem(lines, Glue(g), k);
    ContainsAt(lines[k], prompts[k], 0);
    ContainsTransitive(Join(lines, Glue(g)), lines[k], prompts[k]);
    ContainsInside(Lead(g, existing) + Marker(g, timestamp), Join(lines, Glue(g)), [], prompts[k]);
    assert Lead(g, existing) + Marker(g, timestamp) + Join(lines, Glue(g)) + [] == Render(g, existing, timestamp, prompts);
  }

  /** The builder loop of the `Generate` methods: produces the new content
      front to back as the source does. */
  method Compose(g: Generator, existing: string, timestamp: string, prompts: seq<string>) returns (content: string)
    ensures content == Render(g, existing, timestamp, prompts)
  {
    content := "";
    if |existing| > 0 {
      content := content + existing + "\n\n";
    } else if g.Dynamic? && g.config.header != "" {
      content := content + g.config.header + "\n\n";
    }
    content := content + Marker(g, timestamp);
    assert content == Render(g, existing, timestamp, []) by {
      assert Lines([]) == [];
    }
    var separator := Separator(g);
    for i := 0 to |prompts|
      invariant content == Render(g, existing, timestamp, prompts[..i])
    {
      ghost var before := content;
      if i > 0 {
        content := content + ("\n" + separator + "\n\n");
      }
      content := content + prompts[i] + "\n";
      ComposeStep(g, existing, timestamp, prompts, i, before, content);
    }
    assert prompts[..|prompts|] == prompts;
  }

  /** One turn of the builder loop extends the rendering by one prompt. */
  lemma ComposeStep(g: Generator, existing: string, timestamp: string, prompts: seq<string>, i: nat,
                    before: string, after: string)
    requires i < |prompts| && before == Render(g, existing, timestamp, prompts[..i])
    requires i == 0 ==> after == before + prompts[i] + "\n"
    requires i > 0 ==> after == before + Glue(g) + prompts[i] + "\n"
    ensures after == Render(g, existing, timestamp, prompts[..i + 1])
  {
    var done := prompts[..i];
    assert prompts[..i + 1] == done + [prompts[i]];
    RenderSnoc(g, existing, timestamp, done, prompts[i]);
    if i == 0 {
      assert done == [];
      assert before + "" == before;
    } else {
      assert done != [];
    }
  }

  /** The effect of a generator run on the project directory. */
  datatype Effect = Effect(outcome: Outcome, files: map<string, FileEntry>)

  /** What `Generate` does: on a readable or missing file, overwrite it with
      the rendered content; on a read failure or a file that cannot be
      written, fail and change nothing. */
  function GenerateEffect(g: Generator, files: map<string, FileEntry>, filePath: string, timestamp: string, prompts: seq<string>): (e: Effect)
    ensures e.outcome.Fail? <==> ReadExisting(files, filePath).Err? || !Writable(files, filePath)
    ensures e.outcome.Fail? ==> e.files == files
    ensures e.outcome.Fail? && ReadExisting(files, filePath).Ok? ==> e.outcome.error == WriteError
    ensures e.outcome == Pass ==>
      && e.files.Keys == files.Keys + {filePath}
      && e.files[filePath] == Text(Render(g, ReadExisting(files, filePath).value, timestamp, prompts))
      && (forall p :: p in files && p != filePath ==> e.files[p] == files[p])
  {
    match ReadExisting(files, filePath)
    case Err(error) => Effect(Fail(error), files)
    case Ok(existing) =>
      if !Writable(files, filePath) then Effect(Fail(WriteError), files)
      else Effect(Pass, files[filePath := Text(Render(g, existing, timestamp, prompts))])
  }

  /** `Generate`: reads the target (missing means empty), renders, and
      overwrites the whole file. */
  method Generate(g: Generator, ws: Workspace, filePath: string, timestamp: string, prompts: seq<string>) returns (r: Outcome)
    modifies ws
    ensures Effect(r, ws.files) == GenerateEffect(g, old(ws.files), filePath, timestamp, prompts)
  {
    var existing := ReadExisting(ws.files, filePath);
    if existing.Err? {
      return Fail(existing.error);
    }
    var content := Compose(g, existing.value, timestamp, prompts);
    r := ws.WriteFile(filePath, content);
  }

  /** A prompt the file already holds: its trimmed text occurs in the file. */
  predicate IsDuplicate(existing: string, prompt: string) {
    Contains(existing, TrimSpace(prompt))
  }

  /** The test the duplicate filter applies to each prompt. */
  function NotDuplicate(existing: string): string -> bool {
    p => !IsDuplicate(existing, p)
  }

  /** The prompts kept by the duplicate filter, in input order. Each prompt
      is tested against the file alone, never against the prompts kept
      before it. */
  function UniquePrompts(existing: string, prompts: seq<string>): (r: seq<string>)
    ensures forall k :: 0 <= k < |r| ==> r[k] in prompts && !IsDuplicate(existing, r[k])
  {
    var r := Filter(prompts, NotDuplicate(existing));
    forall k | 0 <= k < |r| ensures r[k] in prompts && !IsDuplicate(existing, r[k]) {
      FilterMember(prompts, NotDuplicate(existing), r[k]);
    }
    r
  }

  /** The filter keeps the prompts that are not duplicates in their input
      order. */
  lemma UniquePromptsOrdered(existing: string, prompts: seq<string>)
    ensures Subsequence(UniquePrompts(existing, prompts), prompts)
  {
    FilterOrdered(prompts, NotDuplicate(existing));
  }

  /** The filter keeps a prompt exactly as often as it was requested when it
      is not a duplicate, and never when it is: repeated prompts are not
      merged. */
  lemma UniquePromptsCount(existing: string, prompts: seq<string>, p: string)
    ensures multiset(UniquePrompts(existing, prompts))[p] ==
      if IsDuplicate(existing, p) then 0 else multiset(prompts)[p]
  {
    FilterCount(prompts, NotDuplicate(existing), p);
  }

  /** A prompt is kept exactly when it was requested and is not a duplicate. */
  lemma UniquePromptsMember(existing: string, prompts: seq<string>, p: string)
    ensures p in UniquePrompts(existing, prompts) <==> p in prompts && !IsDuplicate(existing, p)
  {
    FilterMember(prompts, NotDuplicate(existing), p);
  }

  /** The duplicate filter on the text the file already holds. */
  function Deduplicated(files: map<string, FileEntry>, filePath: string, prompts: seq<string>): (r: Result<seq<string>>)
    ensures r.Err? <==> ReadExisting(files, filePath).Err?
    ensures r.Ok? ==> r.value == UniquePrompts(ReadExisting(files, filePath).value, prompts)
  {
    match ReadExisting(files, filePath)
    case Err(error) => Err(error)
    case Ok(existing) => Ok(UniquePrompts(existing, prompts))
  }

  /** `CheckDuplicatePrompts`: reads the file (missing means empty) and keeps,
      in order, the prompts whose trimmed text it does not contain. */
  method CheckDuplicatePrompts(ws: Workspace, filePath: string, newPrompts: seq<string>) returns (r: Result<seq<string>>)
    ensures r == Deduplicated(ws.files, filePath, newPrompts)
  {
    var existing := ReadExisting(ws.files, filePath);
    if existing.Err? {
      return Err(existing.error);
    }
    var existingText := existing.value;
    var uniquePrompts: seq<string> := [];
    for i := 0 to |newPrompts|
      invariant uniquePrompts == UniquePrompts(existingText, newPrompts[..i])
    {
      assert newPrompts[..i + 1][..i] == newPrompts[..i];
      if !Contains(existingText, TrimSpace(newPrompts[i])) {
        uniquePrompts := uniquePrompts + [newPrompts[i]];
      }
    }
    assert newPrompts[..|newPrompts|] == newPrompts;
    return Ok(uniquePrompts);
  }

  /** A prompt that is white space only trims to the empty string, which
      every file contains: it is always dropped, even against an empty file. */
  lemma BlankPromptDropped(existing: string, prompts: seq<string>, p: string)
    requires forall j :: 0 <= j < |p| ==> IsSpace(p[j])
    ensures p !in UniquePrompts(existing, prompts)
  {
    ContainsEmpty(existing, "");
    UniquePromptsMember(existing, prompts, p);
  }

  /** Against an empty file, a prompt with visible text is kept, and kept
      twice when it is requested twice: the filter does not merge a batch. */
  lemma BatchDuplicatesKept(p: string)
    requires exists j :: 0 <= j < |p| && !IsSpace(p[j])
    ensures UniquePrompts("", [p, p]) == [p, p]
  {
    ContainsEmpty("", TrimSpace(p));
    assert NotDuplicate("")(p);
    assert [p, p][..1] == [p];
    assert [p][..0] == [];
    assert Filter([p], NotDuplicate("")) == [p];
  }

  /** When the file holds every prompt's trimmed text, nothing survives. */
  lemma AllDuplicatesLeaveNothing(existing: string, prompts: seq<string>)
    requires forall k :: 0 <= k < |prompts| ==> IsDuplicate(existing, prompts[k])
    ensures UniquePrompts(existing, prompts) == []
  {
    var unique := UniquePrompts(existing, prompts);
    if unique != [] {
      UniquePromptsMember(existing, prompts, unique[0]);
    }
  }

  /** Idempotence of one generator run: filtering the same prompts against
      the content just rendered from them keeps nothing, because each prompt
      is written verbatim and contains its own trimmed text. */
  lemma RenderedPromptsAreDuplicates(g: Generator, existing: string, timestamp: string, prompts: seq<string>)
    ensures UniquePrompts(Render(g, existing, timestamp, prompts), prompts) == []
  {
    var content := Render(g, existing, timestamp, prompts);
    forall k | 0 <= k < |prompts| ensures IsDuplicate(content, prompts[k]) {
      RenderContainsPrompt(g, existing, timestamp, prompts, k);
      ContainsTransitive(content, prompts[k], TrimSpace(prompts[k]));
    }
    AllDuplicatesLeaveNothing(content, prompts);
  }

  /** Text the file already held is still found after rendering: the old
      content is kept verbatim, and an empty file only ever "contains" the
      empty string, which every string contains. */
  lemma RenderKeepsDuplicate(g: Generator, existing: string, timestamp: string, prompts: seq<string>, p: string)
    requires IsDuplicate(existing, p)
    ensures IsDuplicate(Render(g, existing, timestamp, prompts), p)
  {
    var content := Render(g, existing, timestamp, prompts);
    if |existing| > 0 {
      RenderKeepsExisting(g, existing, timestamp, prompts);
      ContainsInPrefix(existing, content, TrimSpace(p));
    } else {
      ContainsEmpty(content, TrimSpace(p));
    }
  }

  /** After the filter and a run of the generator on what it kept, every
      requested prompt is a duplicate of the new content: those dropped were
      already in the file, those kept were just written. */
  lemma {:induction false} MergeCoversAll(g: Generator, existing: string, timestamp: string, prompts: seq<string>)
    ensures forall k :: 0 <= k < |prompts| ==>
      IsDuplicate(Render(g, existing, timestamp, UniquePrompts(existing, prompts)), prompts[k])
  {
    var unique := UniquePrompts(existing, prompts);
    var content := Render(g, existing, timestamp, unique);
    forall k | 0 <= k < |prompts| ensures IsDuplicate(content, prompts[k]) {
      var p := prompts[k];
      UniquePromptsMember(existing, prompts, p);
      if IsDuplicate(existing, p) {
        RenderKeepsDuplicate(g, existing, timestamp, unique, p);
      } else {
        var j :| 0 <= j < |unique| && unique[j] == p;
        RenderContainsPrompt(g, existing, timestamp, unique, j);
        ContainsTransitive(content, p, TrimSpace(p));
      }
    }
  }

  /** Every marker names the program. */
  lemma MarkerNamesAide(g: Generator, timestamp: string)
    ensures Contains(Marker(g, timestamp), "aide")
  {
    var marker := Marker(g, timestamp);
    match g
    case Claude =>
      assert marker[2..6] == "aide";
      ContainsAt(marker, "aide", 2);
    case Cursor =>
      assert marker[2..6] == "aide";
      ContainsAt(marker, "aide", 2);
    case Dynamic(config) =>
      var head := Separator(g) + "\n" + "# " + config.description + " - ";
      var tail := "에 의해 " + timestamp + "에 추가됨\n\n";
      assert marker == head + "aide" + tail;
      ContainsAt("aide", "aide", 0);
      ContainsInside(head, "aide", tail, "aide");
  }

  /** The filter tests substrings of the whole file, marker lines included:
      a prompt whose text is `aide` counts as already applied in every file
      a generator has written, whether or not it was ever merged. */
  lemma MarkerShadowsPrompt(g: Generator, existing: string, timestamp: string, prompts: seq<string>)
    ensures IsDuplicate(Render(g, existing, timestamp, prompts), "aide")
  {
    assert TrimSpace("aide") == "aide" by {
      assert LeadingSpaces("aide") == 0;
      assert TrailingSpaces("aide") == 0;
    }
    MarkerNamesAide(g, timestamp);
    ContainsInside(Lead(g, existing), Marker(g, timestamp), Join(Lines(prompts), Glue(g)), "aide");
  }
}
