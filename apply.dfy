/** `aide apply <tool> <categories>`: validates the tool, fetches the
    prompts of the comma-separated categories, drops those the tool's file
    already holds and merges the rest into the file. The store and the
    project directory are the two pieces of state; the run is specified by
    `ApplySpec` and carried out step by step by the `Apply` method. */
module Apply {
  import opened Common
  import opened Strings
  import opened Storage
  import opened Config
  import opened Files
  import opened Generators

  /** The category list of the second argument: split on commas, each piece
      trimmed. Empty pieces stay in the list. */
  function ParseCategories(arg: string): (categories: seq<string>)
    ensures |categories| == |SplitComma(arg)| >= 1
    ensures forall k :: 0 <= k < |categories| ==> categories[k] == TrimSpace(SplitComma(arg)[k])
  {
    var pieces := SplitComma(arg);
    seq(|pieces|, k requires 0 <= k < |pieces| => TrimSpace(pieces[k]))
  }

  /** A category name without commas and without surrounding white space is
      recovered as it is from the argument that lists it. */
  lemma ParseCategoriesJoin(names: seq<string>)
    requires |names| >= 1
    requires forall k :: 0 <= k < |names| ==> ',' !in names[k] && TrimSpace(names[k]) == names[k]
    ensures ParseCategories(Join(names, ",")) == names
  {
    JoinSplitComma(names);
  }

  /** The categories that are looked up: the non-empty ones, in order. */
  function NonEmpty(categories: seq<string>): (r: seq<string>)
    ensures Subsequence(r, categories)
    ensures forall c :: c in r <==> c in categories && c != ""
    ensures forall c :: multiset(r)[c] == if c != "" then multiset(categories)[c] else 0
  {
    var keep := (c: string) => c != "";
    FilterOrdered(categories, keep);
    forall c ensures multiset(Filter(categories, keep))[c] == if c != "" then multiset(categories)[c] else 0 {
      FilterCount(categories, keep, c);
    }
    forall c ensures c in Filter(categories, keep) <==> c in categories && c != "" {
      FilterMember(categories, keep, c);
    }
    Filter(categories, keep)
  }

  /** The fetch loop: the prompt of each non-empty category in turn,
      stopping at the first that cannot be read. */
  function FetchAll(prompts: map<(string, string), PromptFile>, tool: string, categories: seq<string>): (r: Result<seq<string>>)
    ensures r.Ok? <==> forall k :: 0 <= k < |categories| && categories[k] != "" ==> PromptAt(prompts, tool, categories[k]).Ok?
    ensures r.Ok? ==> |r.value| == |NonEmpty(categories)|
    ensures r.Ok? ==> forall k :: 0 <= k < |r.value| ==> PromptAt(prompts, tool, NonEmpty(categories)[k]) == Ok(r.value[k])
    ensures r.Err? ==> r.error == NotFound || r.error == ReadError
  {
    if categories == [] then Ok([])
    else
      var init := categories[..|categories| - 1];
      var last := categories[|categories| - 1];
      assert forall k :: 0 <= k < |init| ==> init[k] == categories[k];
      match FetchAll(prompts, tool, init)
      case Err(error) => Err(error)
      case Ok(fetched) =>
        if last == "" then Ok(fetched)
        else match PromptAt(prompts, tool, last)
          case Err(error) => Err(error)
          case Ok(prompt) => Ok(fetched + [prompt])
  }

  /** Once a fetch has failed, later categories do not change the error:
      the error reported is the first one in category order. */
  lemma {:induction false} FetchAllFirstError(prompts: map<(string, string), PromptFile>, tool: string, categories: seq<string>, more: seq<string>)
    requires FetchAll(prompts, tool, categories).Err?
    ensures FetchAll(prompts, tool, categories + more) == FetchAll(prompts, tool, categories)
    decreases |more|
  {
    if more == [] {
      assert categories + more == categories;
    } else {
      var init := more[..|more| - 1];
      FetchAllFirstError(prompts, tool, categories, init);
      var all := categories + more;
      assert all[..|all| - 1] == categories + init;
      assert FetchAll(prompts, tool, all[..|all| - 1]).Err?;
    }
  }

  /** What a run reports on success: the file already held every prompt, or
      the prompts were merged into it (the listed categories are echoed). */
  datatype Report =
    | AlreadyApplied(target: string)
    | Applied(target: string, categories: seq<string>)

  /** A run's answer and the project directory after it. */
  datatype Run = Run(outcome: Result<Report>, files: map<string, FileEntry>)

  /** The steps after the fetch: the target file, the generator, the
      duplicate filter and the merge of the prompts that survive it. */
  function MergeSpec(toolCfgs: map<string, ConfigFile>, files: map<string, FileEntry>, cwd: string, tool: string,
                     categories: seq<string>, fetched: seq<string>, timestamp: string): (run: Run)
    ensures run.outcome.Err? ==> run.files == files
    ensures run.outcome.Ok? ==> GetTargetFile(toolCfgs, cwd, tool) == Ok(run.outcome.value.target)
    ensures run.outcome.Ok? && run.outcome.value.AlreadyApplied? ==> run.files == files
    ensures run.outcome.Ok? && run.outcome.value.Applied? ==>
      var target := run.outcome.value.target;
      && run.files.Keys == files.Keys + {target}
      && run.files[target].Text?
      && (forall p :: p in files && p != target ==> run.files[p] == files[p])
      && run.outcome.value.categories == categories
  {
    match GetTargetFile(toolCfgs, cwd, tool)
    case Err(error) => Run(Err(error), files)
    case Ok(target) =>
      match NewGenerator(toolCfgs, tool)
      case Err(error) => Run(Err(error), files)
      case Ok(g) =>
        match Deduplicated(files, target, fetched)
        case Err(error) => Run(Err(error), files)
        case Ok(unique) =>
          if unique == [] then Run(Ok(AlreadyApplied(target)), files)
          else
            var effect := GenerateEffect(g, files, target, timestamp, unique);
            if effect.outcome.Fail? then Run(Err(effect.outcome.error), effect.files)
            else Run(Ok(Applied(target, categories)), effect.files)
  }

  /** The whole command, in the order of its steps: tool validation, the
      category list, the fetch, the empty-list check, then the merge. */
  function ApplySpec(prompts: map<(string, string), PromptFile>, toolCfgs: map<string, ConfigFile>,
                     files: map<string, FileEntry>, cwd: string, tool: string, arg: string, timestamp: string): (run: Run)
    ensures ValidateTool(toolCfgs, tool).Fail? ==> run == Run(Err(UnsupportedTool), files)
    ensures run.outcome.Err? ==> run.files == files
    ensures run.outcome.Ok? ==>
      && ValidateTool(toolCfgs, tool) == Pass
      && GetTargetFile(toolCfgs, cwd, tool) == Ok(run.outcome.value.target)
      && FetchAll(prompts, tool, ParseCategories(arg)).Ok?
      && NonEmpty(ParseCategories(arg)) != []
    ensures run.outcome.Ok? && run.outcome.value.AlreadyApplied? ==> run.files == files
    ensures run.outcome.Ok? && run.outcome.value.Applied? ==>
      var target := run.outcome.value.target;
      && run.files.Keys == files.Keys + {target}
      && run.files[target].Text?
      && (forall p :: p in files && p != target ==> run.files[p] == files[p])
      && run.outcome.value.categories == ParseCategories(arg)
  {
    if ValidateTool(toolCfgs, tool).Fail? then Run(Err(UnsupportedTool), files)
    else
      var categories := ParseCategories(arg);
      match FetchAll(prompts, tool, categories)
      case Err(error) => Run(Err(error), files)
      case Ok(fetched) =>
        if fetched == [] then Run(Err(NoPrompts), files)
        else MergeSpec(toolCfgs, files, cwd, tool, categories, fetched, timestamp)
  }

  /** The parsing loop: split the argument on commas, then trim each piece
      in place. */
  method ParseCategoryList(categoriesArg: string) returns (categories: seq<string>)
    ensures categories == ParseCategories(categoriesArg)
  {
    var pieces := SplitComma(categoriesArg);
    categories := pieces;
    for i := 0 to |categories|
      invariant |categories| == |pieces|
      invariant forall k :: 0 <= k < i ==> categories[k] == TrimSpace(pieces[k])
      invariant forall k :: i <= k < |categories| ==> categories[k] == pieces[k]
    {
      categories := categories[i := TrimSpace(categories[i])];
    }
  }

  /** The fetch loop: skips empty categories, asks the store for each other
      one, and returns the first error. */
  method FetchPrompts(store: Storage, tool: string, categories: seq<string>) returns (r: Result<seq<string>>)
    ensures r == FetchAll(store.prompts, tool, categories)
  {
    var fetched: seq<string> := [];
    for i := 0 to |categories|
      invariant FetchAll(store.prompts, tool, categories[..i]) == Ok(fetched)
    {
      assert categories[..i + 1] == categories[..i] + [categories[i]];
      if categories[i] != "" {
        var prompt := store.GetPrompt(tool, categories[i]);
        if prompt.Err? {
          assert FetchAll(store.prompts, tool, categories[..i + 1]) == Err(prompt.error);
          FetchAllFirstError(store.prompts, tool, categories[..i + 1], categories[i + 1..]);
          assert categories[..i + 1] + categories[i + 1..] == categories;
          return Err(prompt.error);
        }
        fetched := fetched + [prompt.value];
      }
    }
    assert categories[..|categories|] == categories;
    return Ok(fetched);
  }

  /** The steps after the fetch, as the program runs them. */
  method Merge(store: Storage, ws: Workspace, cwd: string, tool: string,
               categories: seq<string>, fetched: seq<string>, timestamp: string) returns (r: Result<Report>)
    modifies ws
    ensures Run(r, ws.files) == MergeSpec(store.toolCfgs, old(ws.files), cwd, tool, categories, fetched, timestamp)
  {
    var target := GetTargetFile(store.toolCfgs, cwd, tool);
    if target.Err? {
      return Err(target.error);
    }
    var generator := NewGenerator(store.toolCfgs, tool);
    if generator.Err? {
      return Err(generator.error);
    }
    var unique := CheckDuplicatePrompts(ws, target.value, fetched);
    if unique.Err? {
      return Err(unique.error);
    }
    if |unique.value| == 0 {
      return Ok(AlreadyApplied(target.value));
    }
    var outcome := Generate(generator.value, ws, target.value, timestamp, unique.value);
    if outcome.Fail? {
      return Err(outcome.error);
    }
    return Ok(Applied(target.value, categories));
  }

  /** The command as the program runs it: each step in turn, returning at the
      first failure, with the store read and the project directory written. */
  method Apply(store: Storage, ws: Workspace, cwd: string, tool: string, categoriesArg: string, timestamp: string)
    returns (r: Result<Report>)
    modifies ws
    ensures Run(r, ws.files) == ApplySpec(store.prompts, store.toolCfgs, old(ws.files), cwd, tool, categoriesArg, timestamp)
  {
    var valid := ValidateTool(store.toolCfgs, tool);
    if valid.Fail? {
      return Err(valid.error);
    }
    var categories := ParseCategoryList(categoriesArg);
    var fetched := FetchPrompts(store, tool, categories);
    if fetched.Err? {
      return Err(fetched.error);
    }
    if |fetched.value| == 0 {
      return Err(NoPrompts);
    }
    r := Merge(store, ws, cwd, tool, categories, fetched.value, timestamp);
  }

  /** A successful run went through validation and a non-empty fetch; the
      rest of it is the merge step, which alone depends on the project
      directory and the time. */
  lemma ApplyIsMerge(prompts: map<(string, string), PromptFile>, toolCfgs: map<string, ConfigFile>,
                     files: map<string, FileEntry>, cwd: string, tool: string, arg: string, timestamp: string)
    requires ApplySpec(prompts, toolCfgs, files, cwd, tool, arg, timestamp).outcome.Ok?
    ensures FetchAll(prompts, tool, ParseCategories(arg)).Ok?
    ensures FetchAll(prompts, tool, ParseCategories(arg)).value != []
    ensures forall other: map<string, FileEntry>, time: string ::
      ApplySpec(prompts, toolCfgs, other, cwd, tool, arg, time)
        == MergeSpec(toolCfgs, other, cwd, tool, ParseCategories(arg), FetchAll(prompts, tool, ParseCategories(arg)).value, time)
  {
  }

  /** The file a successful merge writes is the rendering of the prompts
      the filter kept, appended to what the target held; the merge reports
      `AlreadyApplied` exactly when the filter kept nothing. */
  lemma MergeWritesRender(toolCfgs: map<string, ConfigFile>, files: map<string, FileEntry>, cwd: string, tool: string,
                          categories: seq<string>, fetched: seq<string>, timestamp: string)
    requires MergeSpec(toolCfgs, files, cwd, tool, categories, fetched, timestamp).outcome.Ok?
    ensures
      var run := MergeSpec(toolCfgs, files, cwd, tool, categories, fetched, timestamp);
      var target := run.outcome.value.target;
      && NewGenerator(toolCfgs, tool).Ok?
      && ReadExisting(files, target).Ok?
      && (run.outcome.value.AlreadyApplied? <==> UniquePrompts(ReadExisting(files, target).value, fetched) == [])
      && (run.outcome.value.Applied? ==>
            run.files[target] == Text(Render(NewGenerator(toolCfgs, tool).value, ReadExisting(files, target).value,
                                             timestamp, UniquePrompts(ReadExisting(files, target).value, fetched))))
  {
  }

  /** After a successful merge, every fetched prompt's trimmed text is found
      in the target file: those dropped were there already, the others were
      just written. */
  lemma MergeDelivers(toolCfgs: map<string, ConfigFile>, files: map<string, FileEntry>, cwd: string, tool: string,
                      categories: seq<string>, fetched: seq<string>, timestamp: string)
    requires MergeSpec(toolCfgs, files, cwd, tool, categories, fetched, timestamp).outcome.Ok?
    ensures
      var run := MergeSpec(toolCfgs, files, cwd, tool, categories, fetched, timestamp);
      var target := run.outcome.value.target;
      && ReadExisting(run.files, target).Ok?
      && forall k :: 0 <= k < |fetched| ==> IsDuplicate(ReadExisting(run.files, target).value, fetched[k])
  {
    var run := MergeSpec(toolCfgs, files, cwd, tool, categories, fetched, timestamp);
    var target := run.outcome.value.target;
    MergeWritesRender(toolCfgs, files, cwd, tool, categories, fetched, timestamp);
    var existing := ReadExisting(files, target).value;
    var g := NewGenerator(toolCfgs, tool).value;
    if run.outcome.value.Applied? {
      MergeCoversAll(g, existing, timestamp, fetched);
    } else {
      forall k | 0 <= k < |fetched| ensures IsDuplicate(existing, fetched[k]) {
        UniquePromptsMember(existing, fetched, fetched[k]);
      }
    }
  }

  /** A target whose directory does not exist: a merge with any prompt that
      is not blank reads the target as empty, fails to create it with
      `WriteError`, and leaves the directory as it was. */
  lemma MergeNeedsDirectory(toolCfgs: map<string, ConfigFile>, files: map<string, FileEntry>, cwd: string, tool: string,
                            categories: seq<string>, fetched: seq<string>, timestamp: string, k: nat)
    requires GetTargetFile(toolCfgs, cwd, tool).Ok? && NewGenerator(toolCfgs, tool).Ok?
    requires GetTargetFile(toolCfgs, cwd, tool).value in files
    requires files[GetTargetFile(toolCfgs, cwd, tool).value].NoDirectory?
    requires k < |fetched| && TrimSpace(fetched[k]) != ""
    ensures MergeSpec(toolCfgs, files, cwd, tool, categories, fetched, timestamp) == Run(Err(WriteError), files)
  {
    var target := GetTargetFile(toolCfgs, cwd, tool).value;
    assert ReadExisting(files, target) == Ok("");
    assert !IsDuplicate("", fetched[k]);
    UniquePromptsMember("", fetched, fetched[k]);
    assert UniquePrompts("", fetched) != [];
  }

  /** Merging the same prompts again into the directory a successful merge
      left: the target is unchanged and every prompt is found in it. */
  lemma MergeIdempotent(toolCfgs: map<string, ConfigFile>, files: map<string, FileEntry>, cwd: string, tool: string,
                        categories: seq<string>, fetched: seq<string>, first: string, second: string)
    requires MergeSpec(toolCfgs, files, cwd, tool, categories, fetched, first).outcome.Ok?
    ensures
      var run := MergeSpec(toolCfgs, files, cwd, tool, categories, fetched, first);
      MergeSpec(toolCfgs, run.files, cwd, tool, categories, fetched, second)
        == Run(Ok(AlreadyApplied(run.outcome.value.target)), run.files)
  {
    var run := MergeSpec(toolCfgs, files, cwd, tool, categories, fetched, first);
    var target := run.outcome.value.target;
    MergeDelivers(toolCfgs, files, cwd, tool, categories, fetched, first);
    MergeWritesRender(toolCfgs, files, cwd, tool, categories, fetched, first);
    AllDuplicatesLeaveNothing(ReadExisting(run.files, target).value, fetched);
    assert Deduplicated(run.files, target, fetched) == Ok([]);
  }

  /** Applying the same categories twice: the second run finds every prompt
      in the file, reports that they are already applied, and writes nothing,
      whatever the time of either run. */
  lemma ApplyIdempotent(prompts: map<(string, string), PromptFile>, toolCfgs: map<string, ConfigFile>,
                        files: map<string, FileEntry>, cwd: string, tool: string, arg: string, first: string, second: string)
    requires ApplySpec(prompts, toolCfgs, files, cwd, tool, arg, first).outcome.Ok?
    ensures
      var run := ApplySpec(prompts, toolCfgs, files, cwd, tool, arg, first);
      ApplySpec(prompts, toolCfgs, run.files, cwd, tool, arg, second)
        == Run(Ok(AlreadyApplied(run.outcome.value.target)), run.files)
  {
    ApplyIsMerge(prompts, toolCfgs, files, cwd, tool, arg, first);
    var categories := ParseCategories(arg);
    var fetched := FetchAll(prompts, tool, categories).value;
    MergeIdempotent(toolCfgs, files, cwd, tool, categories, fetched, first, second);
  }

  /** An argument of commas and white space names no category: a valid tool
      then fails with `NoPrompts` and nothing is written. */
  lemma ApplyBlankArgument(prompts: map<(string, string), PromptFile>, toolCfgs: map<string, ConfigFile>,
                           files: map<string, FileEntry>, cwd: string, tool: string, arg: string, timestamp: string)
    requires ValidateTool(toolCfgs, tool) == Pass
    requires forall j :: 0 <= j < |arg| ==> arg[j] == ',' || IsSpace(arg[j])
    ensures ApplySpec(prompts, toolCfgs, files, cwd, tool, arg, timestamp) == Run(Err(NoPrompts), files)
  {
    BlankArgumentNamesNothing(arg);
    var fetch := FetchAll(prompts, tool, ParseCategories(arg));
    assert fetch.Ok?;
    assert fetch.value == [];
  }

  /** Every category of an argument made of commas and white space is empty. */
  lemma BlankArgumentNamesNothing(arg: string)
    requires forall j :: 0 <= j < |arg| ==> arg[j] == ',' || IsSpace(arg[j])
    ensures forall k :: 0 <= k < |ParseCategories(arg)| ==> ParseCategories(arg)[k] == ""
    ensures NonEmpty(ParseCategories(arg)) == []
  {
    var pieces := SplitComma(arg);
    var categories := ParseCategories(arg);
    forall k | 0 <= k < |categories| ensures categories[k] == "" {
      forall j | 0 <= j < |pieces[k]| ensures IsSpace(pieces[k][j]) {
        var c := pieces[k][j];
        SplitCommaChars(arg, k, c);
        var i :| 0 <= i < |arg| && arg[i] == c;
        assert c != ',';
      }
      assert categories[k] == TrimSpace(pieces[k]);
    }
    if NonEmpty(categories) != [] {
      FilterMember(categories, c => c != "", NonEmpty(categories)[0]);
    }
  }

  /** A non-empty category with no prompt file makes a valid tool's run fail
      before anything is written. */
  lemma ApplyMissingCategory(prompts: map<(string, string), PromptFile>, toolCfgs: map<string, ConfigFile>,
                             files: map<string, FileEntry>, cwd: string, tool: string, arg: string, timestamp: string, k: nat)
    requires k < |ParseCategories(arg)| && ParseCategories(arg)[k] != ""
    requires (tool, ParseCategories(arg)[k]) !in prompts
    ensures
      var run := ApplySpec(prompts, toolCfgs, files, cwd, tool, arg, timestamp);
      && run.outcome.Err?
      && run.files == files
  {
  }
}
