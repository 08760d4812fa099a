/** The prompt store: prompts under `<root>/<tool>/<category>.txt` and tool
    descriptors under `<root>/tools/<name>.json`. The directory tree is the
    state of a `Storage` object: one map for the prompt files, one for the
    descriptor files, the set of directories directly under the root, and the
    directories whose listing fails. */
module Storage {
  import opened Common
  import opened Strings

  /** A user-registered tool: where its file goes and how it is rendered. */
  datatype ToolConfig = ToolConfig(
    name: string,
    fileName: string,
    description: string,
    header: string,
    separator: string)

  /** A prompt file as reading it turns out. */
  datatype PromptFile = PromptText(text: string) | PromptUnreadable

  /** A descriptor file as reading and decoding it turns out. */
  datatype ConfigFile = Parsed(config: ToolConfig) | Corrupt | ConfigUnreadable

  /** The directory under the root that holds the descriptors. */
  const ToolsDir: string := "tools"

  /** `filepath.Join` over path elements, without path cleaning. */
  function PathJoin(parts: seq<string>): string {
    Join(parts, "/")
  }

  /** The file `SavePrompt` writes: the category file inside the tool directory. */
  function PromptFilePath(baseDir: string, tool: string, category: string): string {
    PathJoin([PathJoin([baseDir, tool]), category + ".txt"])
  }

  /** The file that holds the descriptor of tool `name`. */
  function ToolConfigPath(baseDir: string, name: string): string {
    PathJoin([baseDir, ToolsDir, name + ".json"])
  }

  /** Reading the prompt slot `(tool, category)`: its text, or why there is none. */
  function PromptAt(prompts: map<(string, string), PromptFile>, tool: string, category: string): (r: Result<string>)
    ensures r == Err(NotFound) <==> (tool, category) !in prompts
    ensures r.Ok? <==> (tool, category) in prompts && prompts[(tool, category)].PromptText?
    ensures r.Ok? ==> r.value == prompts[(tool, category)].text
    ensures r.Err? ==> r.error == NotFound || r.error == ReadError
  {
    if (tool, category) !in prompts then Err(NotFound)
    else match prompts[(tool, category)]
      case PromptText(text) => Ok(text)
      case PromptUnreadable => Err(ReadError)
  }

  /** Reading and decoding the descriptor of `name`. */
  function ToolConfigAt(toolCfgs: map<string, ConfigFile>, name: string): (r: Result<ToolConfig>)
    ensures r == Err(NotFound) <==> name !in toolCfgs
    ensures r.Ok? <==> name in toolCfgs && toolCfgs[name].Parsed?
    ensures r.Ok? ==> r.value == toolCfgs[name].config
    ensures r == Err(ParseError) <==> name in toolCfgs && toolCfgs[name].Corrupt?
    ensures r == Err(ReadError) <==> name in toolCfgs && toolCfgs[name].ConfigUnreadable?
  {
    if name !in toolCfgs then Err(NotFound)
    else match toolCfgs[name]
      case Parsed(config) => Ok(config)
      case Corrupt => Err(ParseError)
      case ConfigUnreadable => Err(ReadError)
  }

  /** The names of the files in directory `dir` under the root: the
      category files of that tool and, in the `tools` directory, the
      descriptor files as well. */
  function DirEntries(prompts: map<(string, string), PromptFile>, toolCfgs: map<string, ConfigFile>, dir: string): (r: set<string>)
    ensures forall c :: (dir, c) in prompts ==> c + ".txt" in r
    ensures dir == ToolsDir ==> forall n :: n in toolCfgs ==> n + ".json" in r
    ensures forall e :: e in r ==> HasSuffix(e, ".txt") || (dir == ToolsDir && HasSuffix(e, ".json"))
  {
    (set k | k in prompts && k.0 == dir :: k.1 + ".txt")
    + (if dir == ToolsDir then set n | n in toolCfgs :: n + ".json" else {})
  }

  /** A `.txt` entry of a directory is exactly a saved category of that tool. */
  lemma TxtEntry(prompts: map<(string, string), PromptFile>, toolCfgs: map<string, ConfigFile>, dir: string, name: string)
    ensures name in DirEntries(prompts, toolCfgs, dir) && HasSuffix(name, ".txt")
      <==> |name| >= 4 && (dir, name[..|name| - 4]) in prompts && name == name[..|name| - 4] + ".txt"
  {
    var entries := DirEntries(prompts, toolCfgs, dir);
    if name in entries && HasSuffix(name, ".txt") {
      assert name[|name| - 1] == name[|name| - 4..][3] == 't';
      forall n ensures n + ".json" != name {
        assert (n + ".json")[|n| + 4] == 'n';
      }
      var k :| k in prompts && k.0 == dir && name == k.1 + ".txt";
      SuffixCancel(k.1, name[..|name| - 4], ".txt");
      assert name == name[..|name| - 4] + ".txt";
    }
    if |name| >= 4 && (dir, name[..|name| - 4]) in prompts && name == name[..|name| - 4] + ".txt" {
      var k := (dir, name[..|name| - 4]);
      assert k.1 + ".txt" in entries;
      SuffixCancel(k.1, k.1, ".txt");
    }
  }

  /** A `.json` entry of the `tools` directory is exactly a stored descriptor. */
  lemma JsonEntry(prompts: map<(string, string), PromptFile>, toolCfgs: map<string, ConfigFile>, name: string)
    ensures name in DirEntries(prompts, toolCfgs, ToolsDir) && HasSuffix(name, ".json")
      <==> |name| >= 5 && name[..|name| - 5] in toolCfgs && name == name[..|name| - 5] + ".json"
  {
    var entries := DirEntries(prompts, toolCfgs, ToolsDir);
    if name in entries && HasSuffix(name, ".json") {
      assert name[|name| - 1] == name[|name| - 5..][4] == 'n';
      forall c ensures c + ".txt" != name {
        assert (c + ".txt")[|c| + 3] == 't';
      }
      var n :| n in toolCfgs && name == n + ".json";
      SuffixCancel(n, name[..|name| - 5], ".json");
      assert name == name[..|name| - 5] + ".json";
    }
    if |name| >= 5 && name[..|name| - 5] in toolCfgs && name == name[..|name| - 5] + ".json" {
      var n := name[..|name| - 5];
      assert n + ".json" in entries;
      SuffixCancel(n, n, ".json");
    }
  }

  /** The names whose descriptor loads. */
  function Loadable(toolCfgs: map<string, ConfigFile>): (r: set<string>)
    ensures r <= toolCfgs.Keys
    ensures forall n :: n in toolCfgs && !toolCfgs[n].Parsed? ==> n !in r
    ensures forall n :: n in r <==> ToolConfigAt(toolCfgs, n).Ok?
  {
    set n | n in toolCfgs && toolCfgs[n].Parsed?
  }

  class Storage {
    /** The storage root (`~/.aide`). */
    const baseDir: string
    /** The prompt files, by (tool, category). */
    var prompts: map<(string, string), PromptFile>
    /** The descriptor files, by tool name. */
    var toolCfgs: map<string, ConfigFile>
    /** The directories directly under the root. */
    var dirs: set<string>
    /** The directories under the root whose listing fails. */
    var unreadableDirs: set<string>

    /** Every file lives in a directory that exists. */
    ghost predicate Valid()
      reads this
    {
      && (forall k :: k in prompts ==> k.0 in dirs)
      && (toolCfgs != map[] ==> ToolsDir in dirs)
    }

    /** A store over an empty root. */
    /** The prompt file of `(tool, category)` under the root. `SavePrompt`
        joins the tool directory and the file name in two steps, `GetPrompt`
        joins all three at once; both name the same file. */
    function PromptFile(tool: string, category: string): (r: string)
      ensures r == baseDir + "/" + tool + "/" + category + ".txt"
      ensures r == PathJoin([baseDir, tool, category + ".txt"])
    {
      JoinShort(baseDir, tool, category + ".txt", "/");
      JoinShort(PathJoin([baseDir, tool]), category + ".txt", "", "/");
      PromptFilePath(baseDir, tool, category)
    }

    /** The descriptor file of tool `name`, inside the `tools` directory. */
    function ToolConfigFile(name: string): (r: string)
      ensures r == baseDir + "/" + ToolsDir + "/" + name + ".json"
    {
      JoinShort(baseDir, ToolsDir, name + ".json", "/");
      ToolConfigPath(baseDir, name)
    }

    constructor (baseDir: string)
      ensures Valid() && this.baseDir == baseDir
      ensures prompts == map[] && toolCfgs == map[] && dirs == {} && unreadableDirs == {}
    {
      this.baseDir := baseDir;
      prompts, toolCfgs := map[], map[];
      dirs, unreadableDirs := {}, {};
    }

    /** Writes `prompt` verbatim into the slot `(tool, category)`, creating the
        tool directory and overwriting any earlier text. */
    method SavePrompt(tool: string, category: string, prompt: string)
      requires Valid()
      modifies this
      ensures Valid()
      ensures prompts == old(prompts)[(tool, category) := PromptText(prompt)]
      ensures dirs == old(dirs) + {tool}
      ensures toolCfgs == old(toolCfgs) && unreadableDirs == old(unreadableDirs)
      ensures PromptAt(prompts, tool, category) == Ok(prompt)
      ensures forall t, c :: (t, c) != (tool, category) ==> PromptAt(prompts, t, c) == PromptAt(old(prompts), t, c)
    {
      dirs := dirs + {tool};
      prompts := prompts[(tool, category) := PromptText(prompt)];
    }

    /** The text in slot `(tool, category)`; `NotFound` when there is no such
        file, `ReadError` when it cannot be read. */
    method GetPrompt(tool: string, category: string) returns (r: Result<string>)
      ensures r == PromptAt(prompts, tool, category)
    {
      if (tool, category) !in prompts {
        return Err(NotFound);
      }
      match prompts[(tool, category)]
      case PromptText(text) => r := Ok(text);
      case PromptUnreadable => r := Err(ReadError);
    }

    /** The categories saved for `tool`: the `.txt` files of its directory with
        the suffix removed, each once; an empty list when the directory does
        not exist. */
    method ListPrompts(tool: string) returns (r: Result<seq<string>>)
      requires Valid()
      ensures tool !in dirs ==> r == Ok([])
      ensures tool in dirs ==> (r.Err? <==> tool in unreadableDirs)
      ensures r.Err? ==> r.error == ReadError
      ensures r.Ok? ==> Distinct(r.value) && forall c :: c in r.value <==> (tool, c) in prompts
    {
      if tool !in dirs {
        return Ok([]);
      }
      if tool in unreadableDirs {
        return Err(ReadError);
      }
      var pending := DirEntries(prompts, toolCfgs, tool);
      ghost var seen: set<string> := {};
      var categories: seq<string> := [];
      while pending != {}
        invariant pending + seen == DirEntries(prompts, toolCfgs, tool) && pending !! seen
        invariant Distinct(categories)
        invariant forall c :: c in categories <==> c + ".txt" in seen
        decreases pending
      {
        var name :| name in pending;
        TxtEntry(prompts, toolCfgs, tool, name);
        if HasSuffix(name, ".txt") {
          var category := name[..|name| - 4];
          forall c | c + ".txt" == name ensures c == category {
            SuffixCancel(c, category, ".txt");
          }
          categories := categories + [category];
        } else {
          forall c ensures c + ".txt" != name {
            SuffixCancel(c, c, ".txt");
          }
        }
        pending := pending - {name};
        seen := seen + {name};
      }
      forall c ensures c + ".txt" in seen <==> (tool, c) in prompts {
        TxtEntry(prompts, toolCfgs, tool, c + ".txt");
        SuffixCancel(c, (c + ".txt")[..|c|], ".txt");
      }
      return Ok(categories);
    }

    /** The categories of every directory under the root, by directory name;
        fails if any of those directories cannot be listed. Since descriptors
        live in `tools`, that directory shows up as a key once a descriptor
        has been saved. */
    method ListAllPrompts() returns (r: Result<map<string, seq<string>>>)
      requires Valid()
      ensures r.Err? <==> dirs * unreadableDirs != {}
      ensures r.Err? ==> r.error == ReadError
      ensures r.Ok? ==> r.value.Keys == dirs
      ensures r.Ok? ==> forall t :: t in r.value ==>
        Distinct(r.value[t]) && forall c :: c in r.value[t] <==> (t, c) in prompts
      ensures r.Ok? && toolCfgs != map[] ==> ToolsDir in r.value
    {
      var result: map<string, seq<string>> := map[];
      var pending := dirs;
      while pending != {}
        invariant pending <= dirs && result.Keys == dirs - pending
        invariant result.Keys * unreadableDirs == {}
        invariant forall t :: t in result ==>
          Distinct(result[t]) && forall c :: c in result[t] <==> (t, c) in prompts
        decreases pending
      {
        var tool :| tool in pending;
        var categories := ListPrompts(tool);
        if categories.Err? {
          assert tool in dirs * unreadableDirs;
          return Err(categories.error);
        }
        result := result[tool := categories.value];
        pending := pending - {tool};
      }
      return Ok(result);
    }

    /** Stores the descriptor of tool `name` in `tools/<name>.json`, creating
        the `tools` directory and replacing any earlier descriptor. */
    method SaveToolConfig(name: string, fileName: string, description: string, header: string, separator: string)
      requires Valid()
      modifies this
      ensures Valid()
      ensures toolCfgs == old(toolCfgs)[name := Parsed(ToolConfig(name, fileName, description, header, separator))]
      ensures dirs == old(dirs) + {ToolsDir}
      ensures prompts == old(prompts) && unreadableDirs == old(unreadableDirs)
      ensures ToolConfigAt(toolCfgs, name) == Ok(ToolConfig(name, fileName, description, header, separator))
      ensures forall n :: n != name ==> ToolConfigAt(toolCfgs, n) == ToolConfigAt(old(toolCfgs), n)
    {
      dirs := dirs + {ToolsDir};
      toolCfgs := toolCfgs[name := Parsed(ToolConfig(name, fileName, description, header, separator))];
    }

    /** The descriptor of tool `name`; `NotFound` when there is no such file,
        `ReadError` when it cannot be read, `ParseError` when it is not a
        descriptor. */
    method GetToolConfig(name: string) returns (r: Result<ToolConfig>)
      ensures r == ToolConfigAt(toolCfgs, name)
    {
      if name !in toolCfgs {
        return Err(NotFound);
      }
      match toolCfgs[name]
      case Parsed(config) => r := Ok(config);
      case Corrupt => r := Err(ParseError);
      case ConfigUnreadable => r := Err(ReadError);
    }

    /** Every descriptor that loads, each once, found through the `.json`
        files of the `tools` directory; descriptors that fail to load are
        skipped. `names` records which file each returned descriptor came from. */
    method ListToolConfigs() returns (r: Result<seq<ToolConfig>>, ghost names: seq<string>)
      requires Valid()
      ensures ToolsDir !in dirs ==> r == Ok([])
      ensures ToolsDir in dirs ==> (r.Err? <==> ToolsDir in unreadableDirs)
      ensures r.Err? ==> r.error == ReadError
      ensures r.Ok? ==> |names| == |r.value| && Distinct(names)
      ensures r.Ok? ==> forall n :: n in names <==> n in Loadable(toolCfgs)
      ensures r.Ok? ==> forall i :: 0 <= i < |names| ==>
        names[i] in toolCfgs && toolCfgs[names[i]] == Parsed(r.value[i])
    {
      names := [];
      if ToolsDir !in dirs {
        return Ok([]), names;
      }
      if ToolsDir in unreadableDirs {
        return Err(ReadError), names;
      }
      var pending := DirEntries(prompts, toolCfgs, ToolsDir);
      ghost var seen: set<string> := {};
      var configs: seq<ToolConfig> := [];
      while pending != {}
        invariant pending + seen == DirEntries(prompts, toolCfgs, ToolsDir) && pending !! seen
        invariant |names| == |configs| && Distinct(names)
        invariant forall n :: n in names <==> n in Loadable(toolCfgs) && n + ".json" in seen
        invariant forall i :: 0 <= i < |names| ==>
          names[i] in toolCfgs && toolCfgs[names[i]] == Parsed(configs[i])
        decreases pending
      {
        var entry :| entry in pending;
        JsonEntry(prompts, toolCfgs, entry);
        if HasSuffix(entry, ".json") {
          var name := entry[..|entry| - 5];
          forall n | n + ".json" == entry ensures n == name {
            SuffixCancel(n, name, ".json");
          }
          var config := GetToolConfig(name);
          if config.Ok? {
            configs := configs + [config.value];
            names := names + [name];
          }
        } else {
          forall n ensures n + ".json" != entry {
            SuffixCancel(n, n, ".json");
          }
        }
        pending := pending - {entry};
        seen := seen + {entry};
      }
      forall n | n in Loadable(toolCfgs) ensures n + ".json" in seen {
        JsonEntry(prompts, toolCfgs, n + ".json");
        SuffixCancel(n, (n + ".json")[..|n|], ".json");
      }
      return Ok(configs), names;
    }
  }

  /** The round trip of `TestStorage_SaveAndGetPrompt`, plus a second save to
      the same slot: only the latest text can be read back. */
  method SaveAndGetPromptScenario() returns (first: Result<string>, second: Result<string>, missing: Result<string>)
    ensures first == Ok("테스트 프롬프트입니다")
    ensures second == Ok("second")
    ensures missing == Err(NotFound)
  {
    var store := new Storage("/tmp/aide_test");
    store.SavePrompt("claude", "test", "테스트 프롬프트입니다");
    first := store.GetPrompt("claude", "test");
    store.SavePrompt("claude", "test", "second");
    second := store.GetPrompt("claude", "test");
    missing := store.GetPrompt("claude", "review");
  }

  /** `TestStorage_ListPrompts`: three saved categories are listed, each once,
      and a tool that was never used lists nothing. */
  method ListPromptsScenario() returns (listed: Result<seq<string>>, unused: Result<seq<string>>)
    ensures listed.Ok? && |listed.value| == 3
    ensures listed.Ok? ==> (set c | c in listed.value) == {"review", "backend", "test"}
    ensures unused == Ok([])
  {
    var store := new Storage("/tmp/aide_test");
    store.SavePrompt("claude", "review", "리뷰 프롬프트");
    store.SavePrompt("claude", "backend", "백엔드 프롬프트");
    store.SavePrompt("claude", "test", "테스트 프롬프트");
    listed := store.ListPrompts("claude");
    assert listed.Ok?;
    var categories := listed.value;
    assert (set c | c in categories) == {"review", "backend", "test"};
    DistinctCard(categories);
    unused := store.ListPrompts("cursor");
  }
}
