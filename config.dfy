/** The tool registry: which tool names are usable and where each tool's
    file goes. Every answer is computed from the descriptors in the store and
    the arguments; nothing is changed. */
module Config {
  import opened Common
  import opened Strings
  import opened Storage

  /** The built-in tools, checked before any stored descriptor. */
  const SupportedTools: seq<string> := ["claude", "cursor"]

  /** The directory that holds a tool's prompts. */
  function GetToolDir(aideDir: string, tool: string): (r: string)
    ensures r == aideDir + "/" + tool
  {
    JoinShort(aideDir, tool, "", "/");
    PathJoin([aideDir, tool])
  }

  /** The file that holds the prompt of `(tool, category)`. */
  function GetPromptFile(aideDir: string, tool: string, category: string): (r: string)
    ensures r == GetToolDir(aideDir, tool) + "/" + category + ".txt"
  {
    JoinShort(aideDir, tool, category + ".txt", "/");
    PathJoin([aideDir, tool, category + ".txt"])
  }

  /** The registry's prompt path is the file the store writes for the same
      slot: the category file inside the tool directory. */
  lemma PromptFileIsStoreSlot(aideDir: string, tool: string, category: string)
    ensures GetPromptFile(aideDir, tool, category) == PromptFilePath(aideDir, tool, category)
    ensures GetPromptFile(aideDir, tool, category) == PathJoin([GetToolDir(aideDir, tool), category + ".txt"])
  {
    JoinShort(aideDir, tool, category + ".txt", "/");
    JoinShort(PathJoin([aideDir, tool]), category + ".txt", "", "/");
  }

  /** A tool is usable when it is built in or its stored descriptor loads;
      otherwise the answer is `UnsupportedTool`. */
  function ValidateTool(toolCfgs: map<string, ConfigFile>, tool: string): (r: Outcome)
    ensures r == Pass <==> tool in SupportedTools || ToolConfigAt(toolCfgs, tool).Ok?
    ensures r.Fail? ==> r.error == UnsupportedTool
  {
    if tool in SupportedTools then Pass
    else if ToolConfigAt(toolCfgs, tool).Ok? then Pass
    else Fail(UnsupportedTool)
  }

  /** The file a tool writes in project directory `cwd`: fixed names for the
      built-ins, the descriptor's `fileName` for the others. */
  function GetTargetFile(toolCfgs: map<string, ConfigFile>, cwd: string, tool: string): (r: Result<string>)
    ensures r.Ok? ==> cwd + "/" <= r.value
    ensures r.Err? ==> r.error == NotFound
  {
    var target :=
      if tool == "claude" then Ok("CLAUDE.md")
      else if tool == "cursor" then Ok(".cursorrules")
      else match ToolConfigAt(toolCfgs, tool)
        case Ok(config) => Ok(config.fileName)
        case Err(_) => Err(NotFound);
    if target.Err? then Err(target.error)
    else
      JoinShort(cwd, target.value, "", "/");
      Ok(PathJoin([cwd, target.value]))
  }

  /** The built-ins resolve the same way whatever descriptors are stored,
      even one that bears their name. */
  lemma BuiltinsTakePrecedence(toolCfgs: map<string, ConfigFile>, cwd: string)
    ensures ValidateTool(toolCfgs, "claude") == Pass && ValidateTool(toolCfgs, "cursor") == Pass
    ensures GetTargetFile(toolCfgs, cwd, "claude") == Ok(cwd + "/CLAUDE.md")
    ensures GetTargetFile(toolCfgs, cwd, "cursor") == Ok(cwd + "/.cursorrules")
  {
    JoinShort(cwd, "CLAUDE.md", "", "/");
    JoinShort(cwd, ".cursorrules", "", "/");
    assert cwd + "/" + "CLAUDE.md" == cwd + "/CLAUDE.md";
    assert cwd + "/" + ".cursorrules" == cwd + "/.cursorrules";
  }

  /** A tool other than the built-ins goes to its descriptor's file. */
  lemma StoredToolTarget(toolCfgs: map<string, ConfigFile>, cwd: string, tool: string)
    requires tool !in SupportedTools
    ensures GetTargetFile(toolCfgs, cwd, tool).Ok? <==> ToolConfigAt(toolCfgs, tool).Ok?
    ensures ToolConfigAt(toolCfgs, tool).Ok? ==>
      GetTargetFile(toolCfgs, cwd, tool) == Ok(cwd + "/" + ToolConfigAt(toolCfgs, tool).value.fileName)
  {
    var config := ToolConfigAt(toolCfgs, tool);
    if config.Ok? {
      JoinShort(cwd, config.value.fileName, "", "/");
    }
  }

  /** A tool that validates has a target file, and conversely, in the same
      store state. */
  lemma ValidToolHasTarget(toolCfgs: map<string, ConfigFile>, cwd: string, tool: string)
    ensures ValidateTool(toolCfgs, tool) == Pass <==> GetTargetFile(toolCfgs, cwd, tool).Ok?
  {
    if tool !in SupportedTools {
      StoredToolTarget(toolCfgs, cwd, tool);
    }
  }
}
