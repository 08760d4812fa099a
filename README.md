# aide: a Dafny model of the prompt store and `aide apply`

aide is a command-line tool. It keeps text prompts under a (tool, category)
key in a store under the home directory, and merges chosen prompts into a
project file for the tool (`CLAUDE.md`, `.cursorrules`, or the file named by a
user-registered tool descriptor). This project models four parts of it:

- the prompt/descriptor store (`internal/storage/storage.go`): a `Storage`
  class whose fields are the directory tree under the store root, as maps;
- the tool registry (`internal/config/config.go`): pure functions that
  validate a tool name and resolve its target file;
- the renderers and the duplicate filter (`internal/generators/generator.go`):
  a pure `Render` function specifies the three `Generate` methods, and a
  builder loop (`Compose`) is proved to produce it; the filter is a sequence
  filter over a substring test, proved equal to the loop of
  `CheckDuplicatePrompts`;
- the `apply` command (`cmd/apply.go`): a method that runs the steps of the
  command against a `Storage` and a `Workspace` (the project directory),
  proved equal to a pure `ApplySpec`. The main result is idempotence: a
  second `apply` with the same arguments writes nothing and reports that
  every prompt is already applied.

Files:

| file | module | contents |
|---|---|---|
| `common.dfy` | `Common` | error kinds, `Result`, `Outcome`, `Distinct`, `Subsequence`, the generic `Filter` |
| `strings.dfy` | `Strings` | `TrimSpace`, `Contains`, `Join`, splitting on commas |
| `storage.dfy` | `Storage` | the store and its listings |
| `config.dfy` | `Config` | tool validation, target files, path layout |
| `files.dfy` | `Files` | the project directory and the read-before-merge |
| `generators.dfy` | `Generators` | generators, rendering, the duplicate filter |
| `apply.dfy` | `Apply` | the `apply` command |

Modelling choices:

- The store root, the working directory and the timestamp are parameters.
  The timestamp is an opaque string; the Korean marker lines around it are
  reproduced exactly, because they become file content that the duplicate
  filter later searches.
- Errors are kinds only: `NotFound`, `ReadError`, `ParseError`,
  `UnsupportedTool`, `NoPrompts`, `WriteError`.
- A prompt file is either readable text or unreadable. A descriptor file is
  parsed, corrupt (bad JSON) or unreadable. A project file is writable text,
  read-only text, or unreadable; a path with no file is either creatable or
  inside a directory that does not exist, where it reads as missing and
  cannot be written.
- `strings.TrimSpace` is modelled with the full set of characters for which
  Go's `unicode.IsSpace` holds, not with ASCII white space only.
- In Go, `ValidateTool`, `GetTargetFile` and `NewGenerator` each open the
  store again. The model reads one store state for the whole run. So in the
  model, a tool that validates always has a target file and a generator
  (`Config.ValidToolHasTarget`). The error branches after a successful
  validation are kept in `Apply.MergeSpec` and `Apply.Merge`, but in the
  model they are never taken.

## Model

| member | source | states |
|---|---|---|
| `Common.FilterOrdered` | internal/generators/generator.go:137-141 | the kept elements are a subsequence of the input, in input order |
| `Common.FilterCount` | internal/generators/generator.go:137-141 | each element is kept as often as it occurs when the test accepts it, and never otherwise |
| `Common.FilterMember` | internal/generators/generator.go:137-141 | an element is kept iff it occurs in the input and passes the test |
| `Strings.TrimSpace` | internal/generators/generator.go:138 | the result is a slice of the input with only white space before and after it, starts and ends with a non-space character, and is empty iff the input is all white space |
| `Strings.TrimSpaceUnique` | internal/generators/generator.go:138 | any slice with only white space around it and no white space at either end is the trimmed string, so the contract above determines it |
| `Strings.ContainsEmpty` | internal/generators/generator.go:138 | the empty string occurs in every string, and only the empty string occurs in the empty string |
| `Strings.ContainsTransitive` | internal/generators/generator.go:138 | a substring of a substring is a substring |
| `Strings.SplitComma` | cmd/apply.go:48 | splitting gives at least one piece, and no piece contains a comma |
| `Strings.SplitCommaJoin` | cmd/apply.go:48 | joining the pieces with commas gives back the argument |
| `Strings.JoinSplitComma` | cmd/apply.go:48 | splitting a comma-join of comma-free pieces gives back the pieces |
| `Storage.PromptAt` | internal/storage/storage.go:61-73 | reading a slot gives its text; an absent slot gives `NotFound` and an unreadable file `ReadError` |
| `Storage.ToolConfigAt` | internal/storage/storage.go:159-176 | loading a descriptor gives its record; an absent file gives `NotFound`, bad JSON gives `ParseError`, any other read failure `ReadError` |
| `Storage.DirEntries` | internal/storage/storage.go:79-95 | a directory lists `c.txt` for every saved category `c` of it and, in `tools`, `n.json` for every stored descriptor `n`; every entry ends in `.txt` or, in `tools`, `.json` |
| `Storage.TxtEntry` | internal/storage/storage.go:88-94 | a `.txt` entry of a tool directory is exactly a saved category name plus `.txt` |
| `Storage.JsonEntry` | internal/storage/storage.go:191-193 | a `.json` entry of the `tools` directory is exactly a stored descriptor name plus `.json` |
| `Storage.Loadable` | internal/storage/storage.go:195-199 | a name is loadable iff loading its descriptor succeeds, so only stored descriptors are, and a corrupt or unreadable one is not |
| `Storage.Storage.PromptFile` | internal/storage/storage.go:44-62 | the file `SavePrompt` writes (tool directory, then category file) is the one `GetPrompt` reads (one three-part join): root, tool, category plus `.txt` |
| `Storage.Storage.ToolConfigFile` | internal/storage/storage.go:160 | a descriptor lives at root, `tools`, name plus `.json`, the path `SaveToolConfig` also writes (line 137) |
| `Storage.Storage.constructor` | internal/storage/storage.go:25-39 | a new store over an empty root holds no prompt, descriptor or directory |
| `Storage.Storage.SavePrompt` | internal/storage/storage.go:42-58 | the slot is overwritten with the text and reads it back; the tool directory exists; every other slot and all descriptors are unchanged |
| `Storage.Storage.GetPrompt` | internal/storage/storage.go:61-73 | returns the slot's text, `NotFound` for an absent slot, `ReadError` for an unreadable one |
| `Storage.Storage.ListPrompts` | internal/storage/storage.go:76-98 | no directory gives an empty list; an unreadable directory gives `ReadError`; otherwise every saved category of the tool appears exactly once and nothing else appears |
| `Storage.Storage.ListAllPrompts` | internal/storage/storage.go:101-124 | fails iff some directory under the root cannot be listed; otherwise maps exactly the directories under the root to their category lists, so `tools` is a key once a descriptor exists |
| `Storage.Storage.SaveToolConfig` | internal/storage/storage.go:127-156 | the descriptor is replaced by the record of the five given fields and loads back as that record; the `tools` directory exists; prompts and other descriptors are unchanged |
| `Storage.Storage.GetToolConfig` | internal/storage/storage.go:159-176 | returns the stored record, or `NotFound`, `ParseError` or `ReadError` |
| `Storage.Storage.ListToolConfigs` | internal/storage/storage.go:179-204 | no `tools` directory gives an empty list; an unreadable one gives `ReadError`; otherwise exactly the descriptors that load, each once, and those that fail are skipped |
| `Config.GetToolDir` | internal/config/config.go:32-34 | a tool's directory is the store root, `/`, and the tool name |
| `Config.GetPromptFile` | internal/config/config.go:37-39 | a prompt file is the category name plus `.txt` inside the tool's directory |
| `Config.PromptFileIsStoreSlot` | internal/config/config.go:31-39 | the registry's path for a (tool, category) pair is the same string as the store's `PromptFilePath` for it; the `Storage` class itself keys its slots by the pair, not by this path |
| `Config.ValidateTool` | internal/config/config.go:42-64 | a tool passes iff it is `claude` or `cursor` or its descriptor loads; a failure is `UnsupportedTool` |
| `Config.GetTargetFile` | internal/config/config.go:76-102 | a resolved target is the working directory, `/`, and a file name, before any path cleaning; a failure is `NotFound` |
| `Config.BuiltinsTakePrecedence` | internal/config/config.go:83-87 | `claude` and `cursor` validate, and resolve to `cwd/CLAUDE.md` and `cwd/.cursorrules`, whatever descriptors are stored |
| `Config.StoredToolTarget` | internal/config/config.go:88-100 | any other tool resolves iff its descriptor loads, to the working directory joined with the descriptor's file name |
| `Config.ValidToolHasTarget` | internal/config/config.go:42-101 | in one store state, a tool validates iff its target file resolves |
| `Files.ReadExisting` | internal/generators/generator.go:128-131 | a missing file, also one in a missing directory, reads as empty content; only an unreadable file is a `ReadError` |
| `Files.Workspace.WriteFile` | internal/generators/generator.go:81-83 | the whole file is replaced by the content; a read-only file, or a new file in a directory that does not exist, gives `WriteError` |
| `Generators.NewGenerator` | internal/generators/generator.go:28-49 | `claude` and `cursor` get their built-in generators; any other tool gets the descriptor-driven one iff its descriptor loads, and otherwise `UnsupportedTool` |
| `Generators.Separator` | internal/generators/generator.go:167-170 | the separator line: `---` for the built-in generators, a descriptor's own separator, or `# ---` when it has none |
| `Generators.SeparatorShape` | internal/generators/generator.go:167-170 | a descriptor's non-empty separator is used as is, an empty one is replaced by `# ---`, so the separator is never empty |
| `Generators.Glue` | internal/generators/generator.go:178-181 | what goes between two prompts: a newline, the separator, a blank line |
| `Generators.GlueHoldsSeparator` | internal/generators/generator.go:178-181 | the text between two prompts starts with a newline, holds the separator and ends in a blank line |
| `Generators.Lead` | internal/generators/generator.go:156-164 | what precedes the marker: the old content and a blank line, or a descriptor's header and a blank line for an empty file, or nothing |
| `Generators.LeadShape` | internal/generators/generator.go:156-164 | the lead keeps the old content as a prefix, is empty only for an empty file without a header, and otherwise ends in a blank line |
| `Generators.Marker` | internal/generators/generator.go:67-69 | the marker lines of each generator, around the run's timestamp (also lines 104-106 and 172-175) |
| `Generators.MarkerStamped` | internal/generators/generator.go:172-175 | every generator's marker lines contain the timestamp of the run |
| `Generators.Render` | internal/generators/generator.go:147-184 | the new file content: lead, marker, then each prompt and a newline, joined by the separator text |
| `Generators.RenderStamped` | internal/generators/generator.go:172-175 | the new file content contains the timestamp of the run |
| `Generators.RenderKeepsExisting` | internal/generators/generator.go:157-164 | non-empty existing content is kept verbatim as a prefix, followed by a blank line and then the marker, with no header |
| `Generators.RenderHeader` | internal/generators/generator.go:157-164 | only a descriptor with a non-empty header writes it, and only into an empty file; otherwise an empty file starts with the marker |
| `Generators.LinesSnoc` | internal/generators/generator.go:178-183 | one more prompt is one more line, the prompt and a newline |
| `Generators.RenderSnoc` | internal/generators/generator.go:178-184 | one more prompt appends the separator (except before the first), the prompt verbatim and a newline |
| `Generators.RenderContainsPrompt` | internal/generators/generator.go:182 | every prompt written occurs verbatim in the new content |
| `Generators.Compose` | internal/generators/generator.go:147-184 | the builder loop produces exactly the rendered content |
| `Generators.ComposeStep` | internal/generators/generator.go:178-184 | one turn of the builder loop extends the rendering by one prompt |
| `Generators.GenerateEffect` | internal/generators/generator.go:147-192 | a run fails iff the file cannot be read or written, and then changes nothing; otherwise the file becomes the rendering and no other file changes |
| `Generators.Generate` | internal/generators/generator.go:147-192 | the method's outcome and new directory are those of `GenerateEffect` |
| `Generators.UniquePrompts` | internal/generators/generator.go:133-143 | every prompt that survives was requested and is not a duplicate of the file |
| `Generators.UniquePromptsOrdered` | internal/generators/generator.go:133-143 | the survivors are a subsequence of the requested prompts |
| `Generators.UniquePromptsCount` | internal/generators/generator.go:133-141 | a non-duplicate prompt survives as often as it was requested, a duplicate never |
| `Generators.UniquePromptsMember` | internal/generators/generator.go:137-141 | a prompt survives iff it was requested and its trimmed text does not occur in the file |
| `Generators.Deduplicated` | internal/generators/generator.go:126-144 | the filter fails iff the file cannot be read; otherwise it filters against the file's content, a missing file counting as empty |
| `Generators.CheckDuplicatePrompts` | internal/generators/generator.go:126-144 | the loop returns exactly `Deduplicated` |
| `Generators.BlankPromptDropped` | internal/generators/generator.go:138 | a prompt of white space only never survives, even against an empty file |
| `Generators.BatchDuplicatesKept` | internal/generators/generator.go:133-141 | against an empty file, a visible prompt requested twice survives twice |
| `Generators.AllDuplicatesLeaveNothing` | internal/generators/generator.go:137-143 | if the file holds every prompt's trimmed text, nothing survives |
| `Generators.RenderedPromptsAreDuplicates` | internal/generators/generator.go:176-184 | filtering the rendered prompts against the rendered content leaves nothing |
| `Generators.RenderKeepsDuplicate` | internal/generators/generator.go:156-164 | a prompt that was a duplicate of the old content is a duplicate of the new content |
| `Generators.MergeCoversAll` | internal/generators/generator.go:137-141 | after filtering and rendering the survivors, every requested prompt is a duplicate of the new content |
| `Generators.MarkerNamesAide` | internal/generators/generator.go:68-69 | every generator's marker lines contain `aide` |
| `Generators.MarkerShadowsPrompt` | internal/generators/generator.go:138 | a prompt reading `aide` counts as a duplicate of any file a generator has written |
| `Apply.ParseCategories` | cmd/apply.go:48-51 | one category per comma-separated piece, each the trimmed piece |
| `Apply.ParseCategoriesJoin` | cmd/apply.go:48-51 | comma-free, already trimmed names listed with commas are parsed back unchanged |
| `Apply.ParseCategoryList` | cmd/apply.go:48-51 | the split-and-trim-in-place loop returns `ParseCategories` |
| `Apply.NonEmpty` | cmd/apply.go:55-58 | the categories looked up are the non-empty ones, in argument order, each as often as it was given, and no other |
| `Apply.FetchAll` | cmd/apply.go:54-66 | succeeds iff every non-empty category has a readable prompt; the prompts come one per non-empty category, in argument order, repeats kept; an error is `NotFound` or `ReadError` |
| `Apply.FetchAllFirstError` | cmd/apply.go:60-63 | once a category fails, the categories after it do not change the error |
| `Apply.FetchPrompts` | cmd/apply.go:54-66 | the fetch loop returns `FetchAll` |
| `Apply.MergeSpec` | cmd/apply.go:72-103 | a failure changes no file; `AlreadyApplied` changes no file; `Applied` changes only the resolved target, into text |
| `Apply.Merge` | cmd/apply.go:72-103 | the method's report and new directory are those of `MergeSpec` |
| `Apply.ApplySpec` | cmd/apply.go:26-104 | an unsupported tool fails before anything else; every failure changes no file; a success means the tool validated, the fetch gave at least one prompt, and only the target changed |
| `Apply.Apply` | cmd/apply.go:26-104 | the method's report and new directory are those of `ApplySpec` |
| `Apply.ApplyIsMerge` | cmd/apply.go:68-73 | after a successful run, the run is the merge step over a non-empty fetch, for any directory and time |
| `Apply.MergeNeedsDirectory` | cmd/apply.go:95-98 | when the target's directory does not exist, a merge with any prompt that is not blank fails with `WriteError` and changes nothing |
| `Apply.MergeWritesRender` | cmd/apply.go:85-98 | the target becomes the rendering of the surviving prompts after the old content; `AlreadyApplied` iff nothing survives |
| `Apply.MergeDelivers` | cmd/apply.go:85-98 | after a successful run, every fetched prompt's trimmed text occurs in the target |
| `Apply.MergeIdempotent` | cmd/apply.go:85-93 | the merge step repeated on the directory it produced reports `AlreadyApplied` and writes nothing |
| `Apply.ApplyIdempotent` | cmd/apply.go:85-93 | a second `apply` with the same arguments, at any time, reports `AlreadyApplied` for the same target and writes nothing |
| `Apply.ApplyBlankArgument` | cmd/apply.go:68-70 | for a valid tool, an argument of commas and white space gives `NoPrompts` and writes nothing |
| `Apply.BlankArgumentNamesNothing` | cmd/apply.go:48-58 | such an argument parses to empty categories only |
| `Apply.ApplyMissingCategory` | cmd/apply.go:60-63 | a non-empty category with no prompt file makes the run fail without writing |
| `Storage.SaveAndGetPromptScenario` | internal/storage/storage_test.go:8-38 | a saved prompt reads back, a second save to the slot wins, and an unsaved category is `NotFound` |
| `Storage.ListPromptsScenario` | internal/storage/storage_test.go:40-86 | three saved categories are listed, three in all, and an unused tool lists nothing |

## Left out

- Store creation: `storage.New` and `config.New` locate the home directory, and only `storage.New` creates `~/.aide`. The model starts from a `Storage` value with a given root, and failures of `os.UserHomeDir` and `os.MkdirAll` are not modelled.
- `Storage.Storage.SavePrompt` and `Storage.Storage.SaveToolConfig`: the `os.MkdirAll` and `os.WriteFile` failures in the store are not modelled. These saves always succeed.
- `Files.Workspace.WriteFile`: a failed write is modelled as changing nothing. In Go, `os.WriteFile` truncates an existing file before writing, so a write that fails part way (a full disk, say) can leave the target truncated; `Generators.GenerateEffect`, `Apply.MergeSpec` and `Apply.ApplySpec` inherit the promise that every failure changes no file. Whether a directory exists is recorded per path, not as a shared tree, so two paths in the same missing directory are not tied together.
- `Config.GetTargetFile`: joins are not cleaned. In Go, `filepath.Join` resolves `..`, so a descriptor whose file name contains `..` gives a target outside the working directory; the model only promises the unclean concatenation.
- `os.Getwd` (`GetCurrentDir`): the working directory is a parameter, and its failure is not modelled.
- `time.Now().Format(...)`: the timestamp is an opaque parameter.
- JSON encoding and decoding of descriptors: a descriptor file is a record, corrupt, or unreadable, not bytes.
- `filepath.Join` path cleaning (duplicate or trailing separators, `..`) and `filepath.Ext`: joins are concatenation with `/`, and extension checks are suffix tests. Names that contain `/` are not treated specially.
- Directory entries: `os.ReadDir` sorts by name, but the model's listings come in an unspecified order (the properties proved do not depend on it). Subdirectories inside a tool directory, and files that aide did not write, are not part of the modelled tree. A failure to list the store root is not modelled.
- Error message text and `%w` wrapping: only the error kind is kept.
- Concurrency: another process changing the store or the target file between the steps of `apply`. This is why the dead error branches noted above never fire in the model.
- Command wiring and output: Cobra argument checks, `fmt.Printf` of the report, and the other commands (`list`, `list-tools`, `add-tool`, `set`, `root`).
- Invalid UTF-8 in files: strings are sequences of Unicode scalar values.
