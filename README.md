# buildabot tool-calling core in Dafny

buildabot is a small coding agent. A user message goes into a conversation
history. The agent asks a language-model provider for a reply, runs any tools
the reply requests, appends their results and asks again, for at most ten
rounds. This project models the parts of that loop that decide what happens:

- the agent loop and its history (`AgentLoop`, `agent.dfy`);
- the tool registry and its dispatch (`ToolBase`, `tool_base.dfy`);
- the Ollama provider adapter (`Ollama`, `ollama.dfy`). It reshapes outbound
  messages, builds the request body, and normalises replies, both native tool
  calls and a tool call written as JSON inside the text. It also maps transport
  errors.
- the sandboxed shell tool (`Shell`, `shell.dfy`): the allow-list, the
  dangerous-pattern block list, output formatting and error wording;
- the path confinement helpers (`PathUtils`, `path_utils.dfy`), with
  `path.resolve`/`path.normalize` modelled on segment lists;
- the read, write and list filesystem tools over an in-memory directory tree
  (`FileSystemTools`, `filesystem.dfy`);
- the conversation-title rule of the database manager (`DbManager`,
  `db_manager.dfy`).

`Wrappers`, `Strings`, `Json` and `Types` hold the shared vocabulary:

- `Result`/`Option`;
- JavaScript's `trim`, `includes`, `indexOf`, `join` and number rendering;
- a JSON value type;
- the message, tool-call and chat request/response records.

Effects the program gets from outside are supplied as function parameters:

- The HTTP POST and its outcome.
- `JSON.parse` and `JSON.stringify`, passed as a `JsonCodec` pair.
- The provider, which answers the k-th call of a run given that call's request.
- The child-process `exec`.
- The process's current directory.

`uuid()` is a counter: the n-th fresh id is `"call_" + n`.

Behaviour that follows the code, where the prose description or a test says
otherwise:

- The adapter sends `tool` messages to Ollama with role `"tool"`. One test
  expects them folded into `"user"`; the code does not do this.
- The shell tool checks the allow-list before the dangerous patterns. A command
  whose first word is not allowed gets the "not in the allowed list" error even
  when it also contains a dangerous pattern.
- The agent calls `toolRegistry.execute(toolCall)` without a context. The shell
  tool therefore fails on `context.workingDirectory` inside its own `try` for
  every command that passes validation, and returns "Error executing command:
  Cannot read properties of undefined (reading 'workingDirectory')"
  (`Shell.NoContextNeverRuns`).
- The filesystem tools never call the path-confinement helpers. They hand
  their raw `path` argument to the system, which walks it one component at a
  time from the current directory, with no confinement. Where that walk
  succeeds it lands where `path.resolve` would
  (`FileSystemTools.LocateFollowsResolve`). It refuses `..` after a missing
  name or a file, and a trailing slash on a file, which text resolution would
  accept.

## Model

| member | source | states |
|---|---|---|
| `Strings.Trim` | src/db/manager.ts:198 | `trim()` is empty exactly when every character is white space. Otherwise it is the slice between the leading and the trailing white space, and neither of its ends is white space. |
| `Strings.IndexOf` | src/providers/ollama.ts:102 | `indexOf('{')` is -1 exactly when the character is absent. Otherwise it is the first position holding it. |
| `Strings.JoinContainsPart` | src/tools/shell.ts:110 | Every part of a `join` occurs in the joined text, so the allow-list error names every allowed command. |
| `Strings.NatToStringInjective` | src/providers/ollama.ts:87 | Distinct counter values render as distinct decimal strings. |
| `Ollama.StripTrailingSlash` | src/providers/ollama.ts:14 | `replace(/\/$/, "")` removes one trailing slash when there is one, and changes nothing else. |
| `Ollama.StripRemovesOnlyOne` | src/providers/ollama.ts:14 | A URL ending in "//" keeps one slash; stripping again changes it, so the strip is not idempotent. |
| `Ollama.ConvertToolCalls` | src/providers/ollama.ts:59-67 | Assistant tool calls are converted one to one and in order, with names kept and arguments parsed back to values. Conversion fails exactly when some arguments text does not parse. |
| `Ollama.ConvertMessage` | src/providers/ollama.ts:44-76 | One message: `tool`, user and system messages keep role and content. An assistant message carries its converted calls when it has any, and fails when one of their arguments texts does not parse (stated by `ConvertKeepsRolesAndContent`). |
| `Ollama.ConvertToOllamaMessages` | src/providers/ollama.ts:44-77 | Messages are converted in order and one to one. Conversion succeeds exactly when every message converts. A failure carries the error of the first message that fails. |
| `Ollama.ConvertKeepsRolesAndContent` | src/providers/ollama.ts:45-76 | Every message keeps its role and content. `tool` messages stay role "tool". Only assistant messages with tool calls carry converted calls, with the same names and the parsed arguments. |
| `Ollama.RequestBody` | src/providers/ollama.ts:21-26 | The model is the request's model unless it is absent or empty, otherwise the default. The body has the converted messages, the tools as given and `stream` false, and fails exactly when conversion fails. |
| `Ollama.CallIdInjective` | src/providers/ollama.ts:87 | Equal `call_` ids come from equal counter values. |
| `Ollama.MapNativeToolCalls` | src/providers/ollama.ts:84-96 | One call per native entry, in order. The k-th call gets id `call_(next+k)` and the entry's name. Its arguments are kept as given when they are a string and stringified otherwise. |
| `Ollama.NativeIdsDistinct` | src/providers/ollama.ts:86-87 | The ids of one reply's native tool calls are pairwise distinct. |
| `Ollama.FirstCandidateEnd` | src/providers/ollama.ts:109-121 | A found end lies within the text, and the prefix up to it parses to a value with truthy `name` and `arguments`. |
| `Ollama.FirstCandidateEndIsFirst` | src/providers/ollama.ts:109-121 | No shorter prefix than the found end is accepted. When no end is found, no prefix up to the end of the text is accepted. |
| `Ollama.HeuristicCandidate` | src/providers/ollama.ts:97-121 | A recovered value comes from a text that contains `{`, and has truthy `name` and `arguments`. |
| `Ollama.HeuristicTakesWholeObject` | src/providers/ollama.ts:97-137 | Take a reply text that starts with `{` and is the shortest parsing prefix with truthy `name` and `arguments`. The heuristic recovers exactly its parse. |
| `Ollama.ScanForToolCall` | src/providers/ollama.ts:102-121 | The incremental parse loop yields exactly the first accepted prefix starting at the first `{`, or nothing. |
| `Ollama.HeuristicToolCall` | src/providers/ollama.ts:122-137 | The one call built from a recovered value: the next id, the value's `name`, and its `arguments` kept when a string and stringified otherwise (stated by `HeuristicCallFields`). |
| `Ollama.NormalizedToolCalls` | src/providers/ollama.ts:84-137 | The native array when there is one. Otherwise the heuristic's call when it applies and recovers a value. Otherwise none, with the counter advanced by the ids used (stated by `NormalizedNative` and `NormalizedHeuristic`). |
| `Ollama.NormalizedResponse` | src/providers/ollama.ts:79-152 | `parseOllamaResponse` as a function of the wire reply and the counter: content, tool calls and finish reason (stated by `NormalizedExclusive`, `NormalizedFinishReason`, `NormalizedNative` and `NormalizedHeuristic`). |
| `Ollama.NormalizedExclusive` | src/providers/ollama.ts:144-149 | A reply with tool calls has empty content. A reply without them keeps the received text, or "" when there is none, and has no `tool_calls` key. |
| `Ollama.NormalizedFinishReason` | src/providers/ollama.ts:150 | The finish reason is "stop" exactly when `done` is truthy, and "length" otherwise. |
| `Ollama.NormalizedNative` | src/providers/ollama.ts:84-96 | A native array is mapped one to one; each id starts with `call_`; string arguments are kept. The content is empty, and the counter advances by the number of calls. |
| `Ollama.NormalizedHeuristic` | src/providers/ollama.ts:97-142 | A reply without a native array gets a tool call exactly when its text contains `{` and the heuristic recovers a value. It then gets exactly one call, the one built from the recovered value with the next id, and the counter advances by one. |
| `Ollama.HeuristicCallFields` | src/providers/ollama.ts:122-137 | The recovered call's name is the object's `name`, or its JSON text when it is not a string. Its arguments are the object's `arguments`, kept when a string and stringified otherwise. |
| `Ollama.BareObjectBecomesCall` | src/providers/ollama.ts:97-149 | A reply text that is a bare JSON call such as `{"name": "get_weather", ...}` becomes that one call, with that name and arguments, and the content is emptied. |
| `Ollama.ApiErrorMessage` | src/providers/ollama.ts:35-38 | The message starts "Ollama API error: " and continues with the reply's non-empty `error` field, or else the transport's message. |
| `Ollama.OllamaProvider.constructor` | src/providers/ollama.ts:10-16 | The base URL is stored with one trailing slash removed, and the default model is stored. |
| `Ollama.OllamaProvider.ParseOllamaResponse` | src/providers/ollama.ts:79-152 | The reply and the advanced id counter are those of the normalisation function. |
| `Ollama.OllamaProvider.Chat` | src/providers/ollama.ts:18-42 | An argument parse failure while building the body is rethrown unchanged. Otherwise the body is posted to `<baseUrl>/api/chat`: delivery normalises the reply, an HTTP failure becomes "Ollama API error", and any other error is rethrown. |
| `ToolBase.Insert` | src/tools/base.ts:15-17 | After `set`, the tool is found under its name and every other name is unchanged. A new name is appended to the key order, and a well-formed map stays well formed. |
| `ToolBase.Definitions` | src/tools/base.ts:23-25 | One definition per key, in insertion order. |
| `ToolBase.EmptyHasNoDefinitions` | src/tools/base.ts:13 | The empty registry is well formed, advertises nothing and finds nothing. |
| `ToolBase.DefinitionNamesDistinct` | src/tools/base.ts:23-25 | No two advertised definitions share a name. |
| `ToolBase.InsertDefinitions` | src/tools/base.ts:15-25 | Registering a new name appends its definition. Registering a known name replaces that definition in place. |
| `ToolBase.LastRegistrationWins` | src/tools/base.ts:15-17 | Registering a name twice leaves one entry, the later tool, and the same definitions as registering only the later one. |
| `ToolBase.ExecuteCall` | src/tools/base.ts:27-40 | A missing tool throws "Tool not found: <name>". An unparsable arguments text or a throwing tool gives "Error executing tool: <message>". Otherwise the tool's result is returned. |
| `ToolBase.ToolRegistry.constructor` | src/tools/base.ts:13 | A new registry is empty and well formed. |
| `ToolBase.ToolRegistry.Register` | src/tools/base.ts:15-17 | The map becomes `Insert` of the old map and the tool, and stays well formed. |
| `ToolBase.ToolRegistry.Get` | src/tools/base.ts:19-21 | Finds a tool exactly when its name is registered, and returns the registered tool. |
| `ToolBase.ToolRegistry.GetDefinitions` | src/tools/base.ts:23-25 | One definition per registered name, in insertion order. |
| `ToolBase.ToolRegistry.Execute` | src/tools/base.ts:27-40 | Equals the dispatch function on the current map. |
| `Shell.FirstWhitespace` | src/tools/shell.ts:106 | The position of the first white-space character, or the length when there is none. |
| `Shell.BaseCommand` | src/tools/shell.ts:106 | `split(/\s+/)[0]` of a trimmed command is a white-space-free prefix, ended by white space or by the end of the text. |
| `Shell.FirstDangerous` | src/tools/shell.ts:114-118 | Finds the first listed pattern that the command contains. It finds none exactly when the command contains no listed pattern. |
| `Shell.Validate` | src/tools/shell.ts:99-118 | The verdict is "No command" exactly when the command is missing or all white space. Otherwise it is "not allowed" for the first word of the trimmed command, or the first dangerous pattern of an allowed command, or permission to run the trimmed command. |
| `Shell.ShellResult` | src/tools/shell.ts:98-154 | The tool body's answer: the error for each refusal, or the run's answer for a permitted command (stated by `RefusedIsError`, `PermittedRuns` and `NoContextNeverRuns`). |
| `Shell.RunResult` | src/tools/shell.ts:120-153 | A permitted command: the missing-context error, or the formatted output, or the mapped failure (stated by `PermittedRuns` and `NoContextNeverRuns`). |
| `Shell.FirstMatchAtOrBefore` | src/tools/shell.ts:114-118 | When the pattern at index a is contained, some pattern at or before a is reported. |
| `Shell.AppendContainsRedirect` | src/tools/shell.ts:57-58 | A command containing ">>" contains ">". |
| `Shell.RedirectShadowsAppend` | src/tools/shell.ts:114-118 | When ">" is listed before any ">>", the scan never reports ">>". |
| `Shell.AppendRedirectNeverReported` | src/tools/shell.ts:37-64 | With the listed patterns, the ">>" entry is never the one reported, because ">" comes first. |
| `Shell.MetacharactersRefused` | src/tools/shell.ts:114-118 | An allowed command containing a semicolon, a pipe, `>`, `$(` or a backtick is refused, with a pattern it contains. |
| `Shell.AllowListFirst` | src/tools/shell.ts:109-111 | A command whose first word is not allowed gets the "not allowed" verdict, whatever patterns it contains. |
| `Shell.BaseIsFirstWord` | src/tools/shell.ts:106 | A white-space-free word followed by white space is the base command. |
| `Shell.RemoveRefusedByAllowList` | src/tools/shell.ts:109-111 | "rm -rf file.txt" is refused as "rm" not allowed. |
| `Shell.CurlRefusedByAllowList` | src/tools/shell.ts:109-111 | "curl http://example.com" is refused as "curl" not allowed. |
| `Shell.RefusedFirstWord` | src/tools/shell.ts:106-111 | A trimmed command whose first word is not on the allow-list is refused as "<word>" not allowed, before any pattern is tried. |
| `Shell.FormatOutput` | src/tools/shell.ts:132-143 | Only stdout gives "STDOUT:\n…", and only stderr gives "STDERR:\n…". Both are joined by a blank line. Neither gives the no-output message. |
| `Shell.FailureMessage` | src/tools/shell.ts:144-153 | The timeout error is returned exactly when the message contains "ETIMEDOUT" or "killed"; otherwise "Error executing command: <message>". |
| `Shell.PermittedRuns` | src/tools/shell.ts:120-153 | A permitted command with a context runs the trimmed command line. Its output is formatted, or its failure mapped. |
| `Shell.RefusedIsError` | src/tools/shell.ts:101-118 | Every refused command gets an answer starting "Error: ". |
| `Shell.NoContextNeverRuns` | src/tools/shell.ts:120-153 | Without a context the process is never started, and the answer is the execution error for the missing `workingDirectory`. |
| `Shell.ExecuteCommand` | src/tools/shell.ts:98-154 | The imperative tool body, with its early returns and pattern loop, gives the same answer as the validation and run specification. |
| `Shell.Run` | src/tools/shell.ts:120-153 | The imperative output accumulation gives the same answer as the run specification. |
| `Shell.FindDangerous` | src/tools/shell.ts:114-118 | The `for … of` loop over the patterns returns the first contained pattern, or nothing. |
| `Shell.FirstDangerousAt` | src/tools/shell.ts:114-118 | The first contained pattern, at index i, is the one reported. |
| `Shell.ToolExecute` | src/tools/shell.ts:98-99 | A string `command` is validated and run. A missing or null `command` gives "No command provided". It throws only for null args or a non-string, non-null `command`. |
| `Shell.ExecuteCommandTool` | src/tools/shell.ts:77-97 | The tool is named "execute_command", and its `execute` is the modelled tool body. |
| `PathUtils.Split` | src/tools/path-utils.ts:24 | Splitting on "/" gives at least one segment, and no segment contains "/". |
| `PathUtils.JoinSplit` | src/tools/path-utils.ts:24 | Joining the segments with "/" gives back the text. |
| `PathUtils.SplitJoin` | src/tools/path-utils.ts:24 | Splitting the join of slash-free segments gives back the segments. |
| `PathUtils.JoinAppend` | src/tools/path-utils.ts:24 | Joining two non-empty lists is joining each, with "/" between. |
| `PathUtils.SplitAppend` | src/tools/path-utils.ts:24 | Splitting `a + "/" + b` is splitting each and concatenating. |
| `PathUtils.Fold` | src/tools/path-utils.ts:21-24 | Applying segments to a normalised stack gives a normalised path: no empty, "." or ".." segment. |
| `PathUtils.FoldAppend` | src/tools/path-utils.ts:24 | Resolving the segments of x then y is resolving x, then y from there. |
| `PathUtils.FoldPlain` | src/tools/path-utils.ts:24 | Plain segments are appended as they are. |
| `PathUtils.Normalize` | src/tools/path-utils.ts:21 | Normalisation yields a normalised path. |
| `PathUtils.NormalizeText` | src/tools/path-utils.ts:21 | Normalising the text of a normalised path gives back the path, so `path.resolve` is idempotent. |
| `PathUtils.ResolveRelative` | src/tools/path-utils.ts:24 | A relative path is its segments applied to the base directory. |
| `PathUtils.ResolveAgainst` | src/tools/path-utils.ts:24 | `path.resolve(base, p)`: an absolute `p` starts over, a relative one is read from `base` (stated by `ResolveRelative` and `FileSystemTools.LocateFollowsResolve`). |
| `PathUtils.Root` | src/tools/path-utils.ts:21 | The working directory resolves to a normalised path. |
| `PathUtils.Target` | src/tools/path-utils.ts:24 | The file path resolves to a normalised path from the working directory. |
| `PathUtils.ResolvePathInWorkingDir` | src/tools/path-utils.ts:16-37 | The resolved path is returned exactly when the target is the root, or lies strictly below a root other than "/". Otherwise the security-violation error names the path and the root. |
| `PathUtils.IsPathWithinWorkingDir` | src/tools/path-utils.ts:47-57 | True exactly when resolving succeeds. |
| `PathUtils.HeadEqual` | src/tools/path-utils.ts:28-29 | Two slash-led texts with slash-free heads are equal exactly when heads and tails are. |
| `PathUtils.HeadPrefix` | src/tools/path-utils.ts:28 | The text prefix test splits at the first slash. |
| `PathUtils.JoinShape` | src/tools/path-utils.ts:24 | A join is the first segment, followed by "/" and the join of the rest when there is a rest. |
| `PathUtils.SlashBoth` | src/tools/path-utils.ts:28-29 | A leading "/" changes neither equality nor the prefix test. |
| `PathUtils.JoinHead` | src/tools/path-utils.ts:28 | The join of a non-empty normalised path is non-empty and does not start with "/". |
| `PathUtils.JoinInjective` | src/tools/path-utils.ts:29 | Normalised paths have equal text exactly when they are equal. |
| `PathUtils.JoinPrefix` | src/tools/path-utils.ts:28 | For a root other than "/", the text test `startsWith(root + "/")` holds exactly when the target strictly extends the root segment-wise. |
| `PathUtils.InsideIffTextTest` | src/tools/path-utils.ts:28-29 | The source's text test holds exactly when the target is the root or lies strictly below a root other than "/". |
| `PathUtils.FilesystemRootAdmitsOnlyItself` | src/tools/path-utils.ts:28-29 | With the working directory "/", only "/" itself passes. |
| `PathUtils.RelativeInside` | src/tools/path-utils.ts:16-37 | A relative path of plain segments resolves to the root followed by those segments, and passes. |
| `PathUtils.SandboxRoot` | src/tools/path-utils.ts:21 | "/sandbox" resolves to the single segment "sandbox". |
| `PathUtils.SplitPlain` | src/tools/path-utils.ts:24 | Text that is a join of slash-free segments splits into those segments. |
| `PathUtils.SandboxABText` | src/tools/path-utils.ts:36 | The path `sandbox/a/b.txt` has the text "/sandbox/a/b.txt". |
| `PathUtils.RelativeExample` | src/tools/path-utils.ts:16-37 | "a/b.txt" under "/sandbox" resolves to "/sandbox/a/b.txt". |
| `PathUtils.ClimbOut` | src/tools/path-utils.ts:24 | "../../etc/passwd" applied to "/sandbox" gives "/etc/passwd": ".." at the root stays at the root. |
| `PathUtils.TraversalRejected` | src/tools/path-utils.ts:28-34 | "../../etc/passwd" under "/sandbox" is refused. |
| `PathUtils.TraversalTarget` | src/tools/path-utils.ts:24 | "../../etc/passwd" resolved against "/sandbox" lands on "/etc/passwd". |
| `PathUtils.SiblingRejected` | src/tools/path-utils.ts:28-34 | "/sandbox2/x" under "/sandbox" is refused, even though it shares the text prefix. |
| `PathUtils.RootDirectoryRefusesChild` | src/tools/path-utils.ts:28-34 | As written, "/etc" under the working directory "/" is refused. |
| `PathUtils.ResolvePathWithinRoot` | src/tools/path-utils.ts:16-37 | Corrected check: the path is admitted exactly when it lies at or below the working directory, "/" included. |
| `PathUtils.WithinAgreesBelowRoot` | src/tools/path-utils.ts:28-34 | For every working directory other than "/", the corrected check and the written one agree. |
| `PathUtils.RootDirectoryAdmitsAll` | src/tools/path-utils.ts:28-34 | Under the corrected check, "/" admits every path. |
| `FileSystemTools.Components` | src/tools/filesystem.ts:24 | The components the system looks up are the pieces between slashes, without the empty ones. Each is non-empty and slash-free. |
| `FileSystemTools.FoldComponents` | src/tools/filesystem.ts:24 | Dropping the empty pieces does not change where `path.resolve`'s rules land. |
| `FileSystemTools.Descend` | src/tools/filesystem.ts:24 | A walk checks that each directory it passes through exists (else ENOENT) and is a directory (else ENOTDIR), "." and ".." included. A finished walk ends in a directory present in the tree, with a non-empty, slash-free last component. |
| `FileSystemTools.Locate` | src/tools/filesystem.ts:24 | The raw path argument is walked from the root when absolute, from the current directory otherwise. The empty path names nothing. A finished walk ends in a present directory. |
| `FileSystemTools.DescendFollowsFold` | src/tools/filesystem.ts:24 | A finished walk names the key that `path.resolve`'s rules give for the same components. |
| `FileSystemTools.ResolveFromStart` | src/tools/filesystem.ts:24 | `path.resolve(cwd, path)` is the path's pieces applied from where the walk starts. |
| `FileSystemTools.LocateFollowsResolve` | src/tools/filesystem.ts:24 | When the walk succeeds it reaches `path.resolve(cwd, path)`. The system and text resolution therefore differ only on paths the system refuses. |
| `FileSystemTools.LocateThrough` | src/tools/filesystem.ts:24 | A relative path `name/tail` walks into `name` first, then through the components of `tail`. |
| `FileSystemTools.ThroughMissing` | src/tools/filesystem.ts:22-98 | A name that does not exist cannot be walked through. `missing/../x` gives ENOENT to all three tools, wherever ".." would lead. |
| `FileSystemTools.ThroughFile` | src/tools/filesystem.ts:22-98 | A file cannot be walked through. `a.txt/..` and `a.txt/.` give ENOTDIR to all three tools. |
| `FileSystemTools.TextResolutionSkipsMissing` | src/tools/filesystem.ts:24 | By text alone, `missing/../x` is `x` in the current directory: a path the walk refuses. |
| `FileSystemTools.Read` | src/tools/filesystem.ts:24 | `fs.readFile`: walk failures are ENOENT or ENOTDIR. A missing target is ENOENT, a directory fails on read with EISDIR, and a file named with a trailing slash is ENOTDIR. Otherwise the content is returned (stated by `ReadSucceedsIff` and `ReadExisting`). |
| `FileSystemTools.ReadFile` | src/tools/filesystem.ts:22-30 | A successful read returns the file's content. A failure returns "Error reading file: " and the ENOENT, ENOTDIR or EISDIR message. |
| `FileSystemTools.ReadSucceedsIff` | src/tools/filesystem.ts:24-25 | A read succeeds exactly when the walk ends on an existing file and the path has no trailing slash. |
| `FileSystemTools.ReadExisting` | src/tools/filesystem.ts:24-25 | Reading an existing file, named without a trailing slash, returns exactly its content. |
| `FileSystemTools.ReadMissing` | src/tools/filesystem.ts:26-29 | Reading a path that does not lead to a present entry, the empty path included, gives "Error reading file: …". |
| `FileSystemTools.TrailingSlashOnFile` | src/tools/filesystem.ts:22-98 | A file named with a trailing slash is ENOTDIR to both `readFile` and `readdir`. |
| `FileSystemTools.Write` | src/tools/filesystem.ts:57 | `fs.writeFile`: walk failures are ENOENT or ENOTDIR. A directory target, or any path ending in "/", is EISDIR. An existing file is replaced. A new file is created in the directory the walk ended in (stated by `WriteSucceedsIff` and `WriteOutcome`). |
| `FileSystemTools.WriteFile` | src/tools/filesystem.ts:55-63 | A successful write returns "Successfully wrote to <path>" with the new tree. A failed one returns "Error writing file: …" and the tree unchanged. |
| `FileSystemTools.WriteSucceedsIff` | src/tools/filesystem.ts:57 | In a well-formed tree, a write succeeds exactly when the walk ends, the path has no trailing slash, and the target is not a directory. |
| `FileSystemTools.TrailingSlashNeverWrites` | src/tools/filesystem.ts:57-62 | A path ending in "/" is never written, and the tree stays as it was. |
| `FileSystemTools.ReplaceKeepsWellFormed` | src/tools/filesystem.ts:57 | Overwriting a file keeps the tree well formed. |
| `FileSystemTools.AddKeepsWellFormed` | src/tools/filesystem.ts:57 | Creating a file in a directory keeps the tree well formed. |
| `FileSystemTools.AddKeepsParentsList` | src/tools/filesystem.ts:57 | Creating a file keeps every node listed by its parent directory. |
| `FileSystemTools.AddKeepsListedPresent` | src/tools/filesystem.ts:57 | Creating a file keeps every listed name present. |
| `FileSystemTools.AddKeepsNoRepeats` | src/tools/filesystem.ts:57 | Creating a file keeps directory listings free of repeats. |
| `FileSystemTools.WriteOutcome` | src/tools/filesystem.ts:57 | After a successful write, the walk ended, the path has no trailing slash, and the target is not a directory. An existing file gets the new content. A new file is added under the directory the walk ended in, and its name is appended to that directory's entries. |
| `FileSystemTools.WritePreservesWellFormed` | src/tools/filesystem.ts:57 | A successful write keeps the tree well formed. |
| `FileSystemTools.DescendKeepsDirectories` | src/tools/filesystem.ts:57 | A tree that keeps every directory walks every path the same way, so a write does not change how paths resolve. |
| `FileSystemTools.WriteThenRead` | src/tools/filesystem.ts:55-58 | After a successful write, the answer is "Successfully wrote to <path>". Reading the same path then returns the written content, whether the file was new or overwritten. |
| `FileSystemTools.FailedWriteUnchanged` | src/tools/filesystem.ts:59-62 | A failed write leaves the tree unchanged and answers "Error writing file: …". |
| `FileSystemTools.WriteChangesOnlyTarget` | src/tools/filesystem.ts:57 | A successful write changes no path other than the target and the directory the walk ended in. |
| `FileSystemTools.Entries` | src/tools/filesystem.ts:87-91 | One formatted entry per child, in readdir order. |
| `FileSystemTools.List` | src/tools/filesystem.ts:86-92 | `fs.readdir` rendered: walk failures are ENOENT or ENOTDIR, a missing target is ENOENT, and a file is ENOTDIR. A directory gives its entries joined by newlines (stated by `ListSucceedsIff` and `ListingShowsEntries`). |
| `FileSystemTools.ListDirectory` | src/tools/filesystem.ts:84-98 | A successful listing is returned as is. A failure returns "Error listing directory: …". |
| `FileSystemTools.ListSucceedsIff` | src/tools/filesystem.ts:86 | A listing succeeds exactly when the walk ends on an existing directory. |
| `FileSystemTools.ListingShowsEntries` | src/tools/filesystem.ts:86-93 | A directory's listing shows "[DIR] name" or "[FILE] name" for each child. |
| `FileSystemTools.EmptyDirectoryListsNothing` | src/tools/filesystem.ts:86-93 | An empty directory lists as "". |
| `FileSystemTools.ListMissing` | src/tools/filesystem.ts:94-97 | Listing a path that does not lead to a present entry gives "Error listing directory: …". |
| `FileSystemTools.Disk.ReadFileTool` | src/tools/filesystem.ts:22-30 | The read tool's answer is that of the read specification on the current tree, and nothing changes. |
| `FileSystemTools.Disk.ListDirectoryTool` | src/tools/filesystem.ts:84-98 | The list tool's answer is that of the list specification on the current tree. |
| `FileSystemTools.Disk.WriteFileTool` | src/tools/filesystem.ts:55-63 | The new tree and the answer are those of the write specification, and the tree stays well formed. |
| `DbManager.TitleBounded` | src/db/manager.ts:197-203 | With room for "...", a title never exceeds the limit, and a default title is at most 50 characters. |
| `DbManager.TitleFromMessage` | src/db/manager.ts:197-203 | A title is the trimmed message, or a prefix of it followed by "...". |
| `DbManager.TitleHasNoOuterSpace` | src/db/manager.ts:198-200 | A title does not start with white space. An uncut title does not end with it either. |
| `DbManager.TrimIdempotent` | src/db/manager.ts:198 | Trimming twice is trimming once. |
| `DbManager.TitleIdempotent` | src/db/manager.ts:197-203 | With room for "...", a title is its own title. |
| `DbManager.GenerateTitle` | src/db/manager.ts:197-203 | A title that fits is the trimmed message. A longer one is `maxLength - 3` characters of it (none when negative) followed by "...". |
| `AgentLoop.CeilingMessage` | src/agent.ts:59 | The ceiling error reads "Max iterations (10) reached without final response". |
| `AgentLoop.ToolMessages` | src/agent.ts:42-53 | Calls run in order, one `tool` message per call, each answering its call by id and name with the registry's result. The phase stops at the first call naming an unregistered tool, with that error. |
| `AgentLoop.PhaseStep` | src/agent.ts:42-53 | When the phase reaches call j, an unknown tool ends it there with that tool's error. Otherwise message j answers call j. |
| `AgentLoop.PhaseComplete` | src/agent.ts:42-53 | When every call produced a message, the phase ended without a failure. |
| `AgentLoop.RunLoop` | src/agent.ts:25-59 | The loop from iteration i on: each round asks the provider and appends the reply. An answer ends the run, tool calls add their messages, and the ceiling ends it with the error (stated by `RunLoopAppendsOnly`, `IterationEffect` and `CeilingReached`). |
| `AgentLoop.RunSpec` | src/agent.ts:16-60 | `run(userInput)`: the loop from iteration 0 on the history plus the user message (stated by `ImmediateAnswer` and `RunKeepsLinked`). |
| `AgentLoop.RunLoopAppendsOnly` | src/agent.ts:25-59 | A run only appends to the history. It makes at most `max` provider calls, and the ceiling error comes after exactly `max` calls. |
| `AgentLoop.IterationEffect` | src/agent.ts:27-53 | The reply is appended first. Without tool calls the run returns its content. Otherwise the tool messages follow it, and a missing tool ends the run with that error. |
| `AgentLoop.ImmediateAnswer` | src/agent.ts:16-39 | A first reply without tool calls ends the run after one call, with history [user, reply] and the reply's content. |
| `AgentLoop.CeilingReached` | src/agent.ts:25-59 | If every reply asks only for registered tools, the run fails with the ceiling error after exactly `max` calls. |
| `AgentLoop.PhaseKeepsLinked` | src/agent.ts:33-53 | After a reply and its tool results, every `tool` message still answers an earlier assistant call. |
| `AgentLoop.RunKeepsLinked` | src/agent.ts:16-60 | A run keeps every `tool` message answering an earlier assistant call. |
| `AgentLoop.WithSystemPrompt` | src/agent.ts:70-83 | The history starts with the system prompt. A leading system message is replaced and the rest kept; otherwise the prompt is put in front. |
| `AgentLoop.SystemPromptTwice` | src/agent.ts:70-83 | Setting the prompt twice equals setting the later one once. |
| `AgentLoop.SystemPromptKeepsLinked` | src/agent.ts:70-83 | Setting the prompt keeps every `tool` message answering an earlier assistant call. |
| `AgentLoop.Agent.constructor` | src/agent.ts:5-14 | A new agent has an empty history, the given provider and registry, and a ceiling of 10. |
| `AgentLoop.Agent.Run` | src/agent.ts:16-60 | The new history and the result of `run` are those of the run specification, from the old history plus the user message. |
| `AgentLoop.Agent.ExecuteToolCalls` | src/agent.ts:42-53 | The inner loop appends exactly the phase's tool messages and reports its failure. |
| `AgentLoop.Agent.ClearHistory` | src/agent.ts:62-64 | The history becomes empty. |
| `AgentLoop.Agent.GetHistory` | src/agent.ts:66-68 | Returns a value equal to the history and changes nothing. |
| `AgentLoop.Agent.SetSystemPrompt` | src/agent.ts:70-83 | The history becomes the system-prompt update of the old one. |

## Left out

- **I/O and effects.** HTTP (axios), the child process, the real filesystem,
  `uuid`, and `JSON.parse`/`JSON.stringify` are parameters or counters. Their
  internals are not modelled.
- **Concurrency.** `async`/`await` ordering is not modelled: each await is one
  sequential step.
- **Database persistence.** The SQLite schema, initialisation, conversation and
  message CRUD, timestamps and ordering in `src/db/manager.ts` are left out.
  Only `generateTitle` is modelled.
- `DbManager.GenerateTitle`: a non-integer `maxLength` is not modelled (it is
  an `int`), and lengths count code points rather than UTF-16 code units.
- `Ollama.OllamaProvider.Chat`:
  - `temperature` and `max_tokens` are not forwarded, as in the source.
  - Streaming is not modelled.
  - A native call whose `function` is missing would make the source throw a
    TypeError; the model's wire type always has a name and arguments.
- `Ollama.ScanForToolCall`: an exception other than a parse failure inside the
  loop is not modelled.
- `Ollama.NormalizedHeuristic`: a non-string `name` is carried as its
  stringified text. The source would carry the raw value into a string field.
- `Shell.ExecuteCommand`:
  - The 5-second timeout, the 100 KB buffer and the environment passed to
    `exec` are parameters of the supplied `exec`.
  - The concrete example "cat file.txt; ls" is covered by
    `Shell.MetacharactersRefused` rather than by its own lemma.
- `Shell.ToolExecute`: arguments that are arrays, numbers or booleans read
  `command` as undefined in JavaScript. The contract does not state their
  outcome.
- **Registration of the filesystem tools.** `read_file`, `write_file` and
  `list_directory` are methods of the `Disk` class, not registry `Tool` values,
  because writing changes state. Their `path` and `content` arguments are taken
  as strings. Non-string arguments and their `String()` conversions are not
  modelled.
- `FileSystemTools.Disk.ListDirectoryTool`:
  - The order of entries is the directory's child order, which stands for
    readdir order.
  - Symbolic links, permissions and other file kinds are not modelled.
- `FileSystemTools.Locate`: the current directory is taken as the normalised
  text `cwd`. A walk never meets a symbolic link or a permission check.
- **Callers outside the core.** The shell tool being enabled by
  `ENABLE_SHELL_TOOL`, the CLI, the web server, the WebSocket events and the
  inline title rule in `src/server/api.ts` are not part of this model.

## Findings

| source | as written | input that shows it | evidently intended | confidence | as-written member | corrected member |
|---|---|---|---|---|---|---|
| src/tools/path-utils.ts:28-34 | The prefix test appends `path.sep` to the working directory, so with working directory "/" the prefix is "//". | `resolvePathInWorkingDir("/etc", "/")` throws a security violation | every path at or below "/" is admitted | medium, not executed | `PathUtils.RootDirectoryRefusesChild` | `PathUtils.ResolvePathWithinRoot` |
