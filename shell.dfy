/**
 * The sandboxed `execute_command` tool: the empty-command check, the
 * allow-list on the first token, the first dangerous substring in list
 * order, and the formatting of what the process produced. Running the
 * process is supplied as a function of the command line and the context.
 */
module Shell {
  import opened Wrappers
  import opened Strings
  import opened Json
  import opened Types
  import ToolBase

  const AllowedCommands: seq<string> := [
    "ls", "pwd", "echo", "cat", "grep", "find", "head", "tail", "wc", "sort", "uniq", "cut",
    "sed", "awk", "diff", "tree", "file", "stat", "du", "df", "date", "whoami", "hostname", "uname"
  ]

  const DangerousPatterns: seq<string> := [
    "rm", "rmdir", "del", "format", "dd", "mkfs", ":(){:|:&};:", "curl", "wget", "nc", "netcat",
    "telnet", "ssh", "scp", "ftp", "chmod", "chown", "sudo", "su", ">", ">>", "|", "&", ";", "$(", "`"
  ]

  /** Every refusal and most failures start with this. */
  const ErrorPrefix: string := "Error: "

  const NoCommandError: string := ErrorPrefix + "No command provided"
  const TimeoutError: string := ErrorPrefix + "Command timed out (5 second limit exceeded)"
  const NoOutput: string := "Command executed successfully (no output)"

  /** The error thrown when the options object reads `context.workingDirectory`
      and no context was passed (V8's wording). */
  const MissingContextMessage: string :=
    "Cannot read " + "properties of " + "undefined " + "(reading " + "'workingDirectory')"

  function NotAllowedError(base: string): string {
    ErrorPrefix + ("Command '" + base + "' is not in the allowed list. Allowed commands: " + Join(AllowedCommands, ", "))
  }

  function DangerousError(pattern: string): string {
    ErrorPrefix + ("Command contains dangerous pattern '" + pattern + "' and is blocked for safety")
  }

  function ExecutionError(message: string): string {
    "Error executing command: " + message
  }

  /** What the child process settles to: its output, or the error's message. */
  datatype ExecResult = Completed(stdout: string, stderr: string) | Failed(message: string)

  /** The position of the first white-space character, or `|s|`. */
  function FirstWhitespace(s: string): (i: nat)
    ensures i <= |s|
    ensures forall k :: 0 <= k < i ==> !IsWhitespace(s[k])
    ensures i < |s| ==> IsWhitespace(s[i])
  {
    if s == [] || IsWhitespace(s[0]) then 0 else 1 + FirstWhitespace(s[1..])
  }

  /** `command.split(/\s+/)[0]`: everything before the first white space. */
  function BaseCommand(command: string): (b: string)
    ensures StartsWith(command, b)
    ensures forall k :: 0 <= k < |b| ==> !IsWhitespace(b[k])
    ensures |b| < |command| ==> IsWhitespace(command[|b|])
  {
    command[..FirstWhitespace(command)]
  }

  /** The first pattern, in list order, that occurs in `command`. */
  function FirstDangerous(command: string, patterns: seq<string>): (r: Option<string>)
    ensures r.Some? ==> exists i :: 0 <= i < |patterns| && patterns[i] == r.value
                                    && (forall j :: 0 <= j < i ==> !Contains(command, patterns[j]))
    ensures r.Some? ==> Contains(command, r.value)
    ensures r.None? <==> forall j :: 0 <= j < |patterns| ==> !Contains(command, patterns[j])
  {
    if patterns == [] then None
    else if Contains(command, patterns[0]) then Some(patterns[0])
    else
      var r := FirstDangerous(command, patterns[1..]);
      assert forall j :: 1 <= j < |patterns| ==> patterns[1..][j - 1] == patterns[j];
      if r.Some? then
        var i :| 0 <= i < |patterns[1..]| && patterns[1..][i] == r.value
                 && (forall j :: 0 <= j < i ==> !Contains(command, patterns[1..][j]));
        assert patterns[i + 1] == r.value;
        r
      else r
  }

  /** How the checks rule on a command line. */
  datatype Verdict = NoCommand | NotAllowed(base: string) | Dangerous(pattern: string) | Permitted(command: string)

  /** The checks in the source's order: empty, then allow-list, then patterns. */
  function Validate(command: Option<string>): (r: Verdict)
    ensures r.NoCommand? <==> command.None? || forall k :: 0 <= k < |command.value| ==> IsWhitespace(command.value[k])
    ensures r.NotAllowed? ==> r.base == BaseCommand(Trim(command.value)) && r.base !in AllowedCommands
    ensures r.Dangerous? ==> && BaseCommand(Trim(command.value)) in AllowedCommands
                             && FirstDangerous(Trim(command.value), DangerousPatterns) == Some(r.pattern)
    ensures r.Permitted? ==> && r.command == Trim(command.value)
                             && BaseCommand(r.command) in AllowedCommands
                             && FirstDangerous(r.command, DangerousPatterns).None?
  {
    if command.None? then NoCommand
    else
      var c := Trim(command.value);
      if c == "" then NoCommand
      else
        var base := BaseCommand(c);
        if base !in AllowedCommands then NotAllowed(base)
        else
          match FirstDangerous(c, DangerousPatterns)
          case Some(p) => Dangerous(p)
          case None => Permitted(c)
  }

  /** A pattern that occurs bounds the first match: it lies at or before that pattern's index. */
  lemma {:induction false} FirstMatchAtOrBefore(command: string, patterns: seq<string>, a: nat)
    requires a < |patterns| && Contains(command, patterns[a])
    ensures FirstDangerous(command, patterns).Some?
    ensures FirstDangerous(command, patterns).value in patterns[..a + 1]
  {
    if !Contains(command, patterns[0]) {
      assert patterns[1..][a - 1] == patterns[a];
      FirstMatchAtOrBefore(command, patterns[1..], a - 1);
      assert patterns[1..][..a] == patterns[1..a + 1];
    }
  }

  /** A string containing ">>" contains ">". */
  lemma AppendContainsRedirect(s: string)
    ensures Contains(s, ">>") ==> Contains(s, ">")
  {
    if Contains(s, ">>") {
      var k :| 0 <= k <= |s| - 2 && OccursAt(s, ">>", k);
      assert s[k..k + 1] == s[k..k + 2][..1];
      assert OccursAt(s, ">", k);
    }
  }

  /** With ">" listed before any ">>", the first match is never ">>". */
  lemma RedirectShadowsAppend(command: string, patterns: seq<string>, a: nat)
    requires a < |patterns| && patterns[a] == ">" && ">>" !in patterns[..a + 1]
    ensures FirstDangerous(command, patterns) != Some(">>")
  {
    AppendContainsRedirect(command);
    if Contains(command, ">>") {
      FirstMatchAtOrBefore(command, patterns, a);
    }
  }

  /** ">>" is never the reported pattern: any command containing it also contains ">", listed earlier. */
  lemma AppendRedirectNeverReported(command: string)
    ensures FirstDangerous(command, DangerousPatterns) != Some(">>")
  {
    RedirectShadowsAppend(command, DangerousPatterns, 19);
  }

  /** An allowed command that chains, pipes, redirects or substitutes is refused,
      naming a pattern it contains. */
  lemma MetacharactersRefused(command: string, p: string)
    requires p in [";", "|", ">", "$(", "`"]
    requires Trim(command) != "" && BaseCommand(Trim(command)) in AllowedCommands
    requires Contains(Trim(command), p)
    ensures Validate(Some(command)).Dangerous?
    ensures Contains(Trim(command), Validate(Some(command)).pattern)
  {
    assert p in DangerousPatterns;
  }

  /** The allow-list is consulted first: a command whose first token is not
      allowed gets that error, whatever patterns it contains. */
  lemma AllowListFirst(command: string)
    requires Trim(command) != "" && BaseCommand(Trim(command)) !in AllowedCommands
    ensures Validate(Some(command)) == NotAllowed(BaseCommand(Trim(command)))
  {
  }

  /** The base command is the leading word when white space follows it. */
  lemma BaseIsFirstWord(command: string, w: string)
    requires |w| < |command| && command[..|w|] == w && IsWhitespace(command[|w|])
    requires forall k :: 0 <= k < |w| ==> !IsWhitespace(w[k])
    ensures BaseCommand(command) == w
  {
  }

  /** A command line led by a word outside the allow-list and followed by white
      space is refused for that word. */
  lemma RefusedFirstWord(c: string, w: string)
    requires 0 < |w| < |c| && c[..|w|] == w && IsWhitespace(c[|w|]) && !IsWhitespace(c[|c| - 1])
    requires forall k :: 0 <= k < |w| ==> !IsWhitespace(w[k])
    requires w !in AllowedCommands
    ensures Validate(Some(c)) == NotAllowed(w)
  {
    assert c[0] == w[0];
    TrimUnpadded(c);
    BaseIsFirstWord(c, w);
    AllowListFirst(c);
  }

  /** "rm -rf file.txt" is refused by the allow-list, before any pattern is looked at. */
  lemma RemoveRefusedByAllowList(c: string)
    requires c == "rm -rf file.txt"
    ensures Validate(Some(c)) == NotAllowed("rm")
  {
    assert c[..2] == "rm" && c[2] == ' ' && c[|c| - 1] == 't';
    assert "rm" !in AllowedCommands;
    RefusedFirstWord(c, "rm");
  }

  /** "curl http://example.com" is refused by the allow-list too. */
  lemma CurlRefusedByAllowList(c: string)
    requires c == "curl http://example.com"
    ensures Validate(Some(c)) == NotAllowed("curl")
  {
    assert c[..4] == "curl" && c[4] == ' ' && c[|c| - 1] == 'm';
    assert "curl" !in AllowedCommands;
    RefusedFirstWord(c, "curl");
  }

  /** What a finished process turns into: labelled output sections, or the fixed no-output text. */
  function FormatOutput(stdout: string, stderr: string): (r: string)
    ensures stdout != "" && stderr == "" ==> r == "STDOUT:\n" + stdout
    ensures stdout == "" && stderr != "" ==> r == "STDERR:\n" + stderr
    ensures stdout != "" && stderr != "" ==> r == "STDOUT:\n" + stdout + "\n\nSTDERR:\n" + stderr
    ensures stdout == "" && stderr == "" ==> r == NoOutput
  {
    var result := if stdout != "" then "STDOUT:\n" + stdout else "";
    var result := if stderr != "" then result + (if stdout != "" then "\n\n" else "") + "STDERR:\n" + stderr else result;
    if stdout == "" && stderr == "" then NoOutput else result
  }

  /** A failed run: a timeout when the message mentions ETIMEDOUT or killed, a generic error otherwise. */
  function FailureMessage(message: string): (r: string)
    ensures (Contains(message, "ETIMEDOUT") || Contains(message, "killed")) <==> r == TimeoutError
    ensures r != TimeoutError ==> r == ExecutionError(message)
  {
    assert ExecutionError(message)[5] == "Error executing command: "[5] == ' ';
    assert TimeoutError[5] == ErrorPrefix[5] == ':';
    if Contains(message, "ETIMEDOUT") || Contains(message, "killed") then TimeoutError else ExecutionError(message)
  }

  /** The string `execute` returns for an argument `command` (None when absent). */
  function ShellResult(command: Option<string>, context: Option<ToolBase.ToolContext>,
                       exec: (string, ToolBase.ToolContext) -> ExecResult): string
  {
    match Validate(command)
    case NoCommand => NoCommandError
    case NotAllowed(base) => NotAllowedError(base)
    case Dangerous(pattern) => DangerousError(pattern)
    case Permitted(c) => RunResult(c, context, exec)
  }

  /** What a permitted command line turns into once the process is started. */
  function RunResult(command: string, context: Option<ToolBase.ToolContext>,
                     exec: (string, ToolBase.ToolContext) -> ExecResult): string
  {
    if context.None? then FailureMessage(MissingContextMessage)
    else
      match exec(command, context.value)
      case Completed(stdout, stderr) => FormatOutput(stdout, stderr)
      case Failed(m) => FailureMessage(m)
  }

  /** The process is started only for an allowed command free of every pattern,
      and only with the trimmed command line. */
  lemma PermittedRuns(command: Option<string>, context: ToolBase.ToolContext,
                      exec: (string, ToolBase.ToolContext) -> ExecResult)
    requires Validate(command).Permitted?
    ensures ShellResult(command, Some(context), exec)
              == (match exec(Trim(command.value), context)
                  case Completed(o, e) => FormatOutput(o, e)
                  case Failed(m) => FailureMessage(m))
  {
  }

  lemma PrefixOfConcat(a: string, b: string, n: nat)
    requires n <= |a|
    ensures (a + b)[..n] == a[..n]
  {
  }

  /** Every refusal is an error text; none of them runs the process. */
  lemma RefusedIsError(command: Option<string>, context: Option<ToolBase.ToolContext>,
                       exec: (string, ToolBase.ToolContext) -> ExecResult)
    requires !Validate(command).Permitted?
    ensures StartsWith(ShellResult(command, context, exec), "Error: ")
  {
    var r := ShellResult(command, context, exec);
    match Validate(command)
    case NoCommand =>
      assert r == ErrorPrefix + "No command provided";
      PrefixOfConcat(ErrorPrefix, "No command provided", 7);
    case NotAllowed(base) =>
      var rest := "Command '" + base + "' is not in the allowed list. Allowed commands: " + Join(AllowedCommands, ", ");
      assert r == ErrorPrefix + rest;
      PrefixOfConcat(ErrorPrefix, rest, 7);
    case Dangerous(pattern) =>
      var rest := "Command contains dangerous pattern '" + pattern + "' and is blocked for safety";
      assert r == ErrorPrefix + rest;
      PrefixOfConcat(ErrorPrefix, rest, 7);
  }

  /** Without a context, as the agent calls tools, a permitted command never
      runs: reading `context.workingDirectory` throws inside the tool's own try. */
  lemma NoContextNeverRuns(command: string, exec: (string, ToolBase.ToolContext) -> ExecResult)
    ensures RunResult(command, None, exec) == ExecutionError(MissingContextMessage)
  {
    assert 'E' !in MissingContextMessage && 'l' !in MissingContextMessage;
    MissingCharNotContained(MissingContextMessage, "ETIMEDOUT", 0);
    MissingCharNotContained(MissingContextMessage, "killed", 2);
  }

  /** `executeCommandTool.execute`: the checks as a sequence of early returns and
      a loop over the patterns, then the process and the formatting of its result. */
  method ExecuteCommand(command: Option<string>, context: Option<ToolBase.ToolContext>,
                        exec: (string, ToolBase.ToolContext) -> ExecResult) returns (result: string)
    ensures result == ShellResult(command, context, exec)
  {
    if command.None? || Trim(command.value) == "" {
      return NoCommandError;
    }
    var c := Trim(command.value);
    var base := BaseCommand(c);
    if base !in AllowedCommands {
      return NotAllowedError(base);
    }
    var found := FindDangerous(c, DangerousPatterns);
    if found.Some? {
      return DangerousError(found.value);
    }
    assert Validate(command) == Permitted(c);
    result := Run(c, context, exec);
  }

  /** Starting the process, and formatting what it produced or how it failed. */
  method Run(command: string, context: Option<ToolBase.ToolContext>,
             exec: (string, ToolBase.ToolContext) -> ExecResult) returns (result: string)
    ensures result == RunResult(command, context, exec)
  {
    if context.None? {
      return FailureMessage(MissingContextMessage);
    }
    var outcome := exec(command, context.value);
    match outcome {
      case Completed(stdout, stderr) =>
        result := "";
        if stdout != "" {
          result := result + "STDOUT:\n" + stdout;
        }
        if stderr != "" {
          result := result + (if stdout != "" then "\n\n" else "") + "STDERR:\n" + stderr;
        }
        if stdout == "" && stderr == "" {
          result := NoOutput;
        }
      case Failed(m) =>
        result := FailureMessage(m);
    }
  }

  /** The loop over the pattern list, returning at the first match. */
  method FindDangerous(command: string, patterns: seq<string>) returns (r: Option<string>)
    ensures r == FirstDangerous(command, patterns)
  {
    for i := 0 to |patterns|
      invariant forall j :: 0 <= j < i ==> !Contains(command, patterns[j])
    {
      if Contains(command, patterns[i]) {
        FirstDangerousAt(command, patterns, i);
        return Some(patterns[i]);
      }
    }
    return None;
  }

  /** The first contained pattern is at the first index that contains. */
  lemma {:induction false} FirstDangerousAt(command: string, patterns: seq<string>, i: nat)
    requires i < |patterns| && Contains(command, patterns[i])
    requires forall j :: 0 <= j < i ==> !Contains(command, patterns[j])
    ensures FirstDangerous(command, patterns) == Some(patterns[i])
  {
    if i > 0 {
      assert forall j :: 0 <= j < i - 1 ==> patterns[1..][j] == patterns[j + 1];
      FirstDangerousAt(command, patterns[1..], i - 1);
    }
  }

  /** The tool's definition: `execute_command` with one required string parameter. */
  const Definition: ToolDefinition := ToolDefinition(
    "execute_command",
    "Execute a safe shell command in the working directory. Only basic read-only commands are allowed (ls, cat, grep, etc.). Dangerous commands are blocked. Use with caution.",
    ToolParameters(
      map["command" := JObject(map["type" := JString("string"),
                                   "description" := JString("The shell command to execute (e.g., 'ls -la', 'cat file.txt')")])],
      Some(["command"])))

  /** The error when `args.command` is present but is not a string (V8's wording). */
  const NotAStringMessage: string := "args.command?.trim is not a function"

  /** `execute` on parsed arguments: `args.command` when it is a string,
      absent when missing or null, a thrown error otherwise. */
  function ToolExecute(exec: (string, ToolBase.ToolContext) -> ExecResult, args: Json,
                       context: Option<ToolBase.ToolContext>): (r: ToolBase.ToolOutcome)
    ensures args.JObject? && "command" in args.fields && args.fields["command"].JString? ==>
              r == ToolBase.Returned(ShellResult(Some(args.fields["command"].s), context, exec))
    ensures args.JObject? && ("command" !in args.fields || args.fields["command"].JNull?) ==>
              r == ToolBase.Returned(NoCommandError)
    ensures r.Threw? ==> args.JNull? || (args.JObject? && "command" in args.fields
                                         && !args.fields["command"].JString? && !args.fields["command"].JNull?)
  {
    if args.JNull? then ToolBase.Threw("Cannot read properties of null (reading 'command')")
    else
      match Field(args, "command")
      case None => ToolBase.Returned(ShellResult(None, context, exec))
      case Some(JNull) => ToolBase.Returned(ShellResult(None, context, exec))
      case Some(JString(s)) => ToolBase.Returned(ShellResult(Some(s), context, exec))
      case Some(_) => ToolBase.Threw(NotAStringMessage)
  }

  /** The tool as registered. */
  function ExecuteCommandTool(exec: (string, ToolBase.ToolContext) -> ExecResult): (t: ToolBase.Tool)
    ensures t.definition.name == "execute_command"
    ensures forall args, context :: t.execute(args, context) == ToolExecute(exec, args, context)
  {
    ToolBase.Tool(Definition, (args: Json, context: Option<ToolBase.ToolContext>) => ToolExecute(exec, args, context))
  }
}
