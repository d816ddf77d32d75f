/**
 * What the three command-line agent adapters (Gemini, Claude, Cursor) have in
 * common. Each adapter carries its own copy of this code and the copies agree
 * statement for statement, so the model defines each piece once: settings
 * read from the environment, the error texts, the mapping from a finished
 * process to a result, the retry loop, the prompt, the checks made before the
 * first attempt, and the ticket, session and log bookkeeping of
 * `analyze_code`. The adapters' own modules give what differs: variable
 * names, command-line arguments, start texts and the handling of stdout.
 *
 * The operating system is a `Host`: whether a directory or a file is there,
 * what `which` answers, and what each spawn attempt of a command produces.
 */
module AgentCommon {
  import opened Wrappers
  import opened Text
  import opened Database
  import opened MessageStore
  import opened LogNormalizer
  import opened CodeAgent

  // ---------------------------------------------------------------------
  // Settings

  /** The `--output-format` an adapter asks its CLI for. */
  datatype OutputFormat = Text | Json | StreamJson | StreamPartialOutput

  /** The value of the output-format variable that selects each format. */
  function FormatName(f: OutputFormat): string
  {
    match f
    case Text => "text"
    case Json => "json"
    case StreamJson => "stream-json"
    case StreamPartialOutput => "stream-partial"
  }

  const FormatNames: set<string> := {"text", "json", "stream-json", "stream-partial"}

  /** The output-format match of `from_env`: an unset variable reads as
      "stream-json" and an unknown name falls back to StreamJson, so any
      other format was asked for by its exact name. */
  function FormatFromEnv(v: Option<string>): (f: OutputFormat)
    ensures f != StreamJson ==> v == Some(FormatName(f))
  {
    var name := v.UnwrapOr("stream-json");
    if name == "text" then Text
    else if name == "json" then Json
    else if name == "stream-json" then StreamJson
    else if name == "stream-partial" then StreamPartialOutput
    else StreamJson
  }

  /** Every format is selected by its own name. */
  lemma FormatNameRoundTrip(f: OutputFormat)
    ensures FormatFromEnv(Some(FormatName(f))) == f
  {
  }

  /** An unset variable or a name outside the four gives StreamJson. */
  lemma FormatFallback(v: Option<string>)
    requires v.None? || v.value !in FormatNames
    ensures FormatFromEnv(v) == StreamJson
  {
  }

  /** The format flags the Claude and Cursor CLIs are given. */
  function FormatFlags(f: OutputFormat): seq<string>
  {
    match f
    case Text => []
    case Json => ["--output-format", "json"]
    case StreamJson => ["--output-format", "stream-json"]
    case StreamPartialOutput => ["--output-format", "stream-json", "--stream-partial-output"]
  }

  /** The format a CLI reads from its flags; other flags are ignored. */
  function FlagsFormat(flags: seq<string>): OutputFormat
  {
    if "--output-format" !in flags then Text
    else if "--stream-partial-output" in flags then StreamPartialOutput
    else if "json" in flags then Json
    else StreamJson
  }

  /** The flags ask for exactly the configured format, also with `--verbose`
      beside them; Text is the CLI's default and needs no flag. */
  lemma FlagsRoundTrip(f: OutputFormat, extra: seq<string>)
    requires "--output-format" !in extra && "--stream-partial-output" !in extra && "json" !in extra
    ensures FlagsFormat(FormatFlags(f) + extra) == f
    ensures FormatFlags(f) == [] <==> f == Text
  {
    var flags := FormatFlags(f) + extra;
    match f
    case Text =>
      assert flags == extra;
    case Json =>
      assert flags[0] == "--output-format" && flags[1] == "json";
      assert forall i :: 0 <= i < |flags| ==> flags[i] != "--stream-partial-output";
    case StreamJson =>
      assert flags[0] == "--output-format";
      assert forall i :: 0 <= i < |flags| ==> flags[i] != "--stream-partial-output" && flags[i] != "json";
    case StreamPartialOutput =>
      assert flags[0] == "--output-format" && flags[2] == "--stream-partial-output";
  }

  const DefaultTimeoutSeconds: nat := 300
  const DefaultMaxRetries: nat := 2
  const U32Limit: nat := 0x1_0000_0000

  /** An adapter's settings; `timeout_seconds` is a `u64` and `max_retries` a `u32`. */
  datatype AgentConfig = AgentConfig(
    executable_path: string,
    timeout_seconds: nat,
    max_retries: nat,
    working_dir: Option<string>,
    output_format: OutputFormat,
    api_key: Option<string>)

  /** The adapter's `Default`: only the API key comes from the environment. */
  function DefaultConfig(executable: string, apiKey: Option<string>): (c: AgentConfig)
    ensures c.executable_path == executable && c.api_key == apiKey
    ensures c.timeout_seconds == DefaultTimeoutSeconds && c.max_retries == DefaultMaxRetries
  {
    AgentConfig(executable, DefaultTimeoutSeconds, DefaultMaxRetries, None, StreamJson, apiKey)
  }

  /** The process environment. */
  type Env = map<string, string>

  /** `std::env::var(name).ok()`. */
  function Var(env: Env, name: string): (v: Option<string>)
    ensures v.Some? <==> name in env
    ensures v.Some? ==> v.value == env[name]
  {
    if name in env then Some(env[name]) else None
  }

  /** The variables an adapter's `from_env` reads. */
  datatype EnvNames = EnvNames(
    path: string, timeout: string, retries: string, workingDir: string, format: string, apiKey: string)

  /** `<PREFIX>_PATH`, `_TIMEOUT`, `_MAX_RETRIES`, `_WORKING_DIR`, `_OUTPUT_FORMAT`,
      and the API key variable. */
  function PrefixedNames(prefix: string, apiKey: string): (n: EnvNames)
    ensures n.apiKey == apiKey && StartsWith(n.timeout, prefix) && StartsWith(n.retries, prefix)
  {
    EnvNames(prefix + "_PATH", prefix + "_TIMEOUT", prefix + "_MAX_RETRIES", prefix + "_WORKING_DIR",
             prefix + "_OUTPUT_FORMAT", apiKey)
  }

  /** `.ok().and_then(|s| s.parse().ok()).unwrap_or(default)` for an unsigned
      type whose values are below `bound`. */
  function ParsedOr(v: Option<string>, bound: nat, default: nat): (n: nat)
    ensures n < bound || n == default
  {
    if v.Some? && ParseUnsigned(v.value, bound).Some? then ParseUnsigned(v.value, bound).value else default
  }

  /** `from_env`. */
  function ConfigFromEnv(env: Env, names: EnvNames, executable: string): (c: AgentConfig)
    ensures c.timeout_seconds < U64Limit && c.max_retries < U32Limit
  {
    AgentConfig(
      Var(env, names.path).UnwrapOr(executable),
      ParsedOr(Var(env, names.timeout), U64Limit, DefaultTimeoutSeconds),
      ParsedOr(Var(env, names.retries), U32Limit, DefaultMaxRetries),
      Var(env, names.workingDir),
      FormatFromEnv(Var(env, names.format)),
      Var(env, names.apiKey))
  }

  /** With none of its own variables set, `from_env` is `Default`. */
  lemma EnvDefaults(env: Env, names: EnvNames, executable: string)
    requires names.path !in env && names.timeout !in env && names.retries !in env
    requires names.workingDir !in env && names.format !in env
    ensures ConfigFromEnv(env, names, executable) == DefaultConfig(executable, Var(env, names.apiKey))
  {
  }

  /** A timeout or retry count that is unset or does not parse as its
      unsigned type (a sign, a fraction, a value too large) gives the default. */
  lemma NumbersFallBack(env: Env, names: EnvNames, executable: string)
    ensures (names.timeout !in env || ParseUnsigned(env[names.timeout], U64Limit).None?) ==>
      ConfigFromEnv(env, names, executable).timeout_seconds == DefaultTimeoutSeconds
    ensures (names.retries !in env || ParseUnsigned(env[names.retries], U32Limit).None?) ==>
      ConfigFromEnv(env, names, executable).max_retries == DefaultMaxRetries
  {
  }

  /** Numbers written in decimal are read back as those numbers. */
  lemma PrintedNumbersRead(env: Env, names: EnvNames, executable: string, timeout: nat, retries: nat)
    requires timeout < U64Limit && retries < U32Limit
    requires names.timeout in env && env[names.timeout] == NatToString(timeout)
    requires names.retries in env && env[names.retries] == NatToString(retries)
    ensures ConfigFromEnv(env, names, executable).timeout_seconds == timeout
    ensures ConfigFromEnv(env, names, executable).max_retries == retries
  {
    ParsePrinted(timeout, U64Limit);
    ParsePrinted(retries, U32Limit);
  }

  // ---------------------------------------------------------------------
  // Errors

  /** The adapters' error enums (only Gemini's has `AuthenticationRequired`),
      plus the message of a retry loop that made no attempt. */
  datatype AgentError =
    | Timeout(seconds: nat)
    | ProcessFailed(code: int)
    | ExecutableNotFound(what: string)
    | SpawnFailed(reason: string)
    | DirectoryNotAccessible(dir: string)
    | AuthenticationRequired(reason: string)
    | RetriesExhausted

  /** `Display` of an error. */
  function ErrorText(e: AgentError): (s: string)
    ensures |s| > 8
  {
    match e
    case Timeout(n) => "Process timeout after " + NatToString(n) + "s"
    case ProcessFailed(c) => "Process failed with exit code " + IntToString(c)
    case ExecutableNotFound(w) => "Executable not found: " + w
    case SpawnFailed(r) => "Process spawn failed: " + r
    case DirectoryNotAccessible(d) => "Working directory not accessible: " + d
    case AuthenticationRequired(r) => "Authentication required: " + r
    case RetriesExhausted => "All retry attempts failed"
  }

  /** The position of an error's variant in the enum. */
  function Variant(e: AgentError): (k: nat)
    ensures k < 7
  {
    match e
    case Timeout(_) => 0
    case ProcessFailed(_) => 1
    case ExecutableNotFound(_) => 2
    case SpawnFailed(_) => 3
    case DirectoryNotAccessible(_) => 4
    case AuthenticationRequired(_) => 5
    case RetriesExhausted => 6
  }

  /** Reads the variant back from an error text by its first, second and
      ninth characters. */
  function VariantOfText(s: string): (k: nat)
    requires |s| > 8
  {
    if s[0] == 'E' then 2
    else if s[0] == 'W' then 4
    else if s[0] == 'A' then (if s[1] == 'u' then 5 else 6)
    else if s[8] == 't' then 0
    else if s[8] == 'f' then 1
    else 3
  }

  /** The text of an error tells which error it is, so the error log line of a
      failed analysis names the failure. */
  lemma ErrorTextNamesVariant(e: AgentError)
    ensures VariantOfText(ErrorText(e)) == Variant(e)
  {
  }

  // ---------------------------------------------------------------------
  // One attempt

  /** How waiting for the child ended: it exited (with its status and, when
      not killed by a signal, its code), `wait` failed, or the timeout struck. */
  datatype ProcessEnd = Exited(success: bool, code: Option<int>) | WaitFailed(reason: string) | TimedOut

  /** One spawn attempt: the spawn failed, or the child ran and printed these
      stdout and stderr lines (without their line terminators). */
  datatype Attempt = NotSpawned(reason: string) | Spawned(stdout: seq<string>, stderr: seq<string>, end: ProcessEnd)

  datatype RunResult = Done(output: string) | Failed(error: AgentError)

  const NoOutputText := "Analysis completed but no output generated"
  const AuthRequiredText := "Gemini CLI chưa được đăng nhập. Hãy chạy 'gemini' và hoàn tất Google OAuth login."

  /** The stderr phrases that reveal a missing login. */
  predicate AuthPhrase(line: string)
  {
    Contains(line, "not logged in") || Contains(line, "authentication") || Contains(line, "login required")
  }

  /** Whether some stderr line so far reveals a missing login. */
  predicate AuthDetected(stderr: seq<string>)
  {
    stderr != [] && (AuthDetected(stderr[..|stderr| - 1]) || AuthPhrase(stderr[|stderr| - 1]))
  }

  /** A missing login is detected exactly when one of the lines mentions it. */
  lemma {:induction false} AuthDetectedIff(stderr: seq<string>)
    ensures AuthDetected(stderr) <==> exists i :: 0 <= i < |stderr| && AuthPhrase(stderr[i])
    decreases |stderr|
  {
    if stderr != [] {
      var init := stderr[..|stderr| - 1];
      AuthDetectedIff(init);
      if exists i :: 0 <= i < |init| && AuthPhrase(init[i]) {
        var i :| 0 <= i < |init| && AuthPhrase(init[i]);
        assert stderr[i] == init[i];
      }
      if exists i :: 0 <= i < |stderr| && AuthPhrase(stderr[i]) {
        var i :| 0 <= i < |stderr| && AuthPhrase(stderr[i]);
        if i < |init| {
          assert init[i] == stderr[i];
        }
      }
    }
  }

  /** The result of one attempt; `detectAuth` is set for the adapter that
      inspects stderr for a missing login. */
  function AttemptResult(a: Attempt, timeoutSeconds: nat, detectAuth: bool): (r: RunResult)
    ensures r.Done? <==> a.Spawned? && a.end.Exited? && a.end.success
  {
    match a
    case NotSpawned(why) => Failed(SpawnFailed(why))
    case Spawned(out, err, end) =>
      match end
      case Exited(ok, code) =>
        if !ok then
          if detectAuth && AuthDetected(err) then Failed(AuthenticationRequired(AuthRequiredText))
          else Failed(ProcessFailed(code.UnwrapOr(-1)))
        else if out == [] then Done(NoOutputText)
        else Done(Join(out, "\n"))
      case WaitFailed(why) => Failed(SpawnFailed(why))
      case TimedOut => Failed(Timeout(timeoutSeconds))
  }

  /** How each kind of ending maps to an error. */
  lemma FailureMapping(a: Attempt, timeoutSeconds: nat, detectAuth: bool)
    requires a.Spawned?
    ensures a.end.TimedOut? ==> AttemptResult(a, timeoutSeconds, detectAuth) == Failed(Timeout(timeoutSeconds))
    ensures a.end.WaitFailed? ==> AttemptResult(a, timeoutSeconds, detectAuth) == Failed(SpawnFailed(a.end.reason))
    ensures a.end.Exited? && !a.end.success ==>
      (AttemptResult(a, timeoutSeconds, detectAuth).error.AuthenticationRequired? <==> detectAuth && AuthDetected(a.stderr))
    ensures a.end.Exited? && !a.end.success && !(detectAuth && AuthDetected(a.stderr)) ==>
      AttemptResult(a, timeoutSeconds, detectAuth) == Failed(ProcessFailed(if a.end.code.Some? then a.end.code.value else -1))
  {
  }

  /** `str::split('\n')`. */
  function SplitLines(s: string): (r: seq<string>)
    ensures |r| >= 1
  {
    if s == [] then [""]
    else
      var rest := SplitLines(s[1..]);
      if s[0] == '\n' then [""] + rest else [[s[0]] + rest[0]] + rest[1..]
  }

  predicate NoNewline(line: string)
  {
    forall i :: 0 <= i < |line| ==> line[i] != '\n'
  }

  lemma {:induction false} SplitAfterLine(a: string, b: string)
    requires NoNewline(a)
    ensures SplitLines(a + b) == [a + SplitLines(b)[0]] + SplitLines(b)[1..]
    decreases |a|
  {
    if a != [] {
      assert (a + b)[1..] == a[1..] + b;
      SplitAfterLine(a[1..], b);
      assert [a[0]] + (a[1..] + SplitLines(b)[0]) == a + SplitLines(b)[0];
    } else {
      assert a + b == b && a + SplitLines(b)[0] == SplitLines(b)[0];
      assert SplitLines(b) == [SplitLines(b)[0]] + SplitLines(b)[1..];
    }
  }

  /** Joining lines with "\n" and splitting at "\n" gives the lines back. */
  lemma {:induction false} SplitJoin(lines: seq<string>)
    requires |lines| >= 1
    requires forall i :: 0 <= i < |lines| ==> NoNewline(lines[i])
    ensures SplitLines(Join(lines, "\n")) == lines
    decreases |lines|
  {
    if |lines| == 1 {
      SplitAfterLine(lines[0], "");
      assert SplitLines("") == [""];
      assert lines[0] + "" == lines[0];
    } else {
      var rest := Join(lines[1..], "\n");
      assert Join(lines, "\n") == lines[0] + ("\n" + rest);
      SplitAfterLine(lines[0], "\n" + rest);
      assert ("\n" + rest)[0] == '\n' && ("\n" + rest)[1..] == rest;
      assert SplitLines("\n" + rest) == [""] + SplitLines(rest);
      assert lines[0] + "" == lines[0];
      SplitJoin(lines[1..]);
      assert lines == [lines[0]] + lines[1..];
    }
  }

  /** A successful attempt's result is the fixed text when stdout was empty,
      and otherwise the stdout lines themselves, recoverable by splitting. */
  lemma SuccessOutput(a: Attempt, timeoutSeconds: nat, detectAuth: bool)
    requires AttemptResult(a, timeoutSeconds, detectAuth).Done?
    requires forall i :: 0 <= i < |a.stdout| ==> NoNewline(a.stdout[i])
    ensures a.stdout == [] ==> AttemptResult(a, timeoutSeconds, detectAuth).output == NoOutputText
    ensures a.stdout != [] ==> SplitLines(AttemptResult(a, timeoutSeconds, detectAuth).output) == a.stdout
  {
    if a.stdout != [] {
      SplitJoin(a.stdout);
    }
  }

  // ---------------------------------------------------------------------
  // The retry loop

  /** The loop from attempt `k` on, after the attempts before it failed and
      the last of them with `last`. */
  function RetryFrom(attempt: nat -> RunResult, k: nat, max: nat, last: Option<AgentError>): RunResult
    decreases max + 1 - k
  {
    if k > max then Failed(last.UnwrapOr(RetriesExhausted))
    else if attempt(k).Done? then attempt(k)
    else RetryFrom(attempt, k + 1, max, Some(attempt(k).error))
  }

  /** `for attempt in 1..=max_retries`, returning the first success, else the last error. */
  function Retried(attempt: nat -> RunResult, max: nat): RunResult
  {
    RetryFrom(attempt, 1, max, None)
  }

  lemma {:induction false} RetryFromSucceedsIff(attempt: nat -> RunResult, k: nat, max: nat, last: Option<AgentError>)
    requires k >= 1
    ensures RetryFrom(attempt, k, max, last).Done? <==> exists j :: k <= j <= max && attempt(j).Done?
    decreases max + 1 - k
  {
    if k <= max && !attempt(k).Done? {
      RetryFromSucceedsIff(attempt, k + 1, max, Some(attempt(k).error));
      if exists j :: k <= j <= max && attempt(j).Done? {
        var j :| k <= j <= max && attempt(j).Done?;
        assert k + 1 <= j;
      }
    }
  }

  /** The loop succeeds exactly when one of its attempts does. */
  lemma RetrySucceedsIff(attempt: nat -> RunResult, max: nat)
    ensures Retried(attempt, max).Done? <==> exists k :: 1 <= k <= max && attempt(k).Done?
  {
    RetryFromSucceedsIff(attempt, 1, max, None);
  }

  lemma {:induction false} RetryFromFirstSuccess(attempt: nat -> RunResult, k: nat, j: nat, max: nat, last: Option<AgentError>)
    requires 1 <= k <= j <= max && attempt(j).Done?
    requires forall i :: k <= i < j ==> attempt(i).Failed?
    ensures RetryFrom(attempt, k, max, last) == attempt(j)
    decreases j - k
  {
    if k < j {
      RetryFromFirstSuccess(attempt, k + 1, j, max, Some(attempt(k).error));
    }
  }

  /** A success returns the first successful attempt's result. */
  lemma RetryStopsAtFirstSuccess(attempt: nat -> RunResult, max: nat, j: nat)
    requires 1 <= j <= max && attempt(j).Done?
    requires forall i :: 1 <= i < j ==> attempt(i).Failed?
    ensures Retried(attempt, max) == attempt(j)
  {
    RetryFromFirstSuccess(attempt, 1, j, max, None);
  }

  lemma {:induction false} RetryFromLastError(attempt: nat -> RunResult, k: nat, max: nat, last: Option<AgentError>)
    requires 1 <= k <= max
    requires forall i :: k <= i <= max ==> attempt(i).Failed?
    ensures RetryFrom(attempt, k, max, last) == attempt(max)
    decreases max - k
  {
    if k < max {
      RetryFromLastError(attempt, k + 1, max, Some(attempt(k).error));
    } else {
      assert RetryFrom(attempt, k + 1, max, Some(attempt(k).error)) == Failed(attempt(k).error);
    }
  }

  /** When every attempt fails the loop returns the last attempt's error, and
      with no attempt at all the fixed retry message. */
  lemma RetryReturnsLastError(attempt: nat -> RunResult, max: nat)
    requires forall i :: 1 <= i <= max ==> attempt(i).Failed?
    ensures max == 0 ==> Retried(attempt, max) == Failed(RetriesExhausted)
    ensures max > 0 ==> Retried(attempt, max) == attempt(max)
  {
    if max > 0 {
      RetryFromLastError(attempt, 1, max, None);
    }
  }

  /** How many attempts the loop makes from attempt `k` on. */
  function AttemptsFrom(attempt: nat -> RunResult, k: nat, max: nat): nat
    decreases max + 1 - k
  {
    if k > max then max
    else if attempt(k).Done? then k
    else AttemptsFrom(attempt, k + 1, max)
  }

  /** The attempt loop. `attempts` counts the spawn attempts made and `waits`
      the pauses between them. */
  method RetryLoop(attempt: nat -> RunResult, max: nat) returns (r: RunResult, attempts: nat, waits: nat)
    ensures r == Retried(attempt, max)
    ensures attempts <= max
    ensures forall k :: 1 <= k < attempts ==> attempt(k).Failed?
    ensures r.Done? ==> attempts >= 1 && r == attempt(attempts)
    ensures r.Failed? ==> attempts == max
    ensures attempts == AttemptsFrom(attempt, 1, max)
    ensures waits == if attempts == 0 then 0 else attempts - 1
  {
    var last: Option<AgentError> := None;
    attempts, waits := 0, 0;
    var k := 1;
    while k <= max
      invariant 1 <= k <= max + 1
      invariant attempts == k - 1
      invariant forall j :: 1 <= j < k ==> attempt(j).Failed?
      invariant waits == if k <= max then k - 1 else (if max == 0 then 0 else max - 1)
      invariant k > 1 ==> last == Some(attempt(k - 1).error)
      invariant k == 1 ==> last == None
      invariant Retried(attempt, max) == RetryFrom(attempt, k, max, last)
      invariant AttemptsFrom(attempt, 1, max) == AttemptsFrom(attempt, k, max)
      decreases max + 1 - k
    {
      var result := attempt(k);
      attempts := k;
      if result.Done? {
        return result, attempts, waits;
      }
      last := Some(result.error);
      if k < max {
        waits := waits + 1;
      }
      k := k + 1;
    }
    r := Failed(if last.Some? then last.value else RetriesExhausted);
  }

  // ---------------------------------------------------------------------
  // Before the first attempt

  /** A command line as spawned: program, arguments, working directory and
      the environment variables set on top of the inherited ones. */
  datatype Command = Command(program: string, args: seq<string>, cwd: Option<string>, env: map<string, string>)

  /** The host the adapter runs on (a Unix host, where the `which` lookup
      runs). `statOk(path)` tells whether reading the metadata of `path`
      succeeds, which it does for a directory and a plain file alike. */
  datatype Host = Host(
    statOk: string -> bool,
    which: string -> Option<bool>,
    run: (Command, nat) -> Attempt)

  predicate HasPathSeparator(path: string)
  {
    '/' in path || '\\' in path
  }

  /** The checks before the first attempt: the metadata of the working
      directory must be readable (a plain file of that name passes too); an
      executable given as a path must exist, and one given as a
      bare name must not be reported missing by `which` (a `which` that cannot
      run is no verdict). */
  function Preflight(executable: string, dir: Option<string>, host: Host): (e: Option<AgentError>)
    ensures e.None? <==>
      (dir.None? || host.statOk(dir.value))
      && (if HasPathSeparator(executable) then host.statOk(executable) else host.which(executable) != Some(false))
    ensures dir.Some? && !host.statOk(dir.value) ==> e == Some(DirectoryNotAccessible(dir.value))
    ensures e.Some? && !e.value.DirectoryNotAccessible? ==> e.value.ExecutableNotFound?
  {
    if dir.Some? && !host.statOk(dir.value) then Some(DirectoryNotAccessible(dir.value))
    else if HasPathSeparator(executable) then
      (if host.statOk(executable) then None else Some(ExecutableNotFound(executable)))
    else if host.which(executable) == Some(false) then Some(ExecutableNotFound("'" + executable + "' not found in PATH"))
    else None
  }

  /** What an adapter spawns besides the program: its arguments, the variable
      that carries its API key, and whether it inspects stderr for a missing login. */
  datatype Launch = Launch(args: seq<string>, keyVar: string, detectAuth: bool)

  function CommandFor(cfg: AgentConfig, launch: Launch, dir: Option<string>): (c: Command)
    ensures c.program == cfg.executable_path && c.args == launch.args && c.cwd == dir
    ensures c.env.Keys == if cfg.api_key.Some? then {launch.keyVar} else {}
  {
    Command(cfg.executable_path, launch.args, dir,
            if cfg.api_key.Some? then map[launch.keyVar := cfg.api_key.value] else map[])
  }

  /** The analysis directory: the project's, else the configured one. */
  function AnalysisDir(cfg: AgentConfig, wd: Option<string>): (d: Option<string>)
    ensures wd.Some? ==> d == wd
    ensures wd.None? ==> d == cfg.working_dir
  {
    if wd.Some? then wd else cfg.working_dir
  }

  /** The result of attempt `k`. */
  function AttemptOutcome(cfg: AgentConfig, launch: Launch, dir: Option<string>, host: Host): nat -> RunResult
  {
    (k: nat) => AttemptResult(host.run(CommandFor(cfg, launch, dir), k), cfg.timeout_seconds, launch.detectAuth)
  }

  /** `execute_*_agent`: the checks, then the attempts in the analysis directory. */
  function Executed(cfg: AgentConfig, launch: Launch, wd: Option<string>, host: Host): RunResult
  {
    var dir := AnalysisDir(cfg, wd);
    var problem := Preflight(cfg.executable_path, dir, host);
    if problem.Some? then Failed(problem.value)
    else Retried(AttemptOutcome(cfg, launch, dir, host), cfg.max_retries)
  }

  /** A check that fails stops the run before any attempt; otherwise the run
      succeeds exactly when one of the first `max_retries` attempts does. */
  lemma ExecutedSucceedsIff(cfg: AgentConfig, launch: Launch, wd: Option<string>, host: Host)
    ensures var dir := AnalysisDir(cfg, wd);
      Executed(cfg, launch, wd, host).Done? <==>
        Preflight(cfg.executable_path, dir, host).None?
        && exists k :: 1 <= k <= cfg.max_retries && AttemptOutcome(cfg, launch, dir, host)(k).Done?
  {
    RetrySucceedsIff(AttemptOutcome(cfg, launch, AnalysisDir(cfg, wd), host), cfg.max_retries);
  }

  /** How many attempts `execute_*_agent` makes: none when a check fails,
      else up to the first success, else all of them. */
  function AttemptsMade(cfg: AgentConfig, launch: Launch, wd: Option<string>, host: Host): nat
  {
    var dir := AnalysisDir(cfg, wd);
    if Preflight(cfg.executable_path, dir, host).Some? then 0
    else AttemptsFrom(AttemptOutcome(cfg, launch, dir, host), 1, cfg.max_retries)
  }

  method Execute(cfg: AgentConfig, launch: Launch, wd: Option<string>, host: Host) returns (r: RunResult, attempts: nat)
    ensures r == Executed(cfg, launch, wd, host)
    ensures attempts == AttemptsMade(cfg, launch, wd, host)
    ensures attempts <= cfg.max_retries
    ensures Preflight(cfg.executable_path, AnalysisDir(cfg, wd), host).Some? ==> attempts == 0
    ensures var outcome := AttemptOutcome(cfg, launch, AnalysisDir(cfg, wd), host);
      (forall k :: 1 <= k < attempts ==> outcome(k).Failed?)
      && (r.Done? ==> attempts >= 1 && r == outcome(attempts))
  {
    var dir := AnalysisDir(cfg, wd);
    var problem := Preflight(cfg.executable_path, dir, host);
    if problem.Some? {
      return Failed(problem.value), 0;
    }
    var waits;
    r, attempts, waits := RetryLoop(AttemptOutcome(cfg, launch, dir, host), cfg.max_retries);
  }

  // ---------------------------------------------------------------------
  // What the reader tasks push

  /** The entries the two reader tasks of attempt `k` push for what that
      attempt's process printed (defined by each adapter). */
  type Reader = (nat, Attempt) -> seq<StructuredLogEntry>

  /** Every entry is filed under `ticket`. */
  predicate Tagged(es: seq<StructuredLogEntry>, ticket: string)
  {
    forall i :: 0 <= i < |es| ==> es[i].ticket_id == ticket
  }

  /** A reader files every entry of every attempt under `ticket`. */
  ghost predicate ReadsFor(read: Reader, ticket: string)
  {
    forall k: nat, a: Attempt, i :: 0 <= i < |read(k, a)| ==> read(k, a)[i].ticket_id == ticket
  }

  /** The entries of attempts 1 to `n` of command `cmd`, attempt by attempt. */
  function AttemptsLogged(read: Reader, cmd: Command, host: Host, n: nat): seq<StructuredLogEntry>
  {
    if n == 0 then [] else AttemptsLogged(read, cmd, host, n - 1) + read(n, host.run(cmd, n))
  }

  /** The entries the reader tasks push during `execute_*_agent`: those of
      every attempt made, failed ones included. */
  function RunEntries(read: Reader, cfg: AgentConfig, launch: Launch, wd: Option<string>, host: Host): seq<StructuredLogEntry>
  {
    AttemptsLogged(read, CommandFor(cfg, launch, AnalysisDir(cfg, wd)), host, AttemptsMade(cfg, launch, wd, host))
  }

  lemma {:induction false} AttemptsLoggedTagged(read: Reader, cmd: Command, host: Host, n: nat, ticket: string)
    requires ReadsFor(read, ticket)
    ensures Tagged(AttemptsLogged(read, cmd, host, n), ticket)
  {
    if n > 0 {
      AttemptsLoggedTagged(read, cmd, host, n - 1, ticket);
      var es := AttemptsLogged(read, cmd, host, n);
      var init := AttemptsLogged(read, cmd, host, n - 1);
      var last := read(n, host.run(cmd, n));
      forall i | 0 <= i < |es|
        ensures es[i].ticket_id == ticket
      {
        if i >= |init| {
          assert es[i] == last[i - |init|];
        }
      }
    }
  }

  /** The entries of a run: none when a check fails before the first attempt,
      those of every attempt when all of them fail, and up to the attempt
      that succeeded otherwise. A reader that files under the ticket makes a
      run that does. */
  lemma RunEntriesOfAttempts(read: Reader, cfg: AgentConfig, launch: Launch, wd: Option<string>, host: Host, ticket: string)
    ensures var dir := AnalysisDir(cfg, wd); var cmd := CommandFor(cfg, launch, dir);
      var es := RunEntries(read, cfg, launch, wd, host);
      (Preflight(cfg.executable_path, dir, host).Some? ==> es == [])
      && (Preflight(cfg.executable_path, dir, host).None? && Executed(cfg, launch, wd, host).Failed? ==>
            es == AttemptsLogged(read, cmd, host, cfg.max_retries))
      && (Executed(cfg, launch, wd, host).Done? ==>
            exists j :: 1 <= j <= cfg.max_retries && es == AttemptsLogged(read, cmd, host, j)
                        && AttemptOutcome(cfg, launch, dir, host)(j) == Executed(cfg, launch, wd, host))
    ensures ReadsFor(read, ticket) ==> Tagged(RunEntries(read, cfg, launch, wd, host), ticket)
  {
    var dir := AnalysisDir(cfg, wd);
    var outcome := AttemptOutcome(cfg, launch, dir, host);
    if Preflight(cfg.executable_path, dir, host).None? {
      AttemptsFromCount(outcome, 1, cfg.max_retries, None);
    }
    if ReadsFor(read, ticket) {
      AttemptsLoggedTagged(read, CommandFor(cfg, launch, dir), host, AttemptsMade(cfg, launch, wd, host), ticket);
    }
  }

  /** The loop stops at the attempt whose result it returns, or after the
      last one when all fail. */
  lemma {:induction false} AttemptsFromCount(attempt: nat -> RunResult, k: nat, max: nat, last: Option<AgentError>)
    requires k >= 1
    ensures AttemptsFrom(attempt, k, max) <= max
    ensures RetryFrom(attempt, k, max, last).Failed? ==> AttemptsFrom(attempt, k, max) == max
    ensures RetryFrom(attempt, k, max, last).Done? ==>
      k <= AttemptsFrom(attempt, k, max) && RetryFrom(attempt, k, max, last) == attempt(AttemptsFrom(attempt, k, max))
    decreases max + 1 - k
  {
    if k <= max && !attempt(k).Done? {
      AttemptsFromCount(attempt, k + 1, max, Some(attempt(k).error));
    }
  }

  // ---------------------------------------------------------------------
  // The prompt

  const PromptWithoutContext := "Phân tích code để giúp QA " + "hiểu business flow. Câu hỏi: "
  const PromptContextHead := "Analyze the code in "
  const PromptContextTail := " to help QA understand the business flow. Question: "

  /** The text before the question: fixed without a code context, naming the
      context otherwise. */
  function PromptHead(codeContext: string): string
  {
    if codeContext == [] then PromptWithoutContext else PromptContextHead + codeContext + PromptContextTail
  }

  /** `create_analysis_prompt`. */
  function AnalysisPrompt(req: CodeAnalysisRequest): (p: string)
    ensures p == PromptHead(req.code_context) + req.question
  {
    PromptHead(req.code_context) + req.question
  }

  /** The template is chosen by whether there is a code context: only then
      does the prompt open with the English sentence, and it then embeds the
      context. The question always ends the prompt, and the prompt determines
      it once the context is known. */
  lemma PromptTemplate(req: CodeAnalysisRequest, other: CodeAnalysisRequest)
    ensures StartsWith(AnalysisPrompt(req), PromptContextHead) <==> req.code_context != []
    ensures req.code_context != [] ==> Contains(AnalysisPrompt(req), req.code_context)
    ensures var p := AnalysisPrompt(req); |req.question| <= |p| && p[|p| - |req.question|..] == req.question
    ensures AnalysisPrompt(req) == AnalysisPrompt(other) && req.code_context == other.code_context ==>
      req.question == other.question
  {
    var p := AnalysisPrompt(req);
    if req.code_context != [] {
      assert p == PromptContextHead + (req.code_context + PromptContextTail + req.question);
      assert p[..|PromptContextHead|] == PromptContextHead;
      ContainsAt(p, req.code_context, |PromptContextHead|);
    } else {
      assert p == PromptWithoutContext + req.question;
      assert PromptWithoutContext[0] == 'P';
      assert p[0] == 'P';
      assert PromptContextHead[0] == 'A';
    }
    assert p[|p| - |req.question|..] == req.question;
    if AnalysisPrompt(req) == AnalysisPrompt(other) && req.code_context == other.code_context {
      var h := PromptHead(req.code_context);
      assert req.question == p[|h|..];
    }
  }

  // ---------------------------------------------------------------------
  // Bookkeeping of `analyze_code`

  const CompletionText := "✅ Phân tích hoàn tất!"
  const ErrorLogPrefix := "❌ Lỗi: "
  const FailurePrefix := "Không thể phân tích code do lỗi: "

  /** The ticket created for a request whose ticket does not exist yet. */
  function AutoTicket(req: CodeAnalysisRequest, now: Timestamp): (t: TicketRecord)
    ensures t.id == req.ticket_id && t.project_id == req.project_id && t.status in TicketStatuses
    ensures t.is_analyzing && t.analysis_result.None? && t.required_approvals == 2
  {
    TicketRecord(req.ticket_id, req.project_id, "Auto-created", req.question, "in-progress",
                 Some(req.code_context), None, true, now, now, req.mode, None, None, 2)
  }

  /** The working directory of the run: the project's directory when the
      request names a project that exists. */
  function WorkingDirectory(projects: map<string, ProjectRecord>, projectId: string): (d: Option<string>)
    ensures d.Some? <==> projectId != [] && projectId in projects
    ensures d.Some? ==> d.value == projects[projectId].directory_path
  {
    if projectId != [] && projectId in projects then Some(projects[projectId].directory_path) else None
  }

  /** The tables and the message store's state, as one value. */
  datatype Backend = Backend(
    projects: map<string, ProjectRecord>,
    tickets: map<string, TicketRecord>,
    sessions: map<string, AnalysisSession>,
    buffer: map<string, seq<StructuredLogEntry>>,
    pending: seq<StructuredLogRecord>,
    sent: seq<StructuredLogEntry>)

  function Snapshot(store: MsgStore): (b: Backend)
    reads store, store.db
    ensures b.tickets == store.db.tickets && b.sessions == store.db.sessions && b.sent == store.sent
  {
    Backend(store.db.projects, store.db.tickets, store.db.sessions, store.buffer, store.pending, store.sent)
  }

  function Records(es: seq<StructuredLogEntry>): (rs: seq<StructuredLogRecord>)
    ensures |rs| == |es| && forall i :: 0 <= i < |es| ==> rs[i] == ToRecord(es[i])
  {
    seq(|es|, i requires 0 <= i < |es| => ToRecord(es[i]))
  }

  /** The state after pushing `es`, all of them entries of `ticket`. */
  function Pushed(b: Backend, ticket: string, es: seq<StructuredLogEntry>): (a: Backend)
    ensures a.sent == b.sent + es && a.tickets == b.tickets && a.sessions == b.sessions
    ensures a.projects == b.projects
  {
    if es == [] then b
    else b.(buffer := b.buffer[ticket := PushAll(Deque(b.buffer, ticket), es)],
       pending := b.pending + Records(es),
       sent := b.sent + es)
  }

  lemma {:induction false} PushAllAppend(d: seq<StructuredLogEntry>, es: seq<StructuredLogEntry>, fs: seq<StructuredLogEntry>)
    ensures PushAll(PushAll(d, es), fs) == PushAll(d, es + fs)
    decreases |es|
  {
    if es == [] {
      assert es + fs == fs;
    } else {
      assert (es + fs)[0] == es[0] && (es + fs)[1..] == es[1..] + fs;
      PushAllAppend(PushCapped(d, es[0]), es[1..], fs);
    }
  }

  lemma RecordsAppend(es: seq<StructuredLogEntry>, fs: seq<StructuredLogEntry>)
    ensures Records(es + fs) == Records(es) + Records(fs)
  {
    assert forall i | 0 <= i < |es + fs| :: Records(es + fs)[i] == (Records(es) + Records(fs))[i];
  }

  lemma PushedTwice(b: Backend, ticket: string, es: seq<StructuredLogEntry>, fs: seq<StructuredLogEntry>)
    ensures Pushed(Pushed(b, ticket, es), ticket, fs) == Pushed(b, ticket, es + fs)
  {
    if es == [] {
      assert es + fs == fs;
    } else if fs == [] {
      assert es + fs == es;
    } else {
      PushedBoth(b, ticket, es, fs);
    }
  }

  lemma PushedBoth(b: Backend, ticket: string, es: seq<StructuredLogEntry>, fs: seq<StructuredLogEntry>)
    requires es != [] && fs != []
    ensures Pushed(Pushed(b, ticket, es), ticket, fs) == Pushed(b, ticket, es + fs)
  {
    PushedBufferBoth(b, ticket, es, fs);
    PushedPendingBoth(b, ticket, es, fs);
  }

  lemma PushedBufferBoth(b: Backend, ticket: string, es: seq<StructuredLogEntry>, fs: seq<StructuredLogEntry>)
    requires es != [] && fs != []
    ensures Pushed(Pushed(b, ticket, es), ticket, fs).buffer == Pushed(b, ticket, es + fs).buffer
  {
    var d := Deque(b.buffer, ticket);
    var b1 := Pushed(b, ticket, es);
    assert Deque(b1.buffer, ticket) == PushAll(d, es);
    PushAllAppend(d, es, fs);
  }

  lemma PushedPendingBoth(b: Backend, ticket: string, es: seq<StructuredLogEntry>, fs: seq<StructuredLogEntry>)
    requires es != [] && fs != []
    ensures Pushed(Pushed(b, ticket, es), ticket, fs).pending == Pushed(b, ticket, es + fs).pending
  {
    RecordsAppend(es, fs);
  }

  /** One `push` of an entry of `ticket`. */
  method PushEntry(store: MsgStore, ticket: string, e: StructuredLogEntry)
    requires store.Valid() && e.ticket_id == ticket
    modifies store`buffer, store`pending, store`sent
    ensures store.Valid()
    ensures Snapshot(store) == Pushed(old(Snapshot(store)), ticket, [e])
  {
    ghost var before := Snapshot(store);
    store.Push(e);
    assert [e][1..] == [];
    assert PushAll(Deque(before.buffer, ticket), [e]) == PushCapped(Deque(before.buffer, ticket), e);
    assert Records([e]) == [ToRecord(e)];
  }

  /** The pushes of the attempts' reader tasks, in order. */
  method PushEntries(store: MsgStore, ticket: string, es: seq<StructuredLogEntry>)
    requires store.Valid()
    requires Tagged(es, ticket)
    modifies store`buffer, store`pending, store`sent
    ensures store.Valid()
    ensures Snapshot(store) == Pushed(old(Snapshot(store)), ticket, es)
  {
    ghost var before := Snapshot(store);
    assert Pushed(before, ticket, []) == before;
    var i := 0;
    while i < |es|
      invariant 0 <= i <= |es|
      invariant store.Valid()
      invariant Snapshot(store) == Pushed(before, ticket, es[..i])
    {
      PushEntry(store, ticket, es[i]);
      PushedTwice(before, ticket, es[..i], [es[i]]);
      assert es[..i + 1] == es[..i] + [es[i]];
      i := i + 1;
    }
    assert es[..i] == es;
  }

  /** The request, ids and times of one analysis run. */
  datatype AnalysisPlan = AnalysisPlan(
    req: CodeAnalysisRequest,
    sessionId: string,
    startLogId: string,
    endLogId: string,
    started: Timestamp,
    finished: Timestamp)

  /** The start line, normalised (it is not JSON). */
  function StartEntry(p: AnalysisPlan, startText: string): (e: StructuredLogEntry)
    ensures e.ticket_id == p.req.ticket_id && e.raw_log == Some(startText)
  {
    Normalized(startText, p.req.ticket_id, None, p.startLogId, p.started)
  }

  /** An existing ticket, or one the insert of the auto-created ticket accepts. */
  predicate TicketAvailable(b: Backend, t: TicketRecord)
  {
    t.id in b.tickets || (t.status in TicketStatuses && t.project_id in b.projects)
  }

  function Prepared(tickets: map<string, TicketRecord>, t: TicketRecord): (r: map<string, TicketRecord>)
    ensures t.id in r && (t.id in tickets ==> r == tickets)
  {
    if t.id in tickets then tickets else tickets[t.id := t]
  }

  function MarkAnalyzing(tickets: map<string, TicketRecord>, id: string, flag: bool, now: Timestamp): (r: map<string, TicketRecord>)
    ensures r.Keys == tickets.Keys
  {
    if id in tickets then tickets[id := tickets[id].(is_analyzing := flag, updated_at := now)] else tickets
  }

  datatype Stage = Stage(ok: bool, after: Backend)

  /** The running session an analysis opens. */
  function OpenedSession(p: AnalysisPlan): (r: AnalysisSession)
    ensures r.id == p.sessionId && r.ticket_id == p.req.ticket_id && r.status == "running"
  {
    AnalysisSession(p.sessionId, p.req.ticket_id, p.started, None, "running", None)
  }

  /** The steps before the run: create the ticket when it is missing (an error
      ends the request), create the session (likewise), set the flag and push
      the start line. A created ticket stays when the session insert fails. */
  function Begun(b: Backend, p: AnalysisPlan, startText: string): (s: Stage)
    ensures s.ok ==> p.req.ticket_id in s.after.tickets
    ensures s.ok ==> s.after.sent == b.sent + [StartEntry(p, startText)]
    ensures s.ok ==> p.sessionId !in b.sessions
    ensures s.ok ==> s.after.sessions == b.sessions[p.sessionId := OpenedSession(p)]
  {
    var auto := AutoTicket(p.req, p.started);
    var id := p.req.ticket_id;
    if !TicketAvailable(b, auto) then Stage(false, b)
    else
      var prepared := Prepared(b.tickets, auto);
      if p.sessionId in b.sessions then Stage(false, b.(tickets := prepared))
      else
        var inSession := b.(tickets := MarkAnalyzing(prepared, id, true, p.started),
                         sessions := b.sessions[p.sessionId := OpenedSession(p)]);
        Stage(true, Pushed(inSession, id, [StartEntry(p, startText)]))
  }

  /** The log line announcing the end of the run. */
  function FinalLog(outcome: RunResult): (s: string)
    ensures outcome.Done? ==> s == CompletionText
    ensures outcome.Failed? ==> s == ErrorLogPrefix + ErrorText(outcome.error)
  {
    if outcome.Done? then CompletionText else ErrorLogPrefix + ErrorText(outcome.error)
  }

  /** The final line normalised, typed Result after a success. */
  function FinalEntry(p: AnalysisPlan, outcome: RunResult): (e: StructuredLogEntry)
    ensures e.ticket_id == p.req.ticket_id && e.raw_log == Some(FinalLog(outcome))
    ensures e.message_type == Result <==> outcome.Done?
  {
    var e := Normalized(FinalLog(outcome), p.req.ticket_id, None, p.endLogId, p.finished);
    if outcome.Done? then e.(message_type := Result) else e
  }

  /** The response's `result`: the output, or the failure sentence. */
  function ResultText(outcome: RunResult): (s: string)
    ensures outcome.Done? ==> s == outcome.output
    ensures outcome.Failed? ==> s == FailurePrefix + ErrorText(outcome.error)
  {
    if outcome.Done? then outcome.output else FailurePrefix + ErrorText(outcome.error)
  }

  /** The ticket after the run: the output stored, or only the flag cleared. */
  function Concluded(tickets: map<string, TicketRecord>, id: string, outcome: RunResult, now: Timestamp): (r: map<string, TicketRecord>)
    ensures r.Keys == tickets.Keys
  {
    if id !in tickets then tickets
    else if outcome.Done? then tickets[id := tickets[id].(analysis_result := Some(outcome.output), is_analyzing := false, updated_at := now)]
    else tickets[id := tickets[id].(is_analyzing := false, updated_at := now)]
  }

  /** The session after the run: completed, or failed with the error text. */
  function Ended(sessions: map<string, AnalysisSession>, sid: string, outcome: RunResult, now: Timestamp): (r: map<string, AnalysisSession>)
    ensures r.Keys == sessions.Keys
  {
    if sid !in sessions then sessions
    else if outcome.Done? then sessions[sid := sessions[sid].(status := "completed", completed_at := Some(now))]
    else sessions[sid := sessions[sid].(status := "failed", completed_at := Some(now), error_message := Some(ErrorText(outcome.error)))]
  }

  /** The steps after the run: the reader tasks' entries `run`, the final
      line, then the session and the ticket. */
  function Finished(b: Backend, p: AnalysisPlan, run: seq<StructuredLogEntry>, outcome: RunResult): (a: Backend)
    ensures a.sent == b.sent + (run + [FinalEntry(p, outcome)])
    ensures a.tickets == Concluded(b.tickets, p.req.ticket_id, outcome, p.finished)
    ensures a.sessions == Ended(b.sessions, p.sessionId, outcome, p.finished)
  {
    var logged := Pushed(b, p.req.ticket_id, run + [FinalEntry(p, outcome)]);
    logged.(tickets := Concluded(b.tickets, p.req.ticket_id, outcome, p.finished),
            sessions := Ended(b.sessions, p.sessionId, outcome, p.finished))
  }

  datatype Analysed = Analysed(response: Option<CodeAnalysisResponse>, after: Backend)

  /** Ending a session touches that session alone: completed after a success,
      failed with the error text otherwise, stamped with the end time. */
  lemma EndedCloses(sessions: map<string, AnalysisSession>, sid: string, outcome: RunResult, now: Timestamp)
    requires sid in sessions
    ensures var after := Ended(sessions, sid, outcome, now);
      sid in after && after[sid].ticket_id == sessions[sid].ticket_id && after[sid].started_at == sessions[sid].started_at
      && after[sid].completed_at == Some(now)
      && (after[sid].status == "completed" <==> outcome.Done?)
      && (outcome.Failed? ==> after[sid].status == "failed" && after[sid].error_message == Some(ErrorText(outcome.error)))
      && (forall k | k in sessions && k != sid :: k in after && after[k] == sessions[k])
  {
  }

  /** `analyze_code` as a function of the state before it, the start line of
      the adapter, the entries its reader tasks pushed and the result of its run. */
  function Analysis(b: Backend, p: AnalysisPlan, startText: string, run: seq<StructuredLogEntry>, outcome: RunResult): (r: Analysed)
  {
    var begun := Begun(b, p, startText);
    if !begun.ok then Analysed(None, begun.after)
    else Analysed(Some(CodeAnalysisResponse(p.req.ticket_id, ResultText(outcome), [startText, FinalLog(outcome)], true)),
                  Finished(begun.after, p, run, outcome))
  }

  /** An analysis starts exactly when its ticket exists or can be created and
      its session id is fresh; one that cannot start opens no session and
      logs nothing. */
  lemma AnalysisStarts(b: Backend, p: AnalysisPlan, startText: string, run: seq<StructuredLogEntry>, outcome: RunResult)
    ensures Analysis(b, p, startText, run, outcome).response.Some? <==>
      TicketAvailable(b, AutoTicket(p.req, p.started)) && p.sessionId !in b.sessions
    ensures Analysis(b, p, startText, run, outcome).response.None? ==>
      Analysis(b, p, startText, run, outcome).after.sessions == b.sessions
      && Analysis(b, p, startText, run, outcome).after.sent == b.sent
  {
  }

  /** A started analysis leaves its ticket no longer analysing, with the output
      as its result after a success and its earlier result after a failure;
      no other ticket changes. */
  lemma AnalysisTicket(b: Backend, p: AnalysisPlan, startText: string, run: seq<StructuredLogEntry>, outcome: RunResult)
    requires Analysis(b, p, startText, run, outcome).response.Some?
    ensures var after := Analysis(b, p, startText, run, outcome).after.tickets; var id := p.req.ticket_id;
      id in after && !after[id].is_analyzing
      && (outcome.Done? ==> after[id].analysis_result == Some(outcome.output))
      && (outcome.Failed? ==> after[id].analysis_result == Prepared(b.tickets, AutoTicket(p.req, p.started))[id].analysis_result)
      && (forall k | k in after && k != id :: k in b.tickets && after[k] == b.tickets[k])
  {
  }

  /** A started analysis adds one session for its ticket and closes it at the
      end: completed after a success, failed with the error text otherwise;
      no other session changes. */
  lemma AnalysisSessionClosed(b: Backend, p: AnalysisPlan, startText: string, run: seq<StructuredLogEntry>, outcome: RunResult)
    requires Analysis(b, p, startText, run, outcome).response.Some?
    ensures var after := Analysis(b, p, startText, run, outcome).after.sessions; var sid := p.sessionId;
      sid in after && sid !in b.sessions
      && after[sid].ticket_id == p.req.ticket_id && after[sid].started_at == p.started
      && after[sid].completed_at == Some(p.finished)
      && (after[sid].status == "completed" <==> outcome.Done?)
      && (outcome.Failed? ==> after[sid].status == "failed" && after[sid].error_message == Some(ErrorText(outcome.error)))
      && (forall k | k in b.sessions :: k in after && after[k] == b.sessions[k])
  {
    var begun := Begun(b, p, startText);
    var begunSessions := begun.after.sessions;
    assert Analysis(b, p, startText, run, outcome).after.sessions == Ended(begunSessions, p.sessionId, outcome, p.finished);
    EndedCloses(begunSessions, p.sessionId, outcome, p.finished);
  }

  /** A started analysis reports success, announces its start and end lines
      and answers with the output after a success. */
  lemma AnalysisResponse(b: Backend, p: AnalysisPlan, startText: string, run: seq<StructuredLogEntry>, outcome: RunResult)
    requires Analysis(b, p, startText, run, outcome).response.Some?
    ensures var r := Analysis(b, p, startText, run, outcome).response.value;
      r.success && r.ticket_id == p.req.ticket_id
      && r.logs == [startText, FinalLog(outcome)]
      && (outcome.Done? ==> r.result == outcome.output)
      && (outcome.Failed? ==> r.result == FailurePrefix + ErrorText(outcome.error))
  {
  }

  /** A started analysis pushes the start line, the reader tasks' entries and
      the final line, in that order. */
  lemma AnalysisLogs(b: Backend, p: AnalysisPlan, startText: string, run: seq<StructuredLogEntry>, outcome: RunResult)
    requires Analysis(b, p, startText, run, outcome).response.Some?
    ensures Analysis(b, p, startText, run, outcome).after.sent
      == b.sent + [StartEntry(p, startText)] + run + [FinalEntry(p, outcome)]
  {
    var begun := Begun(b, p, startText);
    assert Analysis(b, p, startText, run, outcome).after.sent == begun.after.sent + (run + [FinalEntry(p, outcome)]);
    SeqAssoc(b.sent + [StartEntry(p, startText)], run, [FinalEntry(p, outcome)]);
  }

  lemma SeqAssoc<T>(a: seq<T>, b: seq<T>, c: seq<T>)
    ensures a + (b + c) == a + b + c
  {
  }

  /** The database half of the steps before the run. */
  method OpenSession(db: Database, req: CodeAnalysisRequest, sessionId: string, now: Timestamp)
    returns (r: Outcome<string>)
    requires db.Valid()
    modifies db`tickets, db`sessions
    ensures db.Valid()
    ensures var auto := AutoTicket(req, now);
      var avail := auto.id in old(db.tickets) || (auto.status in TicketStatuses && auto.project_id in db.projects);
      (r.Ok? <==> avail && sessionId !in old(db.sessions))
      && (!avail ==> db.tickets == old(db.tickets) && db.sessions == old(db.sessions))
      && (avail && !r.Ok? ==> db.tickets == Prepared(old(db.tickets), auto) && db.sessions == old(db.sessions))
      && (r.Ok? ==> db.tickets == MarkAnalyzing(Prepared(old(db.tickets), auto), req.ticket_id, true, now)
                    && db.sessions == old(db.sessions)[sessionId := AnalysisSession(sessionId, req.ticket_id, now, None, "running", None)])
  {
    var existing := db.GetTicket(req.ticket_id);
    if existing.None? {
      var created := db.CreateTicket(AutoTicket(req, now));
      if created.Err? {
        return Err(created.message);
      }
    }
    var session := db.CreateSession(req.ticket_id, sessionId, now);
    if session.Err? {
      return Err(session.message);
    }
    db.UpdateTicketAnalyzing(req.ticket_id, true, now);
    r := Ok(session.value);
  }

  /** The steps before the run. */
  method BeginAnalysis(store: MsgStore, p: AnalysisPlan, startText: string) returns (r: Outcome<string>)
    requires store.Valid()
    modifies store.db`tickets, store.db`sessions, store`buffer, store`pending, store`sent
    ensures store.Valid()
    ensures r.Ok? == Begun(old(Snapshot(store)), p, startText).ok
    ensures Snapshot(store) == Begun(old(Snapshot(store)), p, startText).after
  {
    r := OpenSession(store.db, p.req, p.sessionId, p.started);
    if r.Ok? {
      var entry := Normalize(startText, p.req.ticket_id, None, p.startLogId, p.started);
      PushEntry(store, p.req.ticket_id, entry);
    }
  }

  /** The database half of the steps after the run. */
  method CloseSession(db: Database, ticket: string, sessionId: string, outcome: RunResult, now: Timestamp)
    requires db.Valid()
    modifies db`tickets, db`sessions
    ensures db.Valid()
    ensures db.tickets == Concluded(old(db.tickets), ticket, outcome, now)
    ensures db.sessions == Ended(old(db.sessions), sessionId, outcome, now)
  {
    if outcome.Done? {
      db.CompleteSession(sessionId, now);
      db.UpdateTicketResult(ticket, outcome.output, now);
    } else {
      db.FailSession(sessionId, ErrorText(outcome.error), now);
      db.UpdateTicketAnalyzing(ticket, false, now);
    }
  }

  /** The steps after the run. */
  method FinishAnalysis(store: MsgStore, p: AnalysisPlan, run: seq<StructuredLogEntry>, outcome: RunResult)
    requires store.Valid() && Tagged(run, p.req.ticket_id)
    modifies store.db`tickets, store.db`sessions, store`buffer, store`pending, store`sent
    ensures store.Valid()
    ensures Snapshot(store) == Finished(old(Snapshot(store)), p, run, outcome)
  {
    ghost var before := Snapshot(store);
    PushEntries(store, p.req.ticket_id, run);
    PushFinal(store, p, outcome);
    PushedTwice(before, p.req.ticket_id, run, [FinalEntry(p, outcome)]);
    ghost var logged := Snapshot(store);
    assert logged == Pushed(before, p.req.ticket_id, run + [FinalEntry(p, outcome)]);
    CloseSession(store.db, p.req.ticket_id, p.sessionId, outcome, p.finished);
    assert Snapshot(store) == logged.(tickets := store.db.tickets, sessions := store.db.sessions);
  }

  /** The final line: normalised, then typed Result after a success. */
  method PushFinal(store: MsgStore, p: AnalysisPlan, outcome: RunResult)
    requires store.Valid()
    modifies store`buffer, store`pending, store`sent
    ensures store.Valid()
    ensures Snapshot(store) == Pushed(old(Snapshot(store)), p.req.ticket_id, [FinalEntry(p, outcome)])
  {
    var text := FinalLog(outcome);
    var entry := Normalize(text, p.req.ticket_id, None, p.endLogId, p.finished);
    if outcome.Done? {
      entry := entry.(message_type := Result);
    }
    PushEntry(store, p.req.ticket_id, entry);
  }

  /** `analyze_code` for an adapter with launch settings `launch`, reader
      tasks `read` and start line `startText`: the ticket and session, the
      attempts with what their reader tasks push, and the final line. */
  method RunAnalysis(store: MsgStore, cfg: AgentConfig, launch: Launch, read: Reader, host: Host,
                     p: AnalysisPlan, startText: string)
    returns (r: Outcome<CodeAnalysisResponse>)
    requires store.Valid() && ReadsFor(read, p.req.ticket_id)
    modifies store.db`tickets, store.db`sessions, store`buffer, store`pending, store`sent
    ensures store.Valid()
    ensures var wd := WorkingDirectory(old(store.db.projects), p.req.project_id);
      var a := Analysis(old(Snapshot(store)), p, startText, RunEntries(read, cfg, launch, wd, host), Executed(cfg, launch, wd, host));
      (r.Ok? <==> a.response.Some?) && (r.Ok? ==> r.value == a.response.value) && Snapshot(store) == a.after
  {
    var begun := BeginAnalysis(store, p, startText);
    if begun.Err? {
      return Err(begun.message);
    }
    var wd := WorkingDirectory(store.db.projects, p.req.project_id);
    var outcome, attempts := Execute(cfg, launch, wd, host);
    var run := AttemptsLogged(read, CommandFor(cfg, launch, AnalysisDir(cfg, wd)), host, attempts);
    RunEntriesOfAttempts(read, cfg, launch, wd, host, p.req.ticket_id);
    FinishAnalysis(store, p, run, outcome);
    r := Ok(CodeAnalysisResponse(p.req.ticket_id, ResultText(outcome), [startText, FinalLog(outcome)], true));
  }
}
