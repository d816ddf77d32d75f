/**
 * The Cursor Agent adapter: its settings and its command line. It reads
 * stdout line by line (`AgentStreams.ReadStdout`), does not look for a
 * missing login, and passes the question to the prompt unchanged.
 */
module CursorAgent {
  import opened Wrappers
  import opened Text
  import opened Database
  import opened MessageStore
  import opened CodeAgent
  import opened AgentCommon
  import opened AgentStreams

  // ---------------------------------------------------------------------
  // Settings

  const CursorNames := EnvNames("CURSOR_AGENT_PATH", "CURSOR_AGENT_TIMEOUT", "CURSOR_AGENT_MAX_RETRIES",
                                "CURSOR_AGENT_WORKING_DIR", "CURSOR_AGENT_OUTPUT_FORMAT", "CURSOR_API_KEY")
  const CursorExecutable := "cursor-agent"
  const CursorKeyVar := "CURSOR_API_KEY"
  const CursorStartText := "🔄 Khởi động " + "Cursor Agent..."

  /** `CursorAgentConfig::from_env`. */
  function CursorConfig(env: Env): (c: AgentConfig)
    ensures c.executable_path == (if "CURSOR_AGENT_PATH" in env then env["CURSOR_AGENT_PATH"] else CursorExecutable)
    ensures c.working_dir == Var(env, "CURSOR_AGENT_WORKING_DIR")
    ensures c.output_format == FormatFromEnv(Var(env, "CURSOR_AGENT_OUTPUT_FORMAT"))
    ensures c.api_key == Var(env, CursorKeyVar)
  {
    ConfigFromEnv(env, CursorNames, CursorExecutable)
  }

  /** With none of the CURSOR_AGENT_ variables set, `from_env` is `Default`:
      "cursor-agent", 300 seconds, 2 attempts, no directory, stream-json. */
  lemma CursorDefaults(env: Env)
    requires "CURSOR_AGENT_PATH" !in env && "CURSOR_AGENT_TIMEOUT" !in env && "CURSOR_AGENT_MAX_RETRIES" !in env
    requires "CURSOR_AGENT_WORKING_DIR" !in env && "CURSOR_AGENT_OUTPUT_FORMAT" !in env
    ensures CursorConfig(env) == AgentConfig(CursorExecutable, 300, 2, None, StreamJson, Var(env, CursorKeyVar))
  {
    EnvDefaults(env, CursorNames, CursorExecutable);
  }

  // ---------------------------------------------------------------------
  // The command line

  /** `cursor-agent -p [format flags] <prompt>`. */
  function CursorArgs(f: OutputFormat, prompt: string): seq<string>
  {
    ["-p"] + FormatFlags(f) + [prompt]
  }

  /** The arguments as `spawn_cursor_process` adds them one by one. */
  method BuildCursorArgs(f: OutputFormat, prompt: string) returns (args: seq<string>)
    ensures args == CursorArgs(f, prompt)
  {
    args := ["-p"];
    match f {
      case Text =>
      case Json =>
        args := args + ["--output-format"] + ["json"];
      case StreamJson =>
        args := args + ["--output-format"] + ["stream-json"];
      case StreamPartialOutput =>
        args := args + ["--output-format"] + ["stream-json"];
        args := args + ["--stream-partial-output"];
    }
    args := args + [prompt];
  }

  /** The arguments open with "-p" and end with the prompt; between them are
      only the flags that ask for the configured format (none for Text), and
      never `--verbose`. */
  lemma CursorArgsRead(f: OutputFormat, prompt: string)
    ensures var a := CursorArgs(f, prompt);
      |a| >= 2 && a[0] == "-p" && a[|a| - 1] == prompt
      && a[1..|a| - 1] == FormatFlags(f)
      && FlagsFormat(a[1..|a| - 1]) == f
      && "--verbose" !in a[1..|a| - 1]
      && (f == Text <==> |a| == 2)
  {
    var a := CursorArgs(f, prompt);
    assert a[1..|a| - 1] == FormatFlags(f) + [];
    FlagsRoundTrip(f, []);
  }

  /** Two command lines are equal only for the same format and prompt. */
  lemma CursorArgsInjective(f: OutputFormat, p: string, g: OutputFormat, q: string)
    requires CursorArgs(f, p) == CursorArgs(g, q)
    ensures f == g && p == q
  {
    CursorArgsRead(f, p);
    CursorArgsRead(g, q);
  }

  /** What `spawn_cursor_process` starts: the prompt of the request as given. */
  function CursorLaunch(f: OutputFormat, req: CodeAnalysisRequest): (l: Launch)
    ensures l.keyVar == CursorKeyVar && !l.detectAuth
  {
    Launch(CursorArgs(f, AnalysisPrompt(req)), CursorKeyVar, false)
  }

  /** The command runs the configured executable in the analysis directory,
      with the request's prompt last and the API key, when set, as the only
      added variable. */
  lemma CursorCommand(cfg: AgentConfig, req: CodeAnalysisRequest, dir: Option<string>)
    ensures var c := CommandFor(cfg, CursorLaunch(cfg.output_format, req), dir);
      c.program == cfg.executable_path && c.cwd == dir
      && c.args[|c.args| - 1] == PromptHead(req.code_context) + req.question
      && (cfg.api_key.Some? <==> CursorKeyVar in c.env)
      && (cfg.api_key.Some? ==> c.env[CursorKeyVar] == cfg.api_key.value)
  {
    CursorArgsRead(cfg.output_format, AnalysisPrompt(req));
  }

  // ---------------------------------------------------------------------
  // analyze_code

  /** `analyze_code` of the Cursor adapter, its reader tasks pushing every
      line of every attempt. */
  method AnalyzeCode(store: MsgStore, cfg: AgentConfig, host: Host, p: AnalysisPlan, rd: Readers)
    returns (r: Outcome<CodeAnalysisResponse>)
    requires store.Valid()
    modifies store.db`tickets, store.db`sessions, store`buffer, store`pending, store`sent
    ensures store.Valid()
    ensures var launch := CursorLaunch(cfg.output_format, p.req);
      var wd := WorkingDirectory(old(store.db.projects), p.req.project_id);
      var a := Analysis(old(Snapshot(store)), p, CursorStartText,
                        RunEntries(LineReader(p.req.ticket_id, rd), cfg, launch, wd, host), Executed(cfg, launch, wd, host));
      (r.Ok? <==> a.response.Some?) && (r.Ok? ==> r.value == a.response.value) && Snapshot(store) == a.after
  {
    var args := BuildCursorArgs(cfg.output_format, AnalysisPrompt(p.req));
    LineReaderFiles(p.req.ticket_id, rd);
    r := RunAnalysis(store, cfg, Launch(args, CursorKeyVar, false), LineReader(p.req.ticket_id, rd), host, p, CursorStartText);
  }

  /** A failed exit of the Cursor CLI is a ProcessFailed with its exit code
      (-1 when killed by a signal), whatever stderr said. */
  lemma CursorExitFailure(a: Attempt, cfg: AgentConfig, req: CodeAnalysisRequest)
    requires a.Spawned? && a.end.Exited? && !a.end.success
    ensures AttemptResult(a, cfg.timeout_seconds, CursorLaunch(cfg.output_format, req).detectAuth)
         == Failed(ProcessFailed(if a.end.code.Some? then a.end.code.value else -1))
  {
  }
}
