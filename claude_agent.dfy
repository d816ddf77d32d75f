/**
 * The Claude Code adapter: its settings, the rewriting of the question by
 * mode, and its command line. It reads stdout line by line
 * (`AgentStreams.ReadStdout`) and does not look for a missing login.
 */
module ClaudeAgent {
  import opened Wrappers
  import opened Text
  import opened Database
  import opened MessageStore
  import opened CodeAgent
  import opened AgentCommon
  import opened AgentStreams

  // ---------------------------------------------------------------------
  // Settings

  const ClaudeNames := EnvNames("CLAUDE_AGENT_PATH", "CLAUDE_AGENT_TIMEOUT", "CLAUDE_AGENT_MAX_RETRIES",
                                "CLAUDE_AGENT_WORKING_DIR", "CLAUDE_AGENT_OUTPUT_FORMAT", "CLAUDE_API_KEY")
  const ClaudeExecutable := "claude"
  const ClaudeKeyVar := "CLAUDE_API_KEY"
  const ClaudeStartText := "🔄 Khởi động " + "Claude Code Agent..."

  /** `ClaudeAgentConfig::from_env`. */
  function ClaudeConfig(env: Env): (c: AgentConfig)
    ensures c.executable_path == (if "CLAUDE_AGENT_PATH" in env then env["CLAUDE_AGENT_PATH"] else ClaudeExecutable)
    ensures c.working_dir == Var(env, "CLAUDE_AGENT_WORKING_DIR")
    ensures c.output_format == FormatFromEnv(Var(env, "CLAUDE_AGENT_OUTPUT_FORMAT"))
    ensures c.api_key == Var(env, ClaudeKeyVar)
  {
    ConfigFromEnv(env, ClaudeNames, ClaudeExecutable)
  }

  /** With none of the CLAUDE_AGENT_ variables set, `from_env` is `Default`. */
  lemma ClaudeDefaults(env: Env)
    requires "CLAUDE_AGENT_PATH" !in env && "CLAUDE_AGENT_TIMEOUT" !in env && "CLAUDE_AGENT_MAX_RETRIES" !in env
    requires "CLAUDE_AGENT_WORKING_DIR" !in env && "CLAUDE_AGENT_OUTPUT_FORMAT" !in env
    ensures ClaudeConfig(env) == DefaultConfig(ClaudeExecutable, Var(env, ClaudeKeyVar))
  {
    EnvDefaults(env, ClaudeNames, ClaudeExecutable);
  }

  // ---------------------------------------------------------------------
  // The question by mode

  /** Every suffix opens with this header and then the mode's name in quotes. */
  const ModeHeader := "\n\nIMPORTANT: Bạn đang ở MODE "

  /** What follows the quoted mode name, per mode. */
  const PlanBody := ". Nhiệm vụ của bạn là TẠO RA MỘT PLAN CHI TIẾT "
    + "để implement yêu cầu này, KHÔNG ĐƯỢC implement code ngay. "
    + "Plan nên bao gồm:\n1. Phân tích requirements\n"
    + "2. Các bước cần thực hiện\n3. Files/modules cần modify\n"
    + "4. Rủi ro và cân nhắc\n5. Testing strategy\n\n"
    + "Viết plan dưới dạng markdown, chi tiết và dễ hiểu."

  const EditBody := ". Nhiệm vụ của bạn là IMPLEMENT/MODIFY CODE "
    + "để thực hiện yêu cầu này. Hãy tạo/sửa các files cần thiết."

  const AskBody := ". Nhiệm vụ của bạn là TRẢ LỜI câu hỏi về source code, "
    + "KHÔNG ĐƯỢC modify/implement code. Chỉ giải thích và phân tích."

  const PlanSuffix := ModeHeader + "'PLAN'" + PlanBody
  const EditSuffix := ModeHeader + "'EDIT'" + EditBody
  const AskSuffix := ModeHeader + "'ASK'" + AskBody

  /** "plan" and "edit" have their own instructions; every other mode is "ask". */
  function ModeSuffix(mode: string): (s: string)
    ensures |s| > |ModeHeader| + 1 && s[..|ModeHeader|] == ModeHeader
  {
    if mode == "plan" then PlanSuffix else if mode == "edit" then EditSuffix else AskSuffix
  }

  /** `prepare_request_by_mode`. */
  function PrepareRequestByMode(req: CodeAnalysisRequest): (r: CodeAnalysisRequest)
    ensures r.ticket_id == req.ticket_id && r.code_context == req.code_context
    ensures r.project_id == req.project_id && r.mode == req.mode
    ensures |r.question| > |req.question| && r.question[..|req.question|] == req.question
  {
    req.(question := req.question + ModeSuffix(req.mode))
  }

  /** The letter that names the mode in the rewritten question. */
  function ModeLetter(req: CodeAnalysisRequest): char
  {
    PrepareRequestByMode(req).question[|req.question| + |ModeHeader| + 1]
  }

  /** The rewritten question names PLAN exactly for "plan", EDIT exactly for
      "edit", and ASK for every other mode. */
  lemma ModeNamed(req: CodeAnalysisRequest)
    ensures ModeLetter(req) == 'P' <==> req.mode == "plan"
    ensures ModeLetter(req) == 'E' <==> req.mode == "edit"
    ensures ModeLetter(req) == 'A' <==> req.mode != "plan" && req.mode != "edit"
  {
    var q := PrepareRequestByMode(req).question;
    var h := |ModeHeader|;
    assert q == req.question + ModeSuffix(req.mode);
    assert q[|req.question| + h + 1] == ModeSuffix(req.mode)[h + 1];
    assert PlanSuffix[h + 1] == 'P' && EditSuffix[h + 1] == 'E' && AskSuffix[h + 1] == 'A';
  }

  /** Requests differing in anything are rewritten differently: the rewriting
      loses nothing of the question. */
  lemma RewriteInjective(a: CodeAnalysisRequest, b: CodeAnalysisRequest)
    requires PrepareRequestByMode(a) == PrepareRequestByMode(b)
    ensures a == b
  {
    var q := PrepareRequestByMode(a).question;
    assert a.mode == b.mode;
    var s := ModeSuffix(a.mode);
    assert q == a.question + s && q == b.question + s;
    assert a.question == q[..|q| - |s|];
    assert b.question == q[..|q| - |s|];
  }

  // ---------------------------------------------------------------------
  // The command line

  predicate Streams(f: OutputFormat)
  {
    f == StreamJson || f == StreamPartialOutput
  }

  /** `claude -p [format flags] [--verbose] <prompt>`. */
  function ClaudeArgs(f: OutputFormat, prompt: string): seq<string>
  {
    ["-p"] + FormatFlags(f) + (if Streams(f) then ["--verbose"] else []) + [prompt]
  }

  /** The arguments as `spawn_claude_process` adds them one by one. */
  method BuildClaudeArgs(f: OutputFormat, prompt: string) returns (args: seq<string>)
    ensures args == ClaudeArgs(f, prompt)
  {
    args := ["-p"];
    match f {
      case Text =>
      case Json =>
        args := args + ["--output-format"] + ["json"];
      case StreamJson =>
        args := args + ["--output-format"] + ["stream-json"];
      case StreamPartialOutput =>
        args := args + ["--output-format"] + ["stream-json"];
        args := args + ["--stream-partial-output"];
    }
    if f == StreamJson || f == StreamPartialOutput {
      args := args + ["--verbose"];
    }
    args := args + [prompt];
  }

  /** The arguments open with "-p" and end with the prompt; between them the
      flags ask for the configured format, `--verbose` is there exactly for
      the stream formats, and Text has no flag at all. So the arguments tell
      the format and the prompt back. */
  lemma ClaudeArgsRead(f: OutputFormat, prompt: string)
    ensures var a := ClaudeArgs(f, prompt);
      |a| >= 2 && a[0] == "-p" && a[|a| - 1] == prompt
      && FlagsFormat(a[1..|a| - 1]) == f
      && ("--verbose" in a[1..|a| - 1] <==> Streams(f))
      && (f == Text <==> |a| == 2)
  {
    var a := ClaudeArgs(f, prompt);
    var verbose: seq<string> := if Streams(f) then ["--verbose"] else [];
    assert a[1..|a| - 1] == FormatFlags(f) + verbose;
    FlagsRoundTrip(f, verbose);
    assert "--verbose" !in FormatFlags(f);
    FlagsRoundTrip(f, []);
  }

  lemma ClaudeArgsInjective(f: OutputFormat, p: string, g: OutputFormat, q: string)
    requires ClaudeArgs(f, p) == ClaudeArgs(g, q)
    ensures f == g && p == q
  {
    ClaudeArgsRead(f, p);
    ClaudeArgsRead(g, q);
  }

  /** What `spawn_claude_process` starts: the prompt of the rewritten request. */
  function ClaudeLaunch(f: OutputFormat, req: CodeAnalysisRequest): (l: Launch)
    ensures l.keyVar == ClaudeKeyVar && !l.detectAuth
  {
    Launch(ClaudeArgs(f, AnalysisPrompt(PrepareRequestByMode(req))), ClaudeKeyVar, false)
  }

  /** The prompt Claude is given is the template around the question with
      the mode's instructions after it, not the bare question. */
  lemma ClaudePrompt(cfg: AgentConfig, req: CodeAnalysisRequest, dir: Option<string>)
    ensures var a := CommandFor(cfg, ClaudeLaunch(cfg.output_format, req), dir).args;
      a[|a| - 1] == PromptHead(req.code_context) + req.question + ModeSuffix(req.mode)
  {
    ClaudeArgsRead(cfg.output_format, AnalysisPrompt(PrepareRequestByMode(req)));
  }

  // ---------------------------------------------------------------------
  // analyze_code

  /** `analyze_code` of the Claude adapter, its reader tasks pushing every
      line of every attempt. */
  method AnalyzeCode(store: MsgStore, cfg: AgentConfig, host: Host, p: AnalysisPlan, rd: Readers)
    returns (r: Outcome<CodeAnalysisResponse>)
    requires store.Valid()
    modifies store.db`tickets, store.db`sessions, store`buffer, store`pending, store`sent
    ensures store.Valid()
    ensures var launch := ClaudeLaunch(cfg.output_format, p.req);
      var wd := WorkingDirectory(old(store.db.projects), p.req.project_id);
      var a := Analysis(old(Snapshot(store)), p, ClaudeStartText,
                        RunEntries(LineReader(p.req.ticket_id, rd), cfg, launch, wd, host), Executed(cfg, launch, wd, host));
      (r.Ok? <==> a.response.Some?) && (r.Ok? ==> r.value == a.response.value) && Snapshot(store) == a.after
  {
    var modified := PrepareRequestByMode(p.req);
    var args := BuildClaudeArgs(cfg.output_format, AnalysisPrompt(modified));
    LineReaderFiles(p.req.ticket_id, rd);
    r := RunAnalysis(store, cfg, Launch(args, ClaudeKeyVar, false), LineReader(p.req.ticket_id, rd), host, p, ClaudeStartText);
  }

  /** A failed exit of Claude is a ProcessFailed with its exit code, whatever
      stderr said. */
  lemma ClaudeExitFailure(a: Attempt, cfg: AgentConfig, req: CodeAnalysisRequest)
    requires a.Spawned? && a.end.Exited? && !a.end.success
    ensures AttemptResult(a, cfg.timeout_seconds, ClaudeLaunch(cfg.output_format, req).detectAuth)
         == Failed(ProcessFailed(if a.end.code.Some? then a.end.code.value else -1))
  {
  }
}
