/**
 * The Gemini CLI adapter: its settings, its command line, and the stdout
 * task that merges the assistant's streamed deltas into one message before
 * pushing it. The checks, attempts, error mapping and bookkeeping are those
 * of module AgentCommon; this adapter is the one that reads a missing login
 * from stderr.
 */
module GeminiAgent {
  import opened Wrappers
  import opened Text
  import opened Json
  import opened Database
  import opened MessageStore
  import opened LogNormalizer
  import opened CodeAgent
  import opened AgentCommon
  import opened AgentStreams

  // ---------------------------------------------------------------------
  // Settings and command line

  const GeminiNames := EnvNames("GEMINI_AGENT_PATH", "GEMINI_AGENT_TIMEOUT", "GEMINI_AGENT_MAX_RETRIES",
                                "GEMINI_AGENT_WORKING_DIR", "GEMINI_AGENT_OUTPUT_FORMAT", "GEMINI_API_KEY")
  const GeminiExecutable := "gemini"
  const GeminiKeyVar := "GEMINI_API_KEY"
  const GeminiStartText := "🔄 Khởi động Gemini CLI..."

  /** `GeminiAgentConfig::from_env`. */
  function GeminiConfig(env: Env): (c: AgentConfig)
    ensures c.executable_path == (if "GEMINI_AGENT_PATH" in env then env["GEMINI_AGENT_PATH"] else GeminiExecutable)
    ensures c.working_dir == Var(env, "GEMINI_AGENT_WORKING_DIR")
    ensures c.output_format == FormatFromEnv(Var(env, "GEMINI_AGENT_OUTPUT_FORMAT"))
    ensures c.api_key == Var(env, GeminiKeyVar)
  {
    ConfigFromEnv(env, GeminiNames, GeminiExecutable)
  }

  /** With none of the GEMINI_AGENT_ variables set, `from_env` is `Default`:
      "gemini", 300 seconds, 2 attempts, no directory, stream-json. */
  lemma GeminiDefaults(env: Env)
    requires "GEMINI_AGENT_PATH" !in env && "GEMINI_AGENT_TIMEOUT" !in env && "GEMINI_AGENT_MAX_RETRIES" !in env
    requires "GEMINI_AGENT_WORKING_DIR" !in env && "GEMINI_AGENT_OUTPUT_FORMAT" !in env
    ensures GeminiConfig(env) == AgentConfig(GeminiExecutable, 300, 2, None, StreamJson, Var(env, GeminiKeyVar))
  {
    EnvDefaults(env, GeminiNames, GeminiExecutable);
  }

  /** `gemini -p <prompt>`: the CLI takes no output-format flag. */
  function GeminiArgs(prompt: string): (args: seq<string>)
    ensures |args| == 2 && args[0] == "-p" && args[1] == prompt
  {
    ["-p", prompt]
  }

  function GeminiLaunch(req: CodeAnalysisRequest): (l: Launch)
    ensures l.keyVar == GeminiKeyVar && l.detectAuth
  {
    Launch(GeminiArgs(AnalysisPrompt(req)), GeminiKeyVar, true)
  }

  /** The command line is the same whatever output format is configured, and
      it carries the request's prompt whole, so it tells the prompt back. */
  lemma GeminiCommandLine(cfg: AgentConfig, other: AgentConfig, req: CodeAnalysisRequest, dir: Option<string>)
    requires cfg.executable_path == other.executable_path && cfg.api_key == other.api_key
    ensures CommandFor(cfg, GeminiLaunch(req), dir) == CommandFor(other, GeminiLaunch(req), dir)
    ensures CommandFor(cfg, GeminiLaunch(req), dir).args == ["-p", AnalysisPrompt(req)]
  {
  }

  // ---------------------------------------------------------------------
  // Merging the assistant's deltas

  /** The members of an assistant `message` line that the merge reads. */
  datatype AssistantLine = AssistantLine(content: string, delta: Option<bool>, timestamp: Option<string>)

  /** A line is an assistant message when it parses as JSON whose `type` is the
      string "message" and whose `role` is the string "assistant"; a missing
      or non-string `content` reads as empty. */
  function AssistantOf(parsed: Option<Json>): (a: Option<AssistantLine>)
    ensures a.Some? <==> parsed.Some? && GetString(parsed.value, "type") == Some("message")
                         && GetString(parsed.value, "role") == Some("assistant")
    ensures a.Some? ==> a.value.delta == GetBool(parsed.value, "delta")
  {
    if parsed.Some? && GetString(parsed.value, "type") == Some("message")
       && GetString(parsed.value, "role") == Some("assistant")
    then Some(AssistantLine(GetString(parsed.value, "content").UnwrapOr(""),
                            GetBool(parsed.value, "delta"),
                            GetString(parsed.value, "timestamp")))
    else None
  }

  /** An assistant line with `delta: true`. */
  predicate IsDelta(parsed: Option<Json>)
  {
    AssistantOf(parsed).Some? && AssistantOf(parsed).value.delta == Some(true)
  }

  /** What the stdout task pushes: a line of the stream as it is, or a merged
      assistant message. */
  datatype Emitted = Forward(line: string) | MergedMsg(content: string, timestamp: string)

  /** The merged message as serde_json writes it (keys in sorted order). */
  function MergedLine(content: string, timestamp: string): (s: string)
    ensures |s| >= 2 && s[0] == '{'
  {
    RenderStringObject([("content", content), ("role", "assistant"), ("timestamp", timestamp), ("type", "message")])
  }

  /** The text that is normalized and pushed. */
  function Raw(e: Emitted): string
  {
    match e
    case Forward(line) => line
    case MergedMsg(c, ts) => MergedLine(c, ts)
  }

  function Raws(es: seq<Emitted>): (rs: seq<string>)
    ensures |rs| == |es|
  {
    if es == [] then [] else Raws(es[..|es| - 1]) + [Raw(es[|es| - 1])]
  }

  lemma RawsAppend(es: seq<Emitted>, e: Emitted)
    ensures Raws(es + [e]) == Raws(es) + [Raw(e)]
  {
    assert (es + [e])[..|es|] == es;
  }

  /** The buffered content and the timestamp of the last delta that had one. */
  datatype MergeState = MergeState(buffer: string, lastTimestamp: Option<string>)

  const Empty := MergeState("", None)

  datatype Scanned = Scanned(state: MergeState, emitted: seq<Emitted>)

  /** What one stdout line does to the merge state and what it pushes;
      `nowText` is the clock's RFC 3339 text, used when no delta gave a
      timestamp. */
  function Step(s: MergeState, line: string, parsed: Option<Json>, nowText: string): (r: Scanned)
    ensures |r.emitted| <= 1
  {
    match AssistantOf(parsed)
    case None => Scanned(s, [Forward(line)])
    case Some(a) =>
      if a.delta == Some(true) then
        Scanned(MergeState(s.buffer + a.content, if a.timestamp.Some? then a.timestamp else s.lastTimestamp), [])
      else if s.buffer != [] then
        Scanned(Empty, [MergedMsg(s.buffer + a.content, s.lastTimestamp.UnwrapOr(nowText))])
      else if a.content != [] then Scanned(s, [Forward(line)])
      else Scanned(s, [])
  }

  /** The state after `lines` and what they pushed, line by line from the start. */
  function MergeScan(lines: seq<string>, parse: string -> Option<Json>, nowText: string): Scanned
  {
    if lines == [] then Scanned(Empty, [])
    else
      var last := lines[|lines| - 1];
      var prev := MergeScan(lines[..|lines| - 1], parse, nowText);
      var step := Step(prev.state, last, parse(last), nowText);
      Scanned(step.state, prev.emitted + step.emitted)
  }

  /** At the end of the stream a non-empty buffer is pushed as one message. */
  function Flush(s: MergeState, nowText: string): (es: seq<Emitted>)
    ensures es != [] <==> s.buffer != []
  {
    if s.buffer != [] then [MergedMsg(s.buffer, s.lastTimestamp.UnwrapOr(nowText))] else []
  }

  /** Everything the stdout task pushes for these lines, in order. */
  function Merge(lines: seq<string>, parse: string -> Option<Json>, nowText: string): seq<Emitted>
  {
    var sc := MergeScan(lines, parse, nowText);
    sc.emitted + Flush(sc.state, nowText)
  }

  // Properties of the merge

  /** The assistant text a line carries: its content when it is an assistant
      message, nothing otherwise. */
  function LineText(parsed: Option<Json>): string
  {
    if AssistantOf(parsed).Some? then AssistantOf(parsed).value.content else ""
  }

  function AssistantText(lines: seq<string>, parse: string -> Option<Json>): string
  {
    if lines == [] then "" else AssistantText(lines[..|lines| - 1], parse) + LineText(parse(lines[|lines| - 1]))
  }

  /** The assistant text a pushed item carries. */
  function ItemText(e: Emitted, parse: string -> Option<Json>): string
  {
    match e
    case Forward(l) => LineText(parse(l))
    case MergedMsg(c, _) => c
  }

  function EmittedText(es: seq<Emitted>, parse: string -> Option<Json>): string
  {
    if es == [] then "" else EmittedText(es[..|es| - 1], parse) + ItemText(es[|es| - 1], parse)
  }

  lemma {:induction false} EmittedTextAppend(a: seq<Emitted>, b: seq<Emitted>, parse: string -> Option<Json>)
    ensures EmittedText(a + b, parse) == EmittedText(a, parse) + EmittedText(b, parse)
    decreases |b|
  {
    if b == [] {
      assert a + b == a;
    } else {
      var init, last := b[..|b| - 1], b[|b| - 1];
      assert (a + b)[..|a + b| - 1] == a + init;
      assert (a + b)[|a + b| - 1] == last;
      EmittedTextAppend(a, init, parse);
      calc {
        EmittedText(a + b, parse);
        EmittedText(a + init, parse) + ItemText(last, parse);
        EmittedText(a, parse) + EmittedText(init, parse) + ItemText(last, parse);
        EmittedText(a, parse) + (EmittedText(init, parse) + ItemText(last, parse));
        EmittedText(a, parse) + EmittedText(b, parse);
      }
    }
  }

  /** The lines of the stream that are not assistant messages. */
  function OtherLines(lines: seq<string>, parse: string -> Option<Json>): seq<string>
  {
    if lines == [] then []
    else
      var last := lines[|lines| - 1];
      OtherLines(lines[..|lines| - 1], parse) + (if AssistantOf(parse(last)).None? then [last] else [])
  }

  /** The pushed lines that are not assistant messages. */
  function Others(es: seq<Emitted>, parse: string -> Option<Json>): seq<string>
  {
    if es == [] then []
    else
      var last := es[|es| - 1];
      Others(es[..|es| - 1], parse) + (if last.Forward? && AssistantOf(parse(last.line)).None? then [last.line] else [])
  }

  lemma {:induction false} OthersAppend(a: seq<Emitted>, b: seq<Emitted>, parse: string -> Option<Json>)
    ensures Others(a + b, parse) == Others(a, parse) + Others(b, parse)
    decreases |b|
  {
    if b == [] {
      assert a + b == a;
    } else {
      var init := b[..|b| - 1];
      assert (a + b)[..|a + b| - 1] == a + init;
      assert (a + b)[|a + b| - 1] == b[|b| - 1];
      OthersAppend(a, init, parse);
    }
  }

  /** A pushed line is a stream line that is not a delta and, when it is an
      assistant message, has content; a merged message is never empty. */
  predicate WellEmitted(e: Emitted, lines: seq<string>, parse: string -> Option<Json>)
  {
    match e
    case Forward(l) =>
      l in lines && !IsDelta(parse(l)) && (AssistantOf(parse(l)).Some? ==> AssistantOf(parse(l)).value.content != [])
    case MergedMsg(c, _) => c != []
  }

  /** No text is lost or repeated: what is buffered plus what was pushed is
      the assistant text of the lines so far. */
  /** One step moves text from the line into the buffer or out to what it
      pushes, and loses none. */
  lemma StepKeepsText(s: MergeState, line: string, parse: string -> Option<Json>, nowText: string)
    ensures var step := Step(s, line, parse(line), nowText);
      EmittedText(step.emitted, parse) + step.state.buffer == s.buffer + LineText(parse(line))
  {
    var step := Step(s, line, parse(line), nowText);
    if step.emitted != [] {
      assert step.emitted[..0] == [];
      assert EmittedText(step.emitted, parse) == ItemText(step.emitted[0], parse);
    }
  }

  lemma Regroup(a: string, b: string, c: string, d: string, e: string)
    requires b + c == d + e
    ensures (a + b) + c == (a + d) + e
  {
    assert (a + b) + c == a + (b + c);
  }

  lemma {:induction false} ScanKeepsText(lines: seq<string>, parse: string -> Option<Json>, nowText: string)
    ensures var sc := MergeScan(lines, parse, nowText);
      EmittedText(sc.emitted, parse) + sc.state.buffer == AssistantText(lines, parse)
    decreases |lines|
  {
    if lines != [] {
      var last := lines[|lines| - 1];
      var init := lines[..|lines| - 1];
      var prev := MergeScan(init, parse, nowText);
      var step := Step(prev.state, last, parse(last), nowText);
      var sc := MergeScan(lines, parse, nowText);
      assert sc.emitted == prev.emitted + step.emitted && sc.state == step.state;
      ScanKeepsText(init, parse, nowText);
      EmittedTextAppend(prev.emitted, step.emitted, parse);
      StepKeepsText(prev.state, last, parse, nowText);
      Regroup(EmittedText(prev.emitted, parse), EmittedText(step.emitted, parse), step.state.buffer,
              prev.state.buffer, LineText(parse(last)));
    }
  }

  /** Lines that are not assistant messages are pushed unchanged and in order. */
  lemma {:induction false} ScanPassesOthers(lines: seq<string>, parse: string -> Option<Json>, nowText: string)
    ensures Others(MergeScan(lines, parse, nowText).emitted, parse) == OtherLines(lines, parse)
    decreases |lines|
  {
    if lines != [] {
      var last := lines[|lines| - 1];
      var init := lines[..|lines| - 1];
      var prev := MergeScan(init, parse, nowText);
      var step := Step(prev.state, last, parse(last), nowText);
      ScanPassesOthers(init, parse, nowText);
      OthersAppend(prev.emitted, step.emitted, parse);
      if step.emitted != [] {
        assert step.emitted == [step.emitted[0]];
        assert step.emitted[..0] == [];
      }
    }
  }

  lemma {:induction false} ScanWellEmitted(lines: seq<string>, parse: string -> Option<Json>, nowText: string)
    ensures forall k :: 0 <= k < |MergeScan(lines, parse, nowText).emitted| ==>
      WellEmitted(MergeScan(lines, parse, nowText).emitted[k], lines, parse)
    decreases |lines|
  {
    if lines != [] {
      var last := lines[|lines| - 1];
      var init := lines[..|lines| - 1];
      var prev := MergeScan(init, parse, nowText);
      var step := Step(prev.state, last, parse(last), nowText);
      ScanWellEmitted(init, parse, nowText);
      assert lines == init + [last];
      var all := MergeScan(lines, parse, nowText).emitted;
      assert all == prev.emitted + step.emitted;
      forall k | 0 <= k < |all|
        ensures WellEmitted(all[k], lines, parse)
      {
        if k < |prev.emitted| {
          assert all[k] == prev.emitted[k];
          assert WellEmitted(prev.emitted[k], init, parse);
          if all[k].Forward? {
            assert all[k].line in init;
          }
        } else {
          assert all[k] == step.emitted[0];
        }
      }
    }
  }

  /** The merge pushes all the assistant text: the text of what it pushes is
      the assistant text of the stream. */
  lemma MergeKeepsText(lines: seq<string>, parse: string -> Option<Json>, nowText: string)
    ensures EmittedText(Merge(lines, parse, nowText), parse) == AssistantText(lines, parse)
  {
    var sc := MergeScan(lines, parse, nowText);
    ScanKeepsText(lines, parse, nowText);
    EmittedTextAppend(sc.emitted, Flush(sc.state, nowText), parse);
    if sc.state.buffer != [] {
      var f := Flush(sc.state, nowText);
      assert f[..0] == [];
    }
  }

  /** Non-assistant lines, JSON or not, are pushed unchanged and in order. */
  lemma MergePassesOthers(lines: seq<string>, parse: string -> Option<Json>, nowText: string)
    ensures Others(Merge(lines, parse, nowText), parse) == OtherLines(lines, parse)
  {
    var sc := MergeScan(lines, parse, nowText);
    ScanPassesOthers(lines, parse, nowText);
    OthersAppend(sc.emitted, Flush(sc.state, nowText), parse);
    if sc.state.buffer != [] {
      var f := Flush(sc.state, nowText);
      assert f[..0] == [];
    }
  }

  /** No delta line is ever pushed by itself, no assistant line without
      content is pushed, every pushed line comes from the stream, and no
      merged message is empty. */
  lemma MergeNeverForwardsDeltas(lines: seq<string>, parse: string -> Option<Json>, nowText: string)
    ensures var m := Merge(lines, parse, nowText);
      forall k :: 0 <= k < |m| ==> WellEmitted(m[k], lines, parse)
  {
    var sc := MergeScan(lines, parse, nowText);
    ScanWellEmitted(lines, parse, nowText);
    var m := Merge(lines, parse, nowText);
    forall k | 0 <= k < |m|
      ensures WellEmitted(m[k], lines, parse)
    {
      if k < |sc.emitted| {
        assert m[k] == sc.emitted[k];
      } else {
        assert m[k] == Flush(sc.state, nowText)[0];
      }
    }
  }

  /** Without assistant messages the scan forwards every line and buffers nothing. */
  lemma {:induction false} PlainScan(lines: seq<string>, parse: string -> Option<Json>, nowText: string)
    requires forall i :: 0 <= i < |lines| ==> AssistantOf(parse(lines[i])).None?
    ensures MergeScan(lines, parse, nowText).state == Empty
    ensures Raws(MergeScan(lines, parse, nowText).emitted) == lines
    decreases |lines|
  {
    if lines != [] {
      var last := lines[|lines| - 1];
      var init := lines[..|lines| - 1];
      PlainScan(init, parse, nowText);
      var prev := MergeScan(init, parse, nowText);
      assert MergeScan(lines, parse, nowText) == Scanned(Empty, prev.emitted + [Forward(last)]);
      RawsAppend(prev.emitted, Forward(last));
      assert lines == init + [last];
    }
  }

  /** A stream without assistant messages is pushed line for line. */
  lemma PlainStreamPassesThrough(lines: seq<string>, parse: string -> Option<Json>, nowText: string)
    requires forall i :: 0 <= i < |lines| ==> AssistantOf(parse(lines[i])).None?
    ensures Raws(Merge(lines, parse, nowText)) == lines
  {
    PlainScan(lines, parse, nowText);
    var sc := MergeScan(lines, parse, nowText);
    assert Flush(sc.state, nowText) == [];
    assert Merge(lines, parse, nowText) == sc.emitted + [];
    assert sc.emitted + [] == sc.emitted;
  }

  predicate AllDeltas(ds: seq<string>, parse: string -> Option<Json>)
  {
    forall i :: 0 <= i < |ds| ==> IsDelta(parse(ds[i]))
  }

  /** The last timestamp the deltas carried. */
  function LastStamp(ds: seq<string>, parse: string -> Option<Json>): Option<string>
  {
    if ds == [] then None
    else
      var a := AssistantOf(parse(ds[|ds| - 1]));
      if a.Some? && a.value.timestamp.Some? then a.value.timestamp else LastStamp(ds[..|ds| - 1], parse)
  }

  /** A run of deltas pushes nothing and buffers all of its text with its last timestamp. */
  lemma {:induction false} DeltaRunBuffers(ds: seq<string>, parse: string -> Option<Json>, nowText: string)
    requires AllDeltas(ds, parse)
    ensures MergeScan(ds, parse, nowText) == Scanned(MergeState(AssistantText(ds, parse), LastStamp(ds, parse)), [])
    decreases |ds|
  {
    if ds != [] {
      var init := ds[..|ds| - 1];
      assert forall i :: 0 <= i < |init| ==> init[i] == ds[i];
      DeltaRunBuffers(init, parse, nowText);
      assert IsDelta(parse(ds[|ds| - 1]));
    }
  }

  /** Deltas followed by the final, non-delta assistant line become exactly one
      message: the deltas' text followed by the final line's, stamped with the
      last delta timestamp (else the clock). */
  lemma DeltasThenFinal(ds: seq<string>, f: string, parse: string -> Option<Json>, nowText: string)
    requires AllDeltas(ds, parse) && AssistantText(ds, parse) != []
    requires AssistantOf(parse(f)).Some? && !IsDelta(parse(f))
    ensures Merge(ds + [f], parse, nowText) ==
      [MergedMsg(AssistantText(ds, parse) + AssistantOf(parse(f)).value.content, LastStamp(ds, parse).UnwrapOr(nowText))]
  {
    DeltaRunBuffers(ds, parse, nowText);
    assert (ds + [f])[..|ds|] == ds && (ds + [f])[|ds|] == f;
  }

  /** Deltas at the end of the stream are flushed as one message, unless all
      of them were empty. */
  lemma DeltasFlushed(ds: seq<string>, parse: string -> Option<Json>, nowText: string)
    requires AllDeltas(ds, parse)
    ensures AssistantText(ds, parse) != [] ==>
      Merge(ds, parse, nowText) == [MergedMsg(AssistantText(ds, parse), LastStamp(ds, parse).UnwrapOr(nowText))]
    ensures AssistantText(ds, parse) == [] ==> Merge(ds, parse, nowText) == []
  {
    DeltaRunBuffers(ds, parse, nowText);
  }

  // ---------------------------------------------------------------------
  // The stdout task

  /** The body of the stdout loop for one line: the new buffer and timestamp,
      and what to push. */
  method MergeLine(currentContent: string, lastTimestamp: Option<string>, line: string, parsed: Option<Json>, nowText: string)
    returns (content: string, timestamp: Option<string>, emit: Option<Emitted>)
    ensures Step(MergeState(currentContent, lastTimestamp), line, parsed, nowText)
         == Scanned(MergeState(content, timestamp), if emit.Some? then [emit.value] else [])
  {
    content, timestamp := currentContent, lastTimestamp;
    if parsed.None? {
      return content, timestamp, Some(Forward(line));
    }
    var json := parsed.value;
    var msgType := GetString(json, "type").UnwrapOr("");
    if msgType == "message" {
      var role := GetString(json, "role");
      if role.Some? && role.value == "assistant" {
        var contentStr := GetString(json, "content").UnwrapOr("");
        var delta := GetBool(json, "delta");
        if delta.Some? && delta.value {
          content := content + contentStr;
          var ts := GetString(json, "timestamp");
          if ts.Some? {
            timestamp := ts;
          }
          return content, timestamp, None;
        }
        if currentContent != [] {
          var merged := currentContent + contentStr;
          emit := Some(MergedMsg(merged, if lastTimestamp.Some? then lastTimestamp.value else nowText));
          return "", None, emit;
        } else if contentStr != [] {
          return content, timestamp, Some(Forward(line));
        }
        return content, timestamp, None;
      }
    }
    return content, timestamp, Some(Forward(line));
  }

  /** The Gemini stdout task: every line is kept for the result, and what the
      merge decides is normalized and pushed. */
  method ReadGeminiStdout(store: MsgStore, ticket: string, lines: seq<string>, parse: string -> Option<Json>,
                          nowText: string, ids: nat -> string, clock: nat -> Timestamp)
    returns (output: seq<string>)
    requires store.Valid()
    modifies store`buffer, store`pending, store`sent
    ensures store.Valid()
    ensures output == lines
    ensures Snapshot(store) == Pushed(old(Snapshot(store)), ticket,
                                      LineEntries(Raws(Merge(lines, parse, nowText)), ticket, parse, ids, clock))
  {
    ghost var before := Snapshot(store);
    assert LineEntries([], ticket, parse, ids, clock) == [];
    output := [];
    var currentContent := "";
    var lastTimestamp: Option<string> := None;
    var emitted: seq<Emitted> := [];
    var i := 0;
    while i < |lines|
      invariant 0 <= i <= |lines|
      invariant store.Valid()
      invariant output == lines[..i]
      invariant MergeScan(lines[..i], parse, nowText) == Scanned(MergeState(currentContent, lastTimestamp), emitted)
      invariant Snapshot(store) == Pushed(before, ticket, LineEntries(Raws(emitted), ticket, parse, ids, clock))
    {
      var line := lines[i];
      PrefixStep(lines, i);
      output := output + [line];
      var emit;
      currentContent, lastTimestamp, emit := MergeLine(currentContent, lastTimestamp, line, parse(line), nowText);
      if emit.Some? {
        PushNext(store, ticket, before, Raws(emitted), Raw(emit.value), parse, ids, clock);
        RawsAppend(emitted, emit.value);
        emitted := emitted + [emit.value];
      }
      i := i + 1;
    }
    assert lines[..i] == lines;
    ghost var last := MergeState(currentContent, lastTimestamp);
    assert Merge(lines, parse, nowText) == emitted + Flush(last, nowText);
    if currentContent != [] {
      var flushed := MergedMsg(currentContent, if lastTimestamp.Some? then lastTimestamp.value else nowText);
      assert Flush(last, nowText) == [flushed];
      PushNext(store, ticket, before, Raws(emitted), Raw(flushed), parse, ids, clock);
      RawsAppend(emitted, flushed);
      emitted := emitted + [flushed];
    }
    assert emitted == Merge(lines, parse, nowText);
  }

  // ---------------------------------------------------------------------
  // analyze_code

  /** What the Gemini stdout task pushes for the lines it read: the merge with
      its final flush when the process exited and the task ran to the end,
      without the flush when the task was aborted (a timeout or a failed wait). */
  function GeminiPushed(a: Attempt, rd: Readers, k: nat): seq<Emitted>
    requires a.Spawned?
  {
    if a.end.Exited? then Merge(a.stdout, rd.parse, rd.clockText(k))
    else MergeScan(a.stdout, rd.parse, rd.clockText(k)).emitted
  }

  /** The reader tasks of the Gemini adapter. */
  function GeminiReader(ticket: string, rd: Readers): Reader
  {
    (k: nat, a: Attempt) => if a.Spawned? then TaskEntries(Raws(GeminiPushed(a, rd, k)), a.stderr, ticket, rd, k) else []
  }

  /** Every entry of the Gemini reader tasks is filed under the ticket. */
  lemma GeminiReaderFiles(ticket: string, rd: Readers)
    ensures ReadsFor(GeminiReader(ticket, rd), ticket)
  {
    forall k: nat, a: Attempt
      ensures Tagged(GeminiReader(ticket, rd)(k, a), ticket)
    {
      if a.Spawned? {
        TaskEntriesTagged(Raws(GeminiPushed(a, rd, k)), a.stderr, ticket, rd, k);
      }
    }
  }

  /** The two reader tasks of a Gemini process that exited, joined: the stdout
      lines are returned, a missing login is reported when stderr mentioned
      one, and the store receives what `GeminiReader` says. */
  method ReadGeminiAttempt(store: MsgStore, ticket: string, a: Attempt, rd: Readers, k: nat)
    returns (output: seq<string>, authErrorDetected: bool)
    requires store.Valid() && a.Spawned? && a.end.Exited?
    modifies store`buffer, store`pending, store`sent
    ensures store.Valid()
    ensures output == a.stdout && (authErrorDetected <==> AuthDetected(a.stderr))
    ensures Snapshot(store) == Pushed(old(Snapshot(store)), ticket, GeminiReader(ticket, rd)(k, a))
  {
    ghost var before := Snapshot(store);
    output := ReadGeminiStdout(store, ticket, a.stdout, rd.parse, rd.clockText(k), rd.outIds(k), rd.outClock(k));
    authErrorDetected := ReadStderr(store, ticket, a.stderr, rd.parse, rd.errIds(k), rd.errClock(k));
    PushedTwice(before, ticket, LineEntries(Raws(Merge(a.stdout, rd.parse, rd.clockText(k))), ticket, rd.parse, rd.outIds(k), rd.outClock(k)),
                LineEntries(StderrLines(a.stderr), ticket, rd.parse, rd.errIds(k), rd.errClock(k)));
  }

  /** `analyze_code` of the Gemini adapter, its reader tasks pushing the
      merged stdout and every stderr line of every attempt. */
  method AnalyzeCode(store: MsgStore, cfg: AgentConfig, host: Host, p: AnalysisPlan, rd: Readers)
    returns (r: Outcome<CodeAnalysisResponse>)
    requires store.Valid()
    modifies store.db`tickets, store.db`sessions, store`buffer, store`pending, store`sent
    ensures store.Valid()
    ensures var launch := GeminiLaunch(p.req);
      var wd := WorkingDirectory(old(store.db.projects), p.req.project_id);
      var a := Analysis(old(Snapshot(store)), p, GeminiStartText,
                        RunEntries(GeminiReader(p.req.ticket_id, rd), cfg, launch, wd, host), Executed(cfg, launch, wd, host));
      (r.Ok? <==> a.response.Some?) && (r.Ok? ==> r.value == a.response.value) && Snapshot(store) == a.after
  {
    GeminiReaderFiles(p.req.ticket_id, rd);
    r := RunAnalysis(store, cfg, GeminiLaunch(p.req), GeminiReader(p.req.ticket_id, rd), host, p, GeminiStartText);
  }

  /** A failed exit of the Gemini CLI is reported as a missing login exactly
      when stderr mentioned one. */
  lemma GeminiLoginFailure(a: Attempt, cfg: AgentConfig, req: CodeAnalysisRequest)
    requires a.Spawned? && a.end.Exited? && !a.end.success
    ensures AttemptResult(a, cfg.timeout_seconds, GeminiLaunch(req).detectAuth)
         == (if AuthDetected(a.stderr) then Failed(AuthenticationRequired(AuthRequiredText))
             else Failed(ProcessFailed(if a.end.code.Some? then a.end.code.value else -1)))
  {
  }
}
