/**
 * The log normalizer: one raw output line of an analysis tool becomes a
 * typed, cleaned entry. A line that parses as JSON is typed by its `type`
 * and `role` members and kept verbatim; any other line is typed by a
 * priority cascade of patterns, cleaned, and mined for metadata.
 */
module LogNormalizer {
  import opened Wrappers
  import opened Text
  import opened Json
  import opened Patterns
  import opened MessageStore

  // ---------------------------------------------------------------------
  // JSON lines

  /** `value.get(key).and_then(as_str).unwrap_or("")`. */
  function Member(j: Json, key: string): (r: string)
    ensures GetString(j, key).Some? ==> r == GetString(j, key).value
    ensures GetString(j, key).None? ==> r == ""
  {
    GetString(j, key).UnwrapOr("")
  }

  /** The guard of the catch-all arm: an `error` member of any kind, or a
      `status` member that is the string "error". */
  predicate ErrorGuard(j: Json)
  {
    Get(j, "error").Some? || GetString(j, "status") == Some("error")
  }

  /** The classification match of `normalize_json_log`. */
  function JsonMessageType(j: Json): (t: LogMessageType)
    ensures t != Result
    ensures t == Assistant <==> Member(j, "type") == "message" && Member(j, "role") == "assistant"
    ensures t == ToolUse <==> Member(j, "type") == "tool_use"
    ensures t == Error ==> ErrorGuard(j)
  {
    var msgType, role := Member(j, "type"), Member(j, "role");
    if msgType == "message" && role == "assistant" then Assistant
    else if msgType == "message" && role == "user" then System
    else if msgType == "tool_use" then ToolUse
    else if msgType == "tool_result" then System
    else if msgType == "init" then System
    else if ErrorGuard(j) then Error
    else System
  }

  /** Outside the named (`type`, `role`) pairs the guard alone decides between
      Error and System; the guard covers the `"error"` type arm too, so an
      object of type "error" with neither an `error` member nor an error
      status is System. */
  lemma JsonGuardDecides(j: Json)
    requires !(Member(j, "type") == "message" && Member(j, "role") in {"assistant", "user"})
    requires Member(j, "type") !in {"tool_use", "tool_result", "init"}
    ensures JsonMessageType(j) == Error <==> ErrorGuard(j)
    ensures JsonMessageType(j) != Error ==> JsonMessageType(j) == System
  {
  }

  /** User messages, tool results and init lines are System whatever else they hold. */
  lemma JsonSystemRows(j: Json)
    requires (Member(j, "type") == "message" && Member(j, "role") == "user")
             || Member(j, "type") == "tool_result" || Member(j, "type") == "init"
    ensures JsonMessageType(j) == System
  {
  }

  const JsonMetadataKeys: seq<string> := ["tool_name", "tool_id", "timestamp", "session_id", "model"]

  /** A map with `key` when the value is present, empty otherwise. */
  function Entry(key: string, v: Option<string>): (m: map<string, string>)
    ensures v.Some? ==> m == map[key := v.value]
    ensures v.None? ==> m == map[]
  {
    if v.Some? then map[key := v.value] else map[]
  }

  /** One metadata insert: `key` with its value when that member is a string. */
  function Insert(m: map<string, string>, j: Json, key: string): map<string, string>
  {
    var v := GetString(j, key);
    if v.Some? then m[key := v.value] else m
  }

  /** The whitelisted members of a JSON line that are strings. */
  function JsonMetadata(j: Json): (m: map<string, string>)
    ensures forall k :: k in m ==> k in JsonMetadataKeys && GetString(j, k) == Some(m[k])
    ensures forall k :: k in JsonMetadataKeys && GetString(j, k).Some? ==> k in m
  {
    var m0 := Insert(map[], j, "tool_name");
    var m1 := Insert(m0, j, "tool_id");
    var m2 := Insert(m1, j, "timestamp");
    var m3 := Insert(m2, j, "session_id");
    Insert(m3, j, "model")
  }

  /** `normalize_json_log`: the type from the match, the line itself as
      content, and one metadata insert per whitelisted string member. */
  method NormalizeJsonLog(j: Json, raw: string) returns (t: LogMessageType, content: string, metadata: map<string, string>)
    ensures t == JsonMessageType(j)
    ensures content == raw
    ensures metadata == JsonMetadata(j)
  {
    metadata := map[];
    var toolName := GetString(j, "tool_name");
    if toolName.Some? { metadata := metadata["tool_name" := toolName.value]; }
    ghost var m0 := metadata;
    assert m0 == Insert(map[], j, "tool_name");
    var toolId := GetString(j, "tool_id");
    if toolId.Some? { metadata := metadata["tool_id" := toolId.value]; }
    ghost var m1 := metadata;
    assert m1 == Insert(m0, j, "tool_id");
    var timestamp := GetString(j, "timestamp");
    if timestamp.Some? { metadata := metadata["timestamp" := timestamp.value]; }
    ghost var m2 := metadata;
    assert m2 == Insert(m1, j, "timestamp");
    var sessionId := GetString(j, "session_id");
    if sessionId.Some? { metadata := metadata["session_id" := sessionId.value]; }
    ghost var m3 := metadata;
    assert m3 == Insert(m2, j, "session_id");
    var model := GetString(j, "model");
    if model.Some? { metadata := metadata["model" := model.value]; }
    assert metadata == Insert(m3, j, "model");
    content := raw;
    t := JsonMessageType(j);
  }

  // ---------------------------------------------------------------------
  // Plain-text classification

  /** The error pattern, or "error", "failed" or "exception" in any case. */
  predicate ErrorSignal(log: string)
  {
    Scan(log, ErrorAt).Some? || Contains(Lower(log), "error") || Contains(Lower(log), "failed")
    || Contains(Lower(log), "exception")
  }

  predicate ToolSignal(log: string)
  {
    Scan(log, ToolAt).Some? || Contains(Lower(log), "reading file") || Contains(Lower(log), "analyzing")
    || Contains(Lower(log), "processing") || Contains(Lower(log), "searching")
    || Contains(Lower(log), "executing")
  }

  predicate AssistantSignal(log: string)
  {
    StartsWith(Lower(log), "analysis:") || StartsWith(Lower(log), "found:")
    || StartsWith(Lower(log), "result:") || StartsWith(Lower(log), "summary:")
    || Contains(Lower(log), "explanation:") || Contains(Lower(log), "business flow")
    || Contains(Lower(log), "test case")
  }

  /** `classify`: Error before ToolUse before Assistant, System otherwise. */
  function Classify(log: string): (t: LogMessageType)
    ensures t != Result
  {
    if ErrorSignal(log) then Error
    else if ToolSignal(log) then ToolUse
    else if AssistantSignal(log) then Assistant
    else System
  }

  /** A line is an error line exactly when it contains ERROR, WARN, CRITICAL or
      FATAL, or "error", "failed" or "exception" in any case, whatever tool or
      assistant words it carries as well. */
  lemma ErrorLines(log: string)
    ensures Classify(log) == Error <==>
      (Contains(log, "ERROR") || Contains(log, "WARN") || Contains(log, "CRITICAL") || Contains(log, "FATAL")
       || Contains(Lower(log), "error") || Contains(Lower(log), "failed") || Contains(Lower(log), "exception"))
  {
    ErrorPatternIff(log);
  }

  /** Tool words are weaker than error words and stronger than assistant words. */
  lemma ClassifyPriority(log: string)
    ensures Classify(log) == ToolUse <==> !ErrorSignal(log) && ToolSignal(log)
    ensures Classify(log) == Assistant <==> !ErrorSignal(log) && !ToolSignal(log) && AssistantSignal(log)
    ensures Classify(log) == System <==> !ErrorSignal(log) && !ToolSignal(log) && !AssistantSignal(log)
  {
  }

  lemma LowerAppend(a: string, b: string)
    ensures Lower(a + b) == Lower(a) + Lower(b)
  {
    var l, r := Lower(a + b), Lower(a) + Lower(b);
    forall i | 0 <= i < |l| ensures l[i] == r[i] {
      if i < |a| {
        assert (a + b)[i] == a[i];
      } else {
        assert (a + b)[i] == b[i - |a|];
      }
    }
  }

  /** A lowercase word occurs in the lowercased line around it. */
  lemma LowerInfix(a: string, w: string, b: string)
    requires forall i :: 0 <= i < |w| ==> !('A' <= w[i] <= 'Z')
    ensures Contains(Lower(a + w + b), w)
  {
    assert Lower(w) == w;
    LowerAppend(a + w, b);
    LowerAppend(a, w);
    var s := Lower(a + w + b);
    assert s[|a|..][..|w|] == w;
    ContainsAt(s, w, |a|);
  }

  /** "error", "failed" or "exception", in any case and anywhere in a line,
      makes it an error line. */
  lemma ErrorWordAnywhere(a: string, w: string, b: string)
    requires w == "error" || w == "failed" || w == "exception"
    ensures Classify(a + w + b) == Error
  {
    LowerInfix(a, w, b);
    assert ErrorSignal(a + w + b);
  }

  /** In a line without error words, "reading file", "analyzing", "processing",
      "searching" or "executing" anywhere makes it a tool line. */
  lemma ToolWordAnywhere(a: string, w: string, b: string)
    requires w == "reading file" || w == "analyzing" || w == "processing" || w == "searching" || w == "executing"
    requires !ErrorSignal(a + w + b)
    ensures Classify(a + w + b) == ToolUse
  {
    ToolWordSignal(a, w, b);
  }

  lemma ToolWordSignal(a: string, w: string, b: string)
    requires w == "reading file" || w == "analyzing" || w == "processing" || w == "searching" || w == "executing"
    ensures ToolSignal(a + w + b)
  {
    if w == "reading file" {
      LowerInfix(a, "reading file", b);
    } else if w == "analyzing" {
      LowerInfix(a, "analyzing", b);
    } else if w == "processing" {
      LowerInfix(a, "processing", b);
    } else if w == "searching" {
      LowerInfix(a, "searching", b);
    } else {
      LowerInfix(a, "executing", b);
    }
  }

  // ---------------------------------------------------------------------
  // Content cleaning

  const ErrorPrefixes: seq<string> := ["ERROR:", "WARN:", "WARNING:"]
  const ToolPrefixWords: seq<string> := ["Using tool:", "Tool:", "Executing:"]

  /** Successive `replace(p, "")` for each prefix in turn. */
  function DeleteAll(s: string, ps: seq<string>): (r: string)
    requires forall k :: 0 <= k < |ps| ==> |ps[k]| > 0
    decreases |ps|
  {
    if ps == [] then s else DeleteAll(ReplaceAll(s, ps[0], ""), ps[1..])
  }

  /** The first three steps of `clean_content`: trim, remove escape
      sequences, collapse whitespace. */
  function Flattened(raw: string): (c: string)
    ensures Collapsed(c)
  {
    CollapseWhitespace(StripAnsi(Trim(raw)))
  }

  /** `clean_content`: the flattened line, and for error and tool lines with
      their prefixes deleted and trimmed again. */
  function CleanContent(raw: string, t: LogMessageType): (c: string)
    ensures c == [] || (!IsWhitespace(c[0]) && !IsWhitespace(c[|c| - 1]))
    ensures t != Error && t != ToolUse ==> Collapsed(c)
  {
    var f := Flattened(raw);
    CollapsedEnds(f);
    if t == Error then Trim(DeleteAll(f, ErrorPrefixes))
    else if t == ToolUse then Trim(DeleteAll(f, ToolPrefixWords))
    else f
  }

  /** A collapsed text neither starts nor ends with whitespace. */
  lemma CollapsedEnds(s: string)
    requires Collapsed(s)
    ensures s == [] || (!IsWhitespace(s[0]) && !IsWhitespace(s[|s| - 1]))
  {
    if s != [] {
      var first, last := 0, |s| - 1;
      assert IsWhitespace(s[first]) ==> 0 < first;
      assert IsWhitespace(s[last]) ==> last < |s| - 1;
    }
  }

  /** Characters a deletion of one pattern leaves are characters of the input. */
  lemma {:induction false} DeleteKeepsChars(s: string, pat: string, c: char)
    requires |pat| > 0 && c in ReplaceAll(s, pat, "")
    ensures c in s
    decreases |s|
  {
    if |s| >= |pat| {
      if s[..|pat|] == pat {
        DeleteKeepsChars(s[|pat|..], pat, c);
      } else if c != s[0] {
        DeleteKeepsChars(s[1..], pat, c);
      }
    }
  }

  lemma {:induction false} DeleteAllKeepsChars(s: string, ps: seq<string>, c: char)
    requires forall k :: 0 <= k < |ps| ==> |ps[k]| > 0
    requires c in DeleteAll(s, ps)
    ensures c in s
    decreases |ps|
  {
    if ps != [] {
      DeleteAllKeepsChars(ReplaceAll(s, ps[0], ""), ps[1..], c);
      DeleteKeepsChars(s, ps[0], c);
    }
  }

  lemma {:induction false} NonSpaceHas(s: string, c: char)
    requires !IsWhitespace(c)
    ensures c in s <==> c in NonSpace(s)
    decreases |s|
  {
    if s != [] {
      NonSpaceHas(s[1..], c);
      assert s == [s[0]] + s[1..];
    }
  }

  lemma {:induction false} NonSpaceJoin(words: seq<string>)
    requires forall k :: 0 <= k < |words| ==> NoWhitespace(words[k])
    ensures NonSpace(Join(words, " ")) == Concat(words)
    decreases |words|
  {
    if |words| == 1 {
      NonSpaceOfWord(words[0]);
      assert Concat(words) == words[0] + Concat([]);
    } else if |words| > 1 {
      NonSpaceJoin(words[1..]);
      NonSpaceAppend(words[0] + " ", Join(words[1..], " "));
      NonSpaceAppend(words[0], " ");
      NonSpaceOfWord(words[0]);
      assert NonSpace(" ") == [];
    }
  }

  /** Collapsing whitespace keeps every other character, in order. */
  lemma CollapseKeepsText(s: string)
    ensures NonSpace(CollapseWhitespace(s)) == NonSpace(s)
  {
    NonSpaceJoin(SplitWhitespace(s));
    SplitKeepsText(s);
  }

  lemma TrimKeepsText(s: string)
    ensures NonSpace(Trim(s)) == NonSpace(s)
  {
    var t := TrimStart(s);
    TrimStartKeepsText(s);
    var r := TrimEnd(t);
    assert t == r + t[|r|..];
    NonSpaceAppend(r, t[|r|..]);
    NonSpaceOfSpaces(t[|r|..]);
  }

  lemma TrimKeepsChars(s: string, c: char)
    requires c in Trim(s)
    ensures c in s
  {
    var t := TrimStart(s);
    assert Trim(s) == t[..|Trim(s)|];
  }

  /** When every escape character of the trimmed line opens a sequence, the
      content of the entry holds no escape character. */
  lemma FlattenedRemovesEscapes(raw: string)
    requires EscapesWellFormed(Trim(raw))
    ensures Esc !in Flattened(raw)
  {
    var plain := StripAnsi(Trim(raw));
    StripAnsiRemovesEscapes(Trim(raw));
    CollapseKeepsText(plain);
    NonSpaceHas(plain, Esc);
    NonSpaceHas(Flattened(raw), Esc);
  }

  lemma CleanRemovesEscapes(raw: string, t: LogMessageType)
    requires EscapesWellFormed(Trim(raw))
    ensures Esc !in CleanContent(raw, t)
  {
    FlattenedRemovesEscapes(raw);
    var f := Flattened(raw);
    if t == Error {
      if Esc in Trim(DeleteAll(f, ErrorPrefixes)) {
        TrimKeepsChars(DeleteAll(f, ErrorPrefixes), Esc);
        DeleteAllKeepsChars(f, ErrorPrefixes, Esc);
      }
    } else if t == ToolUse {
      if Esc in Trim(DeleteAll(f, ToolPrefixWords)) {
        TrimKeepsChars(DeleteAll(f, ToolPrefixWords), Esc);
        DeleteAllKeepsChars(f, ToolPrefixWords, Esc);
      }
    }
  }

  /** Assistant and System content loses only whitespace: a line without
      escape characters keeps every other character, in order. */
  lemma CleanKeepsText(raw: string, t: LogMessageType)
    requires t != Error && t != ToolUse
    requires Esc !in raw
    ensures NonSpace(CleanContent(raw, t)) == NonSpace(raw)
  {
    TrimKeepsText(raw);
    NonSpaceHas(raw, Esc);
    NonSpaceHas(Trim(raw), Esc);
    StripAnsiNoEscape(Trim(raw));
    CollapseKeepsText(Trim(raw));
  }

  // ---------------------------------------------------------------------
  // Metadata of plain-text lines

  const AnalysisTypes: seq<string> := ["business flow", "test case", "code review", "security", "performance"]

  /** The index of the first word of `ws` that occurs in `s`. */
  function FirstContained(s: string, ws: seq<string>): (r: Option<nat>)
    ensures r.Some? ==> r.value < |ws| && Contains(s, ws[r.value])
    ensures r.Some? ==> forall k :: 0 <= k < r.value ==> !Contains(s, ws[k])
    ensures r.None? <==> forall k :: 0 <= k < |ws| ==> !Contains(s, ws[k])
  {
    if ws == [] then None
    else if Contains(s, ws[0]) then Some(0)
    else match FirstContained(s, ws[1..])
      case None => None
      case Some(k) => Some(k + 1)
  }

  /** The severity word of the leftmost error-pattern match, lowercased. */
  function Severity(log: string): Option<string>
  {
    match Scan(log, ErrorAt)
    case None => None
    case Some((_, (k, _))) => Some(Lower(SeverityWords[k]))
  }

  /** The message the error pattern captures, trimmed, when it is not empty. */
  function ErrorMessage(log: string): Option<string>
  {
    match Scan(log, ErrorAt)
    case None => None
    case Some((_, (_, msg))) => if Trim(msg) == [] then None else Some(Trim(msg))
  }

  function FilePath(log: string): Option<string>
  {
    Capture(log, FileAt)
  }

  function ToolMetadata(log: string): map<string, string>
  {
    Entry("file_path", FilePath(log))
    + Entry("file_extension", if FilePath(log).Some? then Some(LastSegment(FilePath(log).value)) else None)
    + Entry("line_number", Capture(log, LineAt))
    + Entry("tool_name", Capture(log, ToolAt))
  }

  function ErrorMetadata(log: string): map<string, string>
  {
    Entry("severity", Severity(log)) + Entry("error_message", ErrorMessage(log))
    + Entry("error_code", Capture(log, CodeAt))
  }

  function AnalysisType(log: string): Option<string>
  {
    match FirstContained(Lower(log), AnalysisTypes)
    case None => None
    case Some(k) => Some(AnalysisTypes[k])
  }

  function Progress(log: string): Option<string>
  {
    if Contains(log, "%") then Capture(log, PercentAt) else None
  }

  function CompletionStatus(log: string): Option<string>
  {
    if ContainsAny(log, CompletionWords) then Some("completed") else None
  }

  /** The metadata `extract_metadata` derives from one type of line. */
  function TypeMetadata(log: string, t: LogMessageType): map<string, string>
  {
    match t
    case ToolUse => ToolMetadata(log)
    case Error => ErrorMetadata(log)
    case Assistant => Entry("analysis_type", AnalysisType(log))
    case System => Entry("progress", Progress(log)) + Entry("duration", Capture(log, DurationAt))
    case Result => Entry("status", CompletionStatus(log)) + Entry("duration", Capture(log, DurationAt))
  }

  /** The metadata `extract_metadata` derives from a plain-text line of type
      `t`: that type's entries and the timestamp found anywhere in the line. */
  function PlainMetadata(log: string, t: LogMessageType): map<string, string>
  {
    TypeMetadata(log, t) + Entry("log_timestamp", Capture(log, TimestampAt))
  }

  /** The analysis-type loop of `extract_metadata`: the types are tried in
      order and the first one the lowercased line contains is recorded. */
  method FindAnalysisType(log: string) returns (m: map<string, string>)
    ensures m == Entry("analysis_type", AnalysisType(log))
  {
    m := map[];
    var i := 0;
    while i < |AnalysisTypes|
      invariant 0 <= i <= |AnalysisTypes|
      invariant forall k :: 0 <= k < i ==> !Contains(Lower(log), AnalysisTypes[k])
      invariant m == map[]
    {
      if Contains(Lower(log), AnalysisTypes[i]) {
        m := m["analysis_type" := AnalysisTypes[i]];
        break;
      }
      i := i + 1;
    }
    assert FirstContained(Lower(log), AnalysisTypes).Some? ==> FirstContained(Lower(log), AnalysisTypes).value >= i;
  }

  /** The tool-use inserts of `extract_metadata`. */
  method ToolFields(log: string) returns (m: map<string, string>)
    ensures m == ToolMetadata(log)
  {
    m := PathFields(log);
    m := m + Entry("line_number", Capture(log, LineAt));
    m := m + Entry("tool_name", Capture(log, ToolAt));
  }

  /** The file path the tool line names, and the extension after its last dot. */
  method PathFields(log: string) returns (m: map<string, string>)
    ensures m == Entry("file_path", FilePath(log))
      + Entry("file_extension", if FilePath(log).Some? then Some(LastSegment(FilePath(log).value)) else None)
  {
    var path := Capture(log, FileAt);
    m := Entry("file_path", path);
    m := m + Entry("file_extension", if path.Some? then Some(LastSegment(path.value)) else None);
  }

  /** The error inserts of `extract_metadata`. */
  method ErrorFields(log: string) returns (m: map<string, string>)
    ensures m == ErrorMetadata(log)
  {
    m := SeverityFields(log);
    m := m + Entry("error_code", Capture(log, CodeAt));
  }

  /** The severity word and the message of the leftmost error-pattern match. */
  method SeverityFields(log: string) returns (m: map<string, string>)
    ensures m == Entry("severity", Severity(log)) + Entry("error_message", ErrorMessage(log))
  {
    var found := Scan(log, ErrorAt);
    var severity: Option<string> := None;
    var message: Option<string> := None;
    if found.Some? {
      severity := Some(Lower(SeverityWords[found.value.1.0]));
      var msg := Trim(found.value.1.1);
      if msg != [] { message := Some(msg); }
    }
    assert severity == Severity(log);
    assert message == ErrorMessage(log);
    m := Entry("severity", severity);
    m := m + Entry("error_message", message);
  }

  /** The inserts of `extract_metadata` for System and Result lines. */
  method ProgressFields(log: string, t: LogMessageType) returns (m: map<string, string>)
    requires t == System || t == Result
    ensures m == TypeMetadata(log, t)
  {
    m := map[];
    if t == System {
      if Contains(log, "%") {
        m := m + Entry("progress", Capture(log, PercentAt));
      }
      assert m == Entry("progress", Progress(log));
    } else {
      if ContainsAny(log, CompletionWords) { m := m["status" := "completed"]; }
      assert m == Entry("status", CompletionStatus(log));
    }
    m := m + Entry("duration", Capture(log, DurationAt));
  }

  /** `extract_metadata`: one insert per pattern that captures. */
  method ExtractMetadata(log: string, t: LogMessageType) returns (m: map<string, string>)
    ensures m == PlainMetadata(log, t)
  {
    if t == ToolUse {
      m := ToolFields(log);
    } else if t == Error {
      m := ErrorFields(log);
    } else if t == Assistant {
      m := FindAnalysisType(log);
    } else {
      m := ProgressFields(log, t);
    }
    m := m + Entry("log_timestamp", Capture(log, TimestampAt));
  }

  /** A tool line has a file extension exactly when it has a file path, and
      the extension is the one to four letters after the path's last dot. */
  lemma FileExtensionOfPath(log: string)
    ensures var m := ToolMetadata(log);
      ("file_path" in m <==> "file_extension" in m)
      && ("file_path" in m ==> m["file_extension"] == LastSegment(m["file_path"])
                               && 1 <= |m["file_extension"]| <= 4 && AllLetters(m["file_extension"]))
  {
    var p := FilePath(log);
    var e := if p.Some? then Some(LastSegment(p.value)) else None;
    ToolEntries(p, e, Capture(log, LineAt), Capture(log, ToolAt));
    if p.Some? {
      var r := Scan(log, FileAt).value;
      FileAtShape(log[r.0..]);
    }
  }

  lemma ToolEntries(p: Option<string>, e: Option<string>, l: Option<string>, n: Option<string>)
    ensures var m := Entry("file_path", p) + Entry("file_extension", e) + Entry("line_number", l) + Entry("tool_name", n);
      ("file_path" in m <==> p.Some?) && ("file_extension" in m <==> e.Some?)
      && (p.Some? ==> m["file_path"] == p.value) && (e.Some? ==> m["file_extension"] == e.value)
      && m.Keys <= {"file_path", "file_extension", "line_number", "tool_name"}
  {
  }

  /** A captured file path is the path inside the token after the keyword. */
  lemma FileAtShape(t: string)
    requires FileAt(t).Some?
    ensures var e := LastSegment(FileAt(t).value); 1 <= |e| <= 4 && AllLetters(e)
  {
    var k := FirstPrefix(t, FileKeywords).value;
    var u := t[|FileKeywords[k]|..];
    var v := u[SpaceLength(u)..];
    if StartsWith(v, "file:") && 5 < |v| && IsWhitespace(v[5]) && PathIn(Token(TrimStart(v[5..]))).Some? {
      PathExtension(Token(TrimStart(v[5..])));
    } else {
      PathExtension(Token(v));
    }
  }

  /** An error line has a severity exactly when it contains ERROR, WARN,
      CRITICAL or FATAL; the severity is the lowercased word of the leftmost
      match, and a "WARNING" reads as "warn". */
  lemma SeverityOfLine(log: string)
    ensures Severity(log).Some? <==>
      (Contains(log, "ERROR") || Contains(log, "WARN") || Contains(log, "CRITICAL") || Contains(log, "FATAL"))
    ensures Severity(log).Some? ==> Severity(log).value in ["error", "warn", "critical", "fatal"]
  {
    ErrorPatternIff(log);
    if Scan(log, ErrorAt).Some? {
      LowerSeverity(Scan(log, ErrorAt).value.1.0);
    }
  }

  lemma LowerSeverity(k: nat)
    requires k < |SeverityWords| && k != 2
    ensures Lower(SeverityWords[k]) in ["error", "warn", "critical", "fatal"]
  {
    var lowered := ["error", "warn", "critical", "fatal"];
    var w, l := SeverityWords[k], lowered[if k < 2 then k else k - 1];
    assert |w| == |l|;
    assert forall i | 0 <= i < |w| :: LowerChar(w[i]) == l[i];
    assert Lower(w) == l;
  }

  /** An assistant line's analysis type is the first word of the fixed list
      that the lowercased line contains, and there is none when it contains none. */
  lemma AnalysisTypeOfLine(log: string)
    ensures AnalysisType(log).None? <==> forall k :: 0 <= k < |AnalysisTypes| ==> !Contains(Lower(log), AnalysisTypes[k])
    ensures AnalysisType(log).Some? ==>
      exists k :: 0 <= k < |AnalysisTypes| && AnalysisType(log).value == AnalysisTypes[k]
        && Contains(Lower(log), AnalysisTypes[k])
        && forall k' :: 0 <= k' < k ==> !Contains(Lower(log), AnalysisTypes[k'])
  {
  }

  /** The keys each type of line can carry, besides its timestamp. */
  function TypeKeys(t: LogMessageType): set<string>
  {
    match t
    case ToolUse => {"file_path", "file_extension", "line_number", "tool_name"}
    case Error => {"severity", "error_message", "error_code"}
    case Assistant => {"analysis_type"}
    case System => {"progress", "duration"}
    case Result => {"status", "duration"}
  }

  /** A plain line's metadata carries only its type's keys and "log_timestamp". */
  lemma MetadataKeysByType(log: string, t: LogMessageType)
    ensures PlainMetadata(log, t).Keys <= TypeKeys(t) + {"log_timestamp"}
  {
    TypeKeysHold(log, t);
  }

  lemma TypeKeysHold(log: string, t: LogMessageType)
    ensures TypeMetadata(log, t).Keys <= TypeKeys(t)
  {
    match t
    case ToolUse =>
      var p := FilePath(log);
      ToolEntries(p, if p.Some? then Some(LastSegment(p.value)) else None, Capture(log, LineAt), Capture(log, ToolAt));
    case Error =>
      ErrorEntries(Severity(log), ErrorMessage(log), Capture(log, CodeAt));
    case Assistant =>
    case System =>
      PairEntries("progress", Progress(log), Capture(log, DurationAt));
    case Result =>
      PairEntries("status", CompletionStatus(log), Capture(log, DurationAt));
  }

  lemma ErrorEntries(s: Option<string>, m: Option<string>, c: Option<string>)
    ensures (Entry("severity", s) + Entry("error_message", m) + Entry("error_code", c)).Keys
      <= {"severity", "error_message", "error_code"}
  {
  }

  lemma PairEntries(key: string, a: Option<string>, d: Option<string>)
    ensures (Entry(key, a) + Entry("duration", d)).Keys <= {key, "duration"}
  {
  }

  // ---------------------------------------------------------------------
  // Normalization

  /** The entry `normalize` builds; `parsed` is what the JSON parser makes of
      the line, `id` the fresh identifier and `now` the clock reading. */
  function Normalized(raw: string, ticket: string, parsed: Option<Json>, id: string, now: Timestamp): StructuredLogEntry
  {
    match parsed
    case Some(j) => StructuredLogEntry(id, ticket, JsonMessageType(j), raw, Some(raw), JsonMetadata(j), now)
    case None =>
      var t := Classify(raw);
      StructuredLogEntry(id, ticket, t, CleanContent(raw, t), Some(raw), PlainMetadata(raw, t), now)
  }

  /** `normalize`. */
  method Normalize(raw: string, ticket: string, parsed: Option<Json>, id: string, now: Timestamp)
    returns (e: StructuredLogEntry)
    ensures e == Normalized(raw, ticket, parsed, id, now)
  {
    var t: LogMessageType;
    var content: string;
    var metadata: map<string, string>;
    if parsed.Some? {
      t, content, metadata := NormalizeJsonLog(parsed.value, raw);
    } else {
      t := Classify(raw);
      content := CleanContent(raw, t);
      metadata := ExtractMetadata(raw, t);
    }
    e := StructuredLogEntry(id, ticket, t, content, Some(raw), metadata, now);
  }

  /** Every entry keeps the raw line and the ticket; a JSON line is its own
      content; a plain line's content is trimmed; no line is typed Result. */
  lemma NormalizedKeepsLine(raw: string, ticket: string, parsed: Option<Json>, id: string, now: Timestamp)
    ensures var e := Normalized(raw, ticket, parsed, id, now);
      e.raw_log == Some(raw) && e.ticket_id == ticket && e.id == id && e.timestamp == now
      && e.message_type != Result
      && (parsed.Some? ==> e.content == raw)
      && (parsed.None? ==> e.content == [] || (!IsWhitespace(e.content[0]) && !IsWhitespace(e.content[|e.content| - 1])))
  {
  }

  /** A JSON line's metadata holds only whitelisted keys, each present exactly
      when the line has that member as a string. */
  lemma JsonMetadataWhitelist(raw: string, ticket: string, j: Json, id: string, now: Timestamp)
    ensures var m := Normalized(raw, ticket, Some(j), id, now).metadata;
      forall k :: k in m <==> k in JsonMetadataKeys && GetString(j, k).Some?
  {
  }
}
