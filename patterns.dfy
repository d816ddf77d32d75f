/**
 * The regular expressions of the log normalizer, each written out as the
 * match the `regex` crate finds: a per-position matcher (what the pattern
 * matches when it starts at the front of a text, after the engine's
 * leftmost-first choice among alternatives and greedy repetitions), and
 * `Scan`, which tries every start position from the left.
 */
module Patterns {
  import opened Wrappers
  import opened Text

  /** Leftmost-first search: the first start position at which `at` matches,
      with what it captures there. */
  function Scan<T>(s: string, at: string -> Option<T>): (r: Option<(nat, T)>)
    ensures r.Some? ==> r.value.0 <= |s| && at(s[r.value.0..]) == Some(r.value.1)
    ensures r.Some? ==> forall j :: 0 <= j < r.value.0 ==> at(s[j..]).None?
    ensures r.None? <==> forall j :: 0 <= j <= |s| ==> at(s[j..]).None?
    decreases |s|
  {
    assert s[0..] == s;
    if at(s).Some? then Some((0, at(s).value))
    else if s == [] then None
    else
      assert forall j :: 1 <= j <= |s| ==> s[1..][j - 1..] == s[j..];
      match Scan(s[1..], at)
      case None => None
      case Some((j, v)) => Some((j + 1, v))
  }

  /** What the leftmost match captures, if the pattern matches at all. */
  function Capture<T>(s: string, at: string -> Option<T>): (r: Option<T>)
    ensures r.Some? <==> Scan(s, at).Some?
    ensures r.Some? ==> r.value == Scan(s, at).value.1
  {
    match Scan(s, at)
    case None => None
    case Some((_, v)) => Some(v)
  }

  /** Length of the longest prefix of `t` whose characters all satisfy `p`:
      what a greedy `[...]*` takes. */
  function RunLength(t: string, p: char -> bool): (n: nat)
    ensures n <= |t|
    ensures forall i :: 0 <= i < n ==> p(t[i])
    ensures n < |t| ==> !p(t[n])
  {
    if t == [] || !p(t[0]) then 0 else 1 + RunLength(t[1..], p)
  }

  /** An alternation of literal words: the index of the first word, in the
      order written, that `t` starts with. */
  function FirstPrefix(t: string, ps: seq<string>): (r: Option<nat>)
    ensures r.Some? ==> r.value < |ps| && StartsWith(t, ps[r.value])
    ensures r.Some? ==> forall k :: 0 <= k < r.value ==> !StartsWith(t, ps[k])
    ensures r.None? <==> forall k :: 0 <= k < |ps| ==> !StartsWith(t, ps[k])
  {
    if ps == [] then None
    else if StartsWith(t, ps[0]) then Some(0)
    else match FirstPrefix(t, ps[1..])
      case None => None
      case Some(k) => Some(k + 1)
  }

  function Min(a: nat, b: nat): nat { if a <= b then a else b }

  predicate NotNewline(c: char) { c != '\n' }

  /** `.*`: everything up to the next line feed. */
  function LineText(t: string): (r: string)
    ensures |r| <= |t| && r == t[..|r|] && '\n' !in r
    ensures |r| < |t| ==> t[|r|] == '\n'
  {
    t[..RunLength(t, NotNewline)]
  }

  /** The maximal run of non-whitespace at the front of `t`. */
  function Token(t: string): (r: string)
    ensures |r| <= |t| && r == t[..|r|] && NoWhitespace(r)
    ensures |r| < |t| ==> IsWhitespace(t[|r|])
  {
    t[..WordLength(t)]
  }

  // ---------------------------------------------------------------------
  // (ERROR|WARN|WARNING|CRITICAL|FATAL)(?::\s*)?(.*)?

  const SeverityWords: seq<string> := ["ERROR", "WARN", "WARNING", "CRITICAL", "FATAL"]

  /** After the severity word: an optional colon with the whitespace after it,
      then the rest of the line. */
  function ErrorTail(t: string): (r: string)
  {
    if t != [] && t[0] == ':' then LineText(TrimStart(t[1..])) else LineText(t)
  }

  /** The error pattern at the front of `t`: which severity word it matched
      (an index into `SeverityWords`) and the captured message. */
  function ErrorAt(t: string): (r: Option<(nat, string)>)
    ensures r.Some? ==> r.value.0 < |SeverityWords| && StartsWith(t, SeverityWords[r.value.0])
    ensures r.Some? ==> r.value.0 != 2
  {
    WarnFirst(t);
    match FirstPrefix(t, SeverityWords)
    case None => None
    case Some(k) =>
      assert k == 2 ==> !StartsWith(t, SeverityWords[1]);
      Some((k, ErrorTail(t[|SeverityWords[k]|..])))
  }

  /** A text that starts with "WARNING" starts with "WARN". */
  lemma WarnFirst(t: string)
    ensures StartsWith(t, "WARNING") ==> StartsWith(t, "WARN")
  {
    if StartsWith(t, "WARNING") {
      assert t[..4] == t[..7][..4];
    }
  }

  /** The alternation tries WARN before WARNING, so a "WARNING" line has
      severity word WARN and a message that starts with "ING". */
  lemma WarningReadsAsWarn(rest: string)
    ensures ErrorAt("WARNING" + rest) == Some((1, LineText("ING" + rest)))
  {
    var t := "WARNING" + rest;
    assert t[..5] == "WARNI";
    assert t[..4] == "WARN";
    assert FirstPrefix(t, SeverityWords) == Some(1);
    assert t[4..] == "ING" + rest;
  }

  /** A line the error pattern matches contains one of ERROR, WARN, CRITICAL or FATAL. */
  lemma ErrorPatternSound(s: string)
    requires Scan(s, ErrorAt).Some?
    ensures Contains(s, "ERROR") || Contains(s, "WARN") || Contains(s, "CRITICAL") || Contains(s, "FATAL")
  {
    var j := Scan(s, ErrorAt).value.0;
    var w := SeverityWords[Scan(s, ErrorAt).value.1.0];
    assert StartsWith(s[j..], w);
    ContainsAt(s, w, j);
  }

  /** A line containing one of the severity words is matched by the error pattern. */
  lemma ErrorPatternComplete(s: string, p: string)
    requires p in SeverityWords && Contains(s, p)
    ensures Scan(s, ErrorAt).Some?
  {
    var i := ContainsWitness(s, p);
    assert s[i..][..|p|] == p;
    assert FirstPrefix(s[i..], SeverityWords).Some?;
    assert ErrorAt(s[i..]).Some?;
  }

  /** The error pattern matches a line exactly when the line contains one of
      ERROR, WARN, CRITICAL or FATAL. */
  lemma ErrorPatternIff(s: string)
    ensures Scan(s, ErrorAt).Some? <==>
      (Contains(s, "ERROR") || Contains(s, "WARN") || Contains(s, "CRITICAL") || Contains(s, "FATAL"))
  {
    if Scan(s, ErrorAt).Some? {
      ErrorPatternSound(s);
    }
    if Contains(s, "ERROR") { ErrorPatternComplete(s, SeverityWords[0]); }
    if Contains(s, "WARN") { ErrorPatternComplete(s, SeverityWords[1]); }
    if Contains(s, "CRITICAL") { ErrorPatternComplete(s, SeverityWords[3]); }
    if Contains(s, "FATAL") { ErrorPatternComplete(s, SeverityWords[4]); }
  }

  // ---------------------------------------------------------------------
  // (?:Using tool|Tool:|Executing):\s*(\w+)
  // The alternation is followed by ':', so the middle word is "Tool::".

  const ToolPrefixes: seq<string> := ["Using tool:", "Tool::", "Executing:"]

  function ToolAt(t: string): (r: Option<string>)
    ensures r.Some? ==> |r.value| > 0 && forall i :: 0 <= i < |r.value| ==> IsWordChar(r.value[i])
  {
    match FirstPrefix(t, ToolPrefixes)
    case None => None
    case Some(k) =>
      var u := TrimStart(t[|ToolPrefixes[k]|..]);
      var n := RunLength(u, IsWordChar);
      if n == 0 then None else Some(u[..n])
  }

  // ---------------------------------------------------------------------
  // (?:Reading|Analyzing|Processing|File:)\s+([^\s]+\.[a-zA-Z]{1,4})

  const FileKeywords: seq<string> := ["Reading", "Analyzing", "Processing", "File:"]

  predicate DotBeforeLetter(tok: string, d: nat)
  {
    d + 1 < |tok| && tok[d] == '.' && IsLetter(tok[d + 1])
  }

  /** Where `[^\s]+` stops once it has backtracked far enough for `\.[a-zA-Z]`
      to follow: the last dot before `j`, not in first place, that a letter follows. */
  function PathDot(tok: string, j: nat): (r: Option<nat>)
    requires j <= |tok|
    ensures r.Some? ==> 1 <= r.value < j && DotBeforeLetter(tok, r.value)
    ensures r.Some? ==> forall d :: r.value < d < j ==> !DotBeforeLetter(tok, d)
    ensures r.None? ==> forall d :: 1 <= d < j ==> !DotBeforeLetter(tok, d)
    decreases j
  {
    if j <= 1 then None
    else if DotBeforeLetter(tok, j - 1) then Some(j - 1)
    else PathDot(tok, j - 1)
  }

  /** The captured path inside one whitespace-free token: up to and including
      the last dot a letter follows, then at most four letters. */
  function PathIn(tok: string): (r: Option<string>)
  {
    match PathDot(tok, |tok|)
    case None => None
    case Some(d) => Some(tok[..d + 1 + Min(RunLength(tok[d + 1..], IsLetter), 4)])
  }

  /** A captured path is a prefix of its token made of at least one character,
      a dot and one to four letters. */
  lemma PathInShape(tok: string)
    requires PathIn(tok).Some?
    ensures var p := PathIn(tok).value;
      p == tok[..|p|] &&
      exists d :: 1 <= d && d + 1 < |p| <= d + 5 && p[d] == '.' && AllLetters(p[d + 1..])
  {
    var d := PathDot(tok, |tok|).value;
    var rest := tok[d + 1..];
    var run := RunLength(rest, IsLetter);
    assert rest[0] == tok[d + 1];
    assert run >= 1;
    var n := Min(run, 4);
    var p := PathIn(tok).value;
    assert p == tok[..d + 1 + n];
    assert p[d] == '.';
    assert p[d + 1..] == rest[..n];
    assert AllLetters(p[d + 1..]);
    assert 1 <= d && d + 1 < |p| <= d + 5 && p[d] == '.' && AllLetters(p[d + 1..]);
  }

  /** The file-path pattern at the front of `t`, as written. */
  function FileAtAsWritten(t: string): (r: Option<string>)
  {
    match FirstPrefix(t, FileKeywords)
    case None => None
    case Some(k) =>
      var u := t[|FileKeywords[k]|..];
      var w := SpaceLength(u);
      if w == 0 then None else PathIn(Token(u[w..]))
  }

  /** The file-path pattern with an optional `file:\s+` between the keyword's
      whitespace and the path, which the behaviour the normalizer's tests
      expect needs. */
  function FileAt(t: string): (r: Option<string>)
  {
    match FirstPrefix(t, FileKeywords)
    case None => None
    case Some(k) =>
      var u := t[|FileKeywords[k]|..];
      var w := SpaceLength(u);
      if w == 0 then None
      else
        var v := u[w..];
        if StartsWith(v, "file:") && 5 < |v| && IsWhitespace(v[5]) then
          match PathIn(Token(TrimStart(v[5..])))
          case Some(p) => Some(p)
          case None => PathIn(Token(v))
        else PathIn(Token(v))
  }

  /** After a file keyword and its whitespace, `t` goes on with "file:" and
      whitespace: the one form on which the two file-path patterns differ. */
  predicate FileWordAt(t: string)
  {
    match FirstPrefix(t, FileKeywords)
    case None => false
    case Some(k) =>
      var u := t[|FileKeywords[k]|..];
      var w := SpaceLength(u);
      w > 0 && StartsWith(u[w..], "file:") && 5 < |u[w..]| && IsWhitespace(u[w..][5])
  }

  /** Away from that form the corrected pattern matches exactly what the
      pattern as written matches. */
  lemma FileAtAgreesAsWritten(t: string)
    requires !FileWordAt(t)
    ensures FileAt(t) == FileAtAsWritten(t)
  {
  }

  /** Two patterns that agree at every position of `s` find the same leftmost match. */
  lemma {:induction false} ScanAgrees<T>(s: string, f: string -> Option<T>, g: string -> Option<T>)
    requires forall j :: 0 <= j <= |s| ==> f(s[j..]) == g(s[j..])
    ensures Scan(s, f) == Scan(s, g)
    decreases |s|
  {
    assert s[0..] == s;
    if f(s).None? && s != [] {
      forall j | 0 <= j <= |s[1..]|
        ensures f(s[1..][j..]) == g(s[1..][j..])
      {
        assert s[1..][j..] == s[j + 1..];
      }
      ScanAgrees(s[1..], f, g);
    }
  }

  /** A line in which no "<keyword> file:" form starts gets the same file path
      from both patterns; the two differ only on lines that have one. */
  lemma CaptureFileAgrees(log: string)
    requires forall j :: 0 <= j <= |log| ==> !FileWordAt(log[j..])
    ensures Capture(log, FileAt) == Capture(log, FileAtAsWritten)
  {
    forall j | 0 <= j <= |log|
      ensures FileAt(log[j..]) == FileAtAsWritten(log[j..])
    {
      FileAtAgreesAsWritten(log[j..]);
    }
    ScanAgrees(log, FileAt, FileAtAsWritten);
  }

  // The file-path pattern on lines of the form "<keyword> file: <path>",
  // the form of the normalizer's own tool-line examples.

  /** The keywords start with different letters, so a line that starts with
      one of them matches that alternative. */
  lemma FileKeywordFront(k: nat, rest: string)
    requires k < |FileKeywords|
    ensures FirstPrefix(FileKeywords[k] + rest, FileKeywords) == Some(k)
  {
    var t := FileKeywords[k] + rest;
    assert t[..|FileKeywords[k]|] == FileKeywords[k];
    assert t[0] == FileKeywords[k][0];
    forall k' | 0 <= k' < k ensures !StartsWith(t, FileKeywords[k']) {
      assert FileKeywords[k'][0] != FileKeywords[k][0];
    }
  }

  lemma SingleSpace(rest: string)
    requires rest == [] || !IsWhitespace(rest[0])
    ensures SpaceLength(" " + rest) == 1 && (" " + rest)[1..] == rest
  {
    assert (" " + rest)[1..] == rest;
  }

  /** What is left of `<keyword> file: rest` after the keyword and its space. */
  lemma AfterFileKeyword(k: nat, rest: string)
    requires k < |FileKeywords|
    ensures var t := FileKeywords[k] + " file: " + rest;
      FirstPrefix(t, FileKeywords) == Some(k)
      && SpaceLength(t[|FileKeywords[k]|..]) == 1
      && t[|FileKeywords[k]|..][1..] == "file: " + rest
  {
    var kw := FileKeywords[k];
    var t := kw + " file: " + rest;
    assert t == kw + (" file: " + rest);
    FileKeywordFront(k, " file: " + rest);
    assert t[|kw|..] == " " + ("file: " + rest);
    SingleSpace("file: " + rest);
  }

  /** `[^\s]+` after the keyword can only cover the word "file:". */
  lemma FileWordToken(rest: string)
    ensures Token("file: " + rest) == "file:"
  {
    var v := "file: " + rest;
    var n := WordLength(v);
    assert IsWhitespace(v[5]);
    assert forall i :: 0 <= i < 5 ==> !IsWhitespace(v[i]);
    assert v[..5] == "file:";
  }

  /** As written, the pattern never captures at the front of
      `<keyword> file: <path>`: the token after the keyword is "file:", which
      has no dot. */
  lemma FileAtAsWrittenMissesFileWord(k: nat, rest: string)
    requires k < |FileKeywords|
    ensures FileAtAsWritten(FileKeywords[k] + " file: " + rest) == None
  {
    AfterFileKeyword(k, rest);
    FileWordToken(rest);
    assert PathDot("file:", 5) == None;
  }

  /** The corrected pattern reads past "file:" and captures the path. */
  lemma FileAtReadsPastFileWord(k: nat, rest: string)
    requires k < |FileKeywords|
    requires rest != [] && !IsWhitespace(rest[0])
    requires PathIn(Token(rest)).Some?
    ensures FileAt(FileKeywords[k] + " file: " + rest) == PathIn(Token(rest))
  {
    var t := FileKeywords[k] + " file: " + rest;
    AfterFileKeyword(k, rest);
    var u := t[|FileKeywords[k]|..];
    var v := u[1..];
    assert v == "file: " + rest;
    assert v[..5] == "file:";
    assert v[5..] == " " + rest;
    SingleSpace(rest);
    assert TrimStart(v[5..]) == rest;
  }

  lemma LoginPathToken()
    ensures Token("src/auth/login.js") == "src/auth/login.js"
  {
    var tok := "src/auth/login.js";
    assert forall i :: 0 <= i < |tok| ==> !IsWhitespace(tok[i]);
  }

  lemma LoginPathIn()
    ensures PathIn("src/auth/login.js") == Some("src/auth/login.js")
  {
    var tok := "src/auth/login.js";
    assert DotBeforeLetter(tok, 14);
    assert PathDot(tok, 15) == Some(14);
    assert PathDot(tok, 16) == Some(14);
    assert tok[15..] == "js";
    assert RunLength("js", IsLetter) == 2;
    assert tok[..17] == tok;
  }

  lemma LoginLineParts()
    ensures "Reading file: src/auth/login.js" == FileKeywords[0] + " file: " + "src/auth/login.js"
  {
  }

  lemma CaptureAtFront(s: string)
    requires FileAt(s).Some?
    ensures Capture(s, FileAt) == FileAt(s)
  {
    assert s[0..] == s;
  }

  /** The corrected pattern on the tool line of the normalizer's example
      captures "src/auth/login.js". */
  lemma LoginLineFilePath()
    ensures Capture("Reading file: src/auth/login.js", FileAt) == Some("src/auth/login.js")
  {
    LoginLineParts();
    LoginPathToken();
    LoginPathIn();
    FileAtReadsPastFileWord(0, "src/auth/login.js");
    CaptureAtFront("Reading file: src/auth/login.js");
  }

  /** Every keyword starts with a capital letter. */
  lemma NoFileKeywordAtLowercase(t: string)
    requires t == [] || !('A' <= t[0] <= 'Z')
    ensures FileAtAsWritten(t) == None
  {
  }

  lemma LoginLineLowercase()
    ensures var s := "Reading file: src/auth/login.js"; forall j :: 1 <= j < |s| ==> !('A' <= s[j] <= 'Z')
  {
  }

  lemma LoginLineNoLaterKeyword()
    ensures var s := "Reading file: src/auth/login.js"; forall j :: 1 <= j <= |s| ==> FileAtAsWritten(s[j..]) == None
  {
    var s := "Reading file: src/auth/login.js";
    LoginLineLowercase();
    forall j | 1 <= j <= |s| ensures FileAtAsWritten(s[j..]) == None {
      NoFileKeywordAtLowercase(s[j..]);
    }
  }

  /** The pattern as written finds no file path anywhere in that line. */
  lemma LoginLineAsWrittenMisses()
    ensures Capture("Reading file: src/auth/login.js", FileAtAsWritten) == None
  {
    LoginLineParts();
    FileAtAsWrittenMissesFileWord(0, "src/auth/login.js");
    LoginLineNoLaterKeyword();
    var s := "Reading file: src/auth/login.js";
    assert s[0..] == s;
  }

  /** The position of the last dot before `j`. */
  function LastDot(p: string, j: nat): (r: Option<nat>)
    requires j <= |p|
    ensures r.Some? ==> r.value < j && p[r.value] == '.'
    ensures r.Some? ==> forall d :: r.value < d < j ==> p[d] != '.'
    ensures r.None? ==> forall d :: 0 <= d < j ==> p[d] != '.'
    decreases j
  {
    if j == 0 then None
    else if p[j - 1] == '.' then Some(j - 1)
    else LastDot(p, j - 1)
  }

  /** `str::split('.').last()`: the text after the last dot, or all of it. */
  function LastSegment(p: string): (r: string)
    ensures forall i :: 0 <= i < |r| ==> r[i] != '.'
  {
    match LastDot(p, |p|)
    case None => p
    case Some(d) => p[d + 1..]
  }

  lemma LastSegmentAfterDot(a: string, b: string)
    requires forall i :: 0 <= i < |b| ==> b[i] != '.'
    ensures LastSegment(a + "." + b) == b
  {
    var p := a + "." + b;
    assert p[|a|] == '.';
    assert forall i :: |a| < i < |p| ==> p[i] == b[i - |a| - 1];
    var d := LastDot(p, |p|).value;
    assert d == |a|;
    assert p[d + 1..] == b;
  }

  /** The extension derived from a captured path is the one to four letters
      after its last dot. */
  lemma PathExtension(tok: string)
    requires PathIn(tok).Some?
    ensures var e := LastSegment(PathIn(tok).value); 1 <= |e| <= 4 && AllLetters(e)
  {
    PathInShape(tok);
    var p := PathIn(tok).value;
    var d :| 1 <= d && d + 1 < |p| <= d + 5 && p[d] == '.' && AllLetters(p[d + 1..]);
    var e := p[d + 1..];
    assert forall i :: 0 <= i < |e| ==> e[i] != '.' by {
      forall i | 0 <= i < |e| ensures e[i] != '.' { assert IsLetter(e[i]); }
    }
    assert p == p[..d] + "." + e;
    LastSegmentAfterDot(p[..d], e);
  }

  // ---------------------------------------------------------------------
  // line[s]?\s*(\d+)

  function LineAt(t: string): (r: Option<string>)
    ensures r.Some? ==> |r.value| > 0 && AllDigits(r.value)
  {
    if !StartsWith(t, "line") then None
    else
      var u := t[4..];
      var v := TrimStart(if u != [] && u[0] == 's' then u[1..] else u);
      var n := RunLength(v, IsDigit);
      if n == 0 then None else Some(v[..n])
  }

  // ---------------------------------------------------------------------
  // (?:E|ERR)[-_]?\d{3,4}

  /** Where `[-_]?\d{3,4}` ends when it starts at `k`. */
  function CodeEnd(t: string, k: nat): (r: Option<nat>)
    requires k <= |t|
    ensures r.Some? ==> k + 3 <= r.value <= |t|
  {
    var j := if k < |t| && (t[k] == '-' || t[k] == '_') then k + 1 else k;
    var n := RunLength(t[j..], IsDigit);
    if n >= 3 then Some(j + Min(n, 4)) else None
  }

  function CodeAt(t: string): (r: Option<string>)
    ensures r.Some? ==> |r.value| >= 4 && r.value[0] == 'E' && StartsWith(t, r.value)
  {
    if StartsWith(t, "E") && CodeEnd(t, 1).Some? then Some(t[..CodeEnd(t, 1).value])
    else if StartsWith(t, "ERR") && CodeEnd(t, 3).Some? then Some(t[..CodeEnd(t, 3).value])
    else None
  }

  // ---------------------------------------------------------------------
  // (\d+)%

  function PercentAt(t: string): (r: Option<string>)
    ensures r.Some? ==> |r.value| > 0 && AllDigits(r.value) && StartsWith(t, r.value + "%")
  {
    var n := RunLength(t, IsDigit);
    if n > 0 && n < |t| && t[n] == '%' then
      assert t[..n + 1] == t[..n] + "%";
      Some(t[..n])
    else None
  }

  // ---------------------------------------------------------------------
  // (\d+(?:\.\d+)?)\s*(ms|seconds?|minutes?|s|m)

  const DurationUnits: seq<string> := ["ms", "seconds", "second", "minutes", "minute", "s", "m"]

  function DurationAt(t: string): (r: Option<string>)
    ensures r.Some? ==> |r.value| >= 2 && StartsWith(t, r.value) && IsDigit(r.value[0])
  {
    var n := RunLength(t, IsDigit);
    if n == 0 then None
    else
      var f := if n < |t| && t[n] == '.' && RunLength(t[n + 1..], IsDigit) > 0
               then n + 1 + RunLength(t[n + 1..], IsDigit) else n;
      var k := f + SpaceLength(t[f..]);
      match FirstPrefix(t[k..], DurationUnits)
      case None => None
      case Some(u) => Some(t[..k + |DurationUnits[u]|])
  }

  // ---------------------------------------------------------------------
  // \d{4}-\d{2}-\d{2}[T\s]\d{2}:\d{2}:\d{2}

  predicate DigitsAt(t: string, i: nat, n: nat)
  {
    i + n <= |t| && forall k :: i <= k < i + n ==> IsDigit(t[k])
  }

  function TimestampAt(t: string): (r: Option<string>)
    ensures r.Some? ==> |r.value| == 19 && StartsWith(t, r.value)
  {
    if |t| >= 19 && DigitsAt(t, 0, 4) && t[4] == '-' && DigitsAt(t, 5, 2) && t[7] == '-'
       && DigitsAt(t, 8, 2) && (t[10] == 'T' || IsWhitespace(t[10])) && DigitsAt(t, 11, 2)
       && t[13] == ':' && DigitsAt(t, 14, 2) && t[16] == ':' && DigitsAt(t, 17, 2)
    then Some(t[..19]) else None
  }

  // ---------------------------------------------------------------------
  // (?:completed|finished|done|success)

  const CompletionWords: seq<string> := ["completed", "finished", "done", "success"]

  predicate ContainsAny(s: string, ws: seq<string>)
  {
    exists k :: 0 <= k < |ws| && Contains(s, ws[k])
  }

  // ---------------------------------------------------------------------
  // \x1B\[[0-9;]*[a-zA-Z], removed with `replace_all`

  const Esc: char := '\U{001B}'

  predicate AnsiParam(c: char) { IsDigit(c) || c == ';' }

  /** Length of the escape sequence at the front of `t`, if one starts there. */
  function AnsiLength(t: string): (r: Option<nat>)
    ensures r.Some? ==> 3 <= r.value <= |t| && t[0] == Esc
  {
    if |t| >= 2 && t[0] == Esc && t[1] == '[' then
      var n := RunLength(t[2..], AnsiParam);
      if 2 + n < |t| && IsLetter(t[2 + n]) then Some(3 + n) else None
    else None
  }

  /** One left-to-right pass that deletes every escape sequence it meets. */
  function StripAnsi(t: string): (r: string)
    ensures |r| <= |t|
    decreases |t|
  {
    if t == [] then []
    else match AnsiLength(t)
      case Some(n) => StripAnsi(t[n..])
      case None => [t[0]] + StripAnsi(t[1..])
  }

  /** Every escape character opens a complete escape sequence. */
  predicate EscapesWellFormed(t: string)
  {
    forall i :: 0 <= i < |t| && t[i] == Esc ==> AnsiLength(t[i..]).Some?
  }

  /** When every escape character opens a sequence, none survives the pass. */
  lemma {:induction false} StripAnsiRemovesEscapes(t: string)
    requires EscapesWellFormed(t)
    ensures Esc !in StripAnsi(t)
    decreases |t|
  {
    if t != [] {
      assert t[0..] == t;
      match AnsiLength(t)
      case Some(n) =>
        assert EscapesWellFormed(t[n..]) by {
          forall i | 0 <= i < |t[n..]| && t[n..][i] == Esc ensures AnsiLength(t[n..][i..]).Some? {
            assert t[n..][i..] == t[n + i..];
          }
        }
        StripAnsiRemovesEscapes(t[n..]);
      case None =>
        assert EscapesWellFormed(t[1..]) by {
          forall i | 0 <= i < |t[1..]| && t[1..][i] == Esc ensures AnsiLength(t[1..][i..]).Some? {
            assert t[1..][i..] == t[1 + i..];
          }
        }
        StripAnsiRemovesEscapes(t[1..]);
    }
  }

  /** Text without escape characters passes through unchanged. */
  lemma {:induction false} StripAnsiNoEscape(t: string)
    requires Esc !in t
    ensures StripAnsi(t) == t
    decreases |t|
  {
    if t != [] {
      assert t[0] != Esc;
      StripAnsiNoEscape(t[1..]);
    }
  }

  /** The pass is not idempotent: an escape character right before a sequence
      is kept, and the deletion joins it to the text after into a new sequence. */
  lemma StripAnsiSinglePass()
    ensures StripAnsi([Esc, Esc, '[', 'm', '[', 'm']) == [Esc, '[', 'm']
  {
    var t := [Esc, Esc, '[', 'm', '[', 'm'];
    assert AnsiLength(t) == None;
    assert t[1..] == [Esc, '[', 'm', '[', 'm'];
    assert RunLength(t[1..][2..], AnsiParam) == 0;
    assert AnsiLength(t[1..]) == Some(3);
    assert t[1..][3..] == ['[', 'm'];
    assert AnsiLength(['[', 'm']) == None;
    assert ['[', 'm'][1..] == ['m'];
    assert AnsiLength(['m']) == None;
    assert ['m'][1..] == [];
    assert StripAnsi(['[', 'm']) == ['[', 'm'];
    assert AnsiLength([Esc, '[', 'm']) == Some(3) by {
      assert [Esc, '[', 'm'][2..] == ['m'];
    }
  }
}
