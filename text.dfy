/**
 * Text primitives shared by the model: the character classes that Rust's
 * `char::is_whitespace` and the `regex` crate use, ASCII case folding,
 * prefix and infix search, trimming, whitespace-splitting, joining and
 * replacing, and decimal rendering and parsing of integers.
 */
module Text {
  import opened Wrappers

  /** Unicode White_Space, the set used by `char::is_whitespace`, `str::trim`,
      `str::split_whitespace` and the regex class `\s`. */
  predicate IsWhitespace(c: char)
  {
    ('\U{0009}' <= c <= '\U{000D}') || c == ' ' || c == '\U{0085}' || c == '\U{00A0}'
    || c == '\U{1680}' || ('\U{2000}' <= c <= '\U{200A}') || c == '\U{2028}'
    || c == '\U{2029}' || c == '\U{202F}' || c == '\U{205F}' || c == '\U{3000}'
  }

  predicate IsDigit(c: char) { '0' <= c <= '9' }

  predicate IsLetter(c: char) { ('a' <= c <= 'z') || ('A' <= c <= 'Z') }

  /** The regex class `\w`, restricted to ASCII. */
  predicate IsWordChar(c: char) { IsLetter(c) || IsDigit(c) || c == '_' }

  predicate NoWhitespace(s: string) { forall i :: 0 <= i < |s| ==> !IsWhitespace(s[i]) }

  predicate AllDigits(s: string) { forall i :: 0 <= i < |s| ==> IsDigit(s[i]) }

  predicate AllLetters(s: string) { forall i :: 0 <= i < |s| ==> IsLetter(s[i]) }

  function LowerChar(c: char): (r: char)
    ensures 'A' <= c <= 'Z' ==> 'a' <= r <= 'z'
    ensures !('A' <= c <= 'Z') ==> r == c
  {
    if 'A' <= c <= 'Z' then (c as int + 32) as char else c
  }

  /** `str::to_lowercase`, folding ASCII letters only. */
  function Lower(s: string): (r: string)
    ensures |r| == |s|
    ensures forall i :: 0 <= i < |s| ==> r[i] == LowerChar(s[i])
  {
    if s == [] then [] else [LowerChar(s[0])] + Lower(s[1..])
  }

  predicate StartsWith(s: string, p: string)
  {
    |p| <= |s| && s[..|p|] == p
  }

  /** `str::contains`: `p` occurs somewhere in `s`. */
  predicate Contains(s: string, p: string)
    decreases |s|
  {
    StartsWith(s, p) || (|s| > 0 && Contains(s[1..], p))
  }

  lemma {:induction false} ContainsAt(s: string, p: string, i: nat)
    requires i <= |s| && StartsWith(s[i..], p)
    ensures Contains(s, p)
    decreases i
  {
    if i > 0 {
      assert s[1..][i - 1..] == s[i..];
      ContainsAt(s[1..], p, i - 1);
    } else {
      assert s[0..] == s;
    }
  }

  lemma {:induction false} ContainsWitness(s: string, p: string) returns (i: nat)
    requires Contains(s, p)
    ensures i + |p| <= |s| && s[i..i + |p|] == p
    decreases |s|
  {
    if StartsWith(s, p) {
      i := 0;
    } else {
      var j := ContainsWitness(s[1..], p);
      assert s[1..][j..j + |p|] == s[j + 1..j + 1 + |p|];
      i := j + 1;
    }
  }

  /** A sequence that occurs in a prefix of `s` occurs in `s`. */
  lemma {:induction false} ContainsGrows(s: string, t: string, p: string)
    requires Contains(s, p)
    ensures Contains(s + t, p)
  {
    var i := ContainsWitness(s, p);
    assert (s + t)[i..][..|p|] == s[i..i + |p|];
    ContainsAt(s + t, p, i);
  }

  /** Length of the longest prefix of `s` made of non-whitespace characters. */
  function WordLength(s: string): (n: nat)
    ensures n <= |s| && NoWhitespace(s[..n])
    ensures n < |s| ==> IsWhitespace(s[n])
  {
    if s == [] || IsWhitespace(s[0]) then 0 else 1 + WordLength(s[1..])
  }

  /** Length of the longest prefix of `s` made of whitespace characters. */
  function SpaceLength(s: string): (n: nat)
    ensures n <= |s| && forall i :: 0 <= i < n ==> IsWhitespace(s[i])
    ensures n < |s| ==> !IsWhitespace(s[n])
  {
    if s == [] || !IsWhitespace(s[0]) then 0 else 1 + SpaceLength(s[1..])
  }

  function TrimStart(s: string): (r: string)
    ensures r == s[SpaceLength(s)..]
  {
    s[SpaceLength(s)..]
  }

  function TrimEnd(s: string): (r: string)
    ensures |r| <= |s| && r == s[..|r|]
    ensures r != [] ==> !IsWhitespace(r[|r| - 1])
    ensures forall i :: |r| <= i < |s| ==> IsWhitespace(s[i])
  {
    if s == [] || !IsWhitespace(s[|s| - 1]) then s else TrimEnd(s[..|s| - 1])
  }

  /** `str::trim`: `s` without its leading and trailing whitespace. */
  function Trim(s: string): (r: string)
    ensures r == [] || (!IsWhitespace(r[0]) && !IsWhitespace(r[|r| - 1]))
  {
    TrimEnd(TrimStart(s))
  }

  /** `str::split_whitespace`: the maximal non-whitespace runs of `s`, in order. */
  function SplitWhitespace(s: string): (words: seq<string>)
    ensures forall k :: 0 <= k < |words| ==> |words[k]| > 0 && NoWhitespace(words[k])
    decreases |s|
  {
    var t := TrimStart(s);
    if t == [] then []
    else
      var n := WordLength(t);
      [t[..n]] + SplitWhitespace(t[n..])
  }

  /** `[String]::join(sep)`. */
  function Join(parts: seq<string>, sep: string): (r: string)
  {
    if parts == [] then []
    else if |parts| == 1 then parts[0]
    else parts[0] + sep + Join(parts[1..], sep)
  }

  /** Every character of a collapsed text that is whitespace is a single space
      between two non-whitespace characters. */
  predicate Collapsed(s: string)
  {
    forall i :: 0 <= i < |s| && IsWhitespace(s[i]) ==>
      s[i] == ' ' && 0 < i < |s| - 1 && !IsWhitespace(s[i - 1]) && !IsWhitespace(s[i + 1])
  }

  lemma {:induction false} JoinedWordsCollapsed(words: seq<string>)
    requires forall k :: 0 <= k < |words| ==> |words[k]| > 0 && NoWhitespace(words[k])
    ensures Collapsed(Join(words, " "))
    ensures words != [] ==>
              (|Join(words, " ")| > 0 && Join(words, " ")[0] == words[0][0])
  {
    if |words| > 1 {
      JoinedWordsCollapsed(words[1..]);
      var w, rest := words[0], Join(words[1..], " ");
      var r := w + " " + rest;
      assert Join(words, " ") == r;
      forall i | 0 <= i < |r| && IsWhitespace(r[i])
        ensures r[i] == ' ' && 0 < i < |r| - 1 && !IsWhitespace(r[i - 1]) && !IsWhitespace(r[i + 1])
      {
        if i > |w| {
          assert r[i] == rest[i - |w| - 1];
          if i - 1 > |w| {
            assert r[i - 1] == rest[i - |w| - 2];
          }
        } else if i == |w| {
          assert r[i - 1] == w[|w| - 1];
          assert r[i + 1] == rest[0];
        }
      }
    }
  }

  /** What `split_whitespace` followed by `join(" ")` produces: no leading,
      trailing or repeated whitespace, and only plain spaces. */
  function CollapseWhitespace(s: string): (r: string)
    ensures Collapsed(r)
  {
    JoinedWordsCollapsed(SplitWhitespace(s));
    Join(SplitWhitespace(s), " ")
  }

  /** The non-whitespace characters of `s`, in order. */
  function NonSpace(s: string): string
  {
    if s == [] then [] else (if IsWhitespace(s[0]) then [] else [s[0]]) + NonSpace(s[1..])
  }

  function Concat(parts: seq<string>): string
  {
    if parts == [] then [] else parts[0] + Concat(parts[1..])
  }

  lemma {:induction false} NonSpaceAppend(a: string, b: string)
    ensures NonSpace(a + b) == NonSpace(a) + NonSpace(b)
    decreases |a|
  {
    if a == [] {
      assert a + b == b;
    } else {
      assert (a + b)[1..] == a[1..] + b;
      NonSpaceAppend(a[1..], b);
    }
  }

  lemma {:induction false} NonSpaceOfSpaces(s: string)
    requires forall i :: 0 <= i < |s| ==> IsWhitespace(s[i])
    ensures NonSpace(s) == []
  {
    if s != [] { NonSpaceOfSpaces(s[1..]); }
  }

  lemma {:induction false} NonSpaceOfWord(s: string)
    requires NoWhitespace(s)
    ensures NonSpace(s) == s
  {
    if s != [] { NonSpaceOfWord(s[1..]); }
  }

  /** `split_whitespace` loses only whitespace: its words, concatenated, are the
      non-whitespace characters of the input in order. */
  lemma {:induction false} SplitKeepsText(s: string)
    ensures Concat(SplitWhitespace(s)) == NonSpace(s)
    decreases |s|
  {
    var t := TrimStart(s);
    TrimStartKeepsText(s);
    if t != [] {
      var n := WordLength(t);
      SplitKeepsText(t[n..]);
      WordKeepsText(t, n);
    }
  }

  lemma TrimStartKeepsText(s: string)
    ensures NonSpace(TrimStart(s)) == NonSpace(s)
  {
    var k := SpaceLength(s);
    assert s == s[..k] + s[k..];
    NonSpaceOfSpaces(s[..k]);
    NonSpaceAppend(s[..k], s[k..]);
  }

  lemma WordKeepsText(t: string, n: nat)
    requires n == WordLength(t)
    ensures NonSpace(t) == t[..n] + NonSpace(t[n..])
  {
    assert t == t[..n] + t[n..];
    NonSpaceAppend(t[..n], t[n..]);
    NonSpaceOfWord(t[..n]);
  }

  /** `str::replace(pat, rep)`: every non-overlapping occurrence of `pat`, found
      left to right, replaced by `rep`. */
  function ReplaceAll(s: string, pat: string, rep: string): (r: string)
    requires |pat| > 0
    decreases |s|
  {
    if |s| < |pat| then s
    else if s[..|pat|] == pat then rep + ReplaceAll(s[|pat|..], pat, rep)
    else [s[0]] + ReplaceAll(s[1..], pat, rep)
  }

  /** Replacing a pattern that does not occur changes nothing. */
  lemma {:induction false} ReplaceAbsent(s: string, pat: string, rep: string)
    requires |pat| > 0 && !Contains(s, pat)
    ensures ReplaceAll(s, pat, rep) == s
    decreases |s|
  {
    if |s| >= |pat| {
      assert !StartsWith(s, pat);
      ReplaceAbsent(s[1..], pat, rep);
    }
  }

  /** Deleting a pattern never lengthens the text. */
  lemma {:induction false} DeleteShortens(s: string, pat: string)
    requires |pat| > 0
    ensures |ReplaceAll(s, pat, "")| <= |s|
    decreases |s|
  {
    if |s| >= |pat| {
      if s[..|pat|] == pat { DeleteShortens(s[|pat|..], pat); } else { DeleteShortens(s[1..], pat); }
    }
  }

  /** Decimal digits of a natural number, most significant first. */
  function NatToString(n: nat): (r: string)
    ensures |r| > 0 && AllDigits(r)
    decreases n
  {
    var d := ['0' + (n % 10) as char];
    if n < 10 then d else NatToString(n / 10) + d
  }

  /** Rust's `Display` for signed integers. */
  function IntToString(i: int): (r: string)
    ensures i >= 0 ==> r == NatToString(i)
    ensures i < 0 ==> r == "-" + NatToString(-i)
  {
    if i >= 0 then NatToString(i) else "-" + NatToString(-i)
  }

  /** Value of a non-empty run of ASCII digits. */
  function DigitsValue(s: string): (v: nat)
    requires AllDigits(s)
    decreases |s|
  {
    if s == [] then 0 else DigitsValue(s[..|s| - 1]) * 10 + (s[|s| - 1] - '0') as nat
  }

  lemma {:induction false} DigitsOfNat(n: nat)
    ensures DigitsValue(NatToString(n)) == n
    decreases n
  {
    var r := NatToString(n);
    if n >= 10 {
      DigitsOfNat(n / 10);
      assert r[..|r| - 1] == NatToString(n / 10);
    }
  }

  /** Rust's `str::parse::<uN>()` for an unsigned type whose values are below
      `bound`: an optional `+`, then at least one ASCII digit and nothing else,
      with a value that fits. */
  function ParseUnsigned(s: string, bound: nat): (r: Option<nat>)
    ensures r.Some? ==> r.value < bound
  {
    var digits := if |s| > 0 && s[0] == '+' then s[1..] else s;
    if |digits| > 0 && AllDigits(digits) && DigitsValue(digits) < bound
    then Some(DigitsValue(digits)) else None
  }

  /** Parsing renders back: every value below the bound survives printing and parsing. */
  lemma ParsePrinted(n: nat, bound: nat)
    requires n < bound
    ensures ParseUnsigned(NatToString(n), bound) == Some(n)
  {
    DigitsOfNat(n);
  }
}
