/**
 * The reader tasks an adapter starts beside each spawned process: one turns
 * every stdout line into a log entry and collects the lines, the other pushes
 * every stderr line as an error line and watches it for a missing login.
 * The Claude and Cursor adapters read stdout line by line as it comes; the
 * Gemini adapter merges streamed deltas first (module GeminiAgent).
 *
 * The JSON parser, the identifier generator and the clock are parameters:
 * `parse` is what serde_json makes of a line, and `ids(k)` and `clock(k)` the
 * identifier and the clock reading that `normalize` gives the k-th entry a
 * task pushes.
 */
module AgentStreams {
  import opened Wrappers
  import opened Text
  import opened Json
  import opened Database
  import opened MessageStore
  import opened LogNormalizer
  import opened AgentCommon

  /** The entries a reader task pushes for these lines, in order. */
  function LineEntries(raws: seq<string>, ticket: string, parse: string -> Option<Json>, ids: nat -> string, clock: nat -> Timestamp)
    : (es: seq<StructuredLogEntry>)
    ensures |es| == |raws|
  {
    if raws == [] then []
    else
      var last := raws[|raws| - 1];
      LineEntries(raws[..|raws| - 1], ticket, parse, ids, clock) + [Normalized(last, ticket, parse(last), ids(|raws| - 1), clock(|raws| - 1))]
  }

  /** The k-th entry is the k-th line normalized with the k-th identifier. */
  lemma {:induction false} LineEntriesAt(raws: seq<string>, ticket: string, parse: string -> Option<Json>, ids: nat -> string, clock: nat -> Timestamp, k: nat)
    requires k < |raws|
    ensures LineEntries(raws, ticket, parse, ids, clock)[k] == Normalized(raws[k], ticket, parse(raws[k]), ids(k), clock(k))
    decreases |raws|
  {
    if k < |raws| - 1 {
      LineEntriesAt(raws[..|raws| - 1], ticket, parse, ids, clock, k);
    }
  }

  lemma LineEntriesAppend(raws: seq<string>, r: string, ticket: string, parse: string -> Option<Json>, ids: nat -> string, clock: nat -> Timestamp)
    ensures LineEntries(raws + [r], ticket, parse, ids, clock)
         == LineEntries(raws, ticket, parse, ids, clock) + [Normalized(r, ticket, parse(r), ids(|raws|), clock(|raws|))]
  {
    assert (raws + [r])[..|raws|] == raws;
  }

  /** Normalizes one line and pushes it. */
  method PushLine(store: MsgStore, ticket: string, raw: string, parse: string -> Option<Json>, id: string, now: Timestamp)
    requires store.Valid()
    modifies store`buffer, store`pending, store`sent
    ensures store.Valid()
    ensures Snapshot(store) == Pushed(old(Snapshot(store)), ticket, [Normalized(raw, ticket, parse(raw), id, now)])
  {
    var entry := Normalize(raw, ticket, parse(raw), id, now);
    PushEntry(store, ticket, entry);
  }

  /** One more line pushed by a reader task that has pushed the entries of `raws`. */
  method PushNext(store: MsgStore, ticket: string, ghost before: Backend, raws: seq<string>, r: string,
                  parse: string -> Option<Json>, ids: nat -> string, clock: nat -> Timestamp)
    requires store.Valid()
    requires Snapshot(store) == Pushed(before, ticket, LineEntries(raws, ticket, parse, ids, clock))
    modifies store`buffer, store`pending, store`sent
    ensures store.Valid()
    ensures Snapshot(store) == Pushed(before, ticket, LineEntries(raws + [r], ticket, parse, ids, clock))
  {
    PushLine(store, ticket, r, parse, ids(|raws|), clock(|raws|));
    LineEntriesAppend(raws, r, ticket, parse, ids, clock);
    PushedTwice(before, ticket, LineEntries(raws, ticket, parse, ids, clock), [Normalized(r, ticket, parse(r), ids(|raws|), clock(|raws|))]);
  }

  lemma PrefixStep<T>(s: seq<T>, i: nat)
    requires i < |s|
    ensures s[..i + 1] == s[..i] + [s[i]] && s[..i + 1][..i] == s[..i]
  {
  }

  // ---------------------------------------------------------------------
  // stdout, line by line (Claude and Cursor)

  /** The stdout task of the Claude and Cursor adapters: every line is pushed
      as it is normalized, and the lines are returned for the result. */
  method ReadStdout(store: MsgStore, ticket: string, lines: seq<string>,
                    parse: string -> Option<Json>, ids: nat -> string, clock: nat -> Timestamp)
    returns (output: seq<string>)
    requires store.Valid()
    modifies store`buffer, store`pending, store`sent
    ensures store.Valid()
    ensures output == lines
    ensures Snapshot(store) == Pushed(old(Snapshot(store)), ticket, LineEntries(lines, ticket, parse, ids, clock))
  {
    ghost var before := Snapshot(store);
    assert LineEntries([], ticket, parse, ids, clock) == [];
    output := [];
    var i := 0;
    while i < |lines|
      invariant 0 <= i <= |lines|
      invariant store.Valid()
      invariant output == lines[..i]
      invariant Snapshot(store) == Pushed(before, ticket, LineEntries(lines[..i], ticket, parse, ids, clock))
    {
      var line := lines[i];
      PrefixStep(lines, i);
      output := output + [line];
      PushNext(store, ticket, before, lines[..i], line, parse, ids, clock);
      i := i + 1;
    }
    assert lines[..i] == lines;
  }

  // ---------------------------------------------------------------------
  // stderr

  const ErrorLinePrefix := "ERROR: "

  /** The lines the stderr task normalizes. */
  function StderrLines(lines: seq<string>): (es: seq<string>)
    ensures |es| == |lines|
  {
    if lines == [] then [] else StderrLines(lines[..|lines| - 1]) + [ErrorLinePrefix + lines[|lines| - 1]]
  }

  /** Each stderr line is normalized with the prefix in front of it. */
  lemma {:induction false} StderrLineAt(lines: seq<string>, k: nat)
    requires k < |lines|
    ensures StderrLines(lines)[k] == ErrorLinePrefix + lines[k]
    decreases |lines|
  {
    if k < |lines| - 1 {
      StderrLineAt(lines[..|lines| - 1], k);
    }
  }

  /** One more stderr line: one more prefixed line, and a missing login
      detected so far or in that line. */
  lemma StderrStep(lines: seq<string>, i: nat)
    requires i < |lines|
    ensures StderrLines(lines[..i + 1]) == StderrLines(lines[..i]) + [ErrorLinePrefix + lines[i]]
    ensures AuthDetected(lines[..i + 1]) <==> AuthDetected(lines[..i]) || AuthPhrase(lines[i])
  {
    PrefixStep(lines, i);
  }

  /** The stderr task: every line is pushed with the "ERROR: " prefix; the
      result tells whether a line mentioned a missing login (only the Gemini
      adapter looks at it). */
  method ReadStderr(store: MsgStore, ticket: string, lines: seq<string>,
                    parse: string -> Option<Json>, ids: nat -> string, clock: nat -> Timestamp)
    returns (authErrorDetected: bool)
    requires store.Valid()
    modifies store`buffer, store`pending, store`sent
    ensures store.Valid()
    ensures authErrorDetected <==> AuthDetected(lines)
    ensures Snapshot(store) == Pushed(old(Snapshot(store)), ticket, LineEntries(StderrLines(lines), ticket, parse, ids, clock))
  {
    ghost var before := Snapshot(store);
    assert StderrLines([]) == [];
    assert LineEntries([], ticket, parse, ids, clock) == [];
    authErrorDetected := false;
    var i := 0;
    while i < |lines|
      invariant 0 <= i <= |lines|
      invariant store.Valid()
      invariant authErrorDetected <==> AuthDetected(lines[..i])
      invariant Snapshot(store) == Pushed(before, ticket, LineEntries(StderrLines(lines[..i]), ticket, parse, ids, clock))
    {
      var line := lines[i];
      StderrStep(lines, i);
      var errorLine := ErrorLinePrefix + line;
      if AuthPhrase(line) {
        authErrorDetected := true;
      }
      PushNext(store, ticket, before, StderrLines(lines[..i]), errorLine, parse, ids, clock);
      i := i + 1;
    }
    assert lines[..i] == lines;
  }

  /** Every prefixed stderr line holds "ERROR", so the text cascade types it Error. */
  lemma PrefixedIsError(line: string)
    ensures Classify(ErrorLinePrefix + line) == Error
  {
    var raw := ErrorLinePrefix + line;
    assert raw[0..][..5] == "ERROR";
    ContainsAt(raw, "ERROR", 0);
    ErrorLines(raw);
  }

  /** A stderr line the parser does not read as JSON (no JSON text starts
      with 'E') becomes an Error entry, whatever the line says. */
  lemma StderrEntriesAreErrors(lines: seq<string>, ticket: string, parse: string -> Option<Json>, ids: nat -> string, clock: nat -> Timestamp, k: nat)
    requires k < |lines| && parse(ErrorLinePrefix + lines[k]).None?
    ensures LineEntries(StderrLines(lines), ticket, parse, ids, clock)[k].message_type == Error
  {
    var raw := ErrorLinePrefix + lines[k];
    StderrLineAt(lines, k);
    LineEntriesAt(StderrLines(lines), ticket, parse, ids, clock, k);
    PrefixedIsError(lines[k]);
    assert Normalized(raw, ticket, None, ids(k), clock(k)).message_type == Classify(raw);
  }

  // ---------------------------------------------------------------------
  // The reader tasks of one attempt

  /** The parser, identifiers and clock readings of the reader tasks:
      `outIds(k)` and `errIds(k)` number the entries the stdout and stderr
      tasks of attempt `k` push, `outClock(k)` and `errClock(k)` give each of
      those entries its own clock reading, and `clockText(k)` is the RFC 3339
      text the Gemini merge falls back on. */
  datatype Readers = Readers(
    parse: string -> Option<Json>,
    outIds: nat -> nat -> string,
    errIds: nat -> nat -> string,
    outClock: nat -> nat -> Timestamp,
    errClock: nat -> nat -> Timestamp,
    clockText: nat -> string)

  lemma {:induction false} LineEntriesTagged(raws: seq<string>, ticket: string, parse: string -> Option<Json>, ids: nat -> string, clock: nat -> Timestamp)
    ensures Tagged(LineEntries(raws, ticket, parse, ids, clock), ticket)
    decreases |raws|
  {
    if raws != [] {
      LineEntriesTagged(raws[..|raws| - 1], ticket, parse, ids, clock);
    }
  }

  /** What the two reader tasks of attempt `k` push: the entries of the
      stdout lines `outRaws`, then those of the prefixed stderr lines. */
  function TaskEntries(outRaws: seq<string>, errLines: seq<string>, ticket: string, rd: Readers, k: nat)
    : (es: seq<StructuredLogEntry>)
    ensures |es| == |outRaws| + |errLines|
  {
    LineEntries(outRaws, ticket, rd.parse, rd.outIds(k), rd.outClock(k))
    + LineEntries(StderrLines(errLines), ticket, rd.parse, rd.errIds(k), rd.errClock(k))
  }

  lemma TaskEntriesTagged(outRaws: seq<string>, errLines: seq<string>, ticket: string, rd: Readers, k: nat)
    ensures Tagged(TaskEntries(outRaws, errLines, ticket, rd, k), ticket)
  {
    LineEntriesTagged(outRaws, ticket, rd.parse, rd.outIds(k), rd.outClock(k));
    LineEntriesTagged(StderrLines(errLines), ticket, rd.parse, rd.errIds(k), rd.errClock(k));
  }

  /** The reader tasks of the Claude and Cursor adapters: every stdout line as
      it is read, then every stderr line; a spawn that failed starts none. */
  function LineReader(ticket: string, rd: Readers): Reader
  {
    (k: nat, a: Attempt) => if a.Spawned? then TaskEntries(a.stdout, a.stderr, ticket, rd, k) else []
  }

  /** Every entry of the Claude and Cursor reader tasks is filed under the
      ticket, and a spawned attempt pushes one entry per line it printed. */
  lemma LineReaderFiles(ticket: string, rd: Readers)
    ensures ReadsFor(LineReader(ticket, rd), ticket)
    ensures forall k: nat, a: Attempt :: |LineReader(ticket, rd)(k, a)| == if a.Spawned? then |a.stdout| + |a.stderr| else 0
  {
    forall k: nat, a: Attempt
      ensures Tagged(LineReader(ticket, rd)(k, a), ticket)
    {
      if a.Spawned? {
        TaskEntriesTagged(a.stdout, a.stderr, ticket, rd, k);
      }
    }
  }

  /** The entries of one attempt open with its stdout lines, normalized in
      order. */
  lemma TaskEntriesStdoutAt(outRaws: seq<string>, errLines: seq<string>, ticket: string, rd: Readers, k: nat, i: nat)
    requires i < |outRaws|
    ensures TaskEntries(outRaws, errLines, ticket, rd, k)[i]
         == Normalized(outRaws[i], ticket, rd.parse(outRaws[i]), rd.outIds(k)(i), rd.outClock(k)(i))
  {
    LineEntriesAt(outRaws, ticket, rd.parse, rd.outIds(k), rd.outClock(k), i);
  }

  /** After the stdout entries come the stderr lines, each with the prefix. */
  lemma TaskEntriesStderrAt(outRaws: seq<string>, errLines: seq<string>, ticket: string, rd: Readers, k: nat, i: nat)
    requires i < |errLines|
    ensures var line := ErrorLinePrefix + errLines[i];
      TaskEntries(outRaws, errLines, ticket, rd, k)[|outRaws| + i] == Normalized(line, ticket, rd.parse(line), rd.errIds(k)(i), rd.errClock(k)(i))
  {
    StderrEntryAt(errLines, ticket, rd.parse, rd.errIds(k), rd.errClock(k), i);
    var errs := LineEntries(StderrLines(errLines), ticket, rd.parse, rd.errIds(k), rd.errClock(k));
    assert TaskEntries(outRaws, errLines, ticket, rd, k)[|outRaws| + i] == errs[i];
  }

  /** The i-th stderr entry is the i-th line, prefixed and normalized. */
  lemma StderrEntryAt(lines: seq<string>, ticket: string, parse: string -> Option<Json>, ids: nat -> string, clock: nat -> Timestamp, i: nat)
    requires i < |lines|
    ensures var line := ErrorLinePrefix + lines[i];
      LineEntries(StderrLines(lines), ticket, parse, ids, clock)[i] == Normalized(line, ticket, parse(line), ids(i), clock(i))
  {
    StderrLineAt(lines, i);
    LineEntriesAt(StderrLines(lines), ticket, parse, ids, clock, i);
  }

  /** The two reader tasks of a spawned Claude or Cursor process, run to the
      end: the stdout lines are returned, a missing login is reported when
      stderr mentioned one, and the store receives what `LineReader` says. */
  method ReadAttempt(store: MsgStore, ticket: string, a: Attempt, rd: Readers, k: nat)
    returns (output: seq<string>, authErrorDetected: bool)
    requires store.Valid() && a.Spawned?
    modifies store`buffer, store`pending, store`sent
    ensures store.Valid()
    ensures output == a.stdout && (authErrorDetected <==> AuthDetected(a.stderr))
    ensures Snapshot(store) == Pushed(old(Snapshot(store)), ticket, LineReader(ticket, rd)(k, a))
  {
    ghost var before := Snapshot(store);
    output := ReadStdout(store, ticket, a.stdout, rd.parse, rd.outIds(k), rd.outClock(k));
    authErrorDetected := ReadStderr(store, ticket, a.stderr, rd.parse, rd.errIds(k), rd.errClock(k));
    PushedTwice(before, ticket, LineEntries(a.stdout, ticket, rd.parse, rd.outIds(k), rd.outClock(k)),
                LineEntries(StderrLines(a.stderr), ticket, rd.parse, rd.errIds(k), rd.errClock(k)));
  }
}
