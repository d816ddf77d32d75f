/**
 * The message store: the log-entry type and its string codec, the conversion
 * between entries and stored rows, and `MsgStore`, which keeps a bounded
 * in-memory deque of entries per ticket, hands every pushed entry to a
 * background database write and to the broadcast channel.
 */
module MessageStore {
  import opened Wrappers
  import opened Database

  datatype LogMessageType = ToolUse | Assistant | Error | System | Result

  /** `LogMessageType::as_str`: the snake_case name stored in the database. */
  function AsStr(t: LogMessageType): (s: string)
    ensures s in LogTypeNames
  {
    match t
    case ToolUse => "tool_use"
    case Assistant => "assistant"
    case Error => "error"
    case System => "system"
    case Result => "result"
  }

  /** `LogMessageType::from_str` as the source writes it: there is no arm for
      "result", so that name falls into the catch-all with every unknown name. */
  function FromStrAsWritten(s: string): (t: LogMessageType)
    ensures t != Result
  {
    match s
    case "tool_use" => ToolUse
    case "assistant" => Assistant
    case "error" => Error
    case _ => System
  }

  /** The stored name of a Result entry reads back as System. */
  lemma AsWrittenLosesResult()
    ensures FromStrAsWritten(AsStr(Result)) == System
  {
  }

  /** `from_str` with the "result" arm that storing Result entries calls for;
      the rest of the model reads stored names with it. */
  function FromStr(s: string): (t: LogMessageType)
    ensures s !in LogTypeNames ==> t == System
    ensures s in LogTypeNames ==> AsStr(t) == s
  {
    match s
    case "tool_use" => ToolUse
    case "assistant" => Assistant
    case "error" => Error
    case "result" => Result
    case _ => System
  }

  /** Every type survives storing its name and reading it back. */
  lemma NameRoundTrip(t: LogMessageType)
    ensures FromStr(AsStr(t)) == t
  {
  }

  /** The two parses differ on "result" alone: every other name reads the
      same under both. */
  lemma FromStrAgreesAsWritten(s: string)
    requires s != "result"
    ensures FromStr(s) == FromStrAsWritten(s)
  {
  }

  /** Distinct types have distinct stored names. */
  lemma NamesDistinct(t: LogMessageType, u: LogMessageType)
    requires t != u
    ensures AsStr(t) != AsStr(u)
  {
    NameRoundTrip(t);
    NameRoundTrip(u);
  }

  datatype StructuredLogEntry = StructuredLogEntry(
    id: string,
    ticket_id: string,
    message_type: LogMessageType,
    content: string,
    raw_log: Option<string>,
    metadata: map<string, string>,
    timestamp: Timestamp)

  /** `StructuredLogEntry::to_record`: an empty metadata map is stored as NULL. */
  function ToRecord(e: StructuredLogEntry): (r: StructuredLogRecord)
    ensures r.metadata.None? <==> e.metadata == map[]
    ensures r.metadata.Some? ==> r.metadata.value == e.metadata
    ensures r.message_type == AsStr(e.message_type) && r.message_type in LogTypeNames
    ensures r.id == e.id && r.ticket_id == e.ticket_id && r.content == e.content && r.raw_log == e.raw_log
    ensures r.timestamp == e.timestamp
  {
    StructuredLogRecord(e.id, e.ticket_id, AsStr(e.message_type), e.content, e.raw_log,
                        if e.metadata == map[] then None else Some(e.metadata), e.timestamp)
  }

  /** `StructuredLogEntry::from_record`: a NULL metadata column reads as the empty map. */
  function FromRecord(r: StructuredLogRecord): (e: StructuredLogEntry)
    ensures e.metadata == if r.metadata.Some? then r.metadata.value else map[]
    ensures e.message_type == FromStr(r.message_type)
    ensures e.id == r.id && e.ticket_id == r.ticket_id && e.content == r.content && e.raw_log == r.raw_log
  {
    StructuredLogEntry(r.id, r.ticket_id, FromStr(r.message_type), r.content, r.raw_log,
                       if r.metadata.Some? then r.metadata.value else map[], r.timestamp)
  }

  /** Storing an entry and reading it back gives the same entry. */
  lemma {:induction false} RecordRoundTrip(e: StructuredLogEntry)
    ensures FromRecord(ToRecord(e)) == e
  {
    NameRoundTrip(e.message_type);
  }

  /** A stored row whose type is not "result" reads back with the type the
      parse as written gives it. */
  lemma FromRecordAgreesAsWritten(r: StructuredLogRecord)
    requires r.message_type != "result"
    ensures FromRecord(r).message_type == FromStrAsWritten(r.message_type)
  {
    FromStrAgreesAsWritten(r.message_type);
  }

  /** Under the parse as written, the round trip holds for every type but
      Result, and a Result entry reads back as System. */
  lemma RecordRoundTripAsWritten(e: StructuredLogEntry)
    ensures e.message_type != Result ==> FromStrAsWritten(ToRecord(e).message_type) == e.message_type
    ensures e.message_type == Result ==> FromStrAsWritten(ToRecord(e).message_type) == System
  {
    NameRoundTrip(e.message_type);
    if e.message_type != Result {
      FromStrAgreesAsWritten(AsStr(e.message_type));
    }
  }

  function FromRecords(rs: seq<StructuredLogRecord>): (es: seq<StructuredLogEntry>)
    ensures |es| == |rs|
    ensures forall i :: 0 <= i < |rs| ==> es[i] == FromRecord(rs[i])
  {
    seq(|rs|, i requires 0 <= i < |rs| => FromRecord(rs[i]))
  }

  const MaxBufferSize: nat := 1000

  /** `push_back`, then one `pop_front` when the deque went over the cap. */
  function PushCapped(d: seq<StructuredLogEntry>, e: StructuredLogEntry): (r: seq<StructuredLogEntry>)
  {
    if |d| + 1 > MaxBufferSize then (d + [e])[1..] else d + [e]
  }

  /** Pushing entries one at a time. */
  function PushAll(d: seq<StructuredLogEntry>, es: seq<StructuredLogEntry>): seq<StructuredLogEntry>
    decreases |es|
  {
    if es == [] then d else PushAll(PushCapped(d, es[0]), es[1..])
  }

  /** The last `n` elements of `s`, or all of them when there are fewer. */
  function LastN<T>(s: seq<T>, n: nat): (r: seq<T>)
    ensures |r| <= n && |r| <= |s|
  {
    if |s| <= n then s else s[|s| - n..]
  }

  /** Pushing onto a deque within the cap keeps it within the cap, appends the
      entry at the back and drops exactly the oldest entry when it must. */
  lemma PushCappedBounded(d: seq<StructuredLogEntry>, e: StructuredLogEntry)
    requires |d| <= MaxBufferSize
    ensures |PushCapped(d, e)| <= MaxBufferSize
    ensures PushCapped(d, e) == LastN(d + [e], MaxBufferSize)
    ensures |PushCapped(d, e)| > 0 && PushCapped(d, e)[|PushCapped(d, e)| - 1] == e
  {
  }

  /** However many entries are pushed, a deque within the cap holds exactly the
      newest 1000 of everything it has seen, oldest first. */
  lemma {:induction false} PushAllKeepsNewest(d: seq<StructuredLogEntry>, es: seq<StructuredLogEntry>)
    requires |d| <= MaxBufferSize
    ensures PushAll(d, es) == LastN(d + es, MaxBufferSize)
    decreases |es|
  {
    if es != [] {
      var d1 := PushCapped(d, es[0]);
      PushCappedBounded(d, es[0]);
      PushAllKeepsNewest(d1, es[1..]);
      assert d + es == (d + [es[0]]) + es[1..];
      LastNAppend(d + [es[0]], es[1..], MaxBufferSize);
    }
  }

  lemma LastNAppend<T>(s: seq<T>, t: seq<T>, n: nat)
    ensures LastN(LastN(s, n) + t, n) == LastN(s + t, n)
  {
    if |s| > n {
      var k := |s| - n;
      assert s + t == s[..k] + (s[k..] + t);
      assert (s + t)[|s + t| - n..] == (s[k..] + t)[|s[k..] + t| - n..];
    }
  }

  /** Every deque is within the cap and holds only its own ticket's entries. */
  ghost predicate BufferInvariant(buffer: map<string, seq<StructuredLogEntry>>)
  {
    forall t | t in buffer ::
      |buffer[t]| <= MaxBufferSize && forall i | 0 <= i < |buffer[t]| :: buffer[t][i].ticket_id == t
  }

  function Deque(buffer: map<string, seq<StructuredLogEntry>>, ticket: string): seq<StructuredLogEntry>
  {
    if ticket in buffer then buffer[ticket] else []
  }

  class MsgStore {
    /** The per-ticket deques. */
    var buffer: map<string, seq<StructuredLogEntry>>
    /** Rows whose background `save_log` task has been spawned but has not run. */
    var pending: seq<StructuredLogRecord>
    /** Everything sent on the broadcast channel, in order. */
    var sent: seq<StructuredLogEntry>
    const db: Database

    ghost predicate Valid()
      reads this, db
    {
      BufferInvariant(buffer) && db.Valid()
    }

    constructor (db: Database)
      requires db.Valid()
      ensures Valid() && this.db == db
      ensures buffer == map[] && pending == [] && sent == []
    {
      this.db := db;
      buffer, pending, sent := map[], [], [];
    }

    /** `MsgStore::push`: append to the entry's own deque (dropping its oldest
        entry past 1000), spawn the database write, broadcast the entry. The
        write is only queued here, so neither its success nor its order
        relative to the broadcast is promised. */
    method Push(e: StructuredLogEntry)
      requires Valid()
      modifies this`buffer, this`pending, this`sent
      ensures Valid()
      ensures buffer == old(buffer)[e.ticket_id := PushCapped(Deque(old(buffer), e.ticket_id), e)]
      ensures pending == old(pending) + [ToRecord(e)]
      ensures sent == old(sent) + [e]
    {
      var d := if e.ticket_id in buffer then buffer[e.ticket_id] else [];
      d := d + [e];
      if |d| > MaxBufferSize {
        d := d[1..];
      }
      buffer := buffer[e.ticket_id := d];
      pending := pending + [ToRecord(e)];
      sent := sent + [e];
    }

    /** One spawned background write runs, in whatever order the runtime
        picks: `save_log` on its row; a failure is only logged. */
    method RunPendingWrite(i: nat)
      requires Valid() && i < |pending|
      modifies this`pending, db`logs
      ensures Valid()
      ensures pending == old(pending[..i] + pending[i + 1..])
      ensures db.logs == if Insertable(old(db.logs), db.tickets.Keys, old(pending[i]))
                         then old(db.logs) + [old(pending[i])] else old(db.logs)
    {
      var row := pending[i];
      var _ := db.SaveLog(row);
      pending := pending[..i] + pending[i + 1..];
    }

    /** `MsgStore::get_logs`: the ticket's deque when it has one, otherwise the
        first page of 100 stored rows (the query's default size) as entries. */
    method GetLogs(ticket: string) returns (entries: seq<StructuredLogEntry>)
      ensures ticket in buffer ==> entries == buffer[ticket]
      ensures ticket !in buffer ==> entries == FromRecords(LogQuery(db.logs, ticket, None, None))
      ensures ticket !in buffer ==> |entries| <= DefaultPageSize
    {
      if ticket in buffer {
        return buffer[ticket];
      }
      var records := db.GetLogsForTicket(ticket, None, None);
      entries := FromRecords(records);
    }

    /** `MsgStore::clear_logs`: drop the ticket's deque, then its stored rows. */
    method ClearLogs(ticket: string)
      requires Valid()
      modifies this`buffer, db`logs
      ensures Valid()
      ensures buffer == old(buffer) - {ticket}
      ensures db.logs == Without(old(db.logs), ticket)
    {
      buffer := buffer - {ticket};
      db.ClearLogsForTicket(ticket);
    }

    /** `MsgStore::get_buffer_stats`: each buffered ticket with its deque length. */
    function BufferStats(): (stats: map<string, nat>)
      reads this, db
      requires Valid()
      ensures stats.Keys == buffer.Keys
      ensures forall t | t in stats :: stats[t] == |buffer[t]| && stats[t] <= MaxBufferSize
    {
      map t | t in buffer :: |buffer[t]|
    }

    /** `MsgStore::warm_cache`: the ticket's deque is emptied and refilled, one
        capped push per row, from the first page of stored rows; that page
        holds at most 100 rows, so nothing is dropped. */
    method WarmCache(ticket: string)
      requires Valid()
      modifies this`buffer
      ensures Valid()
      ensures buffer == old(buffer)[ticket := FromRecords(LogQuery(db.logs, ticket, None, None))]
    {
      var records := db.GetLogsForTicket(ticket, None, None);
      var entries := FromRecords(records);
      var d := Refill(entries);
      PushAllKeepsNewest([], entries);
      assert [] + entries == entries;
      LogQueryShape(db.logs, ticket, None, None);
      assert forall i :: 0 <= i < |d| ==> d[i].ticket_id == ticket by {
        forall i | 0 <= i < |d| ensures d[i].ticket_id == ticket {
          assert d[i] == FromRecord(records[i]);
        }
      }
      buffer := buffer[ticket := d];
    }
  }

  /** The refill loop of `warm_cache`: push each entry in turn onto an empty
      deque; the result is the newest 1000 entries. */
  method Refill(entries: seq<StructuredLogEntry>) returns (d: seq<StructuredLogEntry>)
    ensures d == PushAll([], entries)
    ensures d == LastN(entries, MaxBufferSize)
  {
    d := [];
    var i := 0;
    while i < |entries|
      invariant 0 <= i <= |entries|
      invariant d == PushAll([], entries[..i])
      invariant |d| <= MaxBufferSize
    {
      PushAllStep([], entries[..i], entries[i]);
      assert entries[..i + 1] == entries[..i] + [entries[i]];
      PushCappedBounded(d, entries[i]);
      d := d + [entries[i]];
      if |d| > MaxBufferSize {
        d := d[1..];
      }
      i := i + 1;
    }
    assert entries[..i] == entries;
    PushAllKeepsNewest([], entries);
    assert [] + entries == entries;
  }

  lemma {:induction false} PushAllStep(d: seq<StructuredLogEntry>, es: seq<StructuredLogEntry>, e: StructuredLogEntry)
    ensures PushAll(d, es + [e]) == PushCapped(PushAll(d, es), e)
    decreases |es|
  {
    if es == [] {
      assert es + [e] == [e];
      assert [e][1..] == [];
    } else {
      assert (es + [e])[0] == es[0] && (es + [e])[1..] == es[1..] + [e];
      PushAllStep(PushCapped(d, es[0]), es[1..], e);
    }
  }
}
