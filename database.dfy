/**
 * The SQLite storage layer as in-memory tables. Each table keeps the
 * constraints its schema declares: primary keys, the CHECK lists of allowed
 * status and type names, and foreign keys (enforced, with ON DELETE CASCADE).
 * Every query is a function of the tables; every statement that changes them
 * is a method of `Database`.
 */
module Database {
  import opened Wrappers

  datatype ProjectRecord = ProjectRecord(
    id: string,
    name: string,
    description: Option<string>,
    directory_path: string,
    created_at: Timestamp,
    updated_at: Timestamp)

  /** A ticket row, with the planning columns the handlers and agents use. */
  datatype TicketRecord = TicketRecord(
    id: string,
    project_id: string,
    title: string,
    description: string,
    status: string,
    code_context: Option<string>,
    analysis_result: Option<string>,
    is_analyzing: bool,
    created_at: Timestamp,
    updated_at: Timestamp,
    mode: string,
    plan_content: Option<string>,
    plan_created_at: Option<Timestamp>,
    required_approvals: int)

  /** A stored log row; `metadata` stands for the JSON text of a string map. */
  datatype StructuredLogRecord = StructuredLogRecord(
    id: string,
    ticket_id: string,
    message_type: string,
    content: string,
    raw_log: Option<string>,
    metadata: Option<map<string, string>>,
    timestamp: Timestamp)

  datatype AnalysisSession = AnalysisSession(
    id: string,
    ticket_id: string,
    started_at: Timestamp,
    completed_at: Option<Timestamp>,
    status: string,
    error_message: Option<string>)

  /** The CHECK lists of the schema. */
  const TicketStatuses: set<string> := {"todo", "in-progress", "done"}
  const LogTypeNames: set<string> := {"tool_use", "assistant", "error", "system", "result"}
  const SessionStatuses: set<string> := {"running", "completed", "failed", "cancelled"}

  const U64Limit: nat := 0x1_0000_0000_0000_0000
  const I64Limit: nat := 0x8000_0000_0000_0000
  type u64 = x: nat | x < U64Limit

  const DefaultPageSize: nat := 100
  const MaxPageSize: nat := 1000

  /** The page size actually queried: the requested size, or 100, clamped to [1, 1000]. */
  function EffectiveLimit(limit: Option<u64>): (n: nat)
    ensures 1 <= n <= MaxPageSize
    ensures limit.None? ==> n == DefaultPageSize
    ensures limit.Some? && 1 <= limit.value <= MaxPageSize ==> n == limit.value
    ensures limit.Some? && limit.value > MaxPageSize ==> n == MaxPageSize
    ensures limit == Some(0) ==> n == 1
  {
    var l := limit.UnwrapOr(DefaultPageSize);
    if l < 1 then 1 else if l > MaxPageSize then MaxPageSize else l
  }

  /** The rows skipped: the requested offset, or 0. The offset is bound as an
      `i64`, so a value of 2^63 or more arrives negative, and SQLite treats a
      negative OFFSET as zero. */
  function EffectiveOffset(offset: Option<u64>): (n: nat)
    ensures offset.None? ==> n == 0
    ensures offset.Some? && offset.value < I64Limit ==> n == offset.value
    ensures offset.Some? && offset.value >= I64Limit ==> n == 0
  {
    var o := offset.UnwrapOr(0);
    if o < I64Limit then o else 0
  }

  /** The rows of one ticket, in table order. */
  function TicketLogs(logs: seq<StructuredLogRecord>, ticket: string): (r: seq<StructuredLogRecord>)
    ensures |r| <= |logs|
    ensures forall i :: 0 <= i < |r| ==> r[i].ticket_id == ticket
  {
    if logs == [] then []
    else (if logs[0].ticket_id == ticket then [logs[0]] else []) + TicketLogs(logs[1..], ticket)
  }

  lemma {:induction false} TicketLogsSub(logs: seq<StructuredLogRecord>, ticket: string)
    ensures forall x | x in TicketLogs(logs, ticket) :: x in logs
  {
    if logs != [] {
      TicketLogsSub(logs[1..], ticket);
    }
  }

  lemma {:induction false} TicketLogsNone(logs: seq<StructuredLogRecord>, ticket: string)
    requires forall i | 0 <= i < |logs| :: logs[i].ticket_id != ticket
    ensures TicketLogs(logs, ticket) == []
  {
    if logs != [] {
      TicketLogsNone(logs[1..], ticket);
    }
  }

  function Ids(logs: seq<StructuredLogRecord>): set<string>
  {
    set i | 0 <= i < |logs| :: logs[i].id
  }

  predicate SortedByTime(s: seq<StructuredLogRecord>)
  {
    forall i, j :: 0 <= i < j < |s| ==> s[i].timestamp <= s[j].timestamp
  }

  /** Inserts `r` before the first row that is later than it. */
  function InsertByTime(s: seq<StructuredLogRecord>, r: StructuredLogRecord): (t: seq<StructuredLogRecord>)
  {
    if s == [] then [r]
    else if r.timestamp < s[0].timestamp then [r] + s
    else [s[0]] + InsertByTime(s[1..], r)
  }

  lemma {:induction false} InsertKeepsRows(s: seq<StructuredLogRecord>, r: StructuredLogRecord)
    ensures multiset(InsertByTime(s, r)) == multiset(s) + multiset{r}
  {
    if s != [] && r.timestamp >= s[0].timestamp {
      InsertKeepsRows(s[1..], r);
      assert s == [s[0]] + s[1..];
    }
  }

  lemma {:induction false} InsertKeepsBound(s: seq<StructuredLogRecord>, r: StructuredLogRecord, b: int)
    requires forall i | 0 <= i < |s| :: b <= s[i].timestamp
    requires b <= r.timestamp
    ensures forall i | 0 <= i < |InsertByTime(s, r)| :: b <= InsertByTime(s, r)[i].timestamp
  {
    if s != [] && r.timestamp >= s[0].timestamp {
      InsertKeepsBound(s[1..], r, b);
    }
  }

  lemma {:induction false} InsertKeepsOrder(s: seq<StructuredLogRecord>, r: StructuredLogRecord)
    requires SortedByTime(s)
    ensures SortedByTime(InsertByTime(s, r))
  {
    if s != [] && r.timestamp >= s[0].timestamp {
      var u := InsertByTime(s[1..], r);
      InsertKeepsOrder(s[1..], r);
      InsertKeepsBound(s[1..], r, s[0].timestamp);
      var t := [s[0]] + u;
      assert t == InsertByTime(s, r);
      forall i, j | 0 <= i < j < |t| ensures t[i].timestamp <= t[j].timestamp {
        assert t[j] == u[j - 1];
        if i > 0 { assert t[i] == u[i - 1]; }
      }
    }
  }

  /** `ORDER BY timestamp ASC`; rows with equal timestamps keep table order,
      the order an SQLite scan produces them in. */
  function SortByTime(s: seq<StructuredLogRecord>): (t: seq<StructuredLogRecord>)
    ensures SortedByTime(t) && multiset(t) == multiset(s)
  {
    if s == [] then []
    else
      var u := SortByTime(s[..|s| - 1]);
      InsertKeepsRows(u, s[|s| - 1]);
      InsertKeepsOrder(u, s[|s| - 1]);
      assert s == s[..|s| - 1] + [s[|s| - 1]];
      InsertByTime(u, s[|s| - 1])
  }

  /** No two rows share a timestamp. */
  predicate DistinctTimes(s: seq<StructuredLogRecord>)
  {
    forall i, j :: 0 <= i < j < |s| ==> s[i].timestamp != s[j].timestamp
  }

  /** Rows with distinct timestamps have one sorted order only: any order the
      database breaks ties in returns them as `SortByTime` does. */
  lemma {:induction false} SortedUnique(a: seq<StructuredLogRecord>, b: seq<StructuredLogRecord>)
    requires SortedByTime(a) && SortedByTime(b) && multiset(a) == multiset(b) && DistinctTimes(a)
    ensures a == b
    decreases |a|
  {
    assert |a| == |multiset(a)| == |multiset(b)| == |b|;
    if a != [] {
      SameFirst(a, b);
      SameRest(a, b);
      SortedUnique(a[1..], b[1..]);
      assert a == [a[0]] + a[1..] && b == [b[0]] + b[1..];
    }
  }

  /** Both sorted arrangements start with the row of the least timestamp. */
  lemma SameFirst(a: seq<StructuredLogRecord>, b: seq<StructuredLogRecord>)
    requires SortedByTime(a) && SortedByTime(b) && multiset(a) == multiset(b) && DistinctTimes(a)
    requires a != [] && b != []
    ensures a[0] == b[0]
  {
    assert a[0] in multiset(b);
    var j :| 0 <= j < |b| && b[j] == a[0];
    assert b[0] in multiset(a);
    var i :| 0 <= i < |a| && a[i] == b[0];
    assert b[0].timestamp <= b[j].timestamp;
    assert a[0].timestamp <= a[i].timestamp;
  }

  lemma SameRest(a: seq<StructuredLogRecord>, b: seq<StructuredLogRecord>)
    requires a != [] && b != [] && a[0] == b[0] && multiset(a) == multiset(b)
    requires SortedByTime(a) && SortedByTime(b) && DistinctTimes(a)
    ensures multiset(a[1..]) == multiset(b[1..])
    ensures SortedByTime(a[1..]) && SortedByTime(b[1..]) && DistinctTimes(a[1..])
  {
    WithoutFirst(a);
    WithoutFirst(b);
  }

  lemma WithoutFirst<T>(s: seq<T>)
    requires s != []
    ensures multiset(s[1..]) == multiset(s) - multiset{s[0]}
  {
    assert s == [s[0]] + s[1..];
    assert multiset(s) == multiset{s[0]} + multiset(s[1..]);
  }

  /** `LIMIT limit OFFSET offset` over `s`. */
  function Page<T>(s: seq<T>, offset: nat, limit: nat): (r: seq<T>)
    ensures |r| <= limit
    ensures offset >= |s| ==> r == []
    ensures offset < |s| ==> r == s[offset..if offset + limit <= |s| then offset + limit else |s|]
  {
    if offset >= |s| then []
    else s[offset..if offset + limit <= |s| then offset + limit else |s|]
  }

  /** The rows `get_logs_for_ticket` returns. */
  function LogQuery(logs: seq<StructuredLogRecord>, ticket: string, limit: Option<u64>, offset: Option<u64>)
    : (r: seq<StructuredLogRecord>)
    ensures var n, o := |TicketLogs(logs, ticket)|, EffectiveOffset(offset);
      |r| == if o >= n then 0 else if o + EffectiveLimit(limit) <= n then EffectiveLimit(limit) else n - o
  {
    SortKeepsRows(TicketLogs(logs, ticket));
    Page(SortByTime(TicketLogs(logs, ticket)), EffectiveOffset(offset), EffectiveLimit(limit))
  }

  /** Sorting keeps the rows, so also their number. */
  lemma SortKeepsRows(s: seq<StructuredLogRecord>)
    ensures |SortByTime(s)| == |s|
    ensures forall x | x in SortByTime(s) :: x in s
  {
    var t := SortByTime(s);
    assert |multiset(t)| == |multiset(s)|;
    forall x | x in t ensures x in s {
      assert x in multiset(t);
    }
  }

  /** A page is a run of consecutive rows: no longer than the rows past the
      offset, each one taken from the rows, in their order. */
  lemma PageOfRows(s: seq<StructuredLogRecord>, offset: nat, limit: nat)
    ensures |Page(s, offset, limit)| <= |s|
    ensures offset < |s| ==> offset + |Page(s, offset, limit)| <= |s|
    ensures forall x | x in Page(s, offset, limit) :: x in s
    ensures SortedByTime(s) ==> SortedByTime(Page(s, offset, limit))
  {
    if offset < |s| {
      var e := if offset + limit <= |s| then offset + limit else |s|;
      forall x | x in s[offset..e] ensures x in s {
        var i :| 0 <= i < e - offset && s[offset..e][i] == x;
        assert s[offset + i] == x;
      }
    }
  }

  /** What a page holds: at most the effective limit of rows, all of the
      ticket, in ascending time order, each one a stored row. */
  lemma LogQueryShape(logs: seq<StructuredLogRecord>, ticket: string, limit: Option<u64>, offset: Option<u64>)
    ensures |LogQuery(logs, ticket, limit, offset)| <= EffectiveLimit(limit)
    ensures SortedByTime(LogQuery(logs, ticket, limit, offset))
    ensures forall i :: 0 <= i < |LogQuery(logs, ticket, limit, offset)| ==>
              LogQuery(logs, ticket, limit, offset)[i].ticket_id == ticket
              && LogQuery(logs, ticket, limit, offset)[i] in logs
  {
    var mine := TicketLogs(logs, ticket);
    var s := SortByTime(mine);
    var q := LogQuery(logs, ticket, limit, offset);
    TicketLogsSub(logs, ticket);
    SortKeepsRows(mine);
    PageOfRows(s, EffectiveOffset(offset), EffectiveLimit(limit));
    forall i | 0 <= i < |q| ensures q[i].ticket_id == ticket && q[i] in logs {
      assert q[i] in s;
      assert q[i] in mine;
    }
  }

  /** Over any rows, two consecutive pages of size N are one page of size 2N. */
  lemma PageSplit<T>(s: seq<T>, n: nat)
    requires 1 <= n
    ensures Page(s, 0, n) + Page(s, n, n) == Page(s, 0, 2 * n)
  {
    if n >= |s| {
      assert Page(s, 0, n) == s[0..|s|] == s;
    } else if 2 * n >= |s| {
      assert s[0..n] + s[n..|s|] == s[0..|s|];
    } else {
      assert s[0..n] + s[n..2 * n] == s[0..2 * n];
    }
  }

  /** Two consecutive pages of size N read the same rows as one page of size 2N. */
  lemma PagesConcatenate(logs: seq<StructuredLogRecord>, ticket: string, n: nat)
    requires 1 <= n && 2 * n <= MaxPageSize
    ensures LogQuery(logs, ticket, Some(n), Some(0)) + LogQuery(logs, ticket, Some(n), Some(n))
         == LogQuery(logs, ticket, Some(2 * n), Some(0))
  {
    assert EffectiveLimit(Some(n)) == n && EffectiveLimit(Some(2 * n)) == 2 * n;
    assert EffectiveOffset(Some(0)) == 0 && EffectiveOffset(Some(n)) == n;
    PageSplit(SortByTime(TicketLogs(logs, ticket)), n);
  }

  /** When the ticket's rows have distinct timestamps, `ORDER BY timestamp`
      leaves the database no choice: a page cut from any sorted arrangement
      of those rows is the page `LogQuery` gives. */
  lemma QueryOrderForced(logs: seq<StructuredLogRecord>, ticket: string, order: seq<StructuredLogRecord>,
                         limit: Option<u64>, offset: Option<u64>)
    requires SortedByTime(order) && multiset(order) == multiset(TicketLogs(logs, ticket)) && DistinctTimes(order)
    ensures Page(order, EffectiveOffset(offset), EffectiveLimit(limit)) == LogQuery(logs, ticket, limit, offset)
  {
    SortedUnique(order, SortByTime(TicketLogs(logs, ticket)));
  }

  /** The loop that turns each fetched row into a record, field by field. */
  method CopyRows(rows: seq<StructuredLogRecord>) returns (result: seq<StructuredLogRecord>)
    ensures result == rows
  {
    result := [];
    var i := 0;
    while i < |rows|
      invariant 0 <= i <= |rows|
      invariant result == rows[..i]
    {
      var row := rows[i];
      var copy := StructuredLogRecord(row.id, row.ticket_id, row.message_type, row.content,
                                      row.raw_log, row.metadata, row.timestamp);
      assert rows[..i + 1] == rows[..i] + [row];
      result := result + [copy];
      i := i + 1;
    }
    assert rows[..i] == rows;
  }

  /** SQLite's constraints on one inserted log row: a fresh primary key, a
      message type from the CHECK list and an existing ticket. */
  predicate Insertable(logs: seq<StructuredLogRecord>, tickets: set<string>, r: StructuredLogRecord)
  {
    r.id !in Ids(logs) && r.message_type in LogTypeNames && r.ticket_id in tickets
  }

  /** Rows inserted one after another in one transaction all succeed. */
  predicate BatchInsertable(logs: seq<StructuredLogRecord>, tickets: set<string>, rs: seq<StructuredLogRecord>)
    decreases |rs|
  {
    rs == [] || (Insertable(logs, tickets, rs[0]) && BatchInsertable(logs + [rs[0]], tickets, rs[1..]))
  }

  predicate DistinctIds(rs: seq<StructuredLogRecord>)
  {
    forall i, j :: 0 <= i < j < |rs| ==> rs[i].id != rs[j].id
  }

  /** A batch goes in exactly when every row is valid on its own, no row
      reuses a stored id and the batch's own ids are distinct. */
  lemma {:induction false} BatchInsertableIff(logs: seq<StructuredLogRecord>, tickets: set<string>, rs: seq<StructuredLogRecord>)
    ensures BatchInsertable(logs, tickets, rs) <==>
      DistinctIds(rs)
      && forall i :: 0 <= i < |rs| ==> Insertable(logs, tickets, rs[i])
    decreases |rs|
  {
    if rs != [] {
      BatchInsertableIff(logs + [rs[0]], tickets, rs[1..]);
      IdsAppend(logs, rs[0]);
      if DistinctIds(rs) && forall i :: 0 <= i < |rs| ==> Insertable(logs, tickets, rs[i]) {
        forall i | 0 <= i < |rs[1..]| ensures Insertable(logs + [rs[0]], tickets, rs[1..][i]) {
          assert rs[1..][i] == rs[i + 1];
          assert rs[0].id != rs[i + 1].id;
        }
      }
      if BatchInsertable(logs, tickets, rs) {
        forall i | 0 <= i < |rs| ensures Insertable(logs, tickets, rs[i]) {
          if i > 0 { assert rs[1..][i - 1] == rs[i]; }
        }
        forall i, j | 0 <= i < j < |rs| ensures rs[i].id != rs[j].id {
          assert rs[1..][j - 1] == rs[j];
          if i > 0 { assert rs[1..][i - 1] == rs[i]; }
        }
      }
    }
  }

  lemma IdsAppend(logs: seq<StructuredLogRecord>, r: StructuredLogRecord)
    ensures Ids(logs + [r]) == Ids(logs) + {r.id}
  {
    var l := logs + [r];
    assert l[|logs|].id == r.id;
    forall x | x in Ids(logs) ensures x in Ids(l) {
      var i :| 0 <= i < |logs| && logs[i].id == x;
      assert l[i] == logs[i];
    }
  }

  predicate RunningFor(s: AnalysisSession, ticket: string)
  {
    s.ticket_id == ticket && s.status == "running"
  }

  /** The tables. `logs` keeps insertion order, the order of the table's rows. */
  class Database {
    var projects: map<string, ProjectRecord>
    var tickets: map<string, TicketRecord>
    var logs: seq<StructuredLogRecord>
    var sessions: map<string, AnalysisSession>

    /** Keys, CHECK lists and foreign keys hold in every table. */
    ghost predicate Valid()
      reads this
    {
      (forall k | k in projects :: projects[k].id == k)
      && (forall k | k in tickets ::
            tickets[k].id == k && tickets[k].status in TicketStatuses && tickets[k].project_id in projects)
      && (forall k | k in sessions ::
            sessions[k].id == k && sessions[k].ticket_id in tickets && sessions[k].status in SessionStatuses)
      && DistinctIds(logs)
      && (forall i | 0 <= i < |logs| :: logs[i].ticket_id in tickets && logs[i].message_type in LogTypeNames)
    }

    constructor ()
      ensures Valid()
      ensures projects == map[] && tickets == map[] && logs == [] && sessions == map[]
    {
      projects, tickets, logs, sessions := map[], map[], [], map[];
    }

    function GetProject(id: string): (r: Option<ProjectRecord>)
      reads this
      ensures r.Some? <==> id in projects
      ensures r.Some? ==> r.value == projects[id]
    {
      if id in projects then Some(projects[id]) else None
    }

    function GetTicket(id: string): (r: Option<TicketRecord>)
      reads this
      ensures r.Some? <==> id in tickets
      ensures r.Some? ==> r.value == tickets[id]
    {
      if id in tickets then Some(tickets[id]) else None
    }

    /** `INSERT INTO projects`. */
    method CreateProject(p: ProjectRecord) returns (r: Outcome<()>)
      requires Valid()
      modifies this`projects
      ensures Valid()
      ensures r.Ok? <==> p.id !in old(projects)
      ensures projects == if r.Ok? then old(projects)[p.id := p] else old(projects)
    {
      if p.id in projects {
        return Err("UNIQUE constraint failed: projects.id");
      }
      projects := projects[p.id := p];
      r := Ok(());
    }

    /** `UPDATE projects SET name, description, directory_path, updated_at WHERE id`:
        the id and `created_at` of the stored row stay; a missing id changes nothing. */
    method UpdateProject(p: ProjectRecord)
      requires Valid()
      modifies this`projects
      ensures Valid()
      ensures projects == if p.id in old(projects) then
        old(projects)[p.id := old(projects)[p.id].(name := p.name, description := p.description,
                                                   directory_path := p.directory_path, updated_at := p.updated_at)]
        else old(projects)
    {
      if p.id in projects {
        var row := projects[p.id];
        projects := projects[p.id := row.(name := p.name, description := p.description,
                                         directory_path := p.directory_path, updated_at := p.updated_at)];
      }
    }

    /** `INSERT INTO tickets`: fails on a duplicate id, a status outside the
        CHECK list or a project that does not exist. */
    method CreateTicket(t: TicketRecord) returns (r: Outcome<()>)
      requires Valid()
      modifies this`tickets
      ensures Valid()
      ensures r.Ok? <==> t.id !in old(tickets) && t.status in TicketStatuses && t.project_id in projects
      ensures tickets == if r.Ok? then old(tickets)[t.id := t] else old(tickets)
    {
      if t.id in tickets {
        return Err("UNIQUE constraint failed: tickets.id");
      }
      if t.status !in TicketStatuses {
        return Err("CHECK constraint failed: status");
      }
      if t.project_id !in projects {
        return Err("FOREIGN KEY constraint failed");
      }
      tickets := tickets[t.id := t];
      r := Ok(());
    }

    /** `UPDATE tickets SET is_analyzing, updated_at WHERE id`. */
    method UpdateTicketAnalyzing(id: string, analyzing: bool, now: Timestamp)
      requires Valid()
      modifies this`tickets
      ensures Valid()
      ensures tickets == if id in old(tickets) then
        old(tickets)[id := old(tickets)[id].(is_analyzing := analyzing, updated_at := now)]
        else old(tickets)
    {
      if id in tickets {
        tickets := tickets[id := tickets[id].(is_analyzing := analyzing, updated_at := now)];
      }
    }

    /** `UPDATE tickets SET analysis_result, is_analyzing = false, updated_at WHERE id`. */
    method UpdateTicketResult(id: string, result: string, now: Timestamp)
      requires Valid()
      modifies this`tickets
      ensures Valid()
      ensures tickets == if id in old(tickets) then
        old(tickets)[id := old(tickets)[id].(analysis_result := Some(result), is_analyzing := false, updated_at := now)]
        else old(tickets)
    {
      if id in tickets {
        tickets := tickets[id := tickets[id].(analysis_result := Some(result), is_analyzing := false, updated_at := now)];
      }
    }

    /** `DELETE FROM tickets WHERE id`; the foreign keys cascade to the
        ticket's logs and sessions. */
    method DeleteTicket(id: string)
      requires Valid()
      modifies this`tickets, this`logs, this`sessions
      ensures Valid()
      ensures tickets == old(tickets) - {id}
      ensures logs == Without(old(logs), id)
      ensures sessions == map k | k in old(sessions) && old(sessions)[k].ticket_id != id :: old(sessions)[k]
      ensures projects == old(projects)
    {
      WithoutKeeps(logs, id);
      WithoutRefersToOthers(logs, tickets.Keys, id);
      tickets := tickets - {id};
      logs := Without(logs, id);
      sessions := map k | k in sessions && sessions[k].ticket_id != id :: sessions[k];
    }

    /** `INSERT INTO structured_logs`. */
    method SaveLog(r: StructuredLogRecord) returns (o: Outcome<()>)
      requires Valid()
      modifies this`logs
      ensures Valid()
      ensures o.Ok? <==> Insertable(old(logs), tickets.Keys, r)
      ensures logs == if o.Ok? then old(logs) + [r] else old(logs)
    {
      if !Insertable(logs, tickets.Keys, r) {
        return Err("constraint failed: structured_logs");
      }
      IdsAppend(logs, r);
      SavedKeepsValid(logs, r);
      logs := logs + [r];
      o := Ok(());
    }

    /** Inserts every row in one transaction: on the first failing row the
        transaction is dropped and nothing is stored. */
    method SaveLogsBatch(rs: seq<StructuredLogRecord>) returns (o: Outcome<()>)
      requires Valid()
      modifies this`logs
      ensures Valid()
      ensures rs == [] ==> o.Ok?
      ensures o.Ok? <==> BatchInsertable(old(logs), tickets.Keys, rs)
      ensures logs == if o.Ok? then old(logs) + rs else old(logs)
    {
      if rs == [] {
        return Ok(());
      }
      var tx := logs;
      var i := 0;
      while i < |rs|
        invariant 0 <= i <= |rs|
        invariant tx == old(logs) + rs[..i] && logs == old(logs)
        invariant BatchInsertable(old(logs), tickets.Keys, rs) <==> BatchInsertable(tx, tickets.Keys, rs[i..])
        invariant DistinctIds(tx) && forall j | 0 <= j < |tx| :: tx[j].ticket_id in tickets && tx[j].message_type in LogTypeNames
      {
        if !Insertable(tx, tickets.Keys, rs[i]) {
          return Err("constraint failed: structured_logs");
        }
        assert rs[i..][1..] == rs[i + 1..];
        assert rs[..i + 1] == rs[..i] + [rs[i]];
        IdsAppend(tx, rs[i]);
        SavedKeepsValid(tx, rs[i]);
        tx := tx + [rs[i]];
        i := i + 1;
      }
      assert rs[..i] == rs;
      logs := tx;
      o := Ok(());
    }

    lemma SavedKeepsValid(l: seq<StructuredLogRecord>, r: StructuredLogRecord)
      requires DistinctIds(l) && r.id !in Ids(l)
      ensures DistinctIds(l + [r])
    {
      var t := l + [r];
      forall i, j | 0 <= i < j < |t| ensures t[i].id != t[j].id {
        if j == |l| { assert t[i] == l[i]; assert l[i].id in Ids(l); }
      }
    }

    /** `SELECT COUNT(*) FROM structured_logs WHERE ticket_id`. */
    function CountLogsForTicket(ticket: string): (n: nat)
      reads this
      ensures n == |TicketLogs(logs, ticket)|
      ensures n <= |logs|
    {
      |TicketLogs(logs, ticket)|
    }

    /** `get_logs_for_ticket`: the query, then its rows copied into records. */
    method GetLogsForTicket(ticket: string, limit: Option<u64>, offset: Option<u64>)
      returns (result: seq<StructuredLogRecord>)
      ensures result == LogQuery(logs, ticket, limit, offset)
      ensures |result| <= EffectiveLimit(limit)
    {
      var rows := LogQuery(logs, ticket, limit, offset);
      result := CopyRows(rows);
    }

    /** `DELETE FROM structured_logs WHERE ticket_id`. */
    method ClearLogsForTicket(ticket: string)
      requires Valid()
      modifies this`logs
      ensures Valid()
      ensures logs == Without(old(logs), ticket)
    {
      WithoutKeeps(logs, ticket);
      WithoutRefersToOthers(logs, tickets.Keys, ticket);
      logs := Without(logs, ticket);
    }

    /** `INSERT INTO analysis_sessions (…, status) VALUES (…, 'running')`, with the
        generated id and start time given. Fails on a duplicate id or a missing ticket. */
    method CreateSession(ticket: string, id: string, now: Timestamp) returns (r: Outcome<string>)
      requires Valid()
      modifies this`sessions
      ensures Valid()
      ensures r.Ok? <==> id !in old(sessions) && ticket in tickets
      ensures r.Ok? ==> r.value == id
      ensures sessions == if r.Ok? then old(sessions)[id := AnalysisSession(id, ticket, now, None, "running", None)]
                          else old(sessions)
    {
      if id in sessions {
        return Err("UNIQUE constraint failed: analysis_sessions.id");
      }
      if ticket !in tickets {
        return Err("FOREIGN KEY constraint failed");
      }
      sessions := sessions[id := AnalysisSession(id, ticket, now, None, "running", None)];
      r := Ok(id);
    }

    /** `UPDATE analysis_sessions SET status = 'completed', completed_at WHERE id`. */
    method CompleteSession(id: string, now: Timestamp)
      requires Valid()
      modifies this`sessions
      ensures Valid()
      ensures sessions == if id in old(sessions) then
        old(sessions)[id := old(sessions)[id].(status := "completed", completed_at := Some(now))]
        else old(sessions)
    {
      if id in sessions {
        sessions := sessions[id := sessions[id].(status := "completed", completed_at := Some(now))];
      }
    }

    /** `UPDATE analysis_sessions SET status = 'failed', completed_at, error_message WHERE id`. */
    method FailSession(id: string, error: string, now: Timestamp)
      requires Valid()
      modifies this`sessions
      ensures Valid()
      ensures sessions == if id in old(sessions) then
        old(sessions)[id := old(sessions)[id].(status := "failed", completed_at := Some(now), error_message := Some(error))]
        else old(sessions)
    {
      if id in sessions {
        sessions := sessions[id := sessions[id].(status := "failed", completed_at := Some(now), error_message := Some(error))];
      }
    }

    /** `UPDATE analysis_sessions SET status = 'cancelled', completed_at, error_message WHERE id`. */
    method CancelSession(id: string, reason: string, now: Timestamp)
      requires Valid()
      modifies this`sessions
      ensures Valid()
      ensures sessions == if id in old(sessions) then
        old(sessions)[id := old(sessions)[id].(status := "cancelled", completed_at := Some(now), error_message := Some(reason))]
        else old(sessions)
    {
      if id in sessions {
        sessions := sessions[id := sessions[id].(status := "cancelled", completed_at := Some(now), error_message := Some(reason))];
      }
    }

    /** `… WHERE ticket_id AND status = 'running' ORDER BY started_at DESC LIMIT 1`:
        a running session of the ticket that started last (any one of them on a tie). */
    method GetActiveSessionByTicket(ticket: string) returns (s: Option<AnalysisSession>)
      requires Valid()
      ensures s.None? <==> forall k | k in sessions :: !RunningFor(sessions[k], ticket)
      ensures s.Some? ==> s.value.id in sessions && sessions[s.value.id] == s.value && RunningFor(s.value, ticket)
      ensures s.Some? ==> forall k | k in sessions && RunningFor(sessions[k], ticket) ::
                            sessions[k].started_at <= s.value.started_at
    {
      s := None;
      var todo := sessions.Keys;
      while todo != {}
        invariant todo <= sessions.Keys
        invariant s.None? ==> forall k | k in sessions && k !in todo :: !RunningFor(sessions[k], ticket)
        invariant s.Some? ==> s.value.id in sessions && sessions[s.value.id] == s.value && RunningFor(s.value, ticket)
        invariant s.Some? ==> forall k | k in sessions && k !in todo && RunningFor(sessions[k], ticket) ::
                                sessions[k].started_at <= s.value.started_at
        decreases todo
      {
        var k :| k in todo;
        var row := sessions[k];
        if RunningFor(row, ticket) && (s.None? || s.value.started_at < row.started_at) {
          s := Some(row);
        }
        todo := todo - {k};
      }
    }
  }

  /** The rows that do not belong to `ticket`, in order. */
  function Without(logs: seq<StructuredLogRecord>, ticket: string): (r: seq<StructuredLogRecord>)
    ensures |r| <= |logs|
    ensures forall i :: 0 <= i < |r| ==> r[i].ticket_id != ticket
  {
    if logs == [] then []
    else (if logs[0].ticket_id == ticket then [] else [logs[0]]) + Without(logs[1..], ticket)
  }

  /** Deleting a ticket's rows keeps the other tickets' rows exactly: none of
      them is lost, reordered or changed, and ids stay distinct. */
  lemma {:induction false} WithoutKeeps(logs: seq<StructuredLogRecord>, ticket: string)
    requires DistinctIds(logs)
    ensures DistinctIds(Without(logs, ticket))
    ensures forall t :: t != ticket ==> TicketLogs(Without(logs, ticket), t) == TicketLogs(logs, t)
    ensures TicketLogs(Without(logs, ticket), ticket) == []
  {
    WithoutDistinct(logs, ticket);
    forall t | t != ticket ensures TicketLogs(Without(logs, ticket), t) == TicketLogs(logs, t) {
      WithoutOthers(logs, ticket, t);
    }
    TicketLogsNone(Without(logs, ticket), ticket);
  }

  /** The rows left after deleting a ticket's rows refer to the other tickets. */
  lemma {:induction false} WithoutRefersToOthers(logs: seq<StructuredLogRecord>, tickets: set<string>, ticket: string)
    requires forall i | 0 <= i < |logs| :: logs[i].ticket_id in tickets && logs[i].message_type in LogTypeNames
    ensures forall i | 0 <= i < |Without(logs, ticket)| ::
      Without(logs, ticket)[i].ticket_id in tickets - {ticket} && Without(logs, ticket)[i].message_type in LogTypeNames
  {
    if logs != [] {
      WithoutRefersToOthers(logs[1..], tickets, ticket);
    }
  }

  lemma {:induction false} WithoutSub(logs: seq<StructuredLogRecord>, ticket: string)
    ensures forall x | x in Without(logs, ticket) :: x in logs
  {
    if logs != [] {
      WithoutSub(logs[1..], ticket);
    }
  }

  lemma {:induction false} WithoutOthers(logs: seq<StructuredLogRecord>, ticket: string, t: string)
    requires t != ticket
    ensures TicketLogs(Without(logs, ticket), t) == TicketLogs(logs, t)
  {
    if logs != [] {
      WithoutOthers(logs[1..], ticket, t);
      var w := Without(logs, ticket);
      if logs[0].ticket_id != ticket {
        assert w == [logs[0]] + Without(logs[1..], ticket);
        assert w[0] == logs[0] && w[1..] == Without(logs[1..], ticket);
        assert TicketLogs(w, t) == (if logs[0].ticket_id == t then [logs[0]] else []) + TicketLogs(w[1..], t);
      } else {
        assert w == Without(logs[1..], ticket);
      }
    }
  }

  lemma {:induction false} WithoutDistinct(logs: seq<StructuredLogRecord>, ticket: string)
    requires DistinctIds(logs)
    ensures DistinctIds(Without(logs, ticket))
  {
    if logs != [] {
      assert DistinctIds(logs[1..]) by {
        forall i, j | 0 <= i < j < |logs[1..]| ensures logs[1..][i].id != logs[1..][j].id {
          assert logs[1..][i] == logs[i + 1] && logs[1..][j] == logs[j + 1];
        }
      }
      WithoutDistinct(logs[1..], ticket);
      WithoutSub(logs[1..], ticket);
      if logs[0].ticket_id != ticket {
        var rest := Without(logs[1..], ticket);
        var r := [logs[0]] + rest;
        forall i, j | 0 <= i < j < |r| ensures r[i].id != r[j].id {
          if i == 0 {
            assert r[j] == rest[j - 1] && r[j] in logs[1..];
            var k :| 0 <= k < |logs[1..]| && logs[1..][k] == r[j];
            assert logs[k + 1] == r[j];
          } else {
            assert r[i] == rest[i - 1] && r[j] == rest[j - 1];
          }
        }
      }
    }
  }

  lemma {:induction false} TicketLogsAppend(a: seq<StructuredLogRecord>, b: seq<StructuredLogRecord>, t: string)
    ensures TicketLogs(a + b, t) == TicketLogs(a, t) + TicketLogs(b, t)
  {
    if a == [] {
      assert a + b == b;
    } else {
      assert (a + b)[0] == a[0] && (a + b)[1..] == a[1..] + b;
      TicketLogsAppend(a[1..], b, t);
    }
  }

  /** Saving a row adds exactly one to its own ticket's count and leaves the
      other tickets' counts alone. */
  lemma CountAfterSave(logs: seq<StructuredLogRecord>, r: StructuredLogRecord, t: string)
    ensures |TicketLogs(logs + [r], t)| == |TicketLogs(logs, t)| + (if r.ticket_id == t then 1 else 0)
  {
    TicketLogsAppend(logs, [r], t);
    assert [r][1..] == [];
  }
}
