/**
 * The decision logic of the HTTP handlers, over the in-memory tables of
 * `Database`, the message store and the handler state: the map of running
 * analysis tasks, the broadcast channel (a sequence of sent events) and the
 * users table. Request bodies arrive already deserialised; every id and every
 * clock reading is a parameter.
 */
module ApiHandlers {
  import opened Wrappers
  import opened Text
  import opened Database
  import opened MessageStore
  import opened LogNormalizer

  /** The HTTP status codes the handlers answer with when they fail. */
  type StatusCode = nat
  const NotFound: StatusCode := 404
  const Conflict: StatusCode := 409
  const InternalServerError: StatusCode := 500

  /** A handler's answer: a body, or a status code with an optional `{"error": …}` body. */
  datatype Response<T> = Reply(body: T) | Failure(status: StatusCode, error: Option<string>)

  /** The `{"success": …, "message": …}` body. */
  datatype Ack = Ack(success: bool, message: string)

  /** One message on the handlers' broadcast channel. */
  datatype BroadcastMessage = BroadcastMessage(ticket_id: string, message_type: string, content: string, timestamp: Timestamp)

  /** A row of the users table: unique by username. */
  datatype UserRecord = UserRecord(id: string, username: string, password_hash: string, created_at: Timestamp)
  datatype UserInfo = UserInfo(id: string, username: string)

  /** A `JoinHandle` of a spawned analysis; only its presence matters. */
  type TaskHandle = nat

  // ---------------------------------------------------------------- tickets

  /** `default_mode` and `default_required_approvals`: what serde fills in for
      a missing field of the ticket-creation body. */
  const DefaultMode: string := "ask"
  const DefaultRequiredApprovals: int := 2

  /** The creation body as sent: `None` is a field the client left out. */
  datatype CreateTicketRequest = CreateTicketRequest(
    title: string,
    description: string,
    status: string,
    code_context: Option<string>,
    mode: Option<string>,
    required_approvals: Option<int>)

  /** The row `create_ticket` builds: a fresh, idle ticket with no result and no plan. */
  function NewTicket(project_id: string, data: CreateTicketRequest, id: string, now: Timestamp): TicketRecord
  {
    TicketRecord(id, project_id, data.title, data.description, data.status, data.code_context,
                 None, false, now, now,
                 data.mode.UnwrapOr(DefaultMode), None, None, data.required_approvals.UnwrapOr(DefaultRequiredApprovals))
  }

  /** A new ticket is idle and unanswered, belongs to the project of the
      path, asks questions unless told otherwise and needs two approvals
      unless told otherwise; the client's fields are copied. */
  lemma NewTicketDefaults(project_id: string, data: CreateTicketRequest, id: string, now: Timestamp)
    ensures var t := NewTicket(project_id, data, id, now);
      && !t.is_analyzing && t.analysis_result.None? && t.plan_content.None? && t.plan_created_at.None?
      && t.id == id && t.project_id == project_id && t.created_at == now && t.updated_at == now
      && (data.mode.None? ==> t.mode == "ask")
      && (data.mode.Some? ==> t.mode == data.mode.value)
      && (data.required_approvals.None? ==> t.required_approvals == 2)
      && (data.required_approvals.Some? ==> t.required_approvals == data.required_approvals.value)
      && t.title == data.title && t.description == data.description && t.status == data.status
      && t.code_context == data.code_context
  {
  }

  // --------------------------------------------------------------- projects

  datatype UpdateProjectRequest = UpdateProjectRequest(name: string, description: Option<string>, directory_path: string)

  /** The record `update_project` writes and returns: the existing id and
      creation time, the client's fields, a new modification time. */
  function UpdatedProject(existing: ProjectRecord, data: UpdateProjectRequest, now: Timestamp): ProjectRecord
  {
    ProjectRecord(existing.id, data.name, data.description, data.directory_path, existing.created_at, now)
  }

  /** The `UPDATE` statement applied to the stored row yields exactly the record
      the handler returns, so the answer and the table agree. */
  lemma UpdateStoresReturned(existing: ProjectRecord, data: UpdateProjectRequest, now: Timestamp)
    ensures var p := UpdatedProject(existing, data, now);
      existing.(name := p.name, description := p.description, directory_path := p.directory_path, updated_at := p.updated_at) == p
      && p.id == existing.id && p.created_at == existing.created_at && p.updated_at == now
  {
  }

  // ------------------------------------------------------------- log paging

  datatype PaginatedLogs = PaginatedLogs(logs: seq<StructuredLogRecord>, total: nat, has_more: bool)

  /** `(offset.unwrap_or(0) + logs.len() as u64) < total`, with the `u64`
      addition wrapping around as it does in a release build. */
  function HasMore(offset: Option<u64>, returned: nat, total: nat): (more: bool)
    ensures offset.UnwrapOr(0) + returned < U64Limit ==> (more <==> offset.UnwrapOr(0) + returned < total)
    ensures total <= offset.UnwrapOr(0) + returned < U64Limit ==> !more
  {
    (offset.UnwrapOr(0) + returned) % U64Limit < total
  }

  /** Below 2^63 the sum cannot wrap for a page of at most 1000 rows, and the
      flag says exactly that rows lie beyond the page. */
  lemma HasMoreUnwrapped(offset: Option<u64>, returned: nat, total: nat)
    requires offset.UnwrapOr(0) < I64Limit && returned <= MaxPageSize
    ensures HasMore(offset, returned, total) <==> offset.UnwrapOr(0) + returned < total
  {
    assert offset.UnwrapOr(0) + returned < U64Limit;
  }

  /** An offset at or past the end never reports more rows. */
  lemma NoMorePastEnd(offset: Option<u64>, returned: nat, total: nat)
    requires offset.UnwrapOr(0) < I64Limit && returned <= MaxPageSize
    requires offset.UnwrapOr(0) >= total
    ensures !HasMore(offset, returned, total)
  {
    HasMoreUnwrapped(offset, returned, total);
  }

  /** At the very top of the `u64` range the sum wraps: an offset of 2^64 - 1
      reads from the start (SQLite takes the negative `i64` as zero), gets the
      one row of a one-row ticket, and the flag comes out true. */
  lemma HasMoreWrapsAtTop()
    ensures EffectiveOffset(Some(U64Limit - 1)) == 0
    ensures HasMore(Some(U64Limit - 1), 1, 1)
  {
  }

  /** A page never reaches past the ticket's rows. */
  lemma PageWithinTotal(logs: seq<StructuredLogRecord>, ticket: string, limit: Option<u64>, offset: Option<u64>)
    ensures var q := LogQuery(logs, ticket, limit, offset);
      |q| <= |TicketLogs(logs, ticket)|
      && (EffectiveOffset(offset) < |TicketLogs(logs, ticket)| ==> EffectiveOffset(offset) + |q| <= |TicketLogs(logs, ticket)|)
  {
    var s := TicketLogs(logs, ticket);
    SortKeepsRows(s);
    PageOfRows(SortByTime(s), EffectiveOffset(offset), EffectiveLimit(limit));
  }

  // ---------------------------------------------------------- plan approval

  const AutoImplementEvent: string := "auto-implement-started"
  const PlanApprovedEvent: string := "plan-approved"

  /** The auto-implement rule: an approval, of a ticket that exists, whose
      approval count (0 when it cannot be read) reaches the ticket's quorum. */
  predicate QuorumReached(status: string, ticket: Option<TicketRecord>, count: Option<int>)
  {
    status == "approved" && ticket.Some? && count.UnwrapOr(0) >= ticket.value.required_approvals
  }

  /** What a saved approval broadcasts, in order: the auto-implement event
      when the quorum is reached, then always the approval itself carrying
      the request body as JSON text. */
  function ApprovalEvents(id: string, status: string, ticket: Option<TicketRecord>, count: Option<int>,
                          payload: string, now: Timestamp): (evs: seq<BroadcastMessage>)
    ensures 1 <= |evs| <= 2
    ensures evs[|evs| - 1] == BroadcastMessage(id, PlanApprovedEvent, payload, now)
  {
    (if QuorumReached(status, ticket, count)
     then [BroadcastMessage(id, AutoImplementEvent,
                            "Plan approved by " + IntToString(count.UnwrapOr(0)) + " users, starting implementation", now)]
     else [])
    + [BroadcastMessage(id, PlanApprovedEvent, payload, now)]
  }

  /** Implementation starts on its own exactly when the quorum is reached:
      never for a rejection, never for a missing ticket, never below the
      ticket's required number of approvals. */
  lemma {:induction false} AutoImplementIffQuorum(id: string, status: string, ticket: Option<TicketRecord>, count: Option<int>,
                                                  payload: string, now: Timestamp)
    ensures var evs := ApprovalEvents(id, status, ticket, count, payload, now);
      (exists i | 0 <= i < |evs| :: evs[i].message_type == AutoImplementEvent) <==> QuorumReached(status, ticket, count)
  {
    var evs := ApprovalEvents(id, status, ticket, count, payload, now);
    if QuorumReached(status, ticket, count) {
      assert evs[0].message_type == AutoImplementEvent;
    } else {
      assert |evs| == 1;
      assert evs[0].message_type == PlanApprovedEvent;
    }
  }

  // ------------------------------------------------------------ stop request

  const CancelReason: string := "Cancelled by user"
  const StopText: string := "⛔ Đã dừng phân tích theo yêu cầu"
  const AnalysisStoppedEvent: string := "analysis-stopped"

  /** The log line `stop_analysis` pushes: the normaliser's entry for the fixed
      stop text, which is not JSON. */
  function StopEntry(ticket: string, logId: string, now: Timestamp): StructuredLogEntry
  {
    Normalized(StopText, ticket, None, logId, now)
  }

  /** `k` is a running session of `ticket` that started no earlier than any other. */
  ghost predicate LatestRunning(sessions: map<string, AnalysisSession>, ticket: string, k: string)
  {
    k in sessions && RunningFor(sessions[k], ticket)
    && forall j | j in sessions && RunningFor(sessions[j], ticket) :: sessions[j].started_at <= sessions[k].started_at
  }

  /** The session table after "cancel the active session, if any". */
  ghost predicate CancelledActive(before: map<string, AnalysisSession>, after: map<string, AnalysisSession>,
                                  ticket: string, now: Timestamp)
  {
    if forall k | k in before :: !RunningFor(before[k], ticket) then after == before
    else exists k | LatestRunning(before, ticket, k) ::
      after == before[k := before[k].(status := "cancelled", completed_at := Some(now), error_message := Some(CancelReason))]
  }

  /** The state the handlers share. */
  class AppState {
    const db: Database
    const store: MsgStore
    var runningTasks: map<string, TaskHandle>
    var events: seq<BroadcastMessage>
    var users: map<string, UserRecord>

    ghost predicate Valid()
      reads this, db, store
    {
      store.db == db && store.Valid() && forall u | u in users :: users[u].username == u
    }

    constructor (db: Database, store: MsgStore)
      requires store.db == db && store.Valid()
      ensures Valid() && this.db == db && this.store == store
      ensures runningTasks == map[] && events == [] && users == map[]
    {
      this.db, this.store := db, store;
      runningTasks, events, users := map[], [], map[];
    }

    /** `create_ticket`: insert the new row; any database refusal is a 500. */
    method CreateTicketHandler(project_id: string, data: CreateTicketRequest, id: string, now: Timestamp)
      returns (r: Response<TicketRecord>)
      requires Valid()
      modifies db`tickets
      ensures Valid()
      ensures var t := NewTicket(project_id, data, id, now);
        && (r.Reply? <==> id !in old(db.tickets) && t.status in TicketStatuses && project_id in db.projects)
        && (r.Reply? ==> r.body == t && db.tickets == old(db.tickets)[id := t])
        && (r.Failure? ==> r == Failure(InternalServerError, None) && db.tickets == old(db.tickets))
    {
      var t := NewTicket(project_id, data, id, now);
      var saved := db.CreateTicket(t);
      if saved.Err? {
        return Failure(InternalServerError, None);
      }
      r := Reply(t);
    }

    /** `update_project`: 404 for an unknown id; otherwise the updated record
        is written and returned. */
    method UpdateProjectHandler(id: string, data: UpdateProjectRequest, now: Timestamp)
      returns (r: Response<ProjectRecord>)
      requires Valid()
      modifies db`projects
      ensures Valid()
      ensures id !in old(db.projects) ==> r == Failure(NotFound, None) && db.projects == old(db.projects)
      ensures id in old(db.projects) ==>
        r == Reply(UpdatedProject(old(db.projects)[id], data, now))
        && db.projects == old(db.projects)[id := r.body]
    {
      var existing := db.GetProject(id);
      if existing.None? {
        return Failure(NotFound, None);
      }
      var updated := UpdatedProject(existing.value, data, now);
      UpdateStoresReturned(existing.value, data, now);
      db.UpdateProject(updated);
      r := Reply(updated);
    }

    /** `get_ticket_logs`: the page, the ticket's row count, and the flag. */
    method GetTicketLogs(id: string, limit: Option<u64>, offset: Option<u64>) returns (r: PaginatedLogs)
      ensures r.logs == LogQuery(db.logs, id, limit, offset)
      ensures r.total == |TicketLogs(db.logs, id)|
      ensures r.has_more == HasMore(offset, |r.logs|, r.total)
      ensures |r.logs| <= r.total
      ensures offset.UnwrapOr(0) < I64Limit ==> (r.has_more <==> offset.UnwrapOr(0) + |r.logs| < r.total)
    {
      var total := db.CountLogsForTicket(id);
      var logs := db.GetLogsForTicket(id, limit, offset);
      PageWithinTotal(db.logs, id, limit, offset);
      LogQueryShape(db.logs, id, limit, offset);
      if offset.UnwrapOr(0) < I64Limit {
        HasMoreUnwrapped(offset, |logs|, total);
      }
      r := PaginatedLogs(logs, total, HasMore(offset, |logs|, total));
    }

    /** `stop_analysis`. A missing ticket is a 404 and an idle one an
        unsuccessful answer, both without any change. For an analysing ticket:
        forget its task, clear its flag, cancel its active session if there is
        one, push one stop log, broadcast the stop, answer success. */
    method StopAnalysis(id: string, logId: string, now: Timestamp) returns (r: Response<Ack>)
      requires Valid()
      modifies this`runningTasks, this`events, db`tickets, db`sessions, store`buffer, store`pending, store`sent
      ensures Valid()
      ensures id !in old(db.tickets) ==> r == Failure(NotFound, None)
      ensures id in old(db.tickets) && !old(db.tickets[id].is_analyzing) ==>
        r == Reply(Ack(false, "Ticket is not being analyzed"))
      ensures (id !in old(db.tickets) || !old(db.tickets[id].is_analyzing)) ==>
        && runningTasks == old(runningTasks) && events == old(events)
        && db.tickets == old(db.tickets) && db.sessions == old(db.sessions)
        && store.buffer == old(store.buffer) && store.pending == old(store.pending) && store.sent == old(store.sent)
      ensures id in old(db.tickets) && old(db.tickets[id].is_analyzing) ==>
        && r == Reply(Ack(true, "Analysis stopped successfully"))
        && runningTasks == old(runningTasks) - {id}
        && db.tickets == old(db.tickets)[id := old(db.tickets)[id].(is_analyzing := false, updated_at := now)]
        && CancelledActive(old(db.sessions), db.sessions, id, now)
        && store.buffer == old(store.buffer)[id := PushCapped(Deque(old(store.buffer), id), StopEntry(id, logId, now))]
        && store.pending == old(store.pending) + [ToRecord(StopEntry(id, logId, now))]
        && store.sent == old(store.sent) + [StopEntry(id, logId, now)]
        && events == old(events) + [BroadcastMessage(id, AnalysisStoppedEvent, "Analysis stopped by user", now)]
    {
      var ticket := db.GetTicket(id);
      if ticket.None? {
        return Failure(NotFound, None);
      }
      if !ticket.value.is_analyzing {
        return Reply(Ack(false, "Ticket is not being analyzed"));
      }
      var entry := Normalize(StopText, id, None, logId, now);
      NormalizedKeepsLine(StopText, id, None, logId, now);
      StopRunning(entry, id, now);
      r := Reply(Ack(true, "Analysis stopped successfully"));
    }

    /** The effects of stopping an analysing ticket, in the handler's order,
        with `entry` the normalised stop line it logs. */
    method StopRunning(entry: StructuredLogEntry, id: string, now: Timestamp)
      requires Valid() && id in db.tickets && entry.ticket_id == id
      modifies this`runningTasks, this`events, db`tickets, db`sessions, store`buffer, store`pending, store`sent
      ensures Valid()
      ensures runningTasks == old(runningTasks) - {id}
      ensures db.tickets == old(db.tickets)[id := old(db.tickets)[id].(is_analyzing := false, updated_at := now)]
      ensures CancelledActive(old(db.sessions), db.sessions, id, now)
      ensures store.buffer == old(store.buffer)[id := PushCapped(Deque(old(store.buffer), id), entry)]
      ensures store.pending == old(store.pending) + [ToRecord(entry)]
      ensures store.sent == old(store.sent) + [entry]
      ensures events == old(events) + [BroadcastMessage(id, AnalysisStoppedEvent, "Analysis stopped by user", now)]
    {
      runningTasks := runningTasks - {id};
      ClearAnalysis(id, now);
      ghost var tickets1, sessions1 := db.tickets, db.sessions;
      assert store.buffer == old(store.buffer) && store.Valid();
      store.Push(entry);
      assert db.tickets == tickets1 && db.sessions == sessions1;
      events := events + [BroadcastMessage(id, AnalysisStoppedEvent, "Analysis stopped by user", now)];
    }

    /** The database half of a stop: clear the ticket's flag, then cancel its
        active session when it has one. */
    method ClearAnalysis(ticket: string, now: Timestamp)
      requires db.Valid() && ticket in db.tickets
      modifies db`tickets, db`sessions
      ensures db.Valid()
      ensures db.tickets == old(db.tickets)[ticket := old(db.tickets)[ticket].(is_analyzing := false, updated_at := now)]
      ensures CancelledActive(old(db.sessions), db.sessions, ticket, now)
    {
      db.UpdateTicketAnalyzing(ticket, false, now);
      CancelActiveSession(ticket, now);
    }

    /** Cancel the ticket's active session, when it has one. */
    method CancelActiveSession(ticket: string, now: Timestamp)
      requires db.Valid()
      modifies db`sessions
      ensures db.Valid()
      ensures CancelledActive(old(db.sessions), db.sessions, ticket, now)
    {
      ghost var before := db.sessions;
      var session := db.GetActiveSessionByTicket(ticket);
      if session.Some? {
        assert LatestRunning(before, ticket, session.value.id);
        db.CancelSession(session.value.id, CancelReason, now);
      }
    }

    /** `register`: an existing username is a 409 and creates nothing;
        otherwise the user row is added. The password hash is given. */
    method Register(username: string, passwordHash: string, userId: string, now: Timestamp)
      returns (r: Response<UserInfo>)
      requires Valid()
      modifies this`users
      ensures Valid()
      ensures username in old(users) ==>
        r == Failure(Conflict, Some("Username already exists")) && users == old(users)
      ensures username !in old(users) ==>
        r == Reply(UserInfo(userId, username))
        && users == old(users)[username := UserRecord(userId, username, passwordHash, now)]
    {
      if username in users {
        return Failure(Conflict, Some("Username already exists"));
      }
      users := users[username := UserRecord(userId, username, passwordHash, now)];
      r := Reply(UserInfo(userId, username));
    }

    /** `approve_plan`, given the outcome of writing the approval and the
        approval count that the database reports; the body is `{"success": true}`. A failed write is a 500 and
        broadcasts nothing. */
    method ApprovePlan(id: string, status: string, saved: Outcome<()>, count: Option<int>, payload: string, now: Timestamp)
      returns (r: Response<bool>)
      requires Valid()
      modifies this`events
      ensures Valid()
      ensures saved.Err? ==> r == Failure(InternalServerError, Some("Failed to approve plan")) && events == old(events)
      ensures saved.Ok? ==>
        r == Reply(true) && events == old(events) + ApprovalEvents(id, status, db.GetTicket(id), count, payload, now)
    {
      if saved.Err? {
        return Failure(InternalServerError, Some("Failed to approve plan"));
      }
      var ticket := db.GetTicket(id);
      if status == "approved" && ticket.Some? {
        var approvals := count.UnwrapOr(0);
        if approvals >= ticket.value.required_approvals {
          events := events + [BroadcastMessage(id, AutoImplementEvent,
                                               "Plan approved by " + IntToString(approvals) + " users, starting implementation", now)];
        }
      }
      events := events + [BroadcastMessage(id, PlanApprovedEvent, payload, now)];
      r := Reply(true);
    }
  }
}
