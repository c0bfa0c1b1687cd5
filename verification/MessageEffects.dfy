/** What one message of the Agent does to the run it names, said on the stored rows for each kind of message. */
module MessageEffects {
  import opened RuntimeTypes
  import opened RuntimeStore
  import opened RelaySystem
  import opened StoreInvariant

  /* ---- the event ---- */

  /** The event is the message's: its kind, its document and its instant. */
  predicate Carries(m: Message, e: RunEvent) {
    && e.payload == m.payload && e.occurredAt == m.occurredAt
    && match m.kind
       case MsgRunAccepted => e.kind == RunAccepted
       case MsgTurnStarted => e.kind == TurnStarted
       case MsgTurnOutput => e.kind == AssistantDelta
       case MsgItemStarted => e.kind == ItemStarted
       case MsgItemDelta => e.kind == ItemDelta
       case MsgItemDone => e.kind == ItemCompleted
       case MsgTurnCompleted => e.kind == TurnCompleted
       case MsgTurnFailed => e.kind == TurnFailed
       case MsgTurnInterrupted => e.kind == TurnInterrupted
       case MsgTurnRejected => e.kind == TurnFailed
  }

  /** PostgreSQL keeps its instant to the microsecond. */
  ghost predicate Kept(m: Message, e: RunEvent) { exists sent :: Carries(m, sent) && e == Stored(sent) }

  lemma EventCarries(m: Message)
    ensures Carries(m, EventOf(m)) && Kept(m, Stored(EventOf(m)))
  {
  }

  /* ---- the row ---- */

  /** What no event touches: whose run it is and what was asked. */
  predicate SameRequest(before: Run, after: Run) {
    && after.sessionId == before.sessionId && after.idem == before.idem
    && after.prompt == before.prompt && after.profile == before.profile
    && after.cancelRequestedAt == before.cancelRequestedAt
  }

  /** The status changes and the run goes on. */
  predicate Moves(before: Run, after: Run, status: Status) {
    && after.status == status && after.version == before.version + 1
    && after.final == before.final && after.finishedAt == before.finishedAt
  }

  /** The run is over with this event. */
  predicate Closes(before: Run, after: Run, status: Status, n: int, now: Time) {
    && after.status == status && after.version == before.version + 1
    && after.final == Some(n) && after.finishedAt == Some(now)
    && after.turnId == before.turnId && after.startedAt == before.startedAt
  }

  /** The event is only logged. */
  predicate Rests(before: Run, after: Run) {
    && after.status == before.status && after.version == before.version
    && after.final == before.final && after.finishedAt == before.finishedAt
    && after.turnId == before.turnId && after.startedAt == before.startedAt
  }

  /** A turn began: the run takes its identifier and remembers the first time one did. */
  predicate Starts(before: Run, after: Run, turn: string, now: Time) {
    && Moves(before, after, Running) && after.turnId == Some(turn)
    && after.startedAt == if before.startedAt.Some? then before.startedAt else Some(now)
  }

  /** The row after a message that is new to it, kind by kind. */
  ghost predicate Lands(m: Message, before: Run, after: Run, now: Time) {
    && m.sequence in after.events && Kept(m, after.events[m.sequence])
    && after.events == before.events[m.sequence := after.events[m.sequence]]
    && after.persisted == (if before.persisted < m.sequence then m.sequence else before.persisted)
    && SameRequest(before, after)
    && match m.kind
       case MsgRunAccepted =>
         Moves(before, after, Accepted) && after.turnId == before.turnId && after.startedAt == before.startedAt
       case MsgTurnStarted => Starts(before, after, TurnOf(m.payload), now)
       case MsgTurnCompleted => Closes(before, after, Completed, m.sequence, now)
       case MsgTurnFailed => Closes(before, after, Failed, m.sequence, now)
       case MsgTurnRejected => Closes(before, after, Failed, m.sequence, now)
       case MsgTurnInterrupted => Closes(before, after, Canceled, m.sequence, now)
       case MsgTurnOutput => Rests(before, after)
       case MsgItemStarted => Rests(before, after)
       case MsgItemDelta => Rests(before, after)
       case MsgItemDone => Rests(before, after)
  }

  /** The line such a message adds to the log of the session, if it adds one. */
  function Line(m: Message): Option<SessionEvent> {
    match m.kind
    case MsgRunAccepted => Some(SessionEvent(RunStatusChanged, m.run, Accepted))
    case MsgTurnStarted => Some(SessionEvent(RunStatusChanged, m.run, Running))
    case MsgTurnCompleted => Some(SessionEvent(RunCompleted, m.run, Completed))
    case MsgTurnFailed => Some(SessionEvent(RunStatusChanged, m.run, Failed))
    case MsgTurnRejected => Some(SessionEvent(RunStatusChanged, m.run, Failed))
    case MsgTurnInterrupted => Some(SessionEvent(RunStatusChanged, m.run, Canceled))
    case _ => None
  }

  /** The session after it: one more line under the next number, or none, and its thread if it had none. */
  ghost predicate Logged(m: Message, before: Session, after: Session) {
    && (match Line(m)
        case Some(line) =>
          after.lastSeq == before.lastSeq + 1 && after.log == before.log[before.lastSeq + 1 := line]
        case None => after.lastSeq == before.lastSeq && after.log == before.log)
    && after.threadId == (if m.kind == MsgTurnStarted && before.threadId.None? then Some(ThreadOf(m.payload))
                          else before.threadId)
    && after.projectId == before.projectId && after.title == before.title && after.idem == before.idem
    && after.lastSeen == before.lastSeen && after.archivedAt == before.archivedAt
  }

  /** Nothing but the run and its session changes. */
  ghost predicate OnlyRun(before: Db, after: Db, r: string, s: string) {
    && after == before.(runs := after.runs, sessions := after.sessions)
    && after.runs.Keys == before.runs.Keys && after.sessions.Keys == before.sessions.Keys
    && (forall x :: x in before.runs && x != r ==> after.runs[x] == before.runs[x])
    && (forall x :: x in before.sessions && x != s ==> after.sessions[x] == before.sessions[x])
  }

  /** A turn or a thread that another row holds is refused by a unique index. */
  ghost predicate Refused(db: Db, m: Message) {
    && m.run in db.runs && m.kind == MsgTurnStarted
    && (|| (exists r :: r != m.run && HoldsTurn(db.runs, r, TurnOf(m.payload)))
        || (&& db.runs[m.run].sessionId in db.sessions && db.sessions[db.runs[m.run].sessionId].threadId.None?
            && exists s :: HoldsThread(db.sessions, s, ThreadOf(m.payload))))
  }

  lemma RowLands(m: Message, run: Run, now: Time)
    ensures Lands(m, run, AppendedRow(run, m.sequence, EventOf(m), now), now)
  {
    EventCarries(m);
  }

  /** The session table once a starting turn has given its thread. */
  ghost function Adopted(db: Db, m: Message, now: Time): Result<map<string, Session>>
    requires m.run in db.runs
  {
    if m.kind == MsgTurnStarted then AdoptThread(db.sessions, db.runs[m.run].sessionId, ThreadOf(m.payload), now)
    else Ok(db.sessions)
  }

  lemma AdoptedExact(db: Db, m: Message, now: Time)
    requires DbOk(db) && m.run in db.runs
    ensures var out, s := Adopted(db, m, now), db.runs[m.run].sessionId;
            && (out.Err? ==> Refused(db, m))
            && (Refused(db, m) ==> out.Err? || TurnClash(db.runs, m.run, TurnOf(m.payload)))
            && (out.Ok? ==>
                  && s in db.sessions && out.value.Keys == db.sessions.Keys
                  && (forall x :: x in db.sessions && x != s ==> out.value[x] == db.sessions[x])
                  && Threaded(m, db.sessions[s], out.value[s]))
  {
    assert db.runs[m.run].sessionId in db.sessions;
  }

  /** Only the thread of the session, and the time it changed, differ. */
  predicate Threaded(m: Message, before: Session, after: Session) {
    after == before.(updatedAt := after.updatedAt,
                     threadId := if m.kind == MsgTurnStarted && before.threadId.None? then Some(ThreadOf(m.payload))
                                 else before.threadId)
  }

  lemma LineExact(m: Message)
    ensures var status := StatusForEvent(EventOf(m).kind);
            Line(m) == if status.None? then None
                       else Some(SessionEvent(SessionKindFor(status.value), m.run, status.value))
  {
  }

  ghost function Written(sessions: map<string, Session>, s: string, m: Message, now: Time)
    : Result<map<string, Session>>
  {
    if Line(m).Some? then LogSessionEvent(sessions, s, Line(m).value, now) else Ok(sessions)
  }

  lemma WrittenExact(before: map<string, Session>, sessions: map<string, Session>, s: string, m: Message, now: Time)
    requires s in before && SessionOk(before[s]) && sessions.Keys == before.Keys
    requires (forall x :: x in before && x != s ==> sessions[x] == before[x]) && Threaded(m, before[s], sessions[s])
    ensures var out := Written(sessions, s, m, now);
            && out.Ok? && out.value.Keys == before.Keys
            && (forall x :: x in before && x != s ==> out.value[x] == before[x])
            && Logged(m, before[s], out.value[s])
  {
  }

  lemma AppendShape(db: Db, m: Message, now: Time)
    requires m.run in db.runs && m.sequence >= 1 && m.sequence !in db.runs[m.run].events
    ensures var out, adopted := AppendAgentEvent(db, m.run, m.sequence, EventOf(m), now), Adopted(db, m, now);
            if adopted.Err? || (m.kind == MsgTurnStarted && TurnClash(db.runs, m.run, TurnOf(m.payload))) then out.Err?
            else
              var written := Written(adopted.value, db.runs[m.run].sessionId, m, now);
              if written.Err? then out.Err?
              else out == Ok(db.(runs := db.runs[m.run := AppendedRow(db.runs[m.run], m.sequence, EventOf(m), now)],
                                 sessions := written.value))
  {
    LineExact(m);
    EventCarries(m);
  }

  lemma SessionLogged(db: Db, m: Message, now: Time)
    requires DbOk(db) && m.run in db.runs && m.sequence >= 1 && m.sequence !in db.runs[m.run].events
    ensures var out, s := AppendAgentEvent(db, m.run, m.sequence, EventOf(m), now), db.runs[m.run].sessionId;
            && (out.Err? <==> Refused(db, m))
            && (out.Ok? ==>
                  && OnlyRun(db, out.value, m.run, s) && s in db.sessions
                  && out.value.runs[m.run] == AppendedRow(db.runs[m.run], m.sequence, EventOf(m), now)
                  && Logged(m, db.sessions[s], out.value.sessions[s]))
  {
    var s := db.runs[m.run].sessionId;
    assert s in db.sessions && SessionOk(db.sessions[s]);
    AdoptedExact(db, m, now);
    AppendShape(db, m, now);
    if Adopted(db, m, now).Ok? { WrittenExact(db.sessions, Adopted(db, m, now).value, s, m, now); }
  }

  /** Storing the event of a message that is new to its run: refused exactly when a turn.started names a turn or
      a thread that is taken; otherwise the run and its session are as the kind of the message says, and
      nothing else changes. */
  lemma MessageStored(db: Db, m: Message, now: Time)
    requires DbOk(db) && m.run in db.runs && m.sequence >= 1 && m.sequence !in db.runs[m.run].events
    ensures var out := AppendAgentEvent(db, m.run, m.sequence, EventOf(m), now);
            var s := db.runs[m.run].sessionId;
            && (out.Err? <==> Refused(db, m))
            && (out.Ok? ==>
                  && s in db.sessions && OnlyRun(db, out.value, m.run, s)
                  && Lands(m, db.runs[m.run], out.value.runs[m.run], now)
                  && Logged(m, db.sessions[s], out.value.sessions[s]))
  {
    SessionLogged(db, m, now);
    RowLands(m, db.runs[m.run], now);
  }
}
