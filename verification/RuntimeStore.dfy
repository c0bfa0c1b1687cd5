/** The transactions of the runtime PostgreSQL store, each a function from a database to the
    database it commits (or the error it rolls back with). `now` is the transaction's clock and
    newly minted identifiers are parameters: a clash is a primary-key error, as in PostgreSQL. */
module RuntimeStore {
  import opened RuntimeTypes

  /* ---- unique-index lookups ---- */

  ghost predicate HoldsThread(sessions: map<string, Session>, s: string, thread: string) {
    s in sessions && sessions[s].threadId == Some(thread)
  }

  ghost predicate HoldsTurn(runs: map<string, Run>, r: string, turn: string) {
    r in runs && runs[r].turnId == Some(turn)
  }

  ghost predicate HoldsKey(runs: map<string, Run>, r: string, session: string, key: string) {
    r in runs && runs[r].sessionId == session && runs[r].idem.Some? && runs[r].idem.value.key == key
  }

  ghost function ThreadHolder(sessions: map<string, Session>, thread: string): (o: Option<string>)
    ensures o.Some? ==> HoldsThread(sessions, o.value, thread)
    ensures o.None? ==> forall s :: !HoldsThread(sessions, s, thread)
  {
    if s :| HoldsThread(sessions, s, thread) then Some(s) else None
  }

  ghost function TurnHolder(runs: map<string, Run>, turn: string): (o: Option<string>)
    ensures o.Some? ==> HoldsTurn(runs, o.value, turn)
    ensures o.None? ==> forall r :: !HoldsTurn(runs, r, turn)
  {
    if r :| HoldsTurn(runs, r, turn) then Some(r) else None
  }

  ghost function KeyHolder(runs: map<string, Run>, session: string, key: string): (o: Option<string>)
    ensures o.Some? ==> HoldsKey(runs, o.value, session, key)
    ensures o.None? ==> forall r :: !HoldsKey(runs, r, session, key)
  {
    if r :| HoldsKey(runs, r, session, key) then Some(r) else None
  }

  ghost predicate HoldsSessionKey(db: Db, s: string, key: string) {
    s in db.sessions && db.sessions[s].idem.Some? && db.sessions[s].idem.value.key == key
  }

  /** A session is visible when neither it nor its project is archived. */
  predicate Visible(db: Db, s: string) {
    && s in db.sessions
    && db.sessions[s].archivedAt.None?
    && db.sessions[s].projectId in db.projects
    && db.projects[db.sessions[s].projectId].archivedAt.None?
  }

  ghost predicate HasCommand(outbox: map<string, Command>, c: string, kind: CommandKind, resource: string) {
    c in outbox && outbox[c].kind == kind && outbox[c].resource == resource
  }

  /* ---- projects and sessions ---- */

  function UpsertProjects(db: Db, projects: seq<BatchProject>, now: Time): Db
    decreases |projects|
  {
    if projects == [] then db
    else if IsBlank(projects[0].id) || IsBlank(projects[0].name) then UpsertProjects(db, projects[1..], now)
    else
      var p := projects[0];
      var row := Project(p.name, if p.id in db.projects then db.projects[p.id].lastSeen else None, None, now);
      UpsertProjects(db.(projects := db.projects[p.id := row]), projects[1..], now)
  }

  ghost function SessionByKey(db: Db, key: string, hash: string): Result<string> {
    if s :| HoldsSessionKey(db, s, key) && Visible(db, s) then
      if db.sessions[s].idem.value.hash == hash then Ok(s) else Err(IdempotencyConflict)
    else Err(NotFound)
  }

  ghost function CreateSession(db: Db, id: string, project: string, title: string, key: string, hash: string,
                               now: Time): Result<(Db, string)>
  {
    var found := SessionByKey(db, key, hash);
    if found.Ok? then Ok((db, found.value))
    else if found.error != NotFound then Err(found.error)
    else if project !in db.projects || db.projects[project].archivedAt.Some? || id in db.sessions
         || exists s :: HoldsSessionKey(db, s, key) then Err(NotFound)
    else
      var row := Session(project, None, title, 0, map[], Some(Idempotency(key, hash)), now, None, None);
      Ok((db.(sessions := db.sessions[id := row]), id))
  }

  /** Take the next session sequence number and write one row of the session log under it. */
  function LogSessionEvent(sessions: map<string, Session>, s: string, event: SessionEvent, now: Time)
    : Result<map<string, Session>>
  {
    if s !in sessions || sessions[s].lastSeq + 1 in sessions[s].log then Err(Constraint)
    else
      var n := sessions[s].lastSeq + 1;
      Ok(sessions[s := sessions[s].(lastSeq := n, log := sessions[s].log[n := event], updatedAt := now)])
  }

  /* ---- runs ---- */

  /** The fast path of CreateRun: a run under the same session and key settles the call. */
  ghost function CreateRunLookup(db: Db, session: string, key: string, hash: string): Option<Result<string>> {
    match KeyHolder(db.runs, session, key)
    case None => None
    case Some(r) => Some(if db.runs[r].idem.value.hash == hash then Ok(r) else Err(IdempotencyConflict))
  }

  function FreshRun(session: string, prompt: string, profile: string, key: string, hash: string): Run {
    Run(session, None, Queued, 1, Some(Idempotency(key, hash)), prompt, profile, None, None, None, 0, None, map[])
  }

  function FreshCommand(kind: CommandKind, resource: string, now: Time): Command {
    Command(kind, resource, Pending, 0, now, None, now)
  }

  ghost predicate CommandTaken(outbox: map<string, Command>, id: string, kind: CommandKind, resource: string) {
    id in outbox || exists c :: HasCommand(outbox, c, kind, resource)
  }

  /** The locked transaction of CreateRun: run row, run.created session event and run.start
      command are written together. */
  ghost function CreateRunCommit(db: Db, session: string, prompt: string, profile: string, key: string, hash: string,
                                 runId: string, commandId: string, now: Time): Result<(Db, string)>
  {
    if !Visible(db, session) then Err(NotFound)
    else
      var existing := CreateRunLookup(db, session, key, hash);
      if existing.Some? then
        if existing.value.Ok? then Ok((db, existing.value.value)) else Err(existing.value.error)
      else if runId in db.runs || CommandTaken(db.outbox, commandId, RunStart, runId) then Err(Constraint)
      else
        var sessions :- LogSessionEvent(db.sessions, session, SessionEvent(RunCreated, runId, Queued), now);
        Ok((db.(runs := db.runs[runId := FreshRun(session, prompt, profile, key, hash)],
                sessions := sessions,
                outbox := db.outbox[commandId := FreshCommand(RunStart, runId, now)]), runId))
  }

  function CancelRow(run: Run, now: Time): Run {
    run.(cancelRequestedAt := Some(now), version := run.version + 1)
  }

  ghost function RequestCancel(db: Db, r: string, commandId: string, now: Time): Result<Db> {
    if r !in db.runs then Err(NotFound)
    else
      var run := db.runs[r];
      if run.cancelRequestedAt.Some? || IsTerminal(run.status) then Ok(db)
      else
        var runs := db.runs[r := CancelRow(run, now)];
        if exists c :: HasCommand(db.outbox, c, RunCancel, r) then Ok(db.(runs := runs))
        else if commandId in db.outbox then Err(Constraint)
        else Ok(db.(runs := runs, outbox := db.outbox[commandId := FreshCommand(RunCancel, r, now)]))
  }

  /* ---- command outbox ---- */

  predicate Eligible(c: Command, now: Time) {
    && (c.status == Pending || (c.status == Claimed && c.claimExpiresAt.Some? && c.claimExpiresAt.value < now))
    && c.nextAttemptAt <= now
  }

  /** What the claiming SELECT may return: distinct eligible commands, at most `limit`. Which ones
      depends on the locks other claimers hold. */
  predicate Claimable(db: Db, chosen: seq<string>, limit: int, now: Time) {
    && |chosen| <= (if limit < 1 then 16 else limit)
    && (forall i, j :: 0 <= i < j < |chosen| ==> chosen[i] != chosen[j])
    && (forall i :: 0 <= i < |chosen| ==> chosen[i] in db.outbox && Eligible(db.outbox[chosen[i]], now))
  }

  function ClaimedRow(c: Command, now: Time): Command {
    c.(status := Claimed, claimExpiresAt := Some(now + 15 * SECOND), attempts := c.attempts + 1)
  }

  function DispatchedRow(run: Run): Run {
    if run.status == Queued || run.status == WaitingAgent
    then run.(status := Dispatching, version := run.version + 1)
    else run
  }

  function ClaimOne(db: Db, id: string, now: Time): Db
    requires id in db.outbox
  {
    var c := db.outbox[id];
    var outbox := db.outbox[id := ClaimedRow(c, now)];
    if c.kind == RunStart && c.resource in db.runs
    then db.(outbox := outbox, runs := db.runs[c.resource := DispatchedRow(db.runs[c.resource])])
    else db.(outbox := outbox)
  }

  function ClaimCommands(db: Db, chosen: seq<string>, now: Time): Db
    requires forall i :: 0 <= i < |chosen| ==> chosen[i] in db.outbox
    decreases |chosen|
  {
    if chosen == [] then db
    else ClaimCommands(ClaimOne(db, chosen[0], now), chosen[1..], now)
  }

  function MarkCommandDelivered(db: Db, id: string): Db {
    if id in db.outbox
    then db.(outbox := db.outbox[id := db.outbox[id].(status := Delivered, claimExpiresAt := None)])
    else db
  }

  function ReleaseCommand(db: Db, id: string, now: Time): Db {
    if id in db.outbox
    then db.(outbox := db.outbox[id :=
               db.outbox[id].(status := Pending, nextAttemptAt := now + SECOND, claimExpiresAt := None)])
    else db
  }

  /* ---- agent events ---- */

  /** The row update of AppendAgentEvent for a sequence that is not persisted yet. */
  function AppendedRow(run: Run, sequence: int, event: RunEvent, now: Time): Run {
    var status := StatusForEvent(event.kind);
    var base := run.(
      persisted := if run.persisted < sequence then sequence else run.persisted,
      events := run.events[sequence := Stored(event)]);
    var bearing := if status.Some? then base.(status := status.value, version := run.version + 1) else base;
    var started := if event.kind == TurnStarted
      then bearing.(turnId := Some(TurnOf(event.payload)),
                    startedAt := if run.startedAt.Some? then run.startedAt else Some(now))
      else bearing;
    if Ends(event.kind) then started.(final := Some(sequence), finishedAt := Some(now)) else started
  }

  function SessionKindFor(status: Status): SessionEventKind {
    if status == Completed then RunCompleted else RunStatusChanged
  }

  /** turn.started gives the session its Codex thread unless it already has one. */
  ghost function AdoptThread(sessions: map<string, Session>, s: string, thread: string, now: Time)
    : Result<map<string, Session>>
  {
    if s !in sessions then Ok(sessions)
    else if sessions[s].threadId.Some? then Ok(sessions[s := sessions[s].(updatedAt := now)])
    else if exists other :: HoldsThread(sessions, other, thread) then Err(Constraint)
    else Ok(sessions[s := sessions[s].(threadId := Some(thread), updatedAt := now)])
  }

  ghost predicate TurnClash(runs: map<string, Run>, r: string, turn: string) {
    exists other :: other != r && HoldsTurn(runs, other, turn)
  }

  ghost function AppendAgentEvent(db: Db, r: string, sequence: int, event: RunEvent, now: Time): Result<Db> {
    if r !in db.runs || sequence < 1 then Err(Constraint)
    else if sequence in db.runs[r].events then Ok(db)
    else
      var run := db.runs[r];
      var adopted :- if event.kind == TurnStarted
        then AdoptThread(db.sessions, run.sessionId, ThreadOf(event.payload), now)
        else Ok(db.sessions);
      if event.kind == TurnStarted && TurnClash(db.runs, r, TurnOf(event.payload)) then Err(Constraint)
      else
        var status := StatusForEvent(event.kind);
        var sessions :- if status.Some?
          then LogSessionEvent(adopted, run.sessionId, SessionEvent(SessionKindFor(status.value), r, status.value), now)
          else Ok(adopted);
        Ok(db.(runs := db.runs[r := AppendedRow(run, sequence, event, now)], sessions := sessions))
  }

  /* ---- sync jobs ---- */

  predicate Active(job: SyncJob) { job.status == JobQueued || job.status == JobRunning }

  ghost function CreateSyncJob(db: Db, id: string, commandId: string, key: string, now: Time): Result<(Db, string)> {
    if j :| j in db.jobs && db.jobs[j].key == key then Ok((db, j))
    else if j :| j in db.jobs && Active(db.jobs[j]) then Ok((db, j))
    else if id in db.jobs || CommandTaken(db.outbox, commandId, BootstrapStart, id) then Err(Constraint)
    else
      var job := SyncJob(JobQueued, key, "", -1, "", 0, 0, 0, 0, 0, false, now);
      Ok((db.(jobs := db.jobs[id := job],
              outbox := db.outbox[commandId := FreshCommand(BootstrapStart, id, now)]), id))
  }
}
