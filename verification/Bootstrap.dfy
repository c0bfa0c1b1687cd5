/** Bootstrap import: translating a Codex thread into rows (`BatchOf`, the coordinator's
    bootstrapBatch) and applying a numbered batch (`ApplyBatch`, the store's ApplyBootstrapBatch). */
module Bootstrap {
  import opened RuntimeTypes
  import opened RuntimeStore

  /* ---- translation ---- */

  predicate TerminalTurn(status: string) {
    status in ["completed", "failed", "interrupted", "canceled", "cancelled"]
  }

  function ImportedStatus(status: string): Option<Status> {
    if status == "completed" then Some(Completed)
    else if status == "failed" then Some(Failed)
    else if status in ["interrupted", "canceled", "cancelled"] then Some(Canceled)
    else None
  }

  function TerminalKind(status: string): EventKind {
    if status == "failed" then TurnFailed
    else if status in ["interrupted", "canceled", "cancelled"] then TurnInterrupted
    else TurnCompleted
  }

  predicate FromUser(item: Item) { item.role == "user" || item.kind == "userMessage" }

  /** The text of the first user item that has any. */
  function PromptOf(items: seq<Item>): string {
    if items == [] then ""
    else if FromUser(items[0]) && items[0].text != "" then items[0].text
    else PromptOf(items[1..])
  }

  function StartOf(thread: Thread, turn: Turn): Time {
    if turn.startedAt.Some? then turn.startedAt.value else thread.createdAt
  }

  function FinishOf(thread: Thread, turn: Turn): Time {
    if turn.completedAt.Some? then turn.completedAt.value else thread.updatedAt
  }

  function ItemEvents(items: seq<Item>, at: Time): (es: seq<BatchEvent>)
    ensures |es| == |items|
  {
    seq(|items|, i requires 0 <= i < |items| => BatchEvent(i + 1, RunEvent(ItemCompleted, ItemPayload(items[i]), at)))
  }

  function TurnEvents(thread: Thread, turn: Turn): seq<BatchEvent> {
    ItemEvents(turn.items, StartOf(thread, turn)) +
    [BatchEvent(|turn.items| + 1,
                RunEvent(TerminalKind(turn.status), TurnPayload(thread.id, turn.id, turn.status, turn.failure),
                         FinishOf(thread, turn)))]
  }

  function SessionIdOf(thread: Thread): string { "session_" + thread.id }

  function RunOf(thread: Thread, turn: Turn): BatchRun {
    BatchRun("run_" + turn.id, SessionIdOf(thread), turn.id, turn.status, PromptOf(turn.items),
             Some(StartOf(thread, turn)), Some(FinishOf(thread, turn)), TurnEvents(thread, turn))
  }

  function RunsOf(thread: Thread, turns: seq<Turn>): seq<BatchRun> {
    if turns == [] then []
    else if TerminalTurn(turns[0].status) then [RunOf(thread, turns[0])] + RunsOf(thread, turns[1..])
    else RunsOf(thread, turns[1..])
  }

  function BatchOf(p: BatchPayload): Batch {
    Batch(p.commandId, p.syncId, p.snapshotId, p.batchNo, p.checksum, p.totalSessions, p.processedSessions,
          p.reconciliationSafe,
          if p.project.Some? then [p.project.value] else [],
          if p.thread.Some?
          then [BatchSession(SessionIdOf(p.thread.value), p.thread.value.projectId, p.thread.value.id,
                             p.thread.value.title)]
          else [],
          if p.thread.Some? then RunsOf(p.thread.value, p.thread.value.turns) else [],
          p.done)
  }

  /* ---- projects and sessions of a batch ---- */

  function SeenProject(p: BatchProject, snapshot: string, now: Time): Project {
    Project(p.name, Some(snapshot), None, now)
  }

  function ImportProjects(projects: map<string, Project>, ps: seq<BatchProject>, snapshot: string, now: Time)
    : map<string, Project>
    decreases |ps|
  {
    if ps == [] then projects
    else ImportProjects(projects[ps[0].id := SeenProject(ps[0], snapshot, now)], ps[1..], snapshot, now)
  }

  ghost predicate SessionConflict(sessions: map<string, Session>, v: BatchSession) {
    v.id in sessions || exists s :: HoldsThread(sessions, s, v.threadId)
  }

  /** INSERT ... ON CONFLICT DO NOTHING. */
  ghost function InsertSession(db: Db, v: BatchSession, now: Time): Result<map<string, Session>> {
    if SessionConflict(db.sessions, v) then Ok(db.sessions)
    else if v.projectId !in db.projects then Err(Constraint)
    else Ok(db.sessions[v.id := Session(v.projectId, Some(v.threadId), v.title, 0, map[], None, now, None, None)])
  }

  /** The session that stands for a thread: the one with the imported identifier, else the one
      that already carries the thread. */
  ghost function CanonicalSession(sessions: map<string, Session>, v: BatchSession): string {
    if v.threadId == "" || v.id in sessions then v.id
    else match ThreadHolder(sessions, v.threadId)
         case Some(s) => s
         case None => v.id
  }

  ghost function ImportSession(db: Db, v: BatchSession, snapshot: string, now: Time): Result<(Db, string)> {
    var inserted :- InsertSession(db, v, now);
    var s := CanonicalSession(inserted, v);
    if s !in inserted then Ok((db.(sessions := inserted), s))
    else if v.projectId !in db.projects then Err(Constraint)
    else
      var row := inserted[s].(projectId := v.projectId, title := v.title, lastSeen := Some(snapshot),
                              archivedAt := None);
      Ok((db.(sessions := inserted[s := row]), s))
  }

  ghost function ImportSessions(db: Db, vs: seq<BatchSession>, snapshot: string, ids: map<string, string>, now: Time)
    : Result<(Db, map<string, string>)>
    decreases |vs|
  {
    if vs == [] then Ok((db, ids))
    else
      var step :- ImportSession(db, vs[0], snapshot, now);
      ImportSessions(step.0, vs[1..], snapshot, ids[vs[0].id := step.1], now)
  }

  /* ---- runs of a batch ---- */

  ghost function TargetRun(runs: map<string, Run>, id: string, turn: string): Option<string> {
    if id in runs then Some(id)
    else if turn == "" then None
    else TurnHolder(runs, turn)
  }

  predicate SameEvent(stored: RunEvent, wanted: RunEvent) {
    && stored.kind == wanted.kind
    && stored.payload == wanted.payload
    && Micro(stored.occurredAt) == Micro(wanted.occurredAt)
  }

  predicate Ascending(es: seq<BatchEvent>) {
    forall i, j :: 0 <= i < j < |es| ==> es[i].sequence < es[j].sequence
  }

  /** The persisted rows in sequence order are exactly the expected list. */
  ghost predicate EventsMatch(events: map<int, RunEvent>, es: seq<BatchEvent>) {
    && Ascending(es)
    && events.Keys == (set i | 0 <= i < |es| :: es[i].sequence)
    && forall i :: 0 <= i < |es| ==> SameEvent(events[es[i].sequence], es[i].event)
  }

  /** What importing `r` into the stored row would have to change. */
  ghost predicate Changed(run: Run, r: BatchRun, session: string, status: Status) {
    || run.sessionId != session
    || run.status != status
    || run.prompt != r.prompt
    || MicroOption(run.startedAt) != MicroOption(r.startedAt)
    || MicroOption(run.finishedAt) != MicroOption(r.finishedAt)
    || run.persisted != |r.events|
    || run.final != Some(|r.events|)
    || !EventsMatch(run.events, r.events)
  }

  function EventRows(es: seq<BatchEvent>): Result<map<int, RunEvent>>
    decreases |es|
  {
    if es == [] then Ok(map[])
    else
      var rest :- EventRows(es[..|es| - 1]);
      var e := es[|es| - 1];
      if e.sequence < 1 || e.sequence in rest then Err(Constraint)
      else Ok(rest[e.sequence := Stored(e.event)])
  }

  function TurnIdOf(turn: string): Option<string> { if turn == "" then None else Some(turn) }

  /** The row an import leaves behind, whether it rewrites `prior` or inserts. */
  function ImportedRow(prior: Option<Run>, r: BatchRun, session: string, status: Status,
                       events: map<int, RunEvent>): Run {
    Run(session, TurnIdOf(r.turnId), status,
        if prior.Some? then prior.value.version + 1 else 1,
        if prior.Some? then prior.value.idem else None,
        r.prompt,
        if prior.Some? then prior.value.profile else "",
        None, MicroOption(r.startedAt), MicroOption(r.finishedAt), |r.events|, Some(|r.events|), events)
  }

  ghost predicate KeyClash(runs: map<string, Run>, target: string, session: string, idem: Option<Idempotency>) {
    idem.Some? && exists other :: other != target && HoldsKey(runs, other, session, idem.value.key)
  }

  ghost function RewriteRun(db: Db, r: BatchRun, session: string, status: Status, target: string,
                            now: Time): Result<Db> {
    var prior := if target in db.runs then Some(db.runs[target]) else None;
    if session !in db.sessions || |r.events| == 0 || (r.turnId != "" && TurnClash(db.runs, target, r.turnId))
       || (prior.Some? && KeyClash(db.runs, target, session, prior.value.idem)) then Err(Constraint)
    else
      var events :- EventRows(r.events);
      var sessions :- LogSessionEvent(db.sessions, session, SessionEvent(SessionKindFor(status), target, status), now);
      Ok(db.(runs := db.runs[target := ImportedRow(prior, r, session, status, events)], sessions := sessions))
  }

  ghost predicate NeedsImport(runs: map<string, Run>, r: BatchRun, session: string, status: Status) {
    var target := TargetRun(runs, r.id, r.turnId);
    target.None? || (target.value in runs && Changed(runs[target.value], r, session, status))
  }

  function SessionFor(ids: map<string, string>, s: string): string { if s in ids then ids[s] else s }

  ghost function TargetId(runs: map<string, Run>, r: BatchRun): string {
    var target := TargetRun(runs, r.id, r.turnId);
    if target.Some? then target.value else r.id
  }

  ghost function ImportIf(changed: bool, db: Db, r: BatchRun, session: string, status: Status, now: Time): Result<Db> {
    if changed then RewriteRun(db, r, session, status, TargetId(db.runs, r), now) else Ok(db)
  }

  /** One run of a batch; the count says whether it was terminal. */
  ghost function ImportRun(db: Db, r: BatchRun, ids: map<string, string>, now: Time): Result<(Db, int)> {
    match ImportedStatus(r.status)
    case None => Ok((db, 0))
    case Some(status) =>
      var session := SessionFor(ids, r.sessionId);
      var written :- ImportIf(NeedsImport(db.runs, r, session, status), db, r, session, status, now);
      Ok((written, 1))
  }

  ghost function ImportRuns(db: Db, rs: seq<BatchRun>, ids: map<string, string>, now: Time): Result<(Db, int)>
    decreases |rs|
  {
    if rs == [] then Ok((db, 0))
    else
      var first :- ImportRun(db, rs[0], ids, now);
      var rest :- ImportRuns(first.0, rs[1..], ids, now);
      Ok((rest.0, first.1 + rest.1))
  }

  /* ---- reconciliation ---- */

  ghost predicate SessionBusy(runs: map<string, Run>, s: string) {
    exists r :: r in runs && runs[r].sessionId == s && InFlight(runs[r].status)
  }

  ghost predicate ProjectBusy(db: Db, p: string) {
    exists s :: s in db.sessions && db.sessions[s].projectId == p && SessionBusy(db.runs, s)
  }

  ghost predicate StaleSession(db: Db, s: string, snapshot: string, since: Time) {
    && s in db.sessions
    && db.sessions[s].threadId.Some?
    && db.sessions[s].archivedAt.None?
    && db.sessions[s].lastSeen != Some(snapshot)
    && db.sessions[s].updatedAt <= since
    && !SessionBusy(db.runs, s)
  }

  ghost predicate StaleProject(db: Db, p: string, snapshot: string, since: Time) {
    && p in db.projects
    && db.projects[p].archivedAt.None?
    && db.projects[p].lastSeen != Some(snapshot)
    && db.projects[p].updatedAt <= since
    && !ProjectBusy(db, p)
  }

  ghost function StaleSessions(db: Db, snapshot: string, since: Time): set<string> {
    set s | s in db.sessions && StaleSession(db, s, snapshot, since)
  }

  ghost function StaleProjects(db: Db, snapshot: string, since: Time): set<string> {
    set p | p in db.projects && StaleProject(db, p, snapshot, since)
  }

  function ArchiveSessions(sessions: map<string, Session>, stale: set<string>, now: Time): map<string, Session> {
    map s | s in sessions :: if s in stale then sessions[s].(archivedAt := Some(now)) else sessions[s]
  }

  function ArchiveProjects(projects: map<string, Project>, stale: set<string>, now: Time): map<string, Project> {
    map p | p in projects :: if p in stale then projects[p].(archivedAt := Some(now), updatedAt := now) else projects[p]
  }

  predicate Reconciles(b: Batch) { b.done && b.reconciliationSafe && b.snapshotId != "" }

  /** Archives what the finished snapshot did not name; the counts are the rows affected. */
  ghost function Reconcile(db: Db, b: Batch, since: Time, now: Time): (Db, nat, nat) {
    if !Reconciles(b) then (db, 0, 0)
    else
      var stale := StaleSessions(db, b.snapshotId, since);
      var archived := db.(sessions := ArchiveSessions(db.sessions, stale, now));
      var gone := StaleProjects(archived, b.snapshotId, since);
      (archived.(projects := ArchiveProjects(db.projects, gone, now)), |stale|, |gone|)
  }

  /* ---- the whole batch ---- */

  function Max(a: int, b: int): int { if a < b then b else a }

  function FinishedJob(job: SyncJob, b: Batch, count: int, sessions: nat, projects: nat): SyncJob {
    job.(status := if b.done then JobCompleted else JobRunning,
         snapshotId := b.snapshotId,
         lastBatch := b.batchNo,
         checksum := b.checksum,
         itemCount := job.itemCount + count,
         totalSessions := Max(job.totalSessions, b.totalSessions),
         processedSessions := Max(job.processedSessions, b.processedSessions),
         archivedSessions := job.archivedSessions + sessions,
         archivedProjects := job.archivedProjects + projects,
         reconciled := job.reconciled || (b.done && b.reconciliationSafe))
  }

  ghost predicate OtherActive(jobs: map<string, SyncJob>, id: string) {
    exists j :: j in jobs && j != id && Active(jobs[j])
  }

  function FinishCommand(outbox: map<string, Command>, b: Batch): map<string, Command> {
    if b.done && b.commandId != "" && b.commandId in outbox && outbox[b.commandId].kind == BootstrapStart
       && outbox[b.commandId].resource == b.syncId
    then outbox[b.commandId := outbox[b.commandId].(status := Delivered, claimExpiresAt := None)]
    else outbox
  }

  predicate Repeats(job: SyncJob, b: Batch) { b.batchNo == job.lastBatch && b.checksum == job.checksum }

  /** Everything a batch writes once it is known to be the next one. */
  ghost function CommitBatch(db: Db, b: Batch, now: Time): Result<Db>
    requires b.syncId in db.jobs
  {
    var job := db.jobs[b.syncId];
    var named := db.(projects := ImportProjects(db.projects, b.projects, b.snapshotId, now));
    var placed :- ImportSessions(named, b.sessions, b.snapshotId, map[], now);
    var imported :- ImportRuns(placed.0, b.runs, placed.1, now);
    var reconciled := Reconcile(imported.0, b, job.createdAt, now);
    if !b.done && OtherActive(db.jobs, b.syncId) then Err(Constraint)
    else
      Ok(reconciled.0.(
           jobs := db.jobs[b.syncId := FinishedJob(job, b, imported.1, reconciled.1, reconciled.2)],
           outbox := FinishCommand(db.outbox, b)))
  }

  ghost function ApplyBatch(db: Db, b: Batch, now: Time): Result<Db> {
    if b.syncId !in db.jobs then Err(NotFound)
    else if Repeats(db.jobs[b.syncId], b) then Ok(db)
    else if b.batchNo != db.jobs[b.syncId].lastBatch + 1 then Err(OutOfOrder)
    else CommitBatch(db, b, now)
  }
}
