/** What a committed bootstrap batch leaves in the tables, row by row: the project, the thread's session, the
    turns, the job and its command. */
module BatchContents {
  import opened RuntimeTypes
  import opened RuntimeStore
  import opened Bootstrap
  import opened TurnContents

  /** What an import of runs and the archiving never touch of a session. */
  ghost predicate SameShells(before: map<string, Session>, after: map<string, Session>) {
    && after.Keys == before.Keys
    && forall s :: s in before ==>
         && after[s].projectId == before[s].projectId && after[s].title == before[s].title
         && after[s].threadId == before[s].threadId && after[s].lastSeen == before[s].lastSeen
         && after[s].idem == before[s].idem
  }

  lemma RewriteShells(db: Db, r: BatchRun, session: string, status: Status, t: string, now: Time)
    ensures var out := RewriteRun(db, r, session, status, t, now);
            out.Ok? ==> && SameShells(db.sessions, out.value.sessions)
                        && out.value == db.(runs := out.value.runs, sessions := out.value.sessions)
  {
  }

  lemma ImportIfShells(changed: bool, db: Db, r: BatchRun, session: string, status: Status, now: Time)
    ensures var out := ImportIf(changed, db, r, session, status, now);
            out.Ok? ==> && SameShells(db.sessions, out.value.sessions)
                        && out.value == db.(runs := out.value.runs, sessions := out.value.sessions)
  {
    if changed { RewriteShells(db, r, session, status, TargetId(db.runs, r), now); }
  }

  lemma ImportRunShells(db: Db, r: BatchRun, ids: map<string, string>, now: Time)
    ensures var out := ImportRun(db, r, ids, now);
            out.Ok? ==> && SameShells(db.sessions, out.value.0.sessions)
                        && out.value.0 == db.(runs := out.value.0.runs, sessions := out.value.0.sessions)
  {
    var status, session := ImportedStatus(r.status), SessionFor(ids, r.sessionId);
    if status.Some? {
      ImportIfShells(NeedsImport(db.runs, r, session, status.value), db, r, session, status.value, now);
    }
  }

  lemma {:induction false} ImportRunsShells(db: Db, rs: seq<BatchRun>, ids: map<string, string>, now: Time)
    ensures var out := ImportRuns(db, rs, ids, now);
            out.Ok? ==> && SameShells(db.sessions, out.value.0.sessions)
                        && out.value.0 == db.(runs := out.value.0.runs, sessions := out.value.0.sessions)
    decreases |rs|
  {
    if rs != [] && ImportRuns(db, rs, ids, now).Ok? {
      ImportRunShells(db, rs[0], ids, now);
      ImportRunsShells(ImportRun(db, rs[0], ids, now).value.0, rs[1..], ids, now);
    }
  }

  lemma ReconcileShells(db: Db, b: Batch, since: Time, now: Time)
    ensures var out := Reconcile(db, b, since, now).0;
            && SameShells(db.sessions, out.sessions)
            && out == db.(projects := out.projects, sessions := out.sessions)
            && out.projects.Keys == db.projects.Keys
            && forall p :: p in db.projects ==>
                 out.projects[p].name == db.projects[p].name && out.projects[p].lastSeen == db.projects[p].lastSeen
  {
  }

  /** Session `s` stands for the thread and was seen by the snapshot. Only a thread without an identifier can
      be without a session. */
  ghost predicate Stands(sessions: map<string, Session>, s: string, thread: Thread, snapshot: string) {
    && (thread.id != "" ==> s in sessions)
    && (s in sessions ==>
          && sessions[s].projectId == thread.projectId && sessions[s].title == thread.title
          && sessions[s].lastSeen == Some(snapshot)
          && (s == "session_" + thread.id || sessions[s].threadId == Some(thread.id)))
  }

  /** A session that nothing has happened in yet. */
  predicate EmptySession(s: Session, thread: Thread) {
    s.threadId == Some(thread.id) && s.lastSeq == 0 && s.log == map[] && s.idem.None? && s.archivedAt.None?
  }

  /** The session's row once the thread was seen. */
  lemma SeenRow(sessions: map<string, Session>, s: string, thread: Thread, snapshot: string)
    requires s in sessions && (s == "session_" + thread.id || sessions[s].threadId == Some(thread.id))
    ensures var row := sessions[s].(projectId := thread.projectId, title := thread.title, lastSeen := Some(snapshot),
                                    archivedAt := None);
            Stands(sessions[s := row], s, thread, snapshot)
  {
  }

  lemma HomeOf(db: Db, thread: Thread, now: Time)
    ensures var v := BatchSession("session_" + thread.id, thread.projectId, thread.id, thread.title);
            var inserted := InsertSession(db, v, now);
            inserted.Ok? ==>
              && var s := CanonicalSession(inserted.value, v);
              && (thread.id != "" ==> s in inserted.value)
              && (s in inserted.value ==> s == "session_" + thread.id || inserted.value[s].threadId == Some(thread.id))
              && (forall x :: x in db.sessions ==> x in inserted.value && inserted.value[x] == db.sessions[x])
              && (forall x :: x in inserted.value && x !in db.sessions ==>
                    x == s && EmptySession(inserted.value[x], thread))
  {
  }

  lemma ThreadPlaced(db: Db, thread: Thread, snapshot: string, now: Time)
    ensures var v := BatchSession("session_" + thread.id, thread.projectId, thread.id, thread.title);
            var out := ImportSession(db, v, snapshot, now);
            out.Ok? ==> && Stands(out.value.0.sessions, out.value.1, thread, snapshot)
                        && out.value.0 == db.(sessions := out.value.0.sessions)
                        && (forall s :: s in db.sessions && s != out.value.1 ==>
                              s in out.value.0.sessions && out.value.0.sessions[s] == db.sessions[s])
                        && forall s :: s in out.value.0.sessions && s !in db.sessions ==>
                             s == out.value.1 && EmptySession(out.value.0.sessions[s], thread)
  {
    var v := BatchSession("session_" + thread.id, thread.projectId, thread.id, thread.title);
    var inserted := InsertSession(db, v, now);
    if inserted.Ok? {
      HomeOf(db, thread, now);
      var s := CanonicalSession(inserted.value, v);
      if s in inserted.value { SeenRow(inserted.value, s, thread, snapshot); }
    }
  }

  /** The job after the batch. */
  ghost predicate JobAfter(before: SyncJob, after: SyncJob, p: BatchPayload, finished: nat) {
    && after.status == (if p.done then JobCompleted else JobRunning)
    && after.key == before.key && after.createdAt == before.createdAt
    && after.snapshotId == p.snapshotId && after.lastBatch == p.batchNo && after.checksum == p.checksum
    && after.itemCount == before.itemCount + finished
    && after.totalSessions >= before.totalSessions && after.totalSessions >= p.totalSessions
    && after.totalSessions in {before.totalSessions, p.totalSessions}
    && after.processedSessions >= before.processedSessions && after.processedSessions >= p.processedSessions
    && after.processedSessions in {before.processedSessions, p.processedSessions}
    && (after.reconciled <==> before.reconciled || (p.done && p.reconciliationSafe))
  }

  /** A final batch settles its own bootstrap command and touches no other. */
  ghost predicate CommandAfter(before: map<string, Command>, after: map<string, Command>, p: BatchPayload) {
    && after.Keys == before.Keys
    && forall c :: c in before ==>
         if p.done && c == p.commandId && c != "" && before[c].kind == BootstrapStart && before[c].resource == p.syncId
         then after[c] == before[c].(status := Delivered, claimExpiresAt := None)
         else after[c] == before[c]
  }

  ghost predicate ProjectAfter(projects: map<string, Project>, p: BatchPayload) {
    p.project.Some? ==>
      && p.project.value.id in projects
      && projects[p.project.value.id].name == p.project.value.name
      && projects[p.project.value.id].lastSeen == Some(p.snapshotId)
  }

  /** The thread of the batch, if it has one, is in the tables. */
  ghost predicate ThreadAfter(before: Db, after: Db, p: BatchPayload, session: string, at: seq<nat>,
                              rows: seq<string>) {
    match p.thread
    case None => after.runs == before.runs && at == []
    case Some(thread) =>
      && Selects(thread.turns, 0, at)
      && Stores(before.runs, after.runs, thread, at, rows, session)
      && Stands(after.sessions, session, thread, p.snapshotId)
  }

  lemma StandsLater(before: map<string, Session>, after: map<string, Session>, s: string, thread: Thread,
                    snapshot: string)
    requires Stands(before, s, thread, snapshot) && SameShells(before, after)
    ensures Stands(after, s, thread, snapshot)
  {
  }

  /** The parts of a committed batch. */
  lemma CommitParts(db: Db, b: Batch, now: Time, named: Db, placed: (Db, map<string, string>), imported: (Db, int))
    requires b.syncId in db.jobs && CommitBatch(db, b, now).Ok?
    requires named == db.(projects := ImportProjects(db.projects, b.projects, b.snapshotId, now))
    requires ImportSessions(named, b.sessions, b.snapshotId, map[], now) == Ok(placed)
    requires ImportRuns(placed.0, b.runs, placed.1, now) == Ok(imported)
    ensures var next, job := CommitBatch(db, b, now).value, db.jobs[b.syncId];
            var kept := Reconcile(imported.0, b, job.createdAt, now);
            && next.projects == kept.0.projects && next.sessions == kept.0.sessions && next.runs == kept.0.runs
            && next.outbox == FinishCommand(db.outbox, b)
            && next.jobs == db.jobs[b.syncId := FinishedJob(job, b, imported.1, kept.1, kept.2)]
  {
  }

  lemma Commits(db: Db, b: Batch, now: Time)
    returns (named: Db, placed: (Db, map<string, string>), imported: (Db, int))
    requires b.syncId in db.jobs && CommitBatch(db, b, now).Ok?
    ensures named == db.(projects := ImportProjects(db.projects, b.projects, b.snapshotId, now))
    ensures ImportSessions(named, b.sessions, b.snapshotId, map[], now) == Ok(placed)
    ensures ImportRuns(placed.0, b.runs, placed.1, now) == Ok(imported)
  {
    named := db.(projects := ImportProjects(db.projects, b.projects, b.snapshotId, now));
    placed := ImportSessions(named, b.sessions, b.snapshotId, map[], now).value;
    imported := ImportRuns(placed.0, b.runs, placed.1, now).value;
  }

  lemma JobExact(job: SyncJob, p: BatchPayload, count: nat, sessions: nat, projects: nat)
    ensures JobAfter(job, FinishedJob(job, BatchOf(p), count, sessions, projects), p, count)
  {
  }

  lemma CommandExact(outbox: map<string, Command>, p: BatchPayload)
    ensures CommandAfter(outbox, FinishCommand(outbox, BatchOf(p)), p)
  {
  }

  lemma ProjectNamed(projects: map<string, Project>, p: BatchPayload, now: Time)
    ensures ProjectAfter(ImportProjects(projects, BatchOf(p).projects, p.snapshotId, now), p)
  {
  }

  lemma OneSession(db: Db, v: BatchSession, snapshot: string, now: Time)
    requires ImportSessions(db, [v], snapshot, map[], now).Ok?
    ensures ImportSession(db, v, snapshot, now).Ok?
    ensures var first := ImportSession(db, v, snapshot, now).value;
            ImportSessions(db, [v], snapshot, map[], now) == Ok((first.0, map[v.id := first.1]))
  {
  }

  /** The thread's rows, before anything is archived. */
  lemma ThreadStored(named: Db, p: BatchPayload, now: Time, placed: (Db, map<string, string>), imported: (Db, int))
    returns (session: string, at: seq<nat>, rows: seq<string>)
    requires ImportSessions(named, BatchOf(p).sessions, p.snapshotId, map[], now) == Ok(placed)
    requires ImportRuns(placed.0, BatchOf(p).runs, placed.1, now) == Ok(imported)
    ensures ThreadAfter(named, imported.0, p, session, at, rows) && imported.1 == |at|
  {
    session, at, rows := "", [], [];
    if p.thread.Some? {
      var thread := p.thread.value;
      var v := BatchSession("session_" + thread.id, thread.projectId, thread.id, thread.title);
      assert BatchOf(p).sessions == [v] && thread.turns[0..] == thread.turns;
      OneSession(named, v, p.snapshotId, now);
      ThreadPlaced(named, thread, p.snapshotId, now);
      session := SessionFor(placed.1, v.id);
      at := RunsTranslate(thread, 0);
      assert forall j :: 0 <= j < |at| ==> at[j] in at;
      rows := ImportStoresTurns(placed.0, thread, at, BatchOf(p).runs, placed.1, now);
      ImportRunsShells(placed.0, BatchOf(p).runs, placed.1, now);
      StandsLater(placed.0.sessions, imported.0.sessions, session, thread, p.snapshotId);
    }
  }

  /** A batch that is not a repetition and is taken leaves, whatever the tables were: its project under its
      name, its thread's session with its project and title, every finished turn as the contents of its row,
      unless a later turn of the thread was stored under the same row, and the job's progress. */
  lemma BatchLands(db: Db, p: BatchPayload, now: Time) returns (session: string, at: seq<nat>, rows: seq<string>)
    requires ApplyBatch(db, BatchOf(p), now).Ok?
    requires p.syncId in db.jobs && !Repeats(db.jobs[p.syncId], BatchOf(p))
    ensures var next := ApplyBatch(db, BatchOf(p), now).value;
            && ProjectAfter(next.projects, p)
            && ThreadAfter(db, next, p, session, at, rows)
            && next.jobs.Keys == db.jobs.Keys && JobAfter(db.jobs[p.syncId], next.jobs[p.syncId], p, |at|)
            && (forall j :: j in db.jobs && j != p.syncId ==> next.jobs[j] == db.jobs[j])
            && CommandAfter(db.outbox, next.outbox, p)
  {
    var b, job := BatchOf(p), db.jobs[p.syncId];
    var named, placed, imported := Commits(db, b, now);
    CommitParts(db, b, now, named, placed, imported);
    session, at, rows := ThreadStored(named, p, now, placed, imported);
    LandsRest(db, p, now, named, placed, imported);
    var kept := Reconcile(imported.0, b, job.createdAt, now);
    ReconcileShells(imported.0, b, job.createdAt, now);
    JobExact(job, p, |at|, kept.1, kept.2);
    CommandExact(db.outbox, p);
    ThreadLater(named, imported.0, db, ApplyBatch(db, b, now).value, p, session, at, rows);
  }

  lemma ThreadLater(before: Db, mid: Db, db: Db, after: Db, p: BatchPayload, session: string, at: seq<nat>,
                    rows: seq<string>)
    requires ThreadAfter(before, mid, p, session, at, rows) && db.runs == before.runs && after.runs == mid.runs
    requires SameShells(mid.sessions, after.sessions)
    ensures ThreadAfter(db, after, p, session, at, rows)
  {
    if p.thread.Some? { StandsLater(mid.sessions, after.sessions, session, p.thread.value, p.snapshotId); }
  }

  lemma LandsRest(db: Db, p: BatchPayload, now: Time, named: Db, placed: (Db, map<string, string>),
                  imported: (Db, int))
    requires p.syncId in db.jobs
    requires named == db.(projects := ImportProjects(db.projects, BatchOf(p).projects, p.snapshotId, now))
    requires ImportSessions(named, BatchOf(p).sessions, p.snapshotId, map[], now) == Ok(placed)
    requires ImportRuns(placed.0, BatchOf(p).runs, placed.1, now) == Ok(imported)
    ensures ProjectAfter(Reconcile(imported.0, BatchOf(p), db.jobs[p.syncId].createdAt, now).0.projects, p)
    ensures p.thread.None? ==> imported.0.runs == db.runs
  {
    ProjectNamed(db.projects, p, now);
    PlacedProjects(named, p, now, placed);
    ImportRunsShells(placed.0, BatchOf(p).runs, placed.1, now);
    ReconcileShells(imported.0, BatchOf(p), db.jobs[p.syncId].createdAt, now);
  }

  lemma PlacedProjects(named: Db, p: BatchPayload, now: Time, placed: (Db, map<string, string>))
    requires ImportSessions(named, BatchOf(p).sessions, p.snapshotId, map[], now) == Ok(placed)
    ensures placed.0 == named.(sessions := placed.0.sessions)
  {
    if p.thread.Some? {
      var thread := p.thread.value;
      var v := BatchSession("session_" + thread.id, thread.projectId, thread.id, thread.title);
      assert BatchOf(p).sessions == [v];
      OneSession(named, v, p.snapshotId, now);
      ThreadPlaced(named, thread, p.snapshotId, now);
    }
  }
}
