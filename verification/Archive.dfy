/** What a sync job archives: exactly the stale rows, once, and never what its snapshot named. */
module Archive {
  import opened RuntimeTypes
  import opened RuntimeStore
  import opened Bootstrap
  import opened StoreInvariant
  import opened RelaySystem
  import opened SystemInvariant
  import opened Convergence
  import opened Manifest

  /* ---- one committed batch ---- */

  /** Sessions and projects archived in `after` that were not before. */
  ghost function GoneSessions(before: Db, after: Db): set<string> {
    set s | s in after.sessions && after.sessions[s].archivedAt.Some?
            && !(s in before.sessions && before.sessions[s].archivedAt.Some?)
  }

  ghost function GoneProjects(before: Db, after: Db): set<string> {
    set p | p in after.projects && after.projects[p].archivedAt.Some?
            && !(p in before.projects && before.projects[p].archivedAt.Some?)
  }

  /** An import archives nothing, and brings back only what it marks with its snapshot. */
  ghost predicate SessionsRevive(before: map<string, Session>, after: map<string, Session>, snapshot: string) {
    forall s :: s in after ==>
      if after[s].archivedAt.Some? then s in before && before[s].archivedAt.Some?
      else (s in before && before[s].archivedAt.None?) || after[s].lastSeen == Some(snapshot)
  }

  ghost predicate ProjectsRevive(before: map<string, Project>, after: map<string, Project>, snapshot: string) {
    forall p :: p in after ==>
      if after[p].archivedAt.Some? then p in before && before[p].archivedAt.Some?
      else after[p].lastSeen == Some(snapshot) || (p in before && before[p] == after[p])
  }

  lemma {:induction false} ImportProjectsRevive(before: map<string, Project>, projects: map<string, Project>,
                                                ps: seq<BatchProject>, snapshot: string, now: Time)
    requires ProjectsRevive(before, projects, snapshot)
    ensures ProjectsRevive(before, ImportProjects(projects, ps, snapshot, now), snapshot)
    decreases |ps|
  {
    if ps != [] {
      ImportProjectsRevive(before, projects[ps[0].id := SeenProject(ps[0], snapshot, now)], ps[1..], snapshot, now);
    }
  }

  lemma PlaceRevives(db: Db, p: BatchPayload, now: Time)
    requires ImportSessions(db, BatchOf(p).sessions, p.snapshotId, map[], now).Ok?
    ensures var out := ImportSessions(db, BatchOf(p).sessions, p.snapshotId, map[], now).value;
            SessionsRevive(db.sessions, out.0.sessions, p.snapshotId) && out.0 == db.(sessions := out.0.sessions)
  {
    if p.thread.Some? { ImportSessionRevives(db, SessionOf(p.thread.value), p.snapshotId, now); }
  }

  lemma ImportSessionRevives(db: Db, v: BatchSession, snapshot: string, now: Time)
    requires ImportSession(db, v, snapshot, now).Ok?
    ensures var out := ImportSession(db, v, snapshot, now).value;
            SessionsRevive(db.sessions, out.0.sessions, snapshot) && out.0 == db.(sessions := out.0.sessions)
  {
  }

  /** Logging events touches neither mark. */
  ghost predicate SameMarks(before: map<string, Session>, after: map<string, Session>) {
    && after.Keys == before.Keys
    && forall s :: s in before
         ==> after[s].lastSeen == before[s].lastSeen && after[s].archivedAt == before[s].archivedAt
  }

  lemma {:induction false} ImportRunsMarks(db: Db, rs: seq<BatchRun>, ids: map<string, string>, now: Time)
    requires ImportRuns(db, rs, ids, now).Ok?
    ensures var out := ImportRuns(db, rs, ids, now).value;
            SameMarks(db.sessions, out.0.sessions) && out.0 == db.(sessions := out.0.sessions, runs := out.0.runs)
    decreases |rs|
  {
    if rs != [] {
      ImportRunMarks(db, rs[0], ids, now);
      ImportRunsMarks(ImportRun(db, rs[0], ids, now).value.0, rs[1..], ids, now);
    }
  }

  lemma ImportRunMarks(db: Db, r: BatchRun, ids: map<string, string>, now: Time)
    requires ImportRun(db, r, ids, now).Ok?
    ensures var out := ImportRun(db, r, ids, now).value;
            SameMarks(db.sessions, out.0.sessions) && out.0 == db.(sessions := out.0.sessions, runs := out.0.runs)
  {
    if ImportedStatus(r.status).Some? {
      var session, status := SessionFor(ids, r.sessionId), ImportedStatus(r.status).value;
      ImportIfMarks(NeedsImport(db.runs, r, session, status), db, r, session, status, now);
    }
  }

  lemma ImportIfMarks(changed: bool, db: Db, r: BatchRun, session: string, status: Status, now: Time)
    requires ImportIf(changed, db, r, session, status, now).Ok?
    ensures var next := ImportIf(changed, db, r, session, status, now).value;
            SameMarks(db.sessions, next.sessions) && next == db.(sessions := next.sessions, runs := next.runs)
  {
  }

  /** The store just before reconciliation. */
  ghost predicate BeforeArchiving(db: Db, p: BatchPayload, mid: Db) {
    && SessionsRevive(db.sessions, mid.sessions, p.snapshotId)
    && ProjectsRevive(db.projects, mid.projects, p.snapshotId)
  }

  lemma CommitSplits(db: Db, d: Arrival) returns (mid: Db)
    requires Commit(db, d).Ok?
    ensures BeforeArchiving(db, d.payload, mid)
    ensures var next, job := Commit(db, d).value, db.jobs[d.payload.syncId];
            var out := Reconcile(mid, BatchOf(d.payload), job.createdAt, d.now);
            && next == out.0.(jobs := next.jobs, outbox := next.outbox)
            && next.jobs[d.payload.syncId].archivedSessions == job.archivedSessions + out.1
            && next.jobs[d.payload.syncId].archivedProjects == job.archivedProjects + out.2
  {
    var b := BatchOf(d.payload);
    var named := db.(projects := ImportProjects(db.projects, b.projects, b.snapshotId, d.now));
    ImportProjectsRevive(db.projects, db.projects, b.projects, b.snapshotId, d.now);
    PlaceRevives(named, d.payload, d.now);
    var placed := ImportSessions(named, b.sessions, b.snapshotId, map[], d.now).value;
    ImportRunsMarks(placed.0, b.runs, placed.1, d.now);
    mid := ImportRuns(placed.0, b.runs, placed.1, d.now).value.0;
  }

  /** What may be archived: a session with a thread, unseen by the snapshot, untouched since the job
      was created and idle; a project likewise. */
  ghost predicate MayArchiveSession(db: Db, s: string, snapshot: string, since: Time) {
    && s in db.sessions && db.sessions[s].threadId.Some? && db.sessions[s].lastSeen != Some(snapshot)
    && db.sessions[s].updatedAt <= since && !SessionBusy(db.runs, s)
  }

  lemma GoneSessionsExact(db: Db, p: BatchPayload, mid: Db, next: Db, since: Time, now: Time)
    requires BeforeArchiving(db, p, mid)
    requires var out := Reconcile(mid, BatchOf(p), since, now).0; next.sessions == out.sessions && next.runs == out.runs
    ensures |GoneSessions(db, next)| == Reconcile(mid, BatchOf(p), since, now).1
    ensures forall s :: s in GoneSessions(db, next)
              ==> Reconciles(BatchOf(p)) && MayArchiveSession(next, s, p.snapshotId, since)
    ensures Reconciles(BatchOf(p)) ==>
              forall s :: MayArchiveSession(next, s, p.snapshotId, since) ==> next.sessions[s].archivedAt.Some?
  {
    if Reconciles(BatchOf(p)) {
      var stale := StaleSessions(mid, p.snapshotId, since);
      forall s ensures s in GoneSessions(db, next) <==> s in stale {
        if s in mid.sessions { assert s in next.sessions; }
      }
      assert GoneSessions(db, next) == stale;
    } else {
      assert GoneSessions(db, next) == {};
    }
  }

  lemma GoneProjectsExact(db: Db, p: BatchPayload, mid: Db, next: Db, since: Time, now: Time)
    requires BeforeArchiving(db, p, mid)
    requires var out := Reconcile(mid, BatchOf(p), since, now).0;
             next.projects == out.projects && next.sessions == out.sessions && next.runs == out.runs
    ensures |GoneProjects(db, next)| == Reconcile(mid, BatchOf(p), since, now).2
    ensures forall x :: x in GoneProjects(db, next) ==>
              && Reconciles(BatchOf(p)) && next.projects[x].lastSeen != Some(p.snapshotId) && !ProjectBusy(next, x)
              && x in db.projects && db.projects[x].updatedAt <= since
    ensures Reconciles(BatchOf(p)) ==> forall x :: x in next.projects && next.projects[x].archivedAt.None? ==>
              next.projects[x].lastSeen == Some(p.snapshotId) || since < next.projects[x].updatedAt
                  || ProjectBusy(next, x)
  {
    if Reconciles(BatchOf(p)) {
      var archived := mid.(sessions := ArchiveSessions(mid.sessions, StaleSessions(mid, p.snapshotId, since), now));
      var stale := StaleProjects(archived, p.snapshotId, since);
      assert forall x :: ProjectBusy(next, x) <==> ProjectBusy(archived, x);
      forall x ensures x in GoneProjects(db, next) <==> x in stale {
        if x in mid.projects { assert x in next.projects; }
      }
      assert GoneProjects(db, next) == stale;
    } else {
      assert GoneProjects(db, next) == {};
    }
  }

  /** Only a final batch of a complete listing under a snapshot archives. */
  predicate Closing(p: BatchPayload) { p.done && p.reconciliationSafe && p.snapshotId != "" }

  /** Run `r` belongs to session `s` of project `x`. */
  predicate RunsIn(db: Db, x: string, s: string, r: string) {
    s in db.sessions && db.sessions[s].projectId == x && r in db.runs && db.runs[r].sessionId == s
  }

  predicate Over(status: Status) { status == Completed || status == Failed || status == Canceled }

  /** A committed batch archives exactly what it may, counts exactly what it archived, and archives
      nothing unless it is final, safe and names a snapshot. */
  lemma CommitArchives(db: Db, d: Arrival)
    requires Commit(db, d).Ok?
    ensures var next, job, snapshot := Commit(db, d).value, db.jobs[d.payload.syncId], d.payload.snapshotId;
            && next.jobs[d.payload.syncId].archivedSessions == job.archivedSessions + |GoneSessions(db, next)|
            && next.jobs[d.payload.syncId].archivedProjects == job.archivedProjects + |GoneProjects(db, next)|
            && (!Closing(d.payload) ==> GoneSessions(db, next) == {} && GoneProjects(db, next) == {})
            && (forall s :: s in GoneSessions(db, next) ==> MayArchiveSession(next, s, snapshot, job.createdAt))
            && (Closing(d.payload) ==>
                  forall s :: MayArchiveSession(next, s, snapshot, job.createdAt) ==> next.sessions[s].archivedAt.Some?)
            && (forall x :: x in GoneProjects(db, next) ==>
                  next.projects[x].lastSeen != Some(snapshot) && !ProjectBusy(next, x)
                  && x in db.projects && db.projects[x].updatedAt <= job.createdAt)
            && (Closing(d.payload)
                ==> forall x :: x in next.projects && next.projects[x].archivedAt.None? ==>
                  next.projects[x].lastSeen == Some(snapshot) || job.createdAt < next.projects[x].updatedAt
                      || ProjectBusy(next, x))
            && (forall s, r :: s in GoneSessions(db, next) && r in next.runs && next.runs[r].sessionId == s ==>
                  Over(next.runs[r].status))
            && (forall x, s, r :: x in GoneProjects(db, next) && RunsIn(next, x, s, r) ==> Over(next.runs[r].status))
  {
    var mid := CommitSplits(db, d);
    GoneSessionsExact(db, d.payload, mid, Commit(db, d).value, db.jobs[d.payload.syncId].createdAt, d.now);
    GoneProjectsExact(db, d.payload, mid, Commit(db, d).value, db.jobs[d.payload.syncId].createdAt, d.now);
  }

  /* ---- a whole trace under one snapshot ---- */

  predicate SeenSession(sessions: map<string, Session>, s: string, snapshot: string) {
    s in sessions && sessions[s].lastSeen == Some(snapshot) && sessions[s].archivedAt.None?
  }

  predicate Seen(projects: map<string, Project>, p: string, snapshot: string) {
    p in projects && projects[p].lastSeen == Some(snapshot) && projects[p].archivedAt.None?
  }

  /** No row marked by the snapshot loses its mark or is archived. */
  ghost predicate SeenKept(before: Db, after: Db, snapshot: string) {
    && (forall s :: SeenSession(before.sessions, s, snapshot) ==> SeenSession(after.sessions, s, snapshot))
    && (forall p :: Seen(before.projects, p, snapshot) ==> Seen(after.projects, p, snapshot))
  }

  lemma {:induction false} UpsertKeepsSeen(db: Db, ps: seq<BatchProject>, now: Time, snapshot: string)
    ensures SeenKept(db, UpsertProjects(db, ps, now), snapshot)
    decreases |ps|
  {
    if ps != [] {
      if IsBlank(ps[0].id) || IsBlank(ps[0].name) { UpsertKeepsSeen(db, ps[1..], now, snapshot); }
      else {
        var row := Project(ps[0].name, if ps[0].id in db.projects then db.projects[ps[0].id].lastSeen else None, None,
                           now);
        var next := db.(projects := db.projects[ps[0].id := row]);
        assert SeenKept(db, next, snapshot);
        UpsertKeepsSeen(next, ps[1..], now, snapshot);
      }
    }
  }

  lemma {:induction false} ClaimKeepsSeen(db: Db, chosen: seq<string>, now: Time)
    requires forall i :: 0 <= i < |chosen| ==> chosen[i] in db.outbox
    ensures ClaimCommands(db, chosen, now).sessions == db.sessions
    ensures ClaimCommands(db, chosen, now).projects == db.projects
    decreases |chosen|
  {
    if chosen != [] { ClaimKeepsSeen(ClaimOne(db, chosen[0], now), chosen[1..], now); }
  }

  lemma AdoptMarks(sessions: map<string, Session>, s: string, thread: string, now: Time)
    ensures var out := AdoptThread(sessions, s, thread, now); out.Ok? ==> SameMarks(sessions, out.value)
  {
  }

  lemma LogMarks(sessions: map<string, Session>, s: string, e: SessionEvent, now: Time)
    ensures var out := LogSessionEvent(sessions, s, e, now); out.Ok? ==> SameMarks(sessions, out.value)
  {
  }

  lemma MarksSeen(before: Db, after: Db, snapshot: string)
    requires SameMarks(before.sessions, after.sessions) && after.projects == before.projects
    ensures SeenKept(before, after, snapshot)
  {
  }

  lemma AppendKeepsSeen(db: Db, r: string, n: int, e: RunEvent, now: Time, snapshot: string)
    ensures var out := AppendAgentEvent(db, r, n, e, now); out.Ok? ==> SeenKept(db, out.value, snapshot)
  {
    var out := AppendAgentEvent(db, r, n, e, now);
    if out.Ok? && n !in db.runs[r].events {
      var s := db.runs[r].sessionId;
      var adopted := if e.kind == TurnStarted then AdoptThread(db.sessions, s, ThreadOf(e.payload), now).value
        else db.sessions;
      AdoptMarks(db.sessions, s, ThreadOf(e.payload), now);
      if Bears(e.kind) {
        var status := StatusForEvent(e.kind).value;
        LogMarks(adopted, s, SessionEvent(SessionKindFor(status), r, status), now);
      }
      MarksSeen(db, out.value, snapshot);
    }
  }

  lemma NewSessionKeepsSeen(db: Db, id: string, project: string, title: string, key: string, hash: string, now: Time,
                            snapshot: string)
    ensures var out := CreateSession(db, id, project, title, key, hash, now);
            out.Ok? ==> SeenKept(db, out.value.0, snapshot)
  {
  }

  lemma CreateKeepsSeen(db: Db, session: string, prompt: string, profile: string, key: string, hash: string,
                        runId: string, commandId: string, now: Time, snapshot: string)
    ensures var out := CreateRunCommit(db, session, prompt, profile, key, hash, runId, commandId, now);
            out.Ok? ==> SeenKept(db, out.value.0, snapshot)
  {
  }

  lemma HandlingKeepsSeen(sys: System, a: Action, snapshot: string)
    requires Handling(a)
    ensures SeenKept(sys.db, Step(sys, a).db, snapshot)
  {
    if a.DoPersist? && a.delivery in sys.handlers {
      var h := sys.handlers[a.delivery];
      AppendKeepsSeen(sys.db, h.run, h.entry.sequence, h.entry.event, a.now, snapshot);
    }
  }

  lemma OtherStepsKeepSeen(sys: System, a: Action, snapshot: string)
    requires !a.DoBatch? && !Handling(a)
    ensures SeenKept(sys.db, Step(sys, a).db, snapshot)
  {
    match a
    case DoUpsertProjects(ps, now) => UpsertKeepsSeen(sys.db, ps, now, snapshot);
    case DoClaim(chosen, limit, now) =>
      if Claimable(sys.db, chosen, limit, now) { ClaimKeepsSeen(sys.db, chosen, now); }
    case DoCreateSession(id, project, title, key, hash, now) =>
      NewSessionKeepsSeen(sys.db, id, project, title, key, hash, now, snapshot);
    case DoCreateRunCommit(session, prompt, profile, key, hash, runId, commandId, now) =>
      CreateKeepsSeen(sys.db, session, prompt, profile, key, hash, runId, commandId, now, snapshot);
    case _ => RestKeepsSeen(sys, a);
  }

  lemma RestKeepsSeen(sys: System, a: Action)
    requires a.DoCreateRunLookup? || a.DoRequestCancel? || a.DoRelease? || a.DoMarkSent? || a.DoCreateSyncJob?
             || a.DoMarkBatchDone?
    ensures Step(sys, a).db.sessions == sys.db.sessions && Step(sys, a).db.projects == sys.db.projects
  {
  }

  /* ---- batches under the snapshot ---- */

  function ProjectsOf(p: BatchPayload): set<string> { if p.project.Some? then {p.project.value.id} else {} }

  /** The stored session a batch names. */
  ghost function SessionsOf(before: Db, after: Db, p: BatchPayload): set<string> {
    if p.thread.Some? && Home(before.sessions, p.thread.value) in after.sessions
    then {Home(before.sessions, p.thread.value)} else {}
  }

  lemma PlaceMarks(db: Db, p: BatchPayload, now: Time)
    requires DbOk(db) && ImportSessions(db, BatchOf(p).sessions, p.snapshotId, map[], now).Ok?
    ensures var out := ImportSessions(db, BatchOf(p).sessions, p.snapshotId, map[], now).value.0;
            && out.projects == db.projects
            && (forall s :: SeenSession(db.sessions, s, p.snapshotId) ==> SeenSession(out.sessions, s, p.snapshotId))
            && (forall s :: s in SessionsOf(db, out, p) ==> SeenSession(out.sessions, s, p.snapshotId))
            && (p.thread.Some? && p.thread.value.id != "" ==> Home(db.sessions, p.thread.value) in out.sessions)
  {
    if p.thread.Some? {
      var v := SessionOf(p.thread.value);
      InsertSessionCases(db, p.thread.value, now);
      var inserted := InsertSession(db, v, now).value;
      ImportSessionMarks(db, p.thread.value, p.snapshotId, now, inserted);
      if p.thread.value.id != "" { HomeStored(inserted, p.thread.value); }
    }
  }

  lemma HomeStored(sessions: map<string, Session>, thread: Thread)
    requires Homed(sessions, thread) && thread.id != ""
    ensures Home(sessions, thread) in sessions
  {
  }

  lemma ImportSessionMarks(db: Db, thread: Thread, snapshot: string, now: Time, inserted: map<string, Session>)
    requires InsertSession(db, SessionOf(thread), now) == Ok(inserted)
    requires ImportSession(db, SessionOf(thread), snapshot, now).Ok?
    ensures var out := ImportSession(db, SessionOf(thread), snapshot, now).value.0;
            && out == db.(sessions := out.sessions) && out.sessions.Keys == inserted.Keys
            && (forall s :: SeenSession(db.sessions, s, snapshot) ==> SeenSession(out.sessions, s, snapshot))
            && (Home(inserted, thread) in out.sessions ==> SeenSession(out.sessions, Home(inserted, thread), snapshot))
  {
  }

  lemma ReconcileSpares(db: Db, b: Batch, since: Time, now: Time)
    ensures SeenKept(db, Reconcile(db, b, since, now).0, b.snapshotId)
    ensures Reconcile(db, b, since, now).0.sessions.Keys == db.sessions.Keys
  {
  }

  lemma CommitMarks(db: Db, d: Arrival)
    requires DbOk(db) && Commit(db, d).Ok?
    ensures var next, snapshot := Commit(db, d).value, d.payload.snapshotId;
            && SeenKept(db, next, snapshot)
            && (forall p :: p in ProjectsOf(d.payload) ==> Seen(next.projects, p, snapshot))
            && (forall s :: s in SessionsOf(db, next, d.payload) ==> SeenSession(next.sessions, s, snapshot))
            && (d.payload.thread.Some? && d.payload.thread.value.id != "" ==>
                  Home(db.sessions, d.payload.thread.value) in next.sessions)
  {
    var p, b := d.payload, BatchOf(d.payload);
    var named := db.(projects := ImportProjects(db.projects, b.projects, b.snapshotId, d.now));
    ImportProjectsGrows(db.projects, b.projects, b.snapshotId, d.now);
    NamedSeen(db, p, d.now);
    PlaceMarks(named, p, d.now);
    var placed := ImportSessions(named, b.sessions, b.snapshotId, map[], d.now).value;
    ImportRunsMarks(placed.0, b.runs, placed.1, d.now);
    var mid := ImportRuns(placed.0, b.runs, placed.1, d.now).value.0;
    MarksSeen(placed.0, mid, p.snapshotId);
    ReconcileSpares(mid, b, db.jobs[p.syncId].createdAt, d.now);
  }

  lemma NamedSeen(db: Db, p: BatchPayload, now: Time)
    ensures var projects := ImportProjects(db.projects, BatchOf(p).projects, p.snapshotId, now);
            && SeenKept(db, db.(projects := projects), p.snapshotId)
            && forall x :: x in ProjectsOf(p) ==> Seen(projects, x, p.snapshotId)
  {
    if p.project.Some? {
      assert ImportProjects(db.projects, BatchOf(p).projects, p.snapshotId, now)
          == db.projects[p.project.value.id := SeenProject(p.project.value, p.snapshotId, now)];
    }
  }

  /** The step commits a batch that the store had not committed before. */
  ghost predicate Commits(sys: System, a: Action) {
    && a.DoBatch? && !Malformed(a.payload) && !a.storeFails && a.payload.syncId in sys.db.jobs
    && !Repeats(sys.db.jobs[a.payload.syncId], BatchOf(a.payload))
    && ApplyBatch(sys.db, BatchOf(a.payload), a.now).Ok?
  }

  lemma BatchCases(sys: System, a: Action)
    requires a.DoBatch?
    ensures Commits(sys, a) ==> Commit(sys.db, Arrival(a.payload, a.now)) == Ok(Step(sys, a).db)
    ensures !Commits(sys, a) ==> Step(sys, a).db == sys.db
  {
  }

  /** Every project and stored session named by the batches that a trace commits. */
  ghost function NamedProjects(sys: System, actions: seq<Action>): set<string>
    decreases |actions|
  {
    if actions == [] then {}
    else (if Commits(sys, actions[0]) then ProjectsOf(actions[0].payload) else {})
         + NamedProjects(Step(sys, actions[0]), actions[1..])
  }

  ghost function NamedSessions(sys: System, actions: seq<Action>): set<string>
    decreases |actions|
  {
    if actions == [] then {}
    else (if Commits(sys, actions[0]) then SessionsOf(sys.db, Step(sys, actions[0]).db, actions[0].payload) else {})
         + NamedSessions(Step(sys, actions[0]), actions[1..])
  }

  ghost predicate OneSnapshot(actions: seq<Action>, snapshot: string) {
    forall i :: 0 <= i < |actions| && actions[i].DoBatch? ==> actions[i].payload.snapshotId == snapshot
  }

  lemma StepKeepsSeen(sys: System, a: Action, snapshot: string)
    requires DbOk(sys.db) && (a.DoBatch? ==> a.payload.snapshotId == snapshot)
    ensures SeenKept(sys.db, Step(sys, a).db, snapshot)
    ensures Commits(sys, a) ==>
              && (forall p :: p in ProjectsOf(a.payload) ==> Seen(Step(sys, a).db.projects, p, snapshot))
              && (forall s :: s in SessionsOf(sys.db, Step(sys, a).db, a.payload)
                    ==> SeenSession(Step(sys, a).db.sessions, s, snapshot))
  {
    if a.DoBatch? {
      BatchCases(sys, a);
      if Commits(sys, a) { CommitMarks(sys.db, Arrival(a.payload, a.now)); }
    } else if Handling(a) {
      HandlingKeepsSeen(sys, a, snapshot);
    } else {
      OtherStepsKeepSeen(sys, a, snapshot);
    }
  }

  /** Over any trace whose batches carry one snapshot, final and safe batches included, nothing that a
      committed batch named is archived, nor was it at any point after that batch. */
  lemma {:induction false} NamedNeverArchived(sys: System, actions: seq<Action>, snapshot: string)
    requires DbOk(sys.db) && OneSnapshot(actions, snapshot)
    ensures var end := Execute(sys, actions).db;
            && SeenKept(sys.db, end, snapshot)
            && (forall p :: p in NamedProjects(sys, actions) ==> Seen(end.projects, p, snapshot))
            && (forall s :: s in NamedSessions(sys, actions) ==> SeenSession(end.sessions, s, snapshot))
    decreases |actions|
  {
    if actions != [] {
      StepKeepsSeen(sys, actions[0], snapshot);
      StepKeepsStore(sys, actions[0]);
      assert OneSnapshot(actions[1..], snapshot);
      NamedNeverArchived(Step(sys, actions[0]), actions[1..], snapshot);
    }
  }
}
