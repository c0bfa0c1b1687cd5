/** CreateRun under any interleaving of its two phases: one run, one run.created event and one
    run.start command per session and idempotency key. */
module CreateRunOnce {
  import opened RuntimeTypes
  import opened RuntimeStore
  import opened Bootstrap
  import opened StoreInvariant
  import opened RelaySystem
  import opened SystemInvariant

  ghost predicate IsCreation(sessions: map<string, Session>, s: string, k: int, r: string) {
    s in sessions && k in sessions[s].log && sessions[s].log[k].kind == RunCreated && sessions[s].log[k].runId == r
  }

  predicate Keyed(runs: map<string, Run>, r: string) { r in runs && runs[r].idem.Some? }

  /** A keyed run has its run.created event in its own session, and no other event claims it. */
  ghost predicate CreatedOnce(db: Db) {
    && (forall s, k, r :: IsCreation(db.sessions, s, k, r) ==> Keyed(db.runs, r))
    && (forall r :: Keyed(db.runs, r) ==> exists k :: IsCreation(db.sessions, db.runs[r].sessionId, k, r))
    && (forall s, k, s', k', r :: IsCreation(db.sessions, s, k, r) && IsCreation(db.sessions, s', k', r)
          ==> s == s' && k == k')
  }

  ghost predicate Started(db: Db) {
    forall r :: Keyed(db.runs, r) ==> exists c :: HasCommand(db.outbox, c, RunStart, r)
  }

  ghost predicate ReplyOk(runs: map<string, Run>, p: Reply) {
    p.result.Ok? ==> HoldsKey(runs, p.result.value, p.session, p.key) && runs[p.result.value].idem.value.hash == p.hash
  }

  ghost predicate RepliesOk(sys: System) {
    forall i :: 0 <= i < |sys.replies| ==> ReplyOk(sys.db.runs, sys.replies[i])
  }

  /** No keyed run moves to another session. Only a bootstrap rewrite could do that. */
  ghost predicate Stays(before: map<string, Run>, after: map<string, Run>) {
    forall r :: Keyed(before, r) ==> r in after && after[r].sessionId == before[r].sessionId
  }

  ghost predicate NoRehoming(sys: System, a: Action) { a.DoBatch? ==> Stays(sys.db.runs, Step(sys, a).db.runs) }

  /* ---- session logs grow by status events only ---- */

  ghost predicate PlainLog(before: map<int, SessionEvent>, after: map<int, SessionEvent>) {
    && (forall k :: k in before ==> k in after && after[k] == before[k])
    && (forall k :: k in after ==> k in before || after[k].kind != RunCreated)
  }

  ghost predicate PlainGrowth(before: map<string, Session>, after: map<string, Session>) {
    && before.Keys <= after.Keys
    && forall s :: s in after ==> PlainLog(if s in before then before[s].log else map[], after[s].log)
  }

  lemma PlainGrowthTrans(a: map<string, Session>, b: map<string, Session>, c: map<string, Session>)
    requires PlainGrowth(a, b) && PlainGrowth(b, c)
    ensures PlainGrowth(a, c)
  {
    forall s | s in c ensures PlainLog(if s in a then a[s].log else map[], c[s].log) {
      if s in b { assert PlainLog(if s in a then a[s].log else map[], b[s].log); }
    }
  }

  lemma LoggedPlain(sessions: map<string, Session>, s: string, e: SessionEvent, now: Time)
    requires e.kind != RunCreated && LogSessionEvent(sessions, s, e, now).Ok?
    ensures PlainGrowth(sessions, LogSessionEvent(sessions, s, e, now).value)
  {
  }

  lemma AdoptedPlain(sessions: map<string, Session>, s: string, thread: string, now: Time)
    requires AdoptThread(sessions, s, thread, now).Ok?
    ensures PlainGrowth(sessions, AdoptThread(sessions, s, thread, now).value)
  {
  }

  lemma AppendPlain(db: Db, r: string, n: int, e: RunEvent, now: Time)
    ensures var out := AppendAgentEvent(db, r, n, e, now); out.Ok? ==> PlainGrowth(db.sessions, out.value.sessions)
  {
    var out := AppendAgentEvent(db, r, n, e, now);
    if out.Ok? && n !in db.runs[r].events {
      var s := db.runs[r].sessionId;
      var adopted := db.sessions;
      if e.kind == TurnStarted {
        AdoptedPlain(db.sessions, s, ThreadOf(e.payload), now);
        adopted := AdoptThread(db.sessions, s, ThreadOf(e.payload), now).value;
      }
      if Bears(e.kind) {
        var status := StatusForEvent(e.kind).value;
        LoggedPlain(adopted, s, SessionEvent(SessionKindFor(status), r, status), now);
        PlainGrowthTrans(db.sessions, adopted, out.value.sessions);
      }
    }
  }

  lemma ImportSessionPlain(db: Db, v: BatchSession, snapshot: string, now: Time)
    ensures var out := ImportSession(db, v, snapshot, now); out.Ok? ==> PlainGrowth(db.sessions, out.value.0.sessions)
  {
  }

  lemma {:induction false} ImportSessionsPlain(db: Db, vs: seq<BatchSession>, snapshot: string,
                                               ids: map<string, string>, now: Time)
    ensures var out := ImportSessions(db, vs, snapshot, ids, now);
            out.Ok? ==> PlainGrowth(db.sessions, out.value.0.sessions)
    decreases |vs|
  {
    if vs != [] && ImportSession(db, vs[0], snapshot, now).Ok? {
      var first := ImportSession(db, vs[0], snapshot, now).value;
      ImportSessionPlain(db, vs[0], snapshot, now);
      ImportSessionsPlain(first.0, vs[1..], snapshot, ids[vs[0].id := first.1], now);
      var out := ImportSessions(db, vs, snapshot, ids, now);
      if out.Ok? { PlainGrowthTrans(db.sessions, first.0.sessions, out.value.0.sessions); }
    }
  }

  lemma ImportIfPlain(changed: bool, db: Db, r: BatchRun, session: string, status: Status, now: Time)
    ensures var out := ImportIf(changed, db, r, session, status, now);
            out.Ok? ==> PlainGrowth(db.sessions, out.value.sessions)
  {
    if changed && RewriteRun(db, r, session, status, TargetId(db.runs, r), now).Ok? {
      LoggedPlain(db.sessions, session, SessionEvent(SessionKindFor(status), TargetId(db.runs, r), status), now);
    }
  }

  /** Imported rows carry no key of their own. */
  ghost predicate KeysSteady(before: map<string, Run>, after: map<string, Run>) {
    before.Keys <= after.Keys
        && forall r :: r in after ==> after[r].idem == if r in before then before[r].idem else None
  }

  lemma ImportIfKeys(changed: bool, db: Db, r: BatchRun, session: string, status: Status, now: Time)
    ensures var out := ImportIf(changed, db, r, session, status, now); out.Ok? ==> KeysSteady(db.runs, out.value.runs)
  {
  }

  lemma {:induction false} ImportRunsPlain(db: Db, rs: seq<BatchRun>, ids: map<string, string>, now: Time)
    ensures var out := ImportRuns(db, rs, ids, now);
            out.Ok? ==> PlainGrowth(db.sessions, out.value.0.sessions) && KeysSteady(db.runs, out.value.0.runs)
    decreases |rs|
  {
    if rs != [] && ImportRun(db, rs[0], ids, now).Ok? {
      var mid := ImportRun(db, rs[0], ids, now).value.0;
      if ImportedStatus(rs[0].status).Some? {
        var session, status := SessionFor(ids, rs[0].sessionId), ImportedStatus(rs[0].status).value;
        ImportIfPlain(NeedsImport(db.runs, rs[0], session, status), db, rs[0], session, status, now);
        ImportIfKeys(NeedsImport(db.runs, rs[0], session, status), db, rs[0], session, status, now);
      }
      ImportRunsPlain(mid, rs[1..], ids, now);
      var out := ImportRuns(db, rs, ids, now);
      if out.Ok? { PlainGrowthTrans(db.sessions, mid.sessions, out.value.0.sessions); }
    }
  }

  lemma ReconcilePlain(db: Db, b: Batch, since: Time, now: Time)
    ensures PlainGrowth(db.sessions, Reconcile(db, b, since, now).0.sessions)
    ensures Reconcile(db, b, since, now).0.runs == db.runs
  {
  }

  lemma CommitBatchPlain(db: Db, b: Batch, now: Time)
    requires DbOk(db) && b.syncId in db.jobs
    ensures var out := CommitBatch(db, b, now);
            out.Ok? ==> PlainGrowth(db.sessions, out.value.sessions) && KeysSteady(db.runs, out.value.runs)
  {
    if CommitBatch(db, b, now).Ok? {
      var named := db.(projects := ImportProjects(db.projects, b.projects, b.snapshotId, now));
      ImportProjectsGrows(db.projects, b.projects, b.snapshotId, now);
      ImportSessionsKeeps(named, b.sessions, b.snapshotId, map[], now);
      ImportSessionsPlain(named, b.sessions, b.snapshotId, map[], now);
      var placed := ImportSessions(named, b.sessions, b.snapshotId, map[], now).value;
      ImportRunsPlain(placed.0, b.runs, placed.1, now);
      var imported := ImportRuns(placed.0, b.runs, placed.1, now).value;
      ReconcilePlain(imported.0, b, db.jobs[b.syncId].createdAt, now);
      PlainGrowthTrans(db.sessions, placed.0.sessions, imported.0.sessions);
      PlainGrowthTrans(db.sessions, imported.0.sessions, CommitBatch(db, b, now).value.sessions);
    }
  }

  ghost predicate Plain(before: Db, after: Db) {
    PlainGrowth(before.sessions, after.sessions) && KeysSteady(before.runs, after.runs)
  }

  lemma ApplyBatchPlain(db: Db, p: BatchPayload, now: Time)
    requires DbOk(db)
    ensures var out := ApplyBatch(db, BatchOf(p), now); out.Ok? ==> out.value == db || Plain(db, out.value)
  {
    if p.syncId in db.jobs { CommitBatchPlain(db, BatchOf(p), now); }
  }

  lemma BatchPlain(sys: System, p: BatchPayload, storeFails: bool, now: Time)
    requires DbOk(sys.db)
    ensures var next := ReceiveBatch(sys, p, storeFails, now); next.db == sys.db || Plain(sys.db, next.db)
  {
    ApplyBatchPlain(sys.db, p, now);
  }

  /* ---- every other step ---- */

  lemma QuietPlain(db: Db, next: Db)
    requires Quiet(db.runs, next.runs) && RunsKept(db.runs, next.runs) && next.sessions == db.sessions
    ensures Plain(db, next) && Stays(db.runs, next.runs)
  {
  }

  lemma SessionsStep(sys: System, a: Action)
    requires !TouchesEvents(a) && !a.DoCreateSession?
    ensures Step(sys, a).db.sessions == sys.db.sessions
  {
    match a
    case DoUpsertProjects(ps, now) => UpsertProjectsQuiet(sys.db, ps, now);
    case DoClaim(chosen, limit, now) => if Claimable(sys.db, chosen, limit, now) { ClaimSessions(sys.db, chosen, now); }
    case DoRequestCancel(r, commandId, now) => CancelSessions(sys.db, r, commandId, now);
    case _ => SmallStepSessions(sys, a);
  }

  lemma CancelSessions(db: Db, r: string, commandId: string, now: Time)
    ensures var out := RequestCancel(db, r, commandId, now); out.Ok? ==> out.value.sessions == db.sessions
  {
  }

  lemma SmallStepSessions(sys: System, a: Action)
    requires a.DoCreateRunLookup? || a.DoRelease? || a.DoMarkSent? || a.DoMarkAccepted? || a.DoCreateSyncJob?
             || a.DoMarkBatchDone?
    ensures Step(sys, a).db.sessions == sys.db.sessions
  {
  }

  lemma {:induction false} ClaimSessions(db: Db, chosen: seq<string>, now: Time)
    requires forall i :: 0 <= i < |chosen| ==> chosen[i] in db.outbox
    ensures ClaimCommands(db, chosen, now).sessions == db.sessions
    decreases |chosen|
  {
    if chosen != [] { ClaimSessions(ClaimOne(db, chosen[0], now), chosen[1..], now); }
  }

  lemma CreateSessionPlain(db: Db, id: string, project: string, title: string, key: string, hash: string, now: Time)
    ensures var out := CreateSession(db, id, project, title, key, hash, now);
            out.Ok? ==> out.value.0.runs == db.runs && PlainGrowth(db.sessions, out.value.0.sessions)
  {
  }

  lemma PersistPlain(sys: System, d: nat, storeFails: bool, now: Time)
    ensures var next := Persist(sys, d, storeFails, now);
            next.db == sys.db || (Plain(sys.db, next.db) && Stays(sys.db.runs, next.db.runs))
  {
    if d in sys.handlers && !sys.handlers[d].stored {
      var h := sys.handlers[d];
      AppendPlain(sys.db, h.run, h.entry.sequence, h.entry.event, now);
      AppendAgentEventRuns(sys.db, h.run, h.entry.sequence, h.entry.event, now);
    }
  }

  /** No step but CreateRun's own transaction creates a keyed run or a run.created event, and only
      a bootstrap can move a run. */
  lemma StepPlain(sys: System, a: Action)
    requires DbOk(sys.db) && !a.DoCreateRunCommit? && NoRehoming(sys, a)
    ensures var next := Step(sys, a); next.db == sys.db || (Plain(sys.db, next.db) && Stays(sys.db.runs, next.db.runs))
  {
    match a
    case DoReceive(d, m, lookupFails, redisFails, appTakes) =>
      ReceiveDb(sys, d, m, lookupFails, redisFails, appTakes);
    case DoPersist(d, storeFails, now) => PersistPlain(sys, d, storeFails, now);
    case DoBatch(p, storeFails, now) => BatchPlain(sys, p, storeFails, now);
    case DoCreateSession(id, project, title, key, hash, now) =>
      CreateSessionPlain(sys.db, id, project, title, key, hash, now);
    case _ => QuietStepPlain(sys, a);
  }

  lemma QuietStepPlain(sys: System, a: Action)
    requires DbOk(sys.db) && !TouchesEvents(a) && !a.DoCreateSession?
    ensures Plain(sys.db, Step(sys, a).db) && Stays(sys.db.runs, Step(sys, a).db.runs)
  {
    QuietStep(sys, a);
    StepKeepsStore(sys, a);
    SessionsStep(sys, a);
    QuietPlain(sys.db, Step(sys, a).db);
  }

  lemma PlainKeepsCreated(db: Db, next: Db)
    requires CreatedOnce(db) && Plain(db, next) && Stays(db.runs, next.runs)
    ensures CreatedOnce(next)
  {
    forall s, k, r | IsCreation(next.sessions, s, k, r) ensures IsCreation(db.sessions, s, k, r) {
      assert PlainLog(if s in db.sessions then db.sessions[s].log else map[], next.sessions[s].log);
    }
    forall r | Keyed(next.runs, r) ensures exists k :: IsCreation(next.sessions, next.runs[r].sessionId, k, r) {
      assert Keyed(db.runs, r);
      var s := db.runs[r].sessionId;
      var k :| IsCreation(db.sessions, s, k, r);
      assert PlainLog(db.sessions[s].log, next.sessions[s].log);
      assert IsCreation(next.sessions, s, k, r);
    }
  }

  lemma PlainKeepsStarted(db: Db, next: Db)
    requires Started(db) && KeysSteady(db.runs, next.runs) && CommandsKept(db.outbox, next.outbox)
    ensures Started(next)
  {
    forall r | Keyed(next.runs, r) ensures exists c :: HasCommand(next.outbox, c, RunStart, r) {
      assert Keyed(db.runs, r);
      var c :| HasCommand(db.outbox, c, RunStart, r);
      assert HasCommand(next.outbox, c, RunStart, r);
    }
  }

  lemma PlainKeepsReplies(sys: System, next: System)
    requires RepliesOk(sys) && KeysSteady(sys.db.runs, next.db.runs) && Stays(sys.db.runs, next.db.runs)
    requires next.replies == sys.replies
    ensures RepliesOk(next)
  {
    forall i | 0 <= i < |next.replies| ensures ReplyOk(next.db.runs, next.replies[i]) {
      assert ReplyOk(sys.db.runs, sys.replies[i]);
      if next.replies[i].result.Ok? { assert Keyed(sys.db.runs, next.replies[i].result.value); }
    }
  }

  /* ---- CreateRun itself ---- */

  lemma CreateRunCreates(db: Db, session: string, prompt: string, profile: string, key: string, hash: string,
                         runId: string, commandId: string, now: Time)
    ensures var out := CreateRunCommit(db, session, prompt, profile, key, hash, runId, commandId, now);
            out.Ok? && out.value.0 != db ==>
              && var (next, r) := out.value;
              && r == runId && runId !in db.runs && session in db.sessions
              && next.runs == db.runs[runId := FreshRun(session, prompt, profile, key, hash)]
              && next.outbox == db.outbox[commandId := FreshCommand(RunStart, runId, now)] && commandId !in db.outbox
              && LogSessionEvent(db.sessions, session, SessionEvent(RunCreated, runId, Queued), now)
                 == Ok(next.sessions)
  {
  }

  lemma CreateRunKeepsCreated(db: Db, next: Db, session: string, r: string, row: Run, now: Time)
    requires DbOk(db) && CreatedOnce(db) && r !in db.runs && session in db.sessions
    requires row.idem.Some? && row.sessionId == session && next.runs == db.runs[r := row]
    requires LogSessionEvent(db.sessions, session, SessionEvent(RunCreated, r, Queued), now) == Ok(next.sessions)
    ensures CreatedOnce(next)
  {
    var n := db.sessions[session].lastSeq + 1;
    assert IsCreation(next.sessions, session, n, r);
    forall s, k, x | IsCreation(next.sessions, s, k, x)
      ensures IsCreation(db.sessions, s, k, x) || (s == session && k == n && x == r)
    {
    }
    forall x | Keyed(next.runs, x) ensures exists k :: IsCreation(next.sessions, next.runs[x].sessionId, k, x) {
      if x != r {
        assert Keyed(db.runs, x);
        var k :| IsCreation(db.sessions, db.runs[x].sessionId, k, x);
        assert IsCreation(next.sessions, db.runs[x].sessionId, k, x);
      }
    }
  }

  lemma CreateRunKeepsStarted(db: Db, next: Db, r: string, row: Run, c: string, now: Time)
    requires Started(db) && next.runs == db.runs[r := row] && c !in db.outbox
    requires next.outbox == db.outbox[c := FreshCommand(RunStart, r, now)]
    ensures Started(next)
  {
    forall x | Keyed(next.runs, x) ensures exists d :: HasCommand(next.outbox, d, RunStart, x) {
      if x == r { assert HasCommand(next.outbox, c, RunStart, r); }
      else {
        assert Keyed(db.runs, x);
        var d :| HasCommand(db.outbox, d, RunStart, x);
        assert HasCommand(next.outbox, d, RunStart, x);
      }
    }
  }

  /** The answer of either phase names a run that holds the caller's key and hash. */
  lemma CreateRunAnswers(db: Db, session: string, prompt: string, profile: string, key: string, hash: string,
                         runId: string, commandId: string, now: Time)
    ensures var out := CreateRunCommit(db, session, prompt, profile, key, hash, runId, commandId, now);
            out.Ok? ==> ReplyOk(out.value.0.runs, Reply(session, key, hash, Ok(out.value.1)))
  {
  }

  ghost predicate OnceOk(sys: System) { DbOk(sys.db) && CreatedOnce(sys.db) && Started(sys.db) && RepliesOk(sys) }

  lemma CreateRunKeepsReplies(sys: System, session: string, prompt: string, profile: string, key: string, hash: string,
                              runId: string, commandId: string, now: Time)
    requires RepliesOk(sys)
    ensures RepliesOk(CreateRunSlow(sys, session, prompt, profile, key, hash, runId, commandId, now))
  {
    var next := CreateRunSlow(sys, session, prompt, profile, key, hash, runId, commandId, now);
    CreateRunRuns(sys.db, session, prompt, profile, key, hash, runId, commandId, now);
    CreateRunAnswers(sys.db, session, prompt, profile, key, hash, runId, commandId, now);
    forall i | 0 <= i < |next.replies| ensures ReplyOk(next.db.runs, next.replies[i]) {
      if i < |sys.replies| { assert ReplyOk(sys.db.runs, sys.replies[i]); }
    }
  }

  lemma CreateRunKeepsOnce(sys: System, session: string, prompt: string, profile: string, key: string, hash: string,
                           runId: string, commandId: string, now: Time)
    requires OnceOk(sys)
    ensures OnceOk(CreateRunSlow(sys, session, prompt, profile, key, hash, runId, commandId, now))
  {
    CreateRunStepKeeps(sys, session, prompt, profile, key, hash, runId, commandId, now);
    CreateRunKeepsReplies(sys, session, prompt, profile, key, hash, runId, commandId, now);
    var next := CreateRunSlow(sys, session, prompt, profile, key, hash, runId, commandId, now).db;
    if next != sys.db {
      CreateRunCreates(sys.db, session, prompt, profile, key, hash, runId, commandId, now);
      var row := FreshRun(session, prompt, profile, key, hash);
      CreateRunKeepsCreated(sys.db, next, session, runId, row, now);
      CreateRunKeepsStarted(sys.db, next, runId, row, commandId, now);
    }
  }

  lemma LookupKeepsReplies(sys: System, session: string, key: string, hash: string)
    requires RepliesOk(sys)
    ensures RepliesOk(CreateRunFast(sys, session, key, hash))
  {
    var next := CreateRunFast(sys, session, key, hash);
    forall i | 0 <= i < |next.replies| ensures ReplyOk(next.db.runs, next.replies[i]) {
      if i < |sys.replies| { assert ReplyOk(sys.db.runs, sys.replies[i]); }
    }
  }

  lemma RepliesFrame(sys: System, a: Action)
    requires !a.DoCreateRunCommit? && !a.DoCreateRunLookup?
    ensures Step(sys, a).replies == sys.replies
  {
  }

  lemma StepKeepsOnce(sys: System, a: Action)
    requires OnceOk(sys) && NoRehoming(sys, a)
    ensures OnceOk(Step(sys, a))
  {
    StepKeepsStore(sys, a);
    match a
    case DoCreateRunCommit(session, prompt, profile, key, hash, runId, commandId, now) =>
      CreateRunKeepsOnce(sys, session, prompt, profile, key, hash, runId, commandId, now);
    case DoCreateRunLookup(session, key, hash) => LookupKeepsReplies(sys, session, key, hash);
    case _ => OtherKeepsOnce(sys, a);
  }

  lemma OtherKeepsOnce(sys: System, a: Action)
    requires OnceOk(sys) && NoRehoming(sys, a) && !a.DoCreateRunCommit? && !a.DoCreateRunLookup?
    ensures OnceOk(Step(sys, a))
  {
    var next := Step(sys, a);
    StepKeepsStore(sys, a);
    StepPlain(sys, a);
    RepliesFrame(sys, a);
    if next.db != sys.db {
      PlainKeepsCreated(sys.db, next.db);
      PlainKeepsStarted(sys.db, next.db);
      PlainKeepsReplies(sys, next);
    }
  }

  /* ---- whole runs ---- */

  ghost predicate Settled(sys: System, actions: seq<Action>)
    decreases |actions|
  {
    actions == [] || (NoRehoming(sys, actions[0]) && Settled(Step(sys, actions[0]), actions[1..]))
  }

  lemma {:induction false} ReachableOnce(sys: System, actions: seq<Action>)
    requires OnceOk(sys) && Settled(sys, actions)
    ensures OnceOk(Execute(sys, actions))
    decreases |actions|
  {
    if actions != [] {
      StepKeepsOnce(sys, actions[0]);
      ReachableOnce(Step(sys, actions[0]), actions[1..]);
    }
  }

  /** Two successful callers of the same session and key were given the same run and sent the same
      request; every later caller is answered with that run, or with a conflict if its request differs. */
  lemma CreateRunIdempotent(actions: seq<Action>, i: nat, j: nat, hash: string)
    requires Settled(INIT, actions) && i < |Execute(INIT, actions).replies| && j < |Execute(INIT, actions).replies|
    requires var rs := Execute(INIT, actions).replies;
             rs[i].session == rs[j].session && rs[i].key == rs[j].key && rs[i].result.Ok?
    ensures var sys := Execute(INIT, actions); var p, q := sys.replies[i], sys.replies[j];
            && (q.result.Ok? ==> p.result == q.result && p.hash == q.hash)
            && CreateRunLookup(sys.db, p.session, p.key, hash)
               == Some(if hash == p.hash then p.result else Err(IdempotencyConflict))
  {
    ReachableOnce(INIT, actions);
    var sys := Execute(INIT, actions);
    assert ReplyOk(sys.db.runs, sys.replies[i]) && ReplyOk(sys.db.runs, sys.replies[j]);
  }

  /** Every created run has exactly one run.start command and exactly one run.created session
      event, which is in its own session. */
  lemma CreatedExactlyOnce(actions: seq<Action>, r: string) returns (c: string, k: int)
    requires Settled(INIT, actions) && Keyed(Execute(INIT, actions).db.runs, r)
    ensures var outbox := Execute(INIT, actions).db.outbox;
            HasCommand(outbox, c, RunStart, r) && forall x :: HasCommand(outbox, x, RunStart, r) ==> x == c
    ensures var db := Execute(INIT, actions).db; var home := db.runs[r].sessionId;
            IsCreation(db.sessions, home, k, r)
              && forall s, x :: IsCreation(db.sessions, s, x, r) ==> s == home && x == k
  {
    ReachableOnce(INIT, actions);
    var db := Execute(INIT, actions).db;
    c :| HasCommand(db.outbox, c, RunStart, r);
    k :| IsCreation(db.sessions, db.runs[r].sessionId, k, r);
  }
}
