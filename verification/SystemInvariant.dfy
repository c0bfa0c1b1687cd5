/** What every step of the relay keeps, and what therefore holds in every reachable state:
    gap-free session logs, consistent run rows, sound acknowledgements. */
module SystemInvariant {
  import opened RuntimeTypes
  import opened RuntimeStore
  import opened Bootstrap
  import opened StoreInvariant
  import opened RelaySystem

  /* ---- the store ---- */

  /** One lemma per kind of step; `StepKeepsStore` only dispatches. */
  lemma LiveStepKeeps(sys: System, a: Action)
    requires DbOk(sys.db)
    requires a.DoUpsertProjects? || a.DoCreateSession? || a.DoRequestCancel? || a.DoCreateSyncJob?
    ensures Keeps(sys.db, Step(sys, a).db)
  {
    match a
    case DoUpsertProjects(ps, now) => UpsertProjectsKeeps(sys.db, ps, now);
    case DoCreateSession(id, project, title, key, hash, now) =>
      CreateSessionKeeps(sys.db, id, project, title, key, hash, now);
    case DoRequestCancel(run, commandId, now) => RequestCancelKeeps(sys.db, run, commandId, now);
    case DoCreateSyncJob(id, commandId, key, now) => CreateSyncJobKeeps(sys.db, id, commandId, key, now);
  }

  lemma CreateRunStepKeeps(sys: System, session: string, prompt: string, profile: string, key: string, hash: string,
                           runId: string, commandId: string, now: Time)
    requires DbOk(sys.db)
    ensures Keeps(sys.db, CreateRunSlow(sys, session, prompt, profile, key, hash, runId, commandId, now).db)
    ensures CreateRunFast(sys, session, key, hash).db == sys.db
  {
    CreateRunKeeps(sys.db, session, prompt, profile, key, hash, runId, commandId, now);
  }

  lemma ClaimStepKeeps(sys: System, chosen: seq<string>, limit: int, now: Time)
    requires DbOk(sys.db)
    ensures Keeps(sys.db, Claim(sys, chosen, limit, now).db)
  {
    if Claimable(sys.db, chosen, limit, now) { ClaimCommandsKeeps(sys.db, chosen, now); }
  }

  lemma MarkSentKeeps(sys: System, c: string)
    requires DbOk(sys.db)
    ensures Keeps(sys.db, MarkSent(sys, c).db)
  {
    MarkAndReleaseKeep(sys.db, c, 0);
  }

  lemma MarkBatchDoneKeeps(sys: System, p: BatchPayload)
    requires DbOk(sys.db)
    ensures Keeps(sys.db, MarkBatchDone(sys, p).db)
  {
    MarkAndReleaseKeep(sys.db, p.commandId, 0);
  }

  lemma MarkAcceptedKeeps(sys: System, d: nat)
    requires DbOk(sys.db)
    ensures Keeps(sys.db, MarkAccepted(sys, d).db)
  {
    if d in sys.handlers { MarkAndReleaseKeep(sys.db, CommandOf(sys.handlers[d].entry.event.payload), 0); }
  }

  lemma PersistStepKeeps(sys: System, d: nat, storeFails: bool, now: Time)
    requires DbOk(sys.db)
    ensures Keeps(sys.db, Persist(sys, d, storeFails, now).db)
  {
    if d in sys.handlers {
      var h := sys.handlers[d];
      AppendAgentEventKeeps(sys.db, h.run, h.entry.sequence, h.entry.event, now);
    }
  }

  lemma BatchStepKeeps(sys: System, p: BatchPayload, storeFails: bool, now: Time)
    requires DbOk(sys.db)
    ensures Keeps(sys.db, ReceiveBatch(sys, p, storeFails, now).db)
  {
    ApplyBatchKeeps(sys.db, p, now);
  }

  lemma ReceiveDb(sys: System, d: nat, m: Message, lookupFails: bool, redisFails: bool, appTakes: bool)
    ensures Receive(sys, d, m, lookupFails, redisFails, appTakes).db == sys.db
  {
  }

  predicate FromAgent(a: Action) {
    a.DoReceive? || a.DoPersist? || a.DoMarkAccepted? || a.DoBatch? || a.DoMarkBatchDone?
  }

  lemma AgentStepKeepsStore(sys: System, a: Action)
    requires DbOk(sys.db) && FromAgent(a)
    ensures Keeps(sys.db, Step(sys, a).db)
  {
    match a
    case DoReceive(d, m, lookupFails, redisFails, appTakes) => ReceiveDb(sys, d, m, lookupFails, redisFails, appTakes);
    case DoPersist(d, storeFails, now) => PersistStepKeeps(sys, d, storeFails, now);
    case DoMarkAccepted(d) => MarkAcceptedKeeps(sys, d);
    case DoBatch(p, storeFails, now) => BatchStepKeeps(sys, p, storeFails, now);
    case DoMarkBatchDone(p) => MarkBatchDoneKeeps(sys, p);
  }

  lemma StepKeepsStore(sys: System, a: Action)
    requires DbOk(sys.db)
    ensures Keeps(sys.db, Step(sys, a).db)
  {
    match a
    case DoCreateRunLookup(session, key, hash) => CreateRunStepKeeps(sys, session, "", "", key, hash, "", "", 0);
    case DoCreateRunCommit(session, prompt, profile, key, hash, runId, commandId, now) =>
      CreateRunStepKeeps(sys, session, prompt, profile, key, hash, runId, commandId, now);
    case DoClaim(chosen, limit, now) => ClaimStepKeeps(sys, chosen, limit, now);
    case DoRelease(command, now) => MarkAndReleaseKeep(sys.db, command, now);
    case DoMarkSent(command) => MarkSentKeeps(sys, command);
    case _ => if FromAgent(a) { AgentStepKeepsStore(sys, a); } else { LiveStepKeeps(sys, a); }
  }

  /** In every reachable state, bootstrap and store failures included, run rows agree with their
      events and session logs are gap-free; and no continuation of a run ever loses a row or
      rewrites a session log. */
  lemma {:induction false} ReachableStore(sys: System, actions: seq<Action>)
    requires DbOk(sys.db)
    ensures Keeps(sys.db, Execute(sys, actions).db)
    decreases |actions|
  {
    if actions != [] {
      StepKeepsStore(sys, actions[0]);
      ReachableStore(Step(sys, actions[0]), actions[1..]);
      ExtendsTrans(sys.db, Step(sys, actions[0]).db, Execute(sys, actions).db);
    }
  }

  /* ---- streams, handlers and the ownership cache ---- */

  ghost predicate StreamAscending(stream: seq<Entry>) {
    forall i, j :: 0 <= i < j < |stream| ==> stream[i].sequence < stream[j].sequence
  }

  ghost predicate InStream(stream: seq<Entry>, k: int, kind: EventKind) {
    exists i :: 0 <= i < |stream| && stream[i].sequence == k && stream[i].event.kind == kind
  }

  /** Every persisted event went through the run's stream first. */
  ghost predicate Mirrors(run: Run, stream: seq<Entry>) {
    forall k :: k in run.events ==> InStream(stream, k, run.events[k].kind)
  }

  ghost predicate RunFlows(sys: System, r: string) {
    r in sys.db.runs && (Mirrors(sys.db.runs[r], StreamOf(sys, r)) || HasBearing(sys.db.runs[r]))
  }

  ghost predicate HandlerFlows(sys: System, h: Handler) {
    && h.entry in StreamOf(sys, h.run)
    && (h.stored ==> h.run in sys.db.runs &&
                     (h.entry.sequence in sys.db.runs[h.run].events || HasBearing(sys.db.runs[h.run])))
  }

  ghost predicate FlowOk(sys: System) {
    && sys.cache <= sys.db.runs.Keys
    && sys.handlers.Keys <= sys.deliveries
    && sys.stored <= sys.deliveries
    && (forall r :: r in sys.streams ==> StreamAscending(sys.streams[r]))
    && (forall d :: d in sys.handlers ==> HandlerFlows(sys, sys.handlers[d]))
    && (forall r :: r in sys.db.runs ==> RunFlows(sys, r))
  }

  /** Run tables that differ in nothing the event flow depends on. */
  ghost predicate Quiet(before: map<string, Run>, after: map<string, Run>) {
    && after.Keys == before.Keys
    && forall r :: r in before ==> after[r].events == before[r].events && after[r].sessionId == before[r].sessionId
                                   && (Waiting(after[r].status) <==> Waiting(before[r].status))
  }

  lemma {:induction false} ClaimCommandsQuiet(db: Db, chosen: seq<string>, now: Time)
    requires forall i :: 0 <= i < |chosen| ==> chosen[i] in db.outbox
    requires forall r :: r in db.runs ==> db.runs[r].status != WaitingAgent
    ensures Quiet(db.runs, ClaimCommands(db, chosen, now).runs)
    decreases |chosen|
  {
    if chosen != [] { ClaimCommandsQuiet(ClaimOne(db, chosen[0], now), chosen[1..], now); }
  }

  lemma {:induction false} UpsertProjectsQuiet(db: Db, ps: seq<BatchProject>, now: Time)
    ensures UpsertProjects(db, ps, now) == db.(projects := UpsertProjects(db, ps, now).projects)
    decreases |ps|
  {
    if ps != [] {
      if IsBlank(ps[0].id) || IsBlank(ps[0].name) { UpsertProjectsQuiet(db, ps[1..], now); }
      else {
        var row := Project(ps[0].name, if ps[0].id in db.projects then db.projects[ps[0].id].lastSeen else None, None,
                           now);
        UpsertProjectsQuiet(db.(projects := db.projects[ps[0].id := row]), ps[1..], now);
      }
    }
  }

  lemma NeverWaitingAgent(runs: map<string, Run>, r: string)
    requires RunsOk(runs) && r in runs
    ensures runs[r].status != WaitingAgent
  {
    assert RunOk(runs[r]);
  }

  lemma {:induction false} ImportRunsBears(db: Db, rs: seq<BatchRun>, ids: map<string, string>, now: Time)
    requires forall i :: 0 <= i < |rs| ==> WellNumbered(rs[i])
    ensures var out := ImportRuns(db, rs, ids, now);
            out.Ok? ==> RunsImported(db.runs, out.value.0.runs)
    decreases |rs|
  {
    if rs != [] && ImportRun(db, rs[0], ids, now).Ok? {
      var mid := ImportRun(db, rs[0], ids, now).value.0;
      if ImportedStatus(rs[0].status).Some? {
        ImportIfBears(NeedsImport(db.runs, rs[0], SessionFor(ids, rs[0].sessionId), ImportedStatus(rs[0].status).value),
                      db, rs[0], SessionFor(ids, rs[0].sessionId), ImportedStatus(rs[0].status).value, now);
      }
      ImportRunsBears(mid, rs[1..], ids, now);
    }
  }

  /** After an import every run row is untouched or closed by a terminal event. */
  ghost predicate RunsImported(before: map<string, Run>, after: map<string, Run>) {
    && before.Keys <= after.Keys
    && forall r :: r in after ==>
         (r in before && after[r] == before[r])
             || (HasBearing(after[r]) && !Waiting(after[r].status) && Closed(after[r]))
  }

  /** The last persisted event is terminal, and the row says so. */
  ghost predicate Closed(run: Run) {
    && run.persisted >= 1 && run.persisted in run.events && Ends(run.events[run.persisted].kind)
    && StatusForEvent(run.events[run.persisted].kind) == Some(run.status) && run.final == Some(run.persisted)
  }

  lemma ImportedRowClosed(prior: Option<Run>, r: BatchRun, session: string, status: Status)
    requires WellNumbered(r) && ImportedStatus(r.status) == Some(status) && EventRows(r.events).Ok?
    ensures Closed(ImportedRow(prior, r, session, status, EventRows(r.events).value))
  {
    EventRowsContents(r.events);
    assert r.events[|r.events| - 1].sequence == |r.events|;
  }

  lemma ImportIfBears(changed: bool, db: Db, r: BatchRun, session: string, status: Status, now: Time)
    requires WellNumbered(r) && ImportedStatus(r.status) == Some(status)
    ensures var out := ImportIf(changed, db, r, session, status, now); out.Ok? ==> RunsImported(db.runs, out.value.runs)
  {
    var out := ImportIf(changed, db, r, session, status, now);
    if out.Ok? && changed {
      var target := TargetId(db.runs, r);
      ImportedRowOk(if target in db.runs then Some(db.runs[target]) else None, r, session, status);
      ImportedRowClosed(if target in db.runs then Some(db.runs[target]) else None, r, session, status);
    }
  }

  lemma CommitBatchImports(db: Db, b: Batch, now: Time)
    requires DbOk(db) && b.syncId in db.jobs && forall i :: 0 <= i < |b.runs| ==> WellNumbered(b.runs[i])
    ensures var out := CommitBatch(db, b, now); out.Ok? ==> RunsImported(db.runs, out.value.runs)
  {
    if CommitBatch(db, b, now).Ok? {
      var named := db.(projects := ImportProjects(db.projects, b.projects, b.snapshotId, now));
      ImportProjectsGrows(db.projects, b.projects, b.snapshotId, now);
      ImportSessionsKeeps(named, b.sessions, b.snapshotId, map[], now);
      var placed := ImportSessions(named, b.sessions, b.snapshotId, map[], now).value;
      ImportRunsBears(placed.0, b.runs, placed.1, now);
    }
  }

  lemma ApplyBatchImports(db: Db, p: BatchPayload, now: Time)
    requires DbOk(db)
    ensures var out := ApplyBatch(db, BatchOf(p), now); out.Ok? ==> RunsImported(db.runs, out.value.runs)
  {
    BatchWellNumbered(p);
    ApplyBatchCases(db, BatchOf(p), now);
    if BatchOf(p).syncId in db.jobs { CommitBatchImports(db, BatchOf(p), now); }
  }

  predicate TouchesEvents(a: Action) { a.DoReceive? || a.DoPersist? || a.DoBatch? || a.DoCreateRunCommit? }

  lemma QuietRefl(runs: map<string, Run>)
    ensures Quiet(runs, runs)
  {
  }

  lemma CancelRowQuiet(runs: map<string, Run>, r: string, now: Time)
    requires r in runs
    ensures Quiet(runs, runs[r := CancelRow(runs[r], now)])
  {
  }

  lemma RequestCancelRuns(db: Db, r: string, commandId: string, now: Time)
    ensures var out := RequestCancel(db, r, commandId, now);
            out.Ok? ==>
              || out.value.runs == db.runs
              || (r in db.runs && out.value.runs == db.runs[r := CancelRow(db.runs[r], now)])
  {
  }

  /** The steps that leave every run row exactly as it was. */
  lemma SameRunsStep(sys: System, a: Action)
    requires !TouchesEvents(a) && !a.DoClaim? && !a.DoRequestCancel?
    ensures Step(sys, a).db.runs == sys.db.runs
  {
    match a
    case DoUpsertProjects(ps, now) => UpsertProjectsQuiet(sys.db, ps, now);
    case _ =>
  }

  lemma QuietStep(sys: System, a: Action)
    requires DbOk(sys.db) && !TouchesEvents(a)
    ensures Quiet(sys.db.runs, Step(sys, a).db.runs)
  {
    match a
    case DoRequestCancel(r, commandId, now) =>
      RequestCancelRuns(sys.db, r, commandId, now);
      if r in sys.db.runs { CancelRowQuiet(sys.db.runs, r, now); }
      QuietRefl(sys.db.runs);
    case DoClaim(chosen, limit, now) =>
      forall r | r in sys.db.runs ensures sys.db.runs[r].status != WaitingAgent { NeverWaitingAgent(sys.db.runs, r); }
      if Claimable(sys.db, chosen, limit, now) {
        ClaimCommandsQuiet(sys.db, chosen, now);
      } else {
        QuietRefl(sys.db.runs);
      }
    case _ =>
      SameRunsStep(sys, a);
      QuietRefl(sys.db.runs);
  }

  /** What a quiet step leaves alone: everything but the store, the clock, the claim and reply
      histories, and the handler it finishes. */
  ghost predicate Framed(sys: System, next: System) {
    next == sys.(db := next.db, clock := next.clock, claims := next.claims, replies := next.replies,
                 handlers := next.handlers)
  }

  lemma QuietFrame(sys: System, a: Action)
    requires !TouchesEvents(a)
    ensures Framed(sys, Step(sys, a))
    ensures Step(sys, a).handlers == if a.DoMarkAccepted? then MarkAccepted(sys, a.delivery).handlers else sys.handlers
  {
    match a
    case DoClaim(chosen, limit, now) =>
    case DoMarkAccepted(d) =>
    case DoMarkSent(c) =>
    case DoMarkBatchDone(p) =>
    case DoCreateRunLookup(session, key, hash) =>
    case DoCreateSession(id, project, title, key, hash, now) =>
    case _ =>
  }

  lemma QuietRunFlows(sys: System, next: System, r: string)
    requires Quiet(sys.db.runs, next.db.runs) && next.streams == sys.streams && RunFlows(sys, r)
    ensures RunFlows(next, r)
  {
    var run, after := sys.db.runs[r], next.db.runs[r];
    if HasBearing(run) {
      var k :| k in run.events && Bears(run.events[k].kind);
      assert k in after.events && Bears(after.events[k].kind);
    } else {
      assert Mirrors(after, StreamOf(next, r));
    }
  }

  lemma QuietHandlerFlows(sys: System, next: System, h: Handler)
    requires Quiet(sys.db.runs, next.db.runs) && next.streams == sys.streams && HandlerFlows(sys, h)
    ensures HandlerFlows(next, h)
  {
    if h.stored && HasBearing(sys.db.runs[h.run]) {
      var k :| k in sys.db.runs[h.run].events && Bears(sys.db.runs[h.run].events[k].kind);
      assert k in next.db.runs[h.run].events && Bears(next.db.runs[h.run].events[k].kind);
    }
  }

  lemma QuietKeepsFlow(sys: System, next: System)
    requires FlowOk(sys) && Quiet(sys.db.runs, next.db.runs) && Framed(sys, next)
    requires next.handlers.Keys <= sys.handlers.Keys
    requires forall d :: d in next.handlers ==> next.handlers[d] == sys.handlers[d]
    ensures FlowOk(next)
  {
    forall r | r in next.db.runs ensures RunFlows(next, r) { QuietRunFlows(sys, next, r); }
    forall d | d in next.handlers ensures HandlerFlows(next, next.handlers[d]) {
      QuietHandlerFlows(sys, next, sys.handlers[d]);
    }
  }

  lemma QuietFlow(sys: System, a: Action)
    requires DbOk(sys.db) && FlowOk(sys) && !TouchesEvents(a)
    ensures FlowOk(Step(sys, a))
  {
    QuietStep(sys, a);
    QuietFrame(sys, a);
    QuietHandlers(sys, a);
    QuietKeepsFlow(sys, Step(sys, a));
  }

  lemma QuietHandlers(sys: System, a: Action)
    requires !TouchesEvents(a)
    ensures Step(sys, a).handlers.Keys <= sys.handlers.Keys
    ensures forall d :: d in Step(sys, a).handlers ==> Step(sys, a).handlers[d] == sys.handlers[d]
  {
    QuietFrame(sys, a);
  }

  lemma AppendEntryOk(stream: seq<Entry>, n: int, e: RunEvent)
    requires StreamAscending(stream) && AppendEntry(stream, n, e).Ok?
    ensures var next := AppendEntry(stream, n, e).value;
            StreamAscending(next) && Entry(n, e) in next && |stream| <= |next| && next[..|stream|] == stream
  {
    var next := AppendEntry(stream, n, e).value;
    if next != stream { assert next[|stream|] == Entry(n, e); }
  }

  lemma StreamGrows(sys: System, next: System, r: string)
    requires next.db == sys.db && RunFlows(sys, r)
    requires var s, t := StreamOf(sys, r), StreamOf(next, r); |s| <= |t| && t[..|s|] == s
    ensures RunFlows(next, r)
  {
    var s, t := StreamOf(sys, r), StreamOf(next, r);
    var run := sys.db.runs[r];
    if Mirrors(run, s) {
      forall k | k in run.events ensures InStream(t, k, run.events[k].kind) {
        var i :| 0 <= i < |s| && s[i].sequence == k && s[i].event.kind == run.events[k].kind;
        assert t[i] == t[..|s|][i];
      }
    }
  }

  /** `next` is `sys` with the event of `h` in its stream and `h` registered as delivery `d`. */
  ghost predicate AfterAppend(sys: System, next: System, d: nat, h: Handler) {
    && next.db == sys.db && !h.stored && d !in sys.deliveries
    && next.deliveries == sys.deliveries + {d} && next.stored == sys.stored && next.cache <= sys.db.runs.Keys
    && AppendEntry(StreamOf(sys, h.run), h.entry.sequence, h.entry.event) == Ok(StreamOf(next, h.run))
    && next.streams == sys.streams[h.run := StreamOf(next, h.run)]
    && next.handlers == sys.handlers[d := h]
  }

  /** Every stream keeps what it had. */
  lemma AppendedStreams(sys: System, next: System, d: nat, h: Handler, r: string)
    requires (forall x :: x in sys.streams ==> StreamAscending(sys.streams[x])) && AfterAppend(sys, next, d, h)
    ensures var s, t := StreamOf(sys, r), StreamOf(next, r);
            |s| <= |t| && t[..|s|] == s && StreamAscending(t) && (r == h.run ==> h.entry in t)
  {
    assert StreamAscending(StreamOf(sys, h.run));
    AppendEntryOk(StreamOf(sys, h.run), h.entry.sequence, h.entry.event);
  }

  lemma HandlerStillFlows(sys: System, next: System, g: Handler)
    requires HandlerFlows(sys, g) && next.db == sys.db
    requires var s, t := StreamOf(sys, g.run), StreamOf(next, g.run); |s| <= |t| && t[..|s|] == s
    ensures HandlerFlows(next, g)
  {
    var s, t := StreamOf(sys, g.run), StreamOf(next, g.run);
    var i :| 0 <= i < |s| && s[i] == g.entry;
    assert t[i] == t[..|s|][i];
  }

  lemma AppendKeepsFlow(sys: System, next: System, d: nat, h: Handler)
    requires FlowOk(sys) && AfterAppend(sys, next, d, h)
    ensures FlowOk(next)
  {
    forall r | r in next.db.runs ensures RunFlows(next, r) {
      AppendedStreams(sys, next, d, h, r);
      StreamGrows(sys, next, r);
    }
    forall x | x in next.handlers ensures HandlerFlows(next, next.handlers[x]) {
      AppendedStreams(sys, next, d, h, next.handlers[x].run);
      if x != d { HandlerStillFlows(sys, next, sys.handlers[x]); }
    }
    forall r | r in next.streams ensures StreamAscending(next.streams[r]) { AppendedStreams(sys, next, d, h, r); }
  }

  /** A message left streams and handlers alone, or passed the gate. */
  lemma ReceiveCases(sys: System, d: nat, m: Message, lookupFails: bool, redisFails: bool, appTakes: bool)
    requires sys.handlers.Keys <= sys.deliveries
    ensures var next := Receive(sys, d, m, lookupFails, redisFails, appTakes);
            && next.db == sys.db && next.stored == sys.stored
            && (next.deliveries == sys.deliveries || (d !in sys.deliveries && next.deliveries == sys.deliveries + {d}))
            && (next.cache == sys.cache || (m.run in sys.db.runs && next.cache == sys.cache + {m.run}))
            && (if next.handlers == sys.handlers then next.streams == sys.streams
                else
                  && d !in sys.deliveries && next.deliveries == sys.deliveries + {d}
                  && AppendEntry(StreamOf(sys, m.run), m.sequence, EventOf(m)).Ok?
                  && next.streams
                     == sys.streams[m.run := AppendEntry(StreamOf(sys, m.run), m.sequence, EventOf(m)).value]
                  && next.handlers == sys.handlers[d := Handler(m.run, Entry(m.sequence, EventOf(m)), false)])
  {
    assert d !in sys.deliveries ==> d !in sys.handlers;
    assert d in sys.handlers[d := Handler(m.run, Entry(m.sequence, EventOf(m)), false)];
  }

  lemma ReceiveFlow(sys: System, d: nat, m: Message, lookupFails: bool, redisFails: bool, appTakes: bool)
    requires FlowOk(sys)
    ensures FlowOk(Receive(sys, d, m, lookupFails, redisFails, appTakes))
  {
    var next := Receive(sys, d, m, lookupFails, redisFails, appTakes);
    ReceiveCases(sys, d, m, lookupFails, redisFails, appTakes);
    if next.handlers != sys.handlers {
      AppendKeepsFlow(sys, next, d, next.handlers[d]);
    } else {
      SameFlow(sys, next);
    }
  }

  lemma SameFlow(sys: System, next: System)
    requires FlowOk(sys) && next.db == sys.db && next.streams == sys.streams && next.handlers == sys.handlers
    requires next.stored == sys.stored && sys.deliveries <= next.deliveries && next.cache <= sys.db.runs.Keys
    ensures FlowOk(next)
  {
    forall r | r in next.db.runs ensures RunFlows(next, r) { assert RunFlows(sys, r); }
    forall x | x in next.handlers ensures HandlerFlows(next, next.handlers[x]) {
      assert HandlerFlows(sys, sys.handlers[x]);
    }
  }

  /** A run whose event table only grew, by an event its stream holds, still flows. */
  lemma GrownRunFlows(sys: System, next: System, r: string, n: int, kind: EventKind)
    requires RunFlows(sys, r) && next.streams == sys.streams && r in next.db.runs
    requires forall k :: k in sys.db.runs[r].events
               ==> k in next.db.runs[r].events && next.db.runs[r].events[k] == sys.db.runs[r].events[k]
    requires forall k :: k in next.db.runs[r].events
               ==> k in sys.db.runs[r].events || (k == n && next.db.runs[r].events[k].kind == kind)
    requires InStream(StreamOf(sys, r), n, kind)
    ensures RunFlows(next, r)
  {
    var run, after := sys.db.runs[r], next.db.runs[r];
    if HasBearing(run) {
      var k :| k in run.events && Bears(run.events[k].kind);
      assert k in after.events && Bears(after.events[k].kind);
    } else {
      forall k | k in after.events ensures InStream(StreamOf(next, r), k, after.events[k].kind) {
        if k in run.events { assert after.events[k] == run.events[k]; }
      }
    }
  }

  /** The run table after AppendAgentEvent: one row appended to, or nothing at all. */
  lemma AppendAgentEventRuns(db: Db, r: string, n: int, e: RunEvent, now: Time)
    ensures var out := AppendAgentEvent(db, r, n, e, now);
            out.Ok? ==> && r in db.runs && n >= 1
                        && OnlyLogs(db, out.value)
                        && (n in db.runs[r].events ==> out.value == db)
                        && (n !in db.runs[r].events
                            ==> out.value.runs == db.runs[r := AppendedRow(db.runs[r], n, e, now)])
  {
  }

  /** `next` is `sys` after handler `h` went to PostgreSQL, successfully or not. */
  ghost predicate AfterPersist(sys: System, next: System, h: Handler, now: Time) {
    && next.streams == sys.streams
    && (next.db == sys.db ||
        (h.run in sys.db.runs && h.entry.sequence !in sys.db.runs[h.run].events &&
         next.db.runs == sys.db.runs[h.run := AppendedRow(sys.db.runs[h.run], h.entry.sequence, h.entry.event, now)]))
  }

  lemma PersistedRunsFlow(sys: System, next: System, h: Handler, now: Time)
    requires FlowOk(sys) && AfterPersist(sys, next, h, now)
    requires InStream(StreamOf(sys, h.run), h.entry.sequence, h.entry.event.kind)
    ensures forall r :: r in next.db.runs ==> RunFlows(next, r)
  {
    forall r | r in next.db.runs ensures RunFlows(next, r) {
      assert RunFlows(sys, r);
      if next.db != sys.db && r == h.run { GrownRunFlows(sys, next, r, h.entry.sequence, h.entry.event.kind); }
    }
  }

  lemma PersistedHandlerFlows(sys: System, next: System, h: Handler, x: nat, now: Time)
    requires FlowOk(sys) && AfterPersist(sys, next, h, now) && x in next.handlers && x in sys.handlers
    requires next.handlers[x] == sys.handlers[x] ||
             (sys.handlers[x] == h && next.handlers[x] == h.(stored := true) && h.run in next.db.runs
              && h.entry.sequence in next.db.runs[h.run].events)
    ensures HandlerFlows(next, next.handlers[x])
  {
    var g := sys.handlers[x];
    assert HandlerFlows(sys, g);
    if g.stored && HasBearing(sys.db.runs[g.run]) {
      var k :| k in sys.db.runs[g.run].events && Bears(sys.db.runs[g.run].events[k].kind);
      assert k in next.db.runs[g.run].events && next.db.runs[g.run].events[k] == sys.db.runs[g.run].events[k];
    }
  }

  lemma PersistCases(sys: System, d: nat, storeFails: bool, now: Time)
    requires d in sys.handlers && !sys.handlers[d].stored
    ensures var next, h := Persist(sys, d, storeFails, now), sys.handlers[d];
            && AfterPersist(sys, next, h, now)
            && next.cache == sys.cache && next.deliveries == sys.deliveries && next.stored <= sys.stored + {d}
            && (next.handlers == sys.handlers - {d} ||
                (next.handlers == sys.handlers[d := h.(stored := true)] && h.run in next.db.runs
                 && h.entry.sequence in next.db.runs[h.run].events))
  {
    var h := sys.handlers[d];
    AppendAgentEventRuns(sys.db, h.run, h.entry.sequence, h.entry.event, now);
  }

  lemma PersistKeepsFlow(sys: System, next: System, d: nat, h: Handler, now: Time)
    requires FlowOk(sys) && AfterPersist(sys, next, h, now) && d in sys.handlers && sys.handlers[d] == h
    requires next.cache == sys.cache && next.deliveries == sys.deliveries && next.stored <= sys.stored + {d}
    requires next.handlers == sys.handlers - {d} ||
             (next.handlers == sys.handlers[d := h.(stored := true)] && h.run in next.db.runs
              && h.entry.sequence in next.db.runs[h.run].events)
    ensures FlowOk(next)
  {
    var stream := StreamOf(sys, h.run);
    assert HandlerFlows(sys, h);
    var i :| 0 <= i < |stream| && stream[i] == h.entry;
    PersistedRunsFlow(sys, next, h, now);
    forall x | x in next.handlers ensures HandlerFlows(next, next.handlers[x]) {
      PersistedHandlerFlows(sys, next, h, x, now);
    }
  }

  lemma PersistFlow(sys: System, d: nat, storeFails: bool, now: Time)
    requires FlowOk(sys)
    ensures FlowOk(Persist(sys, d, storeFails, now))
  {
    if d in sys.handlers && !sys.handlers[d].stored {
      PersistCases(sys, d, storeFails, now);
      PersistKeepsFlow(sys, Persist(sys, d, storeFails, now), d, sys.handlers[d], now);
    }
  }

  lemma BatchFlow(sys: System, p: BatchPayload, storeFails: bool, now: Time)
    requires DbOk(sys.db) && FlowOk(sys)
    ensures FlowOk(ReceiveBatch(sys, p, storeFails, now))
  {
    var next := ReceiveBatch(sys, p, storeFails, now);
    ApplyBatchImports(sys.db, p, now);
    if next != sys { ImportedFlow(sys, next); }
  }

  /** Imported runs change nothing about the messages on their way. */
  lemma ImportedFlow(sys: System, next: System)
    requires FlowOk(sys) && RunsImported(sys.db.runs, next.db.runs)
    requires next.streams == sys.streams && next.handlers == sys.handlers && next.cache == sys.cache
    requires next.deliveries == sys.deliveries && next.stored == sys.stored
    ensures FlowOk(next)
  {
    forall r | r in next.db.runs ensures RunFlows(next, r) {
      if r in sys.db.runs { assert RunFlows(sys, r); }
    }
    forall x | x in next.handlers ensures HandlerFlows(next, next.handlers[x]) {
      assert HandlerFlows(sys, sys.handlers[x]);
    }
  }

  lemma CreateRunRuns(db: Db, session: string, prompt: string, profile: string, key: string, hash: string,
                      runId: string, commandId: string, now: Time)
    ensures var out := CreateRunCommit(db, session, prompt, profile, key, hash, runId, commandId, now);
            out.Ok? ==> out.value.0 == db ||
                        (runId !in db.runs
                         && out.value.0.runs == db.runs[runId := FreshRun(session, prompt, profile, key, hash)])
  {
  }

  lemma CreateRunFlow(sys: System, session: string, prompt: string, profile: string, key: string, hash: string,
                      runId: string, commandId: string, now: Time)
    requires FlowOk(sys)
    ensures FlowOk(CreateRunSlow(sys, session, prompt, profile, key, hash, runId, commandId, now))
  {
    var next := CreateRunSlow(sys, session, prompt, profile, key, hash, runId, commandId, now);
    CreateRunRuns(sys.db, session, prompt, profile, key, hash, runId, commandId, now);
    forall r | r in next.db.runs ensures RunFlows(next, r) {
      if r in sys.db.runs { assert RunFlows(sys, r); } else { assert Mirrors(next.db.runs[r], StreamOf(next, r)); }
    }
    forall x | x in next.handlers ensures HandlerFlows(next, next.handlers[x]) {
      assert HandlerFlows(sys, sys.handlers[x]);
    }
  }

  lemma StepKeepsFlow(sys: System, a: Action)
    requires DbOk(sys.db) && FlowOk(sys)
    ensures FlowOk(Step(sys, a))
  {
    match a
    case DoReceive(d, m, lookupFails, redisFails, appTakes) =>
      ReceiveFlow(sys, d, m, lookupFails, redisFails, appTakes);
    case DoPersist(d, storeFails, now) => PersistFlow(sys, d, storeFails, now);
    case DoBatch(p, storeFails, now) => BatchFlow(sys, p, storeFails, now);
    case DoCreateRunCommit(session, prompt, profile, key, hash, runId, commandId, now) =>
      CreateRunFlow(sys, session, prompt, profile, key, hash, runId, commandId, now);
    case _ => QuietFlow(sys, a);
  }
}
