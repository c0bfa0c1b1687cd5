/** Histories of the server, from its first step on, in which a promise fails. */
module Histories {
  import opened RuntimeTypes
  import opened RuntimeStore
  import opened StoreInvariant
  import opened Bootstrap
  import opened TurnImport
  import opened RelaySystem
  import opened SystemInvariant
  import opened Outbox
  import opened RunLog
  import opened RunReplay
  import opened Polling
  import Pages
  import opened RunTable
  import opened Convergence

  lemma ExecuteOne(sys: System, actions: seq<Action>)
    requires actions != []
    ensures Execute(sys, actions) == Execute(Step(sys, actions[0]), actions[1..])
  {
  }

  lemma {:induction false} ExecuteSplit(sys: System, xs: seq<Action>, ys: seq<Action>)
    ensures Execute(sys, xs + ys) == Execute(Execute(sys, xs), ys)
    decreases |xs|
  {
    if xs == [] {
      assert xs + ys == ys;
    } else {
      assert (xs + ys)[1..] == xs[1..] + ys;
      ExecuteSplit(Step(sys, xs[0]), xs[1..], ys);
    }
  }

  /** A message of a stored run passes a stream without entries, or with lower ones. */
  lemma Received(sys: System, d: nat, m: Message)
    requires d !in sys.deliveries && m.sequence >= 1 && m.run in sys.db.runs
    requires LastSequence(StreamOf(sys, m.run)) < m.sequence
    ensures var next := Step(sys, DoReceive(d, m, false, false, false));
            && next.db == sys.db && next.deliveries == sys.deliveries + {d}
            && StreamOf(next, m.run) == StreamOf(sys, m.run) + [Entry(m.sequence, EventOf(m))]
            && next.handlers == sys.handlers[d := Handler(m.run, Entry(m.sequence, EventOf(m)), false)]
  {
  }

  lemma Persisted(sys: System, d: nat, now: Time)
    requires d in sys.handlers && !sys.handlers[d].stored
    requires var h := sys.handlers[d]; AppendAgentEvent(sys.db, h.run, h.entry.sequence, h.entry.event, now).Ok?
    ensures var next, h := Step(sys, DoPersist(d, false, now)), sys.handlers[d];
            && next.db == AppendAgentEvent(sys.db, h.run, h.entry.sequence, h.entry.event, now).value
            && next.handlers == sys.handlers[d := h.(stored := true)]
  {
  }

  lemma MarkedAccepted(sys: System, d: nat)
    requires d in sys.handlers && sys.handlers[d].stored && sys.handlers[d].entry.event.kind == RunAccepted
    requires CommandOf(sys.handlers[d].entry.event.payload) != ""
    ensures Step(sys, DoMarkAccepted(d)).db
            == MarkCommandDelivered(sys.db, CommandOf(sys.handlers[d].entry.event.payload))
  {
  }

  /* ---- a status that no replay of the log gives ---- */

  const ACCEPTED := Message(MsgRunAccepted, "r", 1, Raw("", "", "", ""), 0)
  const STARTED := Message(MsgTurnStarted, "r", 2, Raw("", "t", "u", ""), 0)

  const CREATE_RUN := [
    DoUpsertProjects([BatchProject("p", "P")], 0),
    DoCreateSession("s", "p", "", "k", "h", 0),
    DoCreateRunCommit("s", "", "", "k", "h", "r", "c", 0)]

  const TAKE_1 := DoReceive(1, ACCEPTED, false, false, false)
  const TAKE_2 := DoReceive(2, STARTED, false, false, false)
  const KEEP_2 := DoPersist(2, false, 0)
  const KEEP_1 := DoPersist(1, false, 0)

  const OVERLAP := [TAKE_1, TAKE_2, KEEP_2, KEEP_1]

  const CREATED: Session :=
    Session("p", None, "", 1, map[1 := SessionEvent(RunCreated, "r", Queued)], Some(Idempotency("k", "h")), 0, None,
            None)

  const READY: Db := Db(
    map["p" := Project("P", None, None, 0)],
    map["s" := CREATED],
    map["r" := FreshRun("s", "", "", "k", "h")],
    map["c" := FreshCommand(RunStart, "r", 0)],
    map[])

  lemma ProjectAnnounced()
    ensures Step(INIT, CREATE_RUN[0]).db == EMPTY_DB.(projects := READY.projects)
  {
    var p := BatchProject("p", "P");
    assert !IsSpace(p.id[0]) && !IsSpace(p.name[0]);
    assert [p][1..] == [];
    assert UpsertProjects(EMPTY_DB, [p], 0) == UpsertProjects(EMPTY_DB.(projects := READY.projects), [], 0);
  }

  lemma SessionCreated()
    ensures var db := EMPTY_DB.(projects := READY.projects);
            CreateSession(db, "s", "p", "", "k", "h", 0)
            == Ok((db.(sessions := map["s" := CREATED.(lastSeq := 0, log := map[])]), "s"))
  {
    var db := EMPTY_DB.(projects := READY.projects);
    assert forall s :: !HoldsSessionKey(db, s, "k");
  }

  lemma RunCreatedThere()
    ensures var db :=
            EMPTY_DB.(projects := READY.projects, sessions := map["s" := CREATED.(lastSeq := 0, log := map[])]);
            CreateRunCommit(db, "s", "", "", "k", "h", "r", "c", 0) == Ok((READY, "r"))
  {
    var db := EMPTY_DB.(projects := READY.projects, sessions := map["s" := CREATED.(lastSeq := 0, log := map[])]);
    assert Visible(db, "s");
    assert forall r :: !HoldsKey(db.runs, r, "s", "k");
    assert !CommandTaken(db.outbox, "c", RunStart, "r");
    var logged := LogSessionEvent(db.sessions, "s", SessionEvent(RunCreated, "r", Queued), 0);
    assert logged.Ok? && logged.value == READY.sessions;
  }

  lemma RunReady()
    ensures var sys := Execute(INIT, CREATE_RUN);
            sys.db == READY && sys.streams == map[] && sys.handlers == map[] && sys.deliveries == {} && sys.cache == {}
  {
    var s1 := Step(INIT, CREATE_RUN[0]);
    ProjectAnnounced();
    SessionCreated();
    var s2 := Step(s1, CREATE_RUN[1]);
    RunCreatedThere();
    var s3 := Step(s2, CREATE_RUN[2]);
    ExecuteOne(INIT, CREATE_RUN);
    ExecuteOne(s1, CREATE_RUN[1..]);
    ExecuteOne(s2, CREATE_RUN[2..]);
    assert CREATE_RUN[1..][1..] == CREATE_RUN[2..] && CREATE_RUN[2..][1..] == [];
  }

  /** Both messages are in Redis and on their way. */
  lemma BothReceived(sys: System)
    requires sys.db == READY && sys.streams == map[] && sys.handlers == map[] && sys.deliveries == {}
    ensures var next := Step(Step(sys, TAKE_1), TAKE_2);
            && next.db == READY
            && next.handlers
               == map[1 := Handler("r", Entry(1, EventOf(ACCEPTED)), false),
                      2 := Handler("r", Entry(2, EventOf(STARTED)), false)]
  {
    assert StreamOf(sys, "r") == [];
    Received(sys, 1, ACCEPTED);
    Received(Step(sys, TAKE_1), 2, STARTED);
  }

  function Late(): Run { AppendedRow(FreshRun("s", "", "", "k", "h"), 2, EventOf(STARTED), 0) }

  function Last(): Run { AppendedRow(Late(), 1, EventOf(ACCEPTED), 0) }

  lemma StartedStored()
    ensures var out := AppendAgentEvent(READY, "r", 2, EventOf(STARTED), 0);
            && out.Ok? && out.value.runs == map["r" := Late()] && out.value.outbox == READY.outbox
            && "s" in out.value.sessions && out.value.sessions["s"].lastSeq == 2 && 3 !in out.value.sessions["s"].log
  {
    assert forall x :: !HoldsThread(READY.sessions, x, "t");
    assert forall x :: x != "r" ==> !HoldsTurn(READY.runs, x, "u");
    var adopted := AdoptThread(READY.sessions, "s", "t", 0);
    assert adopted.Ok? && adopted.value == map["s" := CREATED.(threadId := Some("t"))];
  }

  lemma AcceptedStored(db: Db)
    requires db.runs == map["r" := Late()] && "s" in db.sessions
    requires db.sessions["s"].lastSeq + 1 !in db.sessions["s"].log
    ensures var out := AppendAgentEvent(db, "r", 1, EventOf(ACCEPTED), 0);
            out.Ok? && out.value.runs == map["r" := Last()] && out.value.outbox == db.outbox
  {
    LateRow();
    QuietAppend(db, "r", 1, EventOf(ACCEPTED), 0);
    assert db.runs["r" := Last()] == map["r" := Last()];
  }

  lemma LateRow()
    ensures Late().sessionId == "s" && 1 !in Late().events
  {
  }

  /** An event that starts no turn is stored whenever its session has room in its log. */
  lemma QuietAppend(db: Db, r: string, n: int, e: RunEvent, now: Time)
    requires r in db.runs && n >= 1 && n !in db.runs[r].events && e.kind != TurnStarted
    requires var s := db.runs[r].sessionId; s in db.sessions && db.sessions[s].lastSeq + 1 !in db.sessions[s].log
    ensures var out := AppendAgentEvent(db, r, n, e, now);
            out.Ok? && out.value.runs == db.runs[r := AppendedRow(db.runs[r], n, e, now)]
                && out.value.outbox == db.outbox
  {
  }

  lemma LastIsNoFold()
    ensures Last().status == Accepted && FoldStatus(Last().events, Queued, Last().persisted) == Running
  {
    assert Last().persisted == 2 && Last().events[2].kind == TurnStarted;
  }

  lemma BothStored(sys: System)
    requires sys.db == READY
    requires sys.handlers
             == map[1 := Handler("r", Entry(1, EventOf(ACCEPTED)), false),
                    2 := Handler("r", Entry(2, EventOf(STARTED)), false)]
    ensures var next := Step(Step(sys, KEEP_2), KEEP_1);
            next.db.runs == map["r" := Last()] && next.db.outbox == READY.outbox
  {
    StartedStored();
    Persisted(sys, 2, 0);
    var mid := Step(sys, KEEP_2);
    AcceptedStored(mid.db);
    Persisted(mid, 1, 0);
  }

  /** A run is created, run.accepted and turn.started reach Redis in order, and their two handlers reach
      PostgreSQL in the other order. No call fails, yet the run is left accepted while every replay of its
      log says running. */
  lemma OverlapBreaksFold()
    ensures var db := Execute(INIT, CREATE_RUN + OVERLAP).db;
            && "r" in db.runs && db.runs["r"].status == Accepted
            && FoldStatus(db.runs["r"].events, BaseStatus(db, "r"), db.runs["r"].persisted) == Running
            && !IsFold(db.runs["r"], BaseStatus(db, "r"))
  {
    RunReady();
    var s0 := Execute(INIT, CREATE_RUN);
    ExecuteSplit(INIT, CREATE_RUN, OVERLAP);
    FourSteps(s0);
    BothReceived(s0);
    BothStored(Step(Step(s0, TAKE_1), TAKE_2));
    LastIsNoFold();
    var db := Execute(s0, OVERLAP).db;
    assert !StartClaimed(db, "r");
  }

  lemma FourSteps(sys: System)
    ensures Execute(sys, OVERLAP) == Step(Step(Step(Step(sys, TAKE_1), TAKE_2), KEEP_2), KEEP_1)
  {
    var s1 := Step(sys, OVERLAP[0]);
    var s2 := Step(s1, OVERLAP[1]);
    var s3 := Step(s2, OVERLAP[2]);
    ExecuteOne(sys, OVERLAP);
    ExecuteOne(s1, OVERLAP[1..]);
    ExecuteOne(s2, OVERLAP[2..]);
    ExecuteOne(s3, OVERLAP[3..]);
    assert OVERLAP[1..][1..] == OVERLAP[2..] && OVERLAP[2..][1..] == OVERLAP[3..] && OVERLAP[3..][1..] == [];
  }

  /* ---- a client that misses an event ---- */

  const READ_PAGE := ReadPage(10, false, false, true)

  const POLL := [Happened(TAKE_1), Happened(TAKE_2), Happened(KEEP_2), ReadStatus, READ_PAGE, Happened(KEEP_1)]

  const NEW_CLIENT := Poller(Start, Client(0, 0, []), [])

  /** A page of a log that holds event 2 only ends at 2. */
  lemma PageOfLate()
    ensures var page := Pages.PageOf(Late().events, 0, 10); page.rows != [] && Pages.NextCursor(0, page) == 2
  {
    var page := Pages.PageOf(Late().events, 0, 10);
    Pages.PageExact(Late().events, 0, 10);
    assert 2 in Late().events && forall k :: k in Late().events ==> k == 2;
  }

  /** The client reads its page between the two appends. */
  lemma ReadsLate(sys: System)
    requires sys.db.runs == map["r" := Late()]
    ensures var v := RunStep(RunStep(RunView(sys, NEW_CLIENT), ReadStatus, "r"), READ_PAGE, "r");
            v.sys == sys && v.poller.client.start == 0 && v.poller.client.cursor == 2
  {
    PageOfLate();
  }

  lemma StillCurrent(sys: System)
    requires DbOk(sys.db) && sys.db.runs == map["r" := Late()]
    ensures Current(RunStep(RunStep(RunView(sys, NEW_CLIENT), ReadStatus, "r"), READ_PAGE, "r"), "r")
  {
    assert RunOk(Late());
    PollsUpToDate(NEW_CLIENT, ReadStatus, Late());
    PollsUpToDate(Polls(NEW_CLIENT, ReadStatus, Late()), READ_PAGE, Late());
  }

  lemma LateOvertakes(v: RunView)
    requires DbOk(v.sys.db) && Current(v, "r") && v.poller.client.start == 0 && v.poller.client.cursor == 2
    requires v.sys.db.runs == map["r" := Late()] && 1 in v.sys.handlers
    requires v.sys.handlers[1] == Handler("r", Entry(1, EventOf(ACCEPTED)), false)
    requires AppendAgentEvent(v.sys.db, "r", 1, EventOf(ACCEPTED), 0).Ok?
    ensures !Current(RunStep(v, Happened(KEEP_1), "r"), "r")
  {
    LateRow();
    assert Appends(v.sys, KEEP_1, "r") && Behind(v.poller.client, 1);
    HappenedExact(v, Happened(KEEP_1), "r");
  }

  lemma SixMoves(v: RunView)
    ensures WatchRun(v, POLL, "r") ==
            RunStep(RunStep(RunStep(RunStep(RunStep(RunStep(v, Happened(TAKE_1), "r"), Happened(TAKE_2), "r"),
                                            Happened(KEEP_2), "r"),
                                    ReadStatus, "r"), READ_PAGE, "r"), Happened(KEEP_1), "r")
  {
    var v1 := RunStep(v, POLL[0], "r");
    var v2 := RunStep(v1, POLL[1], "r");
    var v3 := RunStep(v2, POLL[2], "r");
    var v4 := RunStep(v3, POLL[3], "r");
    var v5 := RunStep(v4, POLL[4], "r");
    WatchOne(v, POLL);
    WatchOne(v1, POLL[1..]);
    WatchOne(v2, POLL[2..]);
    WatchOne(v3, POLL[3..]);
    WatchOne(v4, POLL[4..]);
    WatchOne(v5, POLL[5..]);
    assert POLL[1..][1..] == POLL[2..] && POLL[2..][1..] == POLL[3..] && POLL[3..][1..] == POLL[4..];
    assert POLL[4..][1..] == POLL[5..] && POLL[5..][1..] == [];
  }

  lemma WatchOne(v: RunView, moves: seq<RunMove>)
    requires moves != []
    ensures WatchRun(v, moves, "r") == WatchRun(RunStep(v, moves[0], "r"), moves[1..], "r")
  {
  }

  /** The server right after turn.started is stored. */
  lemma LateState()
    ensures var s0 := Execute(INIT, CREATE_RUN);
            var s3 := Step(Step(Step(s0, TAKE_1), TAKE_2), KEEP_2);
            && DbOk(s3.db) && s3.db.runs == map["r" := Late()] && 1 in s3.handlers
            && s3.handlers[1] == Handler("r", Entry(1, EventOf(ACCEPTED)), false)
            && AppendAgentEvent(s3.db, "r", 1, EventOf(ACCEPTED), 0).Ok?
            && Step(s3, KEEP_1).db.runs == map["r" := Last()]
  {
    RunReady();
    var s0 := Execute(INIT, CREATE_RUN);
    BothReceived(s0);
    var s2 := Step(Step(s0, TAKE_1), TAKE_2);
    LateStored(s2);
    BothStored(s2);
    LateStoreOk();
  }

  lemma LateStoreOk()
    ensures DbOk(Step(Step(Step(Execute(INIT, CREATE_RUN), TAKE_1), TAKE_2), KEEP_2).db)
  {
    var s0 := Execute(INIT, CREATE_RUN);
    ReachableStore(INIT, CREATE_RUN);
    StepKeepsStore(s0, TAKE_1);
    StepKeepsStore(Step(s0, TAKE_1), TAKE_2);
    StepKeepsStore(Step(Step(s0, TAKE_1), TAKE_2), KEEP_2);
  }

  /** A client of the run above polls between the two appends: it is given event 2 and its cursor is 2 when
      event 1 is committed, and it is never given event 1. */
  lemma PollMissesEvent()
    ensures var end := WatchRun(RunView(Execute(INIT, CREATE_RUN), NEW_CLIENT), POLL, "r");
            && end.poller.client.cursor == 2 && !Current(end, "r")
            && "r" in end.sys.db.runs && 1 in end.sys.db.runs["r"].events
  {
    LateState();
    var s0 := Execute(INIT, CREATE_RUN);
    var s3 := Step(Step(Step(s0, TAKE_1), TAKE_2), KEEP_2);
    SixMoves(RunView(s0, NEW_CLIENT));
    ReadsLate(s3);
    StillCurrent(s3);
    LateOvertakes(RunStep(RunStep(RunView(s3, NEW_CLIENT), ReadStatus, "r"), READ_PAGE, "r"));
  }

  lemma LateStored(sys: System)
    requires sys.db == READY
    requires sys.handlers
             == map[1 := Handler("r", Entry(1, EventOf(ACCEPTED)), false),
                    2 := Handler("r", Entry(2, EventOf(STARTED)), false)]
    ensures var next := Step(sys, KEEP_2);
            && next.db.runs == map["r" := Late()] && 1 in next.handlers && next.handlers[1] == sys.handlers[1]
            && AppendAgentEvent(next.db, "r", 1, EventOf(ACCEPTED), 0).Ok?
  {
    StartedStored();
    Persisted(sys, 2, 0);
    AcceptedStored(Step(sys, KEEP_2).db);
  }

  /* ---- a run that is lost ---- */

  const CREATE_OTHER := DoCreateRunCommit("s", "", "", "k2", "h", "q", "c2", 0)

  /** The accept of run q names the command of run r. */
  const MISNAMED := Message(MsgRunAccepted, "q", 1, Raw("", "", "", "c"), 0)

  const TAKE_MISNAMED := DoReceive(1, MISNAMED, false, false, false)
  const MARK_1 := DoMarkAccepted(1)

  const STRAND := [CREATE_OTHER, TAKE_MISNAMED, KEEP_1, MARK_1]

  const BOTH: Db := READY.(
    sessions := map["s" := CREATED.(lastSeq := 2, log := CREATED.log[2 := SessionEvent(RunCreated, "q", Queued)])],
    runs := READY.runs["q" := FreshRun("s", "", "", "k2", "h")],
    outbox := READY.outbox["c2" := FreshCommand(RunStart, "q", 0)])

  lemma OtherCreated()
    ensures CreateRunCommit(READY, "s", "", "", "k2", "h", "q", "c2", 0) == Ok((BOTH, "q"))
  {
    assert Visible(READY, "s");
    assert forall r :: !HoldsKey(READY.runs, r, "s", "k2");
    assert !CommandTaken(READY.outbox, "c2", RunStart, "q");
    var logged := LogSessionEvent(READY.sessions, "s", SessionEvent(RunCreated, "q", Queued), 0);
    assert logged.Ok? && logged.value == BOTH.sessions;
  }

  lemma MisnamedStored()
    ensures var out := AppendAgentEvent(BOTH, "q", 1, EventOf(MISNAMED), 0);
            out.Ok? && "r" in out.value.runs && out.value.runs["r"] == READY.runs["r"]
                && out.value.outbox == BOTH.outbox
  {
    QuietAppend(BOTH, "q", 1, EventOf(MISNAMED), 0);
  }

  lemma MisnamedReceived(sys: System)
    requires sys.db == BOTH && sys.streams == map[] && sys.handlers == map[] && sys.deliveries == {}
    ensures var next := Step(sys, TAKE_MISNAMED);
            next.db == BOTH && next.handlers == map[1 := Handler("q", Entry(1, EventOf(MISNAMED)), false)]
  {
    assert StreamOf(sys, "q") == [];
    Received(sys, 1, MISNAMED);
  }

  lemma MisnamedMarks(sys: System)
    requires sys.db == BOTH && sys.handlers == map[1 := Handler("q", Entry(1, EventOf(MISNAMED)), false)]
    ensures var next := Step(Step(sys, KEEP_1), MARK_1).db;
            && "r" in next.runs && next.runs["r"].status == Queued
            && next.outbox == BOTH.outbox["c" := BOTH.outbox["c"].(status := Delivered, claimExpiresAt := None)]
  {
    MisnamedStored();
    Persisted(sys, 1, 0);
    MarkedAccepted(Step(sys, KEEP_1), 1);
  }

  lemma NoStartLeft(outbox: map<string, Command>)
    requires outbox == BOTH.outbox["c" := BOTH.outbox["c"].(status := Delivered, claimExpiresAt := None)]
    ensures forall c :: !Undelivered(outbox, c, "r")
  {
  }

  lemma OtherCreatedStep(sys: System)
    requires sys.db == READY
    ensures var next := Step(sys, CREATE_OTHER);
            next.db == BOTH && next.streams == sys.streams && next.handlers == sys.handlers
                && next.deliveries == sys.deliveries
  {
    OtherCreated();
  }

  lemma FourMore(sys: System)
    ensures Execute(sys, STRAND) == Step(Step(Step(Step(sys, CREATE_OTHER), TAKE_MISNAMED), KEEP_1), MARK_1)
  {
    var s1 := Step(sys, STRAND[0]);
    var s2 := Step(s1, STRAND[1]);
    var s3 := Step(s2, STRAND[2]);
    ExecuteOne(sys, STRAND);
    ExecuteOne(s1, STRAND[1..]);
    ExecuteOne(s2, STRAND[2..]);
    ExecuteOne(s3, STRAND[3..]);
    assert STRAND[1..][1..] == STRAND[2..] && STRAND[2..][1..] == STRAND[3..] && STRAND[3..][1..] == [];
  }

  /** Two runs are created, and the accept of the second names the command of the first: the first run stays
      queued, and no start command of it is left to be claimed. */
  lemma AcceptStrandsOther()
    ensures var db := Execute(INIT, CREATE_RUN + STRAND).db;
            "r" in db.runs && db.runs["r"].status == Queued && forall c :: !Undelivered(db.outbox, c, "r")
  {
    RunReady();
    var s0 := Execute(INIT, CREATE_RUN);
    ExecuteSplit(INIT, CREATE_RUN, STRAND);
    FourMore(s0);
    OtherCreatedStep(s0);
    var s1 := Step(s0, CREATE_OTHER);
    MisnamedReceived(s1);
    MisnamedMarks(Step(s1, TAKE_MISNAMED));
    NoStartLeft(Execute(s0, STRAND).db.outbox);
  }

  /* ---- an import that takes two passes ---- */

  const TURN_A := Turn("a", "completed", None, None, "", [])
  const TURN_B := TURN_A.(id := "b")

  function ThreadWith(turns: seq<Turn>): Thread { Thread("t", "p", "", 0, 0, turns) }

  function BatchWith(n: int, turns: seq<Turn>): BatchPayload {
    BatchPayload("cmd", "job", "snap", n, "sum", 0, 0, false, Some(BatchProject("p", "P")), Some(ThreadWith(turns)),
                 false)
  }

  const TAKES_A := Message(MsgTurnStarted, "run_b", 2, Raw("", "t", "a", ""), 0)

  const CREATE_JOB := DoCreateSyncJob("job", "cmd", "key", 0)
  const IMPORT_B := DoBatch(BatchWith(0, [TURN_B]), false, 0)
  const RECEIVE_A := DoReceive(0, TAKES_A, false, false, false)
  const STORE_A := DoPersist(0, false, 0)

  function ImportBoth(n: int): Action { DoBatch(BatchWith(n, [TURN_A, TURN_B]), false, 0) }

  const COLLIDE := [CREATE_JOB, IMPORT_B, RECEIVE_A, STORE_A, ImportBoth(1), ImportBoth(2), ImportBoth(3)]

  /** The job waits for batch `n`, and nothing stands in its way but the turns themselves. */
  ghost predicate Awaits(sys: System, n: int) {
    DbOk(sys.db) && Keyless(sys.db.runs) && sys.db.jobs.Keys == {"job"} && sys.db.jobs["job"].lastBatch == n - 1
  }

  lemma CommitKeepsJob(db: Db, d: Arrival)
    requires Commit(db, d).Ok? && db.jobs.Keys == {d.payload.syncId}
    ensures Commit(db, d).value.jobs.Keys == {d.payload.syncId}
    ensures Commit(db, d).value.jobs[d.payload.syncId].lastBatch == d.payload.batchNo
  {
  }

  lemma BatchStep(sys: System, n: int, turns: seq<Turn>)
    requires Awaits(sys, n) && Commit(sys.db, Arrival(BatchWith(n, turns), 0)).Ok?
    ensures var next := Step(sys, DoBatch(BatchWith(n, turns), false, 0));
            && next.db == Commit(sys.db, Arrival(BatchWith(n, turns), 0)).value
            && next.streams == sys.streams && next.handlers == sys.handlers && next.deliveries == sys.deliveries
  {
    var p := BatchWith(n, turns);
    assert !Malformed(p) && BatchOf(p).batchNo == n && BatchOf(p).syncId == "job";
  }

  lemma BatchTaken(sys: System, n: int, turns: seq<Turn>)
    requires Awaits(sys, n) && AllFit(sys.db.runs, TurnsIn(sys.db.sessions, BatchWith(n, turns)))
    ensures var next := Step(sys, DoBatch(BatchWith(n, turns), false, 0));
            && Awaits(next, n + 1) && next.db.runs == Pass(sys.db.runs, TurnsIn(sys.db.sessions, BatchWith(n, turns)))
            && ThreadsKept(sys.db.sessions, next.db.sessions)
            && next.streams == sys.streams && next.handlers == sys.handlers && next.deliveries == sys.deliveries
  {
    var d := Arrival(BatchWith(n, turns), 0);
    CommitAccepted(sys.db, d);
    BatchStep(sys, n, turns);
    CommitImports(sys.db, d);
    CommitKeeps(sys.db, d);
    CommitKeepsJob(sys.db, d);
  }

  lemma JobCreated()
    ensures var sys := Step(INIT, CREATE_JOB);
            && Awaits(sys, 0) && sys.db.runs == map[] && sys.db.sessions == map[]
            && sys.streams == map[] && sys.handlers == map[] && sys.deliveries == {}
  {
    NewJob();
    CreateSyncJobKeeps(EMPTY_DB, "job", "cmd", "key", 0);
  }

  lemma NewJob()
    ensures var out := CreateSyncJob(EMPTY_DB, "job", "cmd", "key", 0);
            && out.Ok? && out.value.0 == EMPTY_DB.(jobs := out.value.0.jobs, outbox := out.value.0.outbox)
            && out.value.0.jobs.Keys == {"job"} && out.value.0.jobs["job"].lastBatch == -1
  {
    assert !CommandTaken(EMPTY_DB.outbox, "cmd", BootstrapStart, "job");
  }

  function ImportOf(turns: seq<Turn>, turn: Turn, s: string): Import
    requires TerminalTurn(turn.status)
  {
    Import(ThreadWith(turns), turn, s)
  }

  lemma OneTurn(s: string)
    ensures ImportsOf(ThreadWith([TURN_B]), [TURN_B], s) == [ImportOf([TURN_B], TURN_B, s)]
  {
    assert [TURN_B][1..] == [];
  }

  lemma TwoTurns(s: string)
    ensures var t := ThreadWith([TURN_A, TURN_B]);
            ImportsOf(t, t.turns, s) == [ImportOf(t.turns, TURN_A, s), ImportOf(t.turns, TURN_B, s)]
  {
    var t := ThreadWith([TURN_A, TURN_B]);
    assert t.turns[1..] == [TURN_B] && [TURN_B][1..] == [];
    assert ImportsOf(t, [TURN_B], s) == [ImportOf(t.turns, TURN_B, s)];
  }

  /** Turn b is imported into an empty store. */
  lemma BImported(sys: System)
    requires Awaits(sys, 0) && sys.db.runs == map[] && sys.db.sessions == map[]
    ensures var next := Step(sys, IMPORT_B);
            && Awaits(next, 1) && next.db.runs.Keys == {"run_b"} && 2 !in next.db.runs["run_b"].events
            && (forall s :: s in next.db.sessions ==> next.db.sessions[s].threadId.Some?)
            && next.streams == sys.streams && next.handlers == sys.handlers && next.deliveries == sys.deliveries
  {
    var s := Home(sys.db.sessions, ThreadWith([TURN_B]));
    var x := ImportOf([TURN_B], TURN_B, s);
    OneTurn(s);
    FirstRow(x);
    BatchTaken(sys, 0, [TURN_B]);
    var next := Step(sys, IMPORT_B);
    forall q | q in next.db.sessions ensures next.db.sessions[q].threadId.Some? {
      assert NewHome(sys.db.sessions, next.db.sessions, q);
    }
  }

  lemma FirstRow(x: Import)
    requires x.turn == TURN_B
    ensures AllFit(map[], [x]) && Pass(map[], [x]).Keys == {"run_b"} && 2 !in Pass(map[], [x])["run_b"].events
  {
    assert IdOf(x) == "run_b" && [x][1..] == [];
    TargetCases(map[], x);
    assert Fits(map[], x) && AllFit(Write(map[], x), []);
    assert Pass(map[], [x]) == Pass(Write(map[], x), []) == map["run_b" := Written(None, x)];
    TurnEventsShape(x.thread, x.turn);
    NumberedRows(TurnEvents(x.thread, x.turn));
  }

  /** A live turn.started on run_b names turn a, and run_b takes it. */
  lemma ATaken(sys: System)
    requires Awaits(sys, 1) && sys.db.runs.Keys == {"run_b"} && 2 !in sys.db.runs["run_b"].events
    requires forall s :: s in sys.db.sessions ==> sys.db.sessions[s].threadId.Some?
    requires sys.streams == map[] && sys.handlers == map[] && sys.deliveries == {}
    ensures var next := Step(Step(sys, RECEIVE_A), STORE_A);
            Awaits(next, 1) && next.db.runs.Keys == {"run_b"} && next.db.runs["run_b"].turnId == Some("a")
  {
    TakenIn(sys);
    TurnStored(sys.db);
    Persisted(Step(sys, RECEIVE_A), 0, 0);
    TurnStoredRow(sys.db);
    AppendAgentEventKeeps(sys.db, "run_b", 2, EventOf(TAKES_A), 0);
  }

  lemma TurnStoredRow(db: Db)
    requires db.runs.Keys == {"run_b"} && 2 !in db.runs["run_b"].events && Keyless(db.runs)
    requires AppendAgentEvent(db, "run_b", 2, EventOf(TAKES_A), 0).Ok?
    ensures var next := AppendAgentEvent(db, "run_b", 2, EventOf(TAKES_A), 0).value;
            next.jobs == db.jobs && Keyless(next.runs) && next.runs.Keys == {"run_b"}
                && next.runs["run_b"].turnId == Some("a")
  {
    AppendAgentEventRuns(db, "run_b", 2, EventOf(TAKES_A), 0);
  }

  lemma TakenIn(sys: System)
    requires sys.db.runs.Keys == {"run_b"} && sys.streams == map[] && sys.handlers == map[] && sys.deliveries == {}
    ensures var mid := Step(sys, RECEIVE_A);
            mid.db == sys.db && mid.handlers == map[0 := Handler("run_b", Entry(2, EventOf(TAKES_A)), false)]
  {
    assert StreamOf(sys, "run_b") == [];
    Received(sys, 0, TAKES_A);
  }

  lemma TurnStored(db: Db)
    requires DbOk(db) && db.runs.Keys == {"run_b"} && 2 !in db.runs["run_b"].events
    requires forall s :: s in db.sessions ==> db.sessions[s].threadId.Some?
    ensures AppendAgentEvent(db, "run_b", 2, EventOf(TAKES_A), 0).Ok?
  {
    var s := db.runs["run_b"].sessionId;
    assert s in db.sessions && SessionOk(db.sessions[s]);
    assert !TurnClash(db.runs, "run_b", "a");
  }

  ghost function Turns(sys: System): seq<Import> { TurnsIn(sys.db.sessions, BatchWith(0, [TURN_A, TURN_B])) }

  lemma SameTurnsLater(sys: System, next: System)
    requires DbOk(sys.db) && DbOk(next.db) && ThreadsKept(sys.db.sessions, next.db.sessions)
    ensures Turns(next) == Turns(sys)
  {
    HomeStable(sys.db.sessions, next.db.sessions, ThreadWith([TURN_A, TURN_B]));
  }

  lemma TurnsAnyNumber(sys: System, n: int)
    ensures TurnsIn(sys.db.sessions, BatchWith(n, [TURN_A, TURN_B])) == Turns(sys)
  {
  }

  /** One import of the two turns. */
  lemma Imports(sys: System, n: int, xs: seq<Import>)
    requires Awaits(sys, n) && Turns(sys) == xs && AllFit(sys.db.runs, xs)
    ensures var next := Step(sys, ImportBoth(n));
            Awaits(next, n + 1) && Turns(next) == xs && next.db.runs == Pass(sys.db.runs, xs)
  {
    TurnsAnyNumber(sys, n);
    BatchTaken(sys, n, [TURN_A, TURN_B]);
    SameTurnsLater(sys, Step(sys, ImportBoth(n)));
  }

  lemma {:induction false} SettledFits(runs: map<string, Run>, xs: seq<Import>)
    requires Pass(runs, xs) == runs
    ensures AllFit(runs, xs)
    decreases |xs|
  {
    IdleExact(runs, xs);
    if xs != [] {
      assert AllSettled(runs, xs[1..]);
      IdleExact(runs, xs[1..]);
      SettledFits(runs, xs[1..]);
    }
  }

  lemma ThreeImports(sys: System)
    requires Awaits(sys, 1) && sys.db.runs.Keys == {"run_b"} && sys.db.runs["run_b"].turnId == Some("a")
    ensures var once := Step(sys, ImportBoth(1));
            var twice := Step(once, ImportBoth(2));
            && once.db.runs.Keys == {"run_b"} && twice.db.runs.Keys == {"run_a", "run_b"}
            && Step(twice, ImportBoth(3)).db.runs == twice.db.runs
  {
    var h := Home(sys.db.sessions, ThreadWith([TURN_A, TURN_B]));
    var x, y := ImportOf([TURN_A, TURN_B], TURN_A, h), ImportOf([TURN_A, TURN_B], TURN_B, h);
    TwoTurns(h);
    ThreePasses(sys.db.runs, x, y);
    Imports(sys, 1, [x, y]);
    Imports(Step(sys, ImportBoth(1)), 2, [x, y]);
    Imports(Step(Step(sys, ImportBoth(1)), ImportBoth(2)), 3, [x, y]);
  }

  lemma ThreePasses(runs: map<string, Run>, x: Import, y: Import)
    requires x.turn == TURN_A && y.turn == TURN_B && runs.Keys == {"run_b"} && runs["run_b"].turnId == Some("a")
    ensures var once := Pass(runs, [x, y]);
            var twice := Pass(once, [x, y]);
            && AllFit(runs, [x, y]) && AllFit(once, [x, y]) && AllFit(twice, [x, y])
            && once.Keys == {"run_b"} && twice.Keys == {"run_a", "run_b"} && Pass(twice, [x, y]) == twice
  {
    assert IdOf(x) == "run_a" && IdOf(y) == "run_b";
    CollisionExample(runs, x, y);
    SettledFits(Pass(Pass(runs, [x, y]), [x, y]), [x, y]);
  }

  lemma SevenSteps()
    ensures var s4 := Step(Step(Step(Step(INIT, CREATE_JOB), IMPORT_B), RECEIVE_A), STORE_A);
            && Execute(INIT, COLLIDE[..5]) == Step(s4, ImportBoth(1))
            && Execute(INIT, COLLIDE[..6]) == Step(Step(s4, ImportBoth(1)), ImportBoth(2))
            && Execute(INIT, COLLIDE) == Step(Step(Step(s4, ImportBoth(1)), ImportBoth(2)), ImportBoth(3))
  {
    LastStep(COLLIDE, 0);
    LastStep(COLLIDE, 1);
    LastStep(COLLIDE, 2);
    LastStep(COLLIDE, 3);
    LastStep(COLLIDE, 4);
    LastStep(COLLIDE, 5);
    LastStep(COLLIDE, 6);
    assert COLLIDE[..0] == [] && COLLIDE[..7] == COLLIDE;
  }

  lemma LastStep(actions: seq<Action>, k: nat)
    requires k < |actions|
    ensures Execute(INIT, actions[..k + 1]) == Step(Execute(INIT, actions[..k]), actions[k])
  {
    assert actions[..k + 1] == actions[..k] + [actions[k]];
    ExecuteSplit(INIT, actions[..k], [actions[k]]);
    ExecuteOne(Execute(INIT, actions[..k]), [actions[k]]);
    assert [actions[k]][1..] == [];
  }

  /** Turn b is imported, a live turn.started on its run names turn a, and a thread with both turns is
      imported three times under later batch numbers: the second import still changes the runs, the third
      does not. */
  lemma ReimportStillChanges()
    ensures var once, twice, thrice := Execute(INIT, COLLIDE[..5]).db, Execute(INIT, COLLIDE[..6]).db,
            Execute(INIT, COLLIDE).db;
            && once.runs.Keys == {"run_b"} && twice.runs.Keys == {"run_a", "run_b"} && twice.runs != once.runs
            && thrice.runs == twice.runs
  {
    SevenSteps();
    JobCreated();
    var s1 := Step(INIT, CREATE_JOB);
    BImported(s1);
    var s2 := Step(s1, IMPORT_B);
    ATaken(s2);
    ThreeImports(Step(Step(s2, RECEIVE_A), STORE_A));
  }
}
