/** Whole bootstrap imports: a list of committed batches writes its finished turns, in order, into
    the run table, logs one session event per run it changed, and converges. */
module Convergence {
  import opened RuntimeTypes
  import opened RuntimeStore
  import opened Bootstrap
  import opened StoreInvariant
  import opened RunTable

  function SessionOf(thread: Thread): BatchSession {
    BatchSession(SessionIdOf(thread), thread.projectId, thread.id, thread.title)
  }

  /** The session that stands for a thread, now and after any number of imports. */
  ghost function Home(sessions: map<string, Session>, thread: Thread): string {
    CanonicalSession(sessions, SessionOf(thread))
  }

  function ImportsOf(thread: Thread, turns: seq<Turn>, session: string): seq<Import> {
    if turns == [] then []
    else if TerminalTurn(turns[0].status)
    then [Import(thread, turns[0], session)] + ImportsOf(thread, turns[1..], session)
    else ImportsOf(thread, turns[1..], session)
  }

  datatype Arrival = Arrival(payload: BatchPayload, now: Time)

  ghost function Commit(db: Db, d: Arrival): Result<Db> {
    if d.payload.syncId !in db.jobs then Err(NotFound) else CommitBatch(db, BatchOf(d.payload), d.now)
  }

  /** Each batch is the next one of its job when it arrives. */
  ghost function ImportAll(db: Db, ds: seq<Arrival>): Result<Db>
    decreases |ds|
  {
    if ds == [] then Ok(db)
    else
      var first :- Commit(db, ds[0]);
      ImportAll(first, ds[1..])
  }

  /** The finished turns of one batch and of a list of batches, each with its session. */
  ghost function TurnsIn(sessions: map<string, Session>, p: BatchPayload): seq<Import> {
    if p.thread.None? then [] else ImportsOf(p.thread.value, p.thread.value.turns, Home(sessions, p.thread.value))
  }

  ghost function AllTurns(sessions: map<string, Session>, ds: seq<Arrival>): seq<Import>
    decreases |ds|
  {
    if ds == [] then [] else TurnsIn(sessions, ds[0].payload) + AllTurns(sessions, ds[1..])
  }

  /** How many of `xs` change the table on behalf of session `s`. */
  ghost function ChangedIn(runs: map<string, Run>, xs: seq<Import>, s: string): nat
    decreases |xs|
  {
    if xs == [] then 0
    else (if Needs(runs, xs[0]) && xs[0].session == s then 1 else 0) + ChangedIn(Write(runs, xs[0]), xs[1..], s)
  }

  /* ---- sessions keep their threads ---- */

  ghost predicate NewHome(before: map<string, Session>, after: map<string, Session>, s: string) {
    && s in after && after[s].threadId.Some? && s == "session_" + after[s].threadId.value
    && forall h :: !HoldsThread(before, h, after[s].threadId.value)
  }

  ghost predicate ThreadsKept(before: map<string, Session>, after: map<string, Session>) {
    && (forall s :: s in before ==> s in after && after[s].threadId == before[s].threadId)
    && (forall s :: s in after && s !in before ==> NewHome(before, after, s))
  }

  lemma ThreadsKeptTrans(a: map<string, Session>, b: map<string, Session>, c: map<string, Session>)
    requires ThreadsKept(a, b) && ThreadsKept(b, c)
    ensures ThreadsKept(a, c)
  {
    forall s | s in c && s !in a ensures NewHome(a, c, s) {
      var t := c[s].threadId;
      if s in b { assert NewHome(a, b, s); } else { assert NewHome(b, c, s); }
      forall h ensures !HoldsThread(a, h, t.value) { assert HoldsThread(a, h, t.value) ==> HoldsThread(b, h, t.value); }
    }
  }

  lemma HomeIs(sessions: map<string, Session>, thread: Thread, h: string)
    requires UniqueThreads(sessions) && HoldsThread(sessions, h, thread.id)
    requires thread.id != "" && SessionIdOf(thread) !in sessions
    ensures Home(sessions, thread) == h
  {
  }

  lemma OneName(a: string, b: string)
    ensures "session_" + a == "session_" + b ==> a == b
  {
    assert ("session_" + a)[8..] == a && ("session_" + b)[8..] == b;
  }

  lemma HomeStable(before: map<string, Session>, after: map<string, Session>, thread: Thread)
    requires ThreadsKept(before, after) && UniqueThreads(after) && UniqueThreads(before)
    ensures Home(after, thread) == Home(before, thread)
  {
    var id := SessionIdOf(thread);
    if thread.id != "" && id !in before {
      if h :| HoldsThread(before, h, thread.id) {
        assert HoldsThread(after, h, thread.id);
        OneName(thread.id, if id in after && after[id].threadId.Some? then after[id].threadId.value else "");
        assert id in after ==> NewHome(before, after, id);
        HomeIs(before, thread, h);
        HomeIs(after, thread, h);
      } else if h :| HoldsThread(after, h, thread.id) {
        assert h in before ==> HoldsThread(before, h, thread.id);
        assert NewHome(before, after, h);
      }
    }
  }

  ghost predicate Homed(sessions: map<string, Session>, thread: Thread) {
    SessionIdOf(thread) in sessions || exists s :: HoldsThread(sessions, s, thread.id)
  }

  lemma HomedStays(before: map<string, Session>, after: map<string, Session>, thread: Thread)
    requires ThreadsKept(before, after) && Homed(before, thread)
    ensures Homed(after, thread)
  {
    if s :| HoldsThread(before, s, thread.id) { assert HoldsThread(after, s, thread.id); }
  }

  /* ---- the parts of a batch ---- */

  /** Only the table of session `s` moved, by `n` log entries. */
  ghost predicate Advanced(before: map<string, Session>, after: map<string, Session>, s: string, n: nat) {
    && after.Keys == before.Keys
    && (forall x :: x in before && x != s ==> after[x] == before[x])
    && (s in before ==>
          after[s] == before[s].(lastSeq := before[s].lastSeq + n, log := after[s].log,
                                 updatedAt := after[s].updatedAt))
    && (if n == 0 then after == before else s in before)
  }

  lemma AdvancedKeepsThreads(before: map<string, Session>, after: map<string, Session>, s: string, n: nat)
    requires Advanced(before, after, s, n)
    ensures ThreadsKept(before, after)
  {
  }

  lemma AdvancedTwice(a: map<string, Session>, b: map<string, Session>, c: map<string, Session>, s: string, m: nat,
                      n: nat)
    requires Advanced(a, b, s, m) && Advanced(b, c, s, n)
    ensures Advanced(a, c, s, m + n)
  {
  }

  lemma RewriteCases(db: Db, x: Import, t: string, now: Time)
    requires RewriteRun(db, RunOf(x.thread, x.turn), x.session, StatusOf(x), t, now).Ok?
    ensures var next := RewriteRun(db, RunOf(x.thread, x.turn), x.session, StatusOf(x), t, now).value;
            && next.runs == db.runs[t := Written(if t in db.runs then Some(db.runs[t]) else None, x)]
            && (x.turn.id != "" ==> !TurnClash(db.runs, t, x.turn.id))
            && Advanced(db.sessions, next.sessions, x.session, 1)
  {
    RewriteShape(db, RunOf(x.thread, x.turn), x.session, StatusOf(x), t, now);
  }

  lemma RewriteShape(db: Db, r: BatchRun, session: string, status: Status, t: string, now: Time)
    requires RewriteRun(db, r, session, status, t, now).Ok?
    ensures var next := RewriteRun(db, r, session, status, t, now).value;
            var prior := if t in db.runs then Some(db.runs[t]) else None;
            && EventRows(r.events).Ok?
            && next.runs == db.runs[t := ImportedRow(prior, r, session, status, EventRows(r.events).value)]
            && (r.turnId != "" ==> !TurnClash(db.runs, t, r.turnId))
            && Advanced(db.sessions, next.sessions, session, 1)
  {
  }

  lemma ImportIfCases(changed: bool, db: Db, x: Import, now: Time)
    requires changed <==> Needs(db.runs, x)
    requires ImportIf(changed, db, RunOf(x.thread, x.turn), x.session, StatusOf(x), now).Ok?
    ensures var next := ImportIf(changed, db, RunOf(x.thread, x.turn), x.session, StatusOf(x), now).value;
            && next.runs == Write(db.runs, x) && Fits(db.runs, x)
            && Advanced(db.sessions, next.sessions, x.session, if changed then 1 else 0)
  {
    if changed { RewriteCases(db, x, Slot(db.runs, x), now); }
  }

  lemma ImportRunCases(db: Db, x: Import, ids: map<string, string>, now: Time)
    requires SessionFor(ids, SessionIdOf(x.thread)) == x.session && ImportRun(db, RunOf(x.thread, x.turn), ids, now).Ok?
    ensures var out := ImportRun(db, RunOf(x.thread, x.turn), ids, now).value;
            && out.0.runs == Write(db.runs, x) && Fits(db.runs, x) && out.1 == 1
            && Advanced(db.sessions, out.0.sessions, x.session, if Needs(db.runs, x) then 1 else 0)
  {
    ImportIfCases(NeedsImport(db.runs, RunOf(x.thread, x.turn), x.session, StatusOf(x)), db, x, now);
  }

  /** The turns `turns` of a thread are in: their rows, their count and the session's log entries. */
  ghost predicate TurnsImported(db: Db, end: Db, count: int, thread: Thread, turns: seq<Turn>, s: string) {
    var xs := ImportsOf(thread, turns, s);
    && end.runs == Pass(db.runs, xs) && AllFit(db.runs, xs) && count == |xs|
    && Advanced(db.sessions, end.sessions, s, ChangedIn(db.runs, xs, s))
  }

  lemma OneMoreTurn(db: Db, first: Db, end: Db, count: int, thread: Thread, turns: seq<Turn>, s: string)
    requires turns != [] && TerminalTurn(turns[0].status)
    requires var x: Import := Import(thread, turns[0], s);
             first.runs == Write(db.runs, x) && Fits(db.runs, x)
                 && Advanced(db.sessions, first.sessions, s, if Needs(db.runs, x) then 1 else 0)
    requires TurnsImported(first, end, count, thread, turns[1..], s)
    ensures TurnsImported(db, end, count + 1, thread, turns, s)
  {
    var x: Import := Import(thread, turns[0], s);
    var rest := ImportsOf(thread, turns[1..], s);
    assert ([x] + rest)[1..] == rest;
    AdvancedTwice(db.sessions, first.sessions, end.sessions, s, if Needs(db.runs, x) then 1 else 0,
                  ChangedIn(first.runs, rest, s));
  }

  lemma {:induction false} ImportRunsCases(db: Db, thread: Thread, turns: seq<Turn>, ids: map<string, string>,
                                           now: Time)
    requires ImportRuns(db, RunsOf(thread, turns), ids, now).Ok?
    ensures var out := ImportRuns(db, RunsOf(thread, turns), ids, now).value;
            TurnsImported(db, out.0, out.1, thread, turns, SessionFor(ids, SessionIdOf(thread)))
    decreases |turns|
  {
    if turns != [] {
      if TerminalTurn(turns[0].status) {
        var s := SessionFor(ids, SessionIdOf(thread));
        var rs := RunsOf(thread, turns[1..]);
        assert ([RunOf(thread, turns[0])] + rs)[1..] == rs;
        ImportRunCases(db, Import(thread, turns[0], s), ids, now);
        var first := ImportRun(db, RunOf(thread, turns[0]), ids, now).value.0;
        ImportRunsCases(first, thread, turns[1..], ids, now);
        var out := ImportRuns(first, rs, ids, now).value;
        OneMoreTurn(db, first, out.0, out.1, thread, turns, s);
      } else {
        ImportRunsCases(db, thread, turns[1..], ids, now);
      }
    }
  }

  lemma InsertSessionCases(db: Db, thread: Thread, now: Time)
    requires DbOk(db) && InsertSession(db, SessionOf(thread), now).Ok?
    ensures var inserted := InsertSession(db, SessionOf(thread), now).value;
            && Home(inserted, thread) == Home(db.sessions, thread)
            && ThreadsKept(db.sessions, inserted) && Homed(inserted, thread) && SameLogs(db.sessions, inserted)
            && (Homed(db.sessions, thread) ==> inserted == db.sessions)
  {
    var inserted := InsertSession(db, SessionOf(thread), now).value;
    InsertSessionKeeps(db, SessionOf(thread), now);
    HomeStable(db.sessions, inserted, thread);
  }

  lemma ImportSessionCases(db: Db, thread: Thread, snapshot: string, now: Time)
    requires DbOk(db) && ImportSession(db, SessionOf(thread), snapshot, now).Ok?
    ensures var out := ImportSession(db, SessionOf(thread), snapshot, now).value;
            && out.1 == Home(db.sessions, thread)
            && ThreadsKept(db.sessions, out.0.sessions) && Homed(out.0.sessions, thread)
            && SameLogs(db.sessions, out.0.sessions)
            && (Homed(db.sessions, thread) ==> out.0.sessions.Keys == db.sessions.Keys)
  {
    InsertSessionCases(db, thread, now);
    var inserted := InsertSession(db, SessionOf(thread), now).value;
    SeenCases(db, thread, snapshot, now, inserted);
    TouchedKeeps(db.sessions, inserted, ImportSession(db, SessionOf(thread), snapshot, now).value.0.sessions, thread);
  }

  lemma SeenCases(db: Db, thread: Thread, snapshot: string, now: Time, inserted: map<string, Session>)
    requires InsertSession(db, SessionOf(thread), now) == Ok(inserted)
    requires ImportSession(db, SessionOf(thread), snapshot, now).Ok?
    ensures var out := ImportSession(db, SessionOf(thread), snapshot, now).value;
            out.1 == Home(inserted, thread) && Touched(inserted, out.0.sessions)
  {
    var s := Home(inserted, thread);
    if s in inserted {
      var v := SessionOf(thread);
      RowTouched(inserted, s, inserted[s].(projectId := v.projectId, title := v.title, lastSeen := Some(snapshot),
                                           archivedAt := None));
    }
  }

  lemma RowTouched(sessions: map<string, Session>, s: string, row: Session)
    requires s in sessions && row.threadId == sessions[s].threadId
    requires row.lastSeq == sessions[s].lastSeq && row.log == sessions[s].log
    ensures Touched(sessions, sessions[s := row])
  {
  }

  /** Rows may have changed in what is neither thread nor log. */
  ghost predicate Touched(before: map<string, Session>, after: map<string, Session>) {
    && after.Keys == before.Keys
    && forall s :: s in before ==>
         after[s].threadId == before[s].threadId && after[s].lastSeq == before[s].lastSeq
             && after[s].log == before[s].log
  }

  lemma TouchedKeeps(before: map<string, Session>, mid: map<string, Session>, after: map<string, Session>,
                     thread: Thread)
    requires ThreadsKept(before, mid) && Homed(mid, thread) && SameLogs(before, mid) && Touched(mid, after)
    ensures ThreadsKept(before, after) && Homed(after, thread) && SameLogs(before, after)
  {
    ThreadsKeptTrans(before, mid, after);
    HomedStays(mid, after, thread);
  }

  /** Every log is what it was, and new sessions have an empty one. */
  ghost predicate SameLogs(before: map<string, Session>, after: map<string, Session>) {
    && before.Keys <= after.Keys
    && forall s :: s in after ==>
         if s in before then after[s].lastSeq == before[s].lastSeq && after[s].log == before[s].log
         else after[s].lastSeq == 0
  }

  /** Session numbers advance by what `ChangedIn` counts. */
  ghost predicate Counts(before: map<string, Session>, after: map<string, Session>, runs: map<string, Run>,
                         xs: seq<Import>) {
    && before.Keys <= after.Keys
    && (forall s :: s in after ==>
          after[s].lastSeq == (if s in before then before[s].lastSeq else 0) + ChangedIn(runs, xs, s))
    && forall s :: s !in after ==> ChangedIn(runs, xs, s) == 0
  }

  lemma ReconcileSessions(db: Db, b: Batch, since: Time, now: Time)
    ensures var next := Reconcile(db, b, since, now).0;
            next.runs == db.runs && next.sessions.Keys == db.sessions.Keys
            && SameLogs(db.sessions, next.sessions) && ThreadsKept(db.sessions, next.sessions)
  {
  }

  lemma PlaceCases(db: Db, p: BatchPayload, now: Time)
    requires DbOk(db) && ImportSessions(db, BatchOf(p).sessions, p.snapshotId, map[], now).Ok?
    ensures var out := ImportSessions(db, BatchOf(p).sessions, p.snapshotId, map[], now).value;
            && out.0.runs == db.runs && ThreadsKept(db.sessions, out.0.sessions)
               && SameLogs(db.sessions, out.0.sessions)
            && (p.thread.None? ==> out.0 == db)
            && (p.thread.Some? ==>
                  && SessionFor(out.1, SessionIdOf(p.thread.value)) == Home(db.sessions, p.thread.value)
                  && Homed(out.0.sessions, p.thread.value)
                  && (Homed(db.sessions, p.thread.value) ==> out.0.sessions.Keys == db.sessions.Keys))
  {
    if p.thread.Some? {
      var first := ImportSession(db, SessionOf(p.thread.value), p.snapshotId, now).value;
      ImportSessionKeeps(db, SessionOf(p.thread.value), p.snapshotId, now);
      ImportSessionCases(db, p.thread.value, p.snapshotId, now);
      assert ImportSessions(db, BatchOf(p).sessions, p.snapshotId, map[], now).value
          == (first.0, map[SessionIdOf(p.thread.value) := first.1]);
    }
  }

  lemma {:induction false} ChangedElsewhere(runs: map<string, Run>, thread: Thread, turns: seq<Turn>, s: string,
                                            other: string)
    requires s != other
    ensures ChangedIn(runs, ImportsOf(thread, turns, s), other) == 0
    decreases |turns|
  {
    if turns != [] {
      if TerminalTurn(turns[0].status) {
        var rest := ImportsOf(thread, turns[1..], s);
        assert ([Import(thread, turns[0], s)] + rest)[1..] == rest;
        ChangedElsewhere(Write(runs, Import(thread, turns[0], s)), thread, turns[1..], s, other);
      } else {
        ChangedElsewhere(runs, thread, turns[1..], s, other);
      }
    }
  }

  lemma CountsOf(before: map<string, Session>, placed: map<string, Session>, logged: map<string, Session>,
                 after: map<string, Session>, runs: map<string, Run>, thread: Thread, s: string)
    requires SameLogs(before, placed) && SameLogs(logged, after) && after.Keys == logged.Keys
    requires Advanced(placed, logged, s, ChangedIn(runs, ImportsOf(thread, thread.turns, s), s))
    ensures Counts(before, after, runs, ImportsOf(thread, thread.turns, s))
  {
    forall x | x != s ensures ChangedIn(runs, ImportsOf(thread, thread.turns, s), x) == 0 {
      ChangedElsewhere(runs, thread, thread.turns, s, x);
    }
  }

  /** What one committed batch does to the history. */
  ghost predicate Imported(db: Db, next: Db, p: BatchPayload) {
    var xs := TurnsIn(db.sessions, p);
    && next.runs == Pass(db.runs, xs) && AllFit(db.runs, xs)
    && ThreadsKept(db.sessions, next.sessions)
    && Counts(db.sessions, next.sessions, db.runs, xs)
    && (p.thread.Some? ==> Homed(next.sessions, p.thread.value))
    && ((p.thread.Some? ==> Homed(db.sessions, p.thread.value)) ==> next.sessions.Keys == db.sessions.Keys)
  }

  lemma ThreadCases(db: Db, placed: (Db, map<string, string>), p: BatchPayload, imported: (Db, int),
                    after: map<string, Session>, now: Time)
    requires p.thread.Some? && placed.0.runs == db.runs
    requires ThreadsKept(db.sessions, placed.0.sessions) && SameLogs(db.sessions, placed.0.sessions)
    requires SessionFor(placed.1, SessionIdOf(p.thread.value)) == Home(db.sessions, p.thread.value)
    requires ImportRuns(placed.0, RunsOf(p.thread.value, p.thread.value.turns), placed.1, now) == Ok(imported)
    requires SameLogs(imported.0.sessions, after) && ThreadsKept(imported.0.sessions, after)
    requires after.Keys == imported.0.sessions.Keys
    ensures var xs := TurnsIn(db.sessions, p);
            && imported.0.runs == Pass(db.runs, xs) && AllFit(db.runs, xs) && imported.1 == |xs|
            && ThreadsKept(db.sessions, after) && ThreadsKept(placed.0.sessions, after)
            && Counts(db.sessions, after, db.runs, xs) && after.Keys == placed.0.sessions.Keys
  {
    var thread := p.thread.value;
    var s := Home(db.sessions, thread);
    var n := ChangedIn(db.runs, ImportsOf(thread, thread.turns, s), s);
    ImportRunsCases(placed.0, thread, thread.turns, placed.1, now);
    CountsOf(db.sessions, placed.0.sessions, imported.0.sessions, after, db.runs, thread, s);
    AdvancedKeepsThreads(placed.0.sessions, imported.0.sessions, s, n);
    ThreadsKeptTrans(placed.0.sessions, imported.0.sessions, after);
    ThreadsKeptTrans(db.sessions, placed.0.sessions, after);
  }

  lemma CommitImports(db: Db, d: Arrival)
    requires DbOk(db) && Commit(db, d).Ok?
    ensures var next := Commit(db, d).value;
            && Imported(db, next, d.payload)
            && next.jobs[d.payload.syncId].itemCount
               == db.jobs[d.payload.syncId].itemCount + |TurnsIn(db.sessions, d.payload)|
  {
    var p, b, now := d.payload, BatchOf(d.payload), d.now;
    var named := db.(projects := ImportProjects(db.projects, b.projects, b.snapshotId, now));
    ImportProjectsGrows(db.projects, b.projects, b.snapshotId, now);
    assert DbOk(named);
    PlaceCases(named, p, now);
    var placed := ImportSessions(named, b.sessions, b.snapshotId, map[], now).value;
    var imported := ImportRuns(placed.0, b.runs, placed.1, now).value;
    ReconcileSessions(imported.0, b, db.jobs[p.syncId].createdAt, now);
    var after := Reconcile(imported.0, b, db.jobs[p.syncId].createdAt, now).0.sessions;
    if p.thread.Some? {
      ThreadCases(db, placed, p, imported, after, now);
      HomedStays(placed.0.sessions, after, p.thread.value);
    } else {
      NoThreadCases(db.sessions, after, db.runs);
    }
  }

  lemma NoThreadCases(before: map<string, Session>, after: map<string, Session>, runs: map<string, Run>)
    requires SameLogs(before, after) && after.Keys == before.Keys
    ensures Counts(before, after, runs, [])
  {
  }

  /* ---- lists of batches ---- */

  lemma {:induction false} ChangedSplit(runs: map<string, Run>, xs: seq<Import>, ys: seq<Import>, s: string)
    ensures ChangedIn(runs, xs + ys, s) == ChangedIn(runs, xs, s) + ChangedIn(Pass(runs, xs), ys, s)
    decreases |xs|
  {
    if xs == [] {
      assert xs + ys == ys;
    } else {
      assert (xs + ys)[1..] == xs[1..] + ys;
      ChangedSplit(Write(runs, xs[0]), xs[1..], ys, s);
    }
  }

  lemma PassConcat(runs: map<string, Run>, xs: seq<Import>, ys: seq<Import>)
    ensures Pass(runs, xs + ys) == Pass(Pass(runs, xs), ys)
    ensures AllFit(runs, xs + ys) <==> AllFit(runs, xs) && AllFit(Pass(runs, xs), ys)
    ensures forall s :: ChangedIn(runs, xs + ys, s) == ChangedIn(runs, xs, s) + ChangedIn(Pass(runs, xs), ys, s)
  {
    PassSplit(runs, xs, ys);
    forall s ensures ChangedIn(runs, xs + ys, s) == ChangedIn(runs, xs, s) + ChangedIn(Pass(runs, xs), ys, s) {
      ChangedSplit(runs, xs, ys, s);
    }
  }

  lemma {:induction false} AllTurnsStable(before: map<string, Session>, after: map<string, Session>, ds: seq<Arrival>)
    requires ThreadsKept(before, after) && UniqueThreads(before) && UniqueThreads(after)
    ensures AllTurns(after, ds) == AllTurns(before, ds)
    decreases |ds|
  {
    if ds != [] {
      if ds[0].payload.thread.Some? { HomeStable(before, after, ds[0].payload.thread.value); }
      AllTurnsStable(before, after, ds[1..]);
    }
  }

  ghost predicate AllHomed(sessions: map<string, Session>, ds: seq<Arrival>) {
    forall i :: 0 <= i < |ds| && ds[i].payload.thread.Some? ==> Homed(sessions, ds[i].payload.thread.value)
  }

  lemma AllHomedStays(before: map<string, Session>, after: map<string, Session>, ds: seq<Arrival>)
    requires ThreadsKept(before, after) && AllHomed(before, ds)
    ensures AllHomed(after, ds)
  {
    forall i | 0 <= i < |ds| && ds[i].payload.thread.Some? ensures Homed(after, ds[i].payload.thread.value) {
      HomedStays(before, after, ds[i].payload.thread.value);
    }
  }

  lemma CountsJoin(a: map<string, Session>, b: map<string, Session>, c: map<string, Session>,
                   runs: map<string, Run>, xs: seq<Import>, ys: seq<Import>)
    requires Counts(a, b, runs, xs) && Counts(b, c, Pass(runs, xs), ys)
    ensures Counts(a, c, runs, xs + ys)
  {
    PassConcat(runs, xs, ys);
  }

  lemma CommitKeeps(db: Db, d: Arrival)
    requires DbOk(db) && Commit(db, d).Ok?
    ensures Keeps(db, Commit(db, d).value)
  {
    if d.payload.thread.Some? { RunsOfWellNumbered(d.payload.thread.value, d.payload.thread.value.turns); }
    CommitBatchKeeps(db, BatchOf(d.payload), d.now);
  }

  /** What a whole import does to the history. */
  ghost predicate History(db: Db, end: Db, ds: seq<Arrival>) {
    var xs := AllTurns(db.sessions, ds);
    && end.runs == Pass(db.runs, xs) && AllFit(db.runs, xs)
    && Counts(db.sessions, end.sessions, db.runs, xs)
    && ThreadsKept(db.sessions, end.sessions) && AllHomed(end.sessions, ds)
    && (AllHomed(db.sessions, ds) ==> end.sessions.Keys == db.sessions.Keys)
  }

  lemma HistoryJoin(db: Db, mid: Db, end: Db, ds: seq<Arrival>)
    requires ds != [] && DbOk(db) && DbOk(mid)
    requires Imported(db, mid, ds[0].payload) && History(mid, end, ds[1..])
    ensures History(db, end, ds)
  {
    var first := TurnsIn(db.sessions, ds[0].payload);
    AllTurnsStable(db.sessions, mid.sessions, ds[1..]);
    var rest := AllTurns(db.sessions, ds[1..]);
    PassConcat(db.runs, first, rest);
    CountsJoin(db.sessions, mid.sessions, end.sessions, db.runs, first, rest);
    ThreadsKeptTrans(db.sessions, mid.sessions, end.sessions);
    HomesJoin(db.sessions, mid.sessions, end.sessions, ds);
  }

  lemma HomesJoin(before: map<string, Session>, mid: map<string, Session>, after: map<string, Session>,
                  ds: seq<Arrival>)
    requires ds != [] && ThreadsKept(before, mid) && ThreadsKept(mid, after) && AllHomed(after, ds[1..])
    requires ds[0].payload.thread.Some? ==> Homed(mid, ds[0].payload.thread.value)
    ensures AllHomed(after, ds)
    ensures AllHomed(before, ds) ==> AllHomed(mid, ds[1..])
  {
    forall i | 0 <= i < |ds| && ds[i].payload.thread.Some? ensures Homed(after, ds[i].payload.thread.value) {
      if i == 0 { HomedStays(mid, after, ds[0].payload.thread.value); } else { assert ds[i] == ds[1..][i - 1]; }
    }
    if AllHomed(before, ds) {
      AllHomedStays(before, mid, ds);
      forall i | 0 <= i < |ds[1..]| ensures ds[1..][i] == ds[i + 1] {}
    }
  }

  /** A whole import writes its finished turns in order, and the number of every session advances by
      exactly the runs that were changed on its behalf. */
  lemma {:induction false} ImportHistory(db: Db, ds: seq<Arrival>)
    requires DbOk(db) && ImportAll(db, ds).Ok?
    ensures DbOk(ImportAll(db, ds).value) && Extends(db, ImportAll(db, ds).value)
    ensures History(db, ImportAll(db, ds).value, ds)
    decreases |ds|
  {
    if ds != [] {
      var mid := Commit(db, ds[0]).value;
      CommitImports(db, ds[0]);
      CommitKeeps(db, ds[0]);
      ImportHistory(mid, ds[1..]);
      HistoryJoin(db, mid, ImportAll(db, ds).value, ds);
      ExtendsTrans(db, mid, ImportAll(db, ds).value);
    }
  }

  /** item_count advances by the number of finished turns, changed or not. */
  lemma {:induction false} ImportItemCount(db: Db, ds: seq<Arrival>, sync: string)
    requires DbOk(db) && ImportAll(db, ds).Ok? && sync in db.jobs
    requires forall i :: 0 <= i < |ds| ==> ds[i].payload.syncId == sync
    ensures sync in ImportAll(db, ds).value.jobs
    ensures ImportAll(db, ds).value.jobs[sync].itemCount == db.jobs[sync].itemCount + |AllTurns(db.sessions, ds)|
    decreases |ds|
  {
    if ds != [] {
      var mid := Commit(db, ds[0]).value;
      CommitImports(db, ds[0]);
      CommitKeeps(db, ds[0]);
      AllTurnsStable(db.sessions, mid.sessions, ds[1..]);
      ImportItemCount(mid, ds[1..], sync);
    }
  }

  function InSession(xs: seq<Import>, s: string): nat {
    if xs == [] then 0 else (if xs[0].session == s then 1 else 0) + InSession(xs[1..], s)
  }

  /** A first import, of turns the table does not know, changes all of them. */
  lemma {:induction false} FirstImportChangesAll(runs: map<string, Run>, xs: seq<Import>, s: string)
    requires UniqueTurns(runs) && AllFit(runs, xs) && DistinctTurns(xs)
    requires forall i :: 0 <= i < |xs| ==> Needs(runs, xs[i])
    ensures ChangedIn(runs, xs, s) == InSession(xs, s)
    decreases |xs|
  {
    if xs != [] {
      var next, rest := Write(runs, xs[0]), xs[1..];
      WriteShape(runs, xs[0]);
      forall i | 0 <= i < |rest| ensures Needs(next, rest[i]) { NeedStays(runs, xs[0], xs[i + 1]); }
      FirstImportChangesAll(next, rest, s);
    }
  }

  lemma {:induction false} IdleChangesNone(runs: map<string, Run>, xs: seq<Import>, s: string)
    requires AllSettled(runs, xs)
    ensures ChangedIn(runs, xs, s) == 0
    decreases |xs|
  {
    if xs != [] {
      assert AllSettled(runs, xs[1..]);
      IdleChangesNone(runs, xs[1..], s);
    }
  }

  ghost predicate SameThreads(ds: seq<Arrival>, es: seq<Arrival>) {
    |ds| == |es| && forall i :: 0 <= i < |ds| ==> ds[i].payload.thread == es[i].payload.thread
  }

  lemma {:induction false} SameTurns(sessions: map<string, Session>, ds: seq<Arrival>, es: seq<Arrival>)
    requires SameThreads(ds, es)
    ensures AllTurns(sessions, es) == AllTurns(sessions, ds)
    decreases |ds|
  {
    if ds != [] { SameTurns(sessions, ds[1..], es[1..]); }
  }

  lemma SameLog(before: Session, after: Session)
    requires SessionOk(before) && SessionOk(after) && LogExtends(before, after) && after.lastSeq == before.lastSeq
    ensures after.log == before.log
  {
    forall k ensures k in after.log <==> k in before.log {
      assert k in before.log <==> 1 <= k <= before.lastSeq;
    }
    assert after.log.Keys == before.log.Keys;
    forall k | k in before.log ensures after.log[k] == before.log[k] {
      assert k in after.log;
    }
    assert after.log == before.log;
  }

  /** The logs, numbers and threads of all sessions. */
  ghost predicate SameSessionLogs(before: map<string, Session>, after: map<string, Session>) {
    && after.Keys == before.Keys
    && forall s :: s in after ==>
         after[s].lastSeq == before[s].lastSeq && after[s].log == before[s].log
             && after[s].threadId == before[s].threadId
  }

  /** An import that changes no run changes no session log. */
  lemma IdleImport(db: Db, end: Db, ds: seq<Arrival>)
    requires DbOk(db) && DbOk(end) && Extends(db, end) && History(db, end, ds) && AllHomed(db.sessions, ds)
    requires end.runs == db.runs
    ensures SameSessionLogs(db.sessions, end.sessions)
  {
    var xs := AllTurns(db.sessions, ds);
    IdleExact(db.runs, xs);
    forall s | s in end.sessions
      ensures end.sessions[s].lastSeq == db.sessions[s].lastSeq && end.sessions[s].log == db.sessions[s].log
    {
      IdleChangesNone(db.runs, xs, s);
      SameLog(db.sessions[s], end.sessions[s]);
    }
  }

  /** A later import of the same threads, from the same runs and sessions. */
  lemma NextImport(db: Db, ds: seq<Arrival>, again: Db, es: seq<Arrival>)
    requires DbOk(db) && ImportAll(db, ds).Ok? && DbOk(again)
    requires again.runs == ImportAll(db, ds).value.runs && again.sessions == ImportAll(db, ds).value.sessions
    requires SameThreads(ds, es) && ImportAll(again, es).Ok?
    ensures var end, xs := ImportAll(again, es).value, AllTurns(db.sessions, ds);
            && again.runs == Pass(db.runs, xs) && end.runs == Pass(again.runs, xs) && AllFit(db.runs, xs)
            && AllTurns(again.sessions, es) == xs
            && DbOk(end) && Extends(again, end) && History(again, end, es) && AllHomed(again.sessions, es)
  {
    ImportHistory(db, ds);
    ImportHistory(again, es);
    AllTurnsStable(db.sessions, again.sessions, es);
    SameTurns(db.sessions, ds, es);
  }

  /** Import converges. The same threads, imported again under any batch numbers, snapshot and job,
      change no run and no run event if and only if no two of their turns collided on a row of the
      store before the first import; and then no session log changes either. */
  lemma ImportConverges(db: Db, ds: seq<Arrival>, again: Db, es: seq<Arrival>)
    requires DbOk(db) && ImportAll(db, ds).Ok? && DistinctTurns(AllTurns(db.sessions, ds))
    requires DbOk(again) && again.runs == ImportAll(db, ds).value.runs
    requires again.sessions == ImportAll(db, ds).value.sessions
    requires SameThreads(ds, es) && ImportAll(again, es).Ok?
    ensures ImportAll(again, es).value.runs == again.runs <==> NoCollision(db.runs, AllTurns(db.sessions, ds))
    ensures ImportAll(again, es).value.runs == again.runs
            ==> SameSessionLogs(again.sessions, ImportAll(again, es).value.sessions)
  {
    NextImport(db, ds, again, es);
    ReimportExact(db.runs, AllTurns(db.sessions, ds));
    if ImportAll(again, es).value.runs == again.runs { IdleImport(again, ImportAll(again, es).value, es); }
  }

  /** ... and whatever collided, the third import of the same threads changes no run, no run event and no
      session log: two imports always reach the fixed point. */
  lemma ImportSettles(db: Db, ds: seq<Arrival>, again: Db, es: seq<Arrival>, third: Db, fs: seq<Arrival>)
    requires DbOk(db) && ImportAll(db, ds).Ok? && DistinctTurns(AllTurns(db.sessions, ds))
    requires DbOk(again) && again.runs == ImportAll(db, ds).value.runs
    requires again.sessions == ImportAll(db, ds).value.sessions
    requires SameThreads(ds, es) && ImportAll(again, es).Ok?
    requires DbOk(third) && third.runs == ImportAll(again, es).value.runs
    requires third.sessions == ImportAll(again, es).value.sessions
    requires SameThreads(es, fs) && ImportAll(third, fs).Ok?
    ensures ImportAll(third, fs).value.runs == third.runs
    ensures SameSessionLogs(third.sessions, ImportAll(third, fs).value.sessions)
  {
    NextImport(db, ds, again, es);
    NextImport(again, es, third, fs);
    ReimportSettles(db.runs, AllTurns(db.sessions, ds));
    IdleImport(third, ImportAll(third, fs).value, fs);
  }

  /* ---- a collision ---- */

  lemma TwoWrites(runs: map<string, Run>, x: Import, y: Import)
    ensures Pass(runs, [x, y]) == Write(Write(runs, x), y)
    ensures AllFit(runs, [x, y]) <==> Fits(runs, x) && Fits(Write(runs, x), y)
  {
    assert [x, y][1..] == [y] && [y][1..] == [];
    assert Pass(Write(runs, x), [y]) == Pass(Write(Write(runs, x), y), []);
    assert AllFit(Write(runs, x), [y]) <==> Fits(Write(runs, x), y);
  }

  lemma OneRowFits(runs: map<string, Run>, x: Import, t: string)
    requires runs.Keys == {t} && Slot(runs, x) == t
    ensures Fits(runs, x)
  {
  }

  /** The table holds one row, named after turn y. */
  ghost predicate OnlyRow(runs: map<string, Run>, y: Import) { runs.Keys == {IdOf(y)} }

  /** It holds turn x: then x is imported into it, and y into it again. */
  lemma CollisionFirst(runs: map<string, Run>, x: Import, y: Import)
    requires OnlyRow(runs, y) && x.turn.id != y.turn.id && x.turn.id != "" && y.turn.id != ""
    requires runs[IdOf(y)].turnId == Some(x.turn.id)
    ensures var next := Pass(runs, [x, y]);
            AllFit(runs, [x, y]) && OnlyRow(next, y) && next[IdOf(y)].turnId == Some(y.turn.id)
              && Matches(next[IdOf(y)], y)
  {
    var t := IdOf(y);
    DistinctIds(x, y);
    TwoWrites(runs, x, y);
    assert HoldsTurn(runs, t, x.turn.id);
    TargetIs(runs, x, t);
    OneRowFits(runs, x, t);
    WriteShape(runs, x);
    var mid := Write(runs, x);
    OwnTarget(runs, x);
    TargetIs(mid, y, t);
    OneRowFits(mid, y, t);
    MatchesOnlyOne(mid[t], x, y);
    WriteShape(mid, y);
  }

  /** It holds turn y and its contents: then x gets a row of its own. */
  lemma CollisionSecond(runs: map<string, Run>, x: Import, y: Import)
    requires OnlyRow(runs, y) && x.turn.id != y.turn.id && x.turn.id != ""
    requires runs[IdOf(y)].turnId == Some(y.turn.id) && Matches(runs[IdOf(y)], y)
    ensures AllFit(runs, [x, y]) && Pass(runs, [x, y]).Keys == {IdOf(x), IdOf(y)}
  {
    DistinctIds(x, y);
    TwoWrites(runs, x, y);
    assert forall t :: !HoldsTurn(runs, t, x.turn.id);
    TargetCases(runs, x);
    assert Fits(runs, x) && UniqueTurns(runs);
    WriteShape(runs, x);
    var mid := Write(runs, x);
    TargetIs(mid, y, IdOf(y));
    assert mid[IdOf(y)] == runs[IdOf(y)];
  }

  /** For any two turns: a row named after y that holds x. The first import of x and y leaves only y; the
      second still changes the table, by giving x a row of its own; the third changes nothing. */
  lemma CollisionExample(runs: map<string, Run>, x: Import, y: Import)
    requires OnlyRow(runs, y) && x.turn.id != y.turn.id && x.turn.id != "" && y.turn.id != ""
    requires runs[IdOf(y)].turnId == Some(x.turn.id)
    ensures var once := Pass(runs, [x, y]);
            var twice := Pass(once, [x, y]);
            && AllFit(runs, [x, y]) && AllFit(once, [x, y])
            && once.Keys == {IdOf(y)} && twice.Keys == {IdOf(x), IdOf(y)} && Pass(twice, [x, y]) == twice
  {
    CollisionFirst(runs, x, y);
    CollisionSecond(Pass(runs, [x, y]), x, y);
    assert UniqueTurns(runs) && DistinctTurns([x, y]);
    ReimportSettles(runs, [x, y]);
  }

  /* ---- when a batch is accepted ---- */

  /** No run carries an idempotency key, so no key can clash. */
  ghost predicate Keyless(runs: map<string, Run>) { forall r :: r in runs ==> runs[r].idem.None? }

  lemma RewriteAccepted(db: Db, x: Import, t: string, now: Time)
    requires SessionsOk(db.sessions) && x.session in db.sessions && Keyless(db.runs)
    requires x.turn.id != "" ==> !TurnClash(db.runs, t, x.turn.id)
    ensures var out := RewriteRun(db, RunOf(x.thread, x.turn), x.session, StatusOf(x), t, now);
            out.Ok? && Keyless(out.value.runs) && SessionsOk(out.value.sessions) && x.session in out.value.sessions
  {
    MatchesWritten(None, x);
    RewriteTaken(db, RunOf(x.thread, x.turn), x.session, StatusOf(x), t, now);
  }

  lemma RewriteTaken(db: Db, r: BatchRun, session: string, status: Status, t: string, now: Time)
    requires SessionsOk(db.sessions) && session in db.sessions && Keyless(db.runs)
    requires r.turnId != "" ==> !TurnClash(db.runs, t, r.turnId)
    requires |r.events| > 0 && EventRows(r.events).Ok?
    ensures var out := RewriteRun(db, r, session, status, t, now);
            out.Ok? && Keyless(out.value.runs) && SessionsOk(out.value.sessions) && session in out.value.sessions
  {
    LogSessionEventOk(db.sessions, session, SessionEvent(SessionKindFor(status), t, status), now);
  }

  lemma ImportRunAccepted(db: Db, x: Import, ids: map<string, string>, now: Time)
    requires SessionsOk(db.sessions) && x.session in db.sessions && Keyless(db.runs) && Fits(db.runs, x)
    requires SessionFor(ids, SessionIdOf(x.thread)) == x.session
    ensures var out := ImportRun(db, RunOf(x.thread, x.turn), ids, now);
            out.Ok? && Keyless(out.value.0.runs) && SessionsOk(out.value.0.sessions)
                && x.session in out.value.0.sessions
  {
    AcceptedIf(NeedsImport(db.runs, RunOf(x.thread, x.turn), x.session, StatusOf(x)), db, x, now);
  }

  lemma AcceptedIf(changed: bool, db: Db, x: Import, now: Time)
    requires SessionsOk(db.sessions) && x.session in db.sessions && Keyless(db.runs) && Fits(db.runs, x)
    requires changed <==> Needs(db.runs, x)
    ensures var out := ImportIf(changed, db, RunOf(x.thread, x.turn), x.session, StatusOf(x), now);
            out.Ok? && Keyless(out.value.runs) && SessionsOk(out.value.sessions) && x.session in out.value.sessions
  {
    if changed { RewriteAccepted(db, x, Slot(db.runs, x), now); }
  }

  lemma {:induction false} ImportRunsAccepted(db: Db, thread: Thread, turns: seq<Turn>, ids: map<string, string>,
                                              now: Time)
    requires var s := SessionFor(ids, SessionIdOf(thread));
             s in db.sessions && AllFit(db.runs, ImportsOf(thread, turns, s))
    requires SessionsOk(db.sessions) && Keyless(db.runs)
    ensures var out := ImportRuns(db, RunsOf(thread, turns), ids, now); out.Ok? && Keyless(out.value.0.runs)
    decreases |turns|
  {
    if turns != [] {
      if TerminalTurn(turns[0].status) {
        var s := SessionFor(ids, SessionIdOf(thread));
        var rs, xs := RunsOf(thread, turns[1..]), ImportsOf(thread, turns[1..], s);
        assert ([RunOf(thread, turns[0])] + rs)[1..] == rs && ([Import(thread, turns[0], s)] + xs)[1..] == xs;
        ImportRunAccepted(db, Import(thread, turns[0], s), ids, now);
        ImportRunCases(db, Import(thread, turns[0], s), ids, now);
        ImportRunsAccepted(ImportRun(db, RunOf(thread, turns[0]), ids, now).value.0, thread, turns[1..], ids, now);
      } else {
        ImportRunsAccepted(db, thread, turns[1..], ids, now);
      }
    }
  }

  /** A batch that names its thread's project, for the only job there is. */
  lemma CommitAccepted(db: Db, d: Arrival)
    requires DbOk(db) && Keyless(db.runs) && db.jobs.Keys == {d.payload.syncId}
    requires d.payload.project.Some? && d.payload.thread.Some?
    requires d.payload.thread.value.projectId == d.payload.project.value.id && d.payload.thread.value.id != ""
    requires AllFit(db.runs, TurnsIn(db.sessions, d.payload))
    ensures Commit(db, d).Ok? && Keyless(Commit(db, d).value.runs)
  {
    var p, b, thread := d.payload, BatchOf(d.payload), d.payload.thread.value;
    var named := db.(projects := ImportProjects(db.projects, b.projects, b.snapshotId, d.now));
    ImportProjectsGrows(db.projects, b.projects, b.snapshotId, d.now);
    assert DbOk(named) && thread.projectId in named.projects;
    PlaceAccepted(named, p, d.now);
    PlaceCases(named, p, d.now);
    var placed := ImportSessions(named, b.sessions, b.snapshotId, map[], d.now).value;
    ImportRunsAccepted(placed.0, thread, thread.turns, placed.1, d.now);
    CommitShape(db, d, named, placed);
  }

  /** What a commit comes to once its sessions are placed. */
  lemma CommitShape(db: Db, d: Arrival, named: Db, placed: (Db, map<string, string>))
    requires d.payload.thread.Some? && db.jobs.Keys == {d.payload.syncId}
    requires var b := BatchOf(d.payload);
             && named == db.(projects := ImportProjects(db.projects, b.projects, b.snapshotId, d.now))
             && ImportSessions(named, b.sessions, b.snapshotId, map[], d.now) == Ok(placed)
    requires ImportRuns(placed.0, BatchOf(d.payload).runs, placed.1, d.now).Ok?
    ensures Commit(db, d).Ok?
    ensures Commit(db, d).value.runs == ImportRuns(placed.0, BatchOf(d.payload).runs, placed.1, d.now).value.0.runs
  {
  }

  lemma PlaceAccepted(db: Db, p: BatchPayload, now: Time)
    requires DbOk(db) && p.thread.Some? && p.thread.value.projectId in db.projects && p.thread.value.id != ""
    ensures var out := ImportSessions(db, BatchOf(p).sessions, p.snapshotId, map[], now);
            && out.Ok? && SessionsOk(out.value.0.sessions)
            && Home(db.sessions, p.thread.value) in out.value.0.sessions
  {
    var thread := p.thread.value;
    var v := SessionOf(thread);
    InsertSessionCases(db, thread, now);
    ImportSessionKeeps(db, v, p.snapshotId, now);
    var first := ImportSession(db, v, p.snapshotId, now);
    assert first.Ok?;
    assert ImportSessions(db, BatchOf(p).sessions, p.snapshotId, map[], now)
      == Ok((first.value.0, map[v.id := first.value.1]));
  }
}
