/** What every transaction of the runtime store keeps. */
module StoreInvariant {
  import opened RuntimeTypes
  import opened RuntimeStore
  import opened Bootstrap

  /* ---- rows ---- */

  predicate Waiting(status: Status) { status == Queued || status == Dispatching }

  ghost predicate HasBearing(run: Run) { exists k :: k in run.events && Bears(run.events[k].kind) }

  /** The watermarks and the status of a run row agree with its persisted events. */
  ghost predicate RunOk(run: Run) {
    && run.persisted >= 0
    && (forall k :: k in run.events ==> 1 <= k <= run.persisted)
    && (run.persisted == 0 || run.persisted in run.events)
    && (run.final.Some? ==> run.final.value in run.events && Ends(run.events[run.final.value].kind))
    && (IsTerminal(run.status) ==> run.final.Some?)
    && (Waiting(run.status) <==> !HasBearing(run))
    && (Waiting(run.status) || exists k :: k in run.events && StatusForEvent(run.events[k].kind) == Some(run.status))
  }

  /** A session log is numbered 1, 2, ..., lastSeq with no gap. */
  ghost predicate SessionOk(s: Session) {
    s.lastSeq >= 0 && forall k :: k in s.log <==> 1 <= k <= s.lastSeq
  }

  ghost predicate RunsOk(runs: map<string, Run>) { forall r :: r in runs ==> RunOk(runs[r]) }

  ghost predicate SessionsOk(sessions: map<string, Session>) { forall s :: s in sessions ==> SessionOk(sessions[s]) }

  ghost predicate Placed(runs: map<string, Run>, sessions: map<string, Session>) {
    forall r :: r in runs ==> runs[r].sessionId in sessions
  }

  ghost predicate Owned(sessions: map<string, Session>, projects: map<string, Project>) {
    forall s :: s in sessions ==> sessions[s].projectId in projects
  }

  ghost predicate UniqueTurns(runs: map<string, Run>) {
    forall a, b, t :: HoldsTurn(runs, a, t) && HoldsTurn(runs, b, t) ==> a == b
  }

  ghost predicate UniqueKeys(runs: map<string, Run>) {
    forall a, b, s, k :: HoldsKey(runs, a, s, k) && HoldsKey(runs, b, s, k) ==> a == b
  }

  ghost predicate UniqueThreads(sessions: map<string, Session>) {
    forall a, b, t :: HoldsThread(sessions, a, t) && HoldsThread(sessions, b, t) ==> a == b
  }

  ghost predicate UniqueCommands(outbox: map<string, Command>) {
    forall a, b, k, x :: HasCommand(outbox, a, k, x) && HasCommand(outbox, b, k, x) ==> a == b
  }

  /** The invariant of the store: row consistency, foreign keys and unique indexes. */
  ghost predicate DbOk(db: Db) {
    && RunsOk(db.runs) && SessionsOk(db.sessions)
    && Placed(db.runs, db.sessions) && Owned(db.sessions, db.projects)
    && UniqueTurns(db.runs) && UniqueKeys(db.runs) && UniqueThreads(db.sessions) && UniqueCommands(db.outbox)
  }

  ghost predicate RunsKept(before: map<string, Run>, after: map<string, Run>) {
    forall r :: r in before ==> r in after && after[r].idem == before[r].idem
  }

  ghost predicate LogsKept(before: map<string, Session>, after: map<string, Session>) {
    forall s :: s in before ==> s in after && LogExtends(before[s], after[s])
  }

  ghost predicate CommandsKept(before: map<string, Command>, after: map<string, Command>) {
    forall c :: c in before ==> c in after && SameCommand(before[c], after[c])
  }

  /** Rows are never deleted, and a session log only ever grows at its end. */
  ghost predicate Extends(before: Db, after: Db) {
    && before.projects.Keys <= after.projects.Keys
    && before.jobs.Keys <= after.jobs.Keys
    && RunsKept(before.runs, after.runs)
    && LogsKept(before.sessions, after.sessions)
    && CommandsKept(before.outbox, after.outbox)
  }

  ghost predicate LogExtends(before: Session, after: Session) {
    && before.lastSeq <= after.lastSeq
    && (forall k :: k in before.log ==> k in after.log && after.log[k] == before.log[k])
  }

  predicate SameCommand(before: Command, after: Command) {
    before.kind == after.kind && before.resource == after.resource
  }

  lemma ExtendsTrans(a: Db, b: Db, c: Db)
    requires Extends(a, b) && Extends(b, c)
    ensures Extends(a, c)
  {
  }

  /* ---- building blocks ---- */

  lemma AppendedRowOk(run: Run, n: int, e: RunEvent, now: Time)
    requires RunOk(run) && n >= 1 && n !in run.events
    ensures RunOk(AppendedRow(run, n, e, now))
  {
    var next := AppendedRow(run, n, e, now);
    assert n in next.events && next.events[n].kind == e.kind;
    if Bears(e.kind) {
      assert StatusForEvent(next.events[n].kind) == Some(next.status);
    } else if HasBearing(run) {
      var k :| k in run.events && Bears(run.events[k].kind);
      assert k in next.events && Bears(next.events[k].kind);
      var j :| j in run.events && StatusForEvent(run.events[j].kind) == Some(run.status);
      assert next.events[j] == run.events[j];
    } else {
      forall k | k in next.events ensures !Bears(next.events[k].kind) {
        if k != n { assert k in run.events; }
      }
    }
  }

  lemma SameLogOk(run: Run, next: Run)
    requires RunOk(run)
    requires next.events == run.events && next.status == run.status
    requires next.persisted == run.persisted && next.final == run.final
    ensures RunOk(next)
  {
    assert HasBearing(next) <==> HasBearing(run);
  }

  lemma DispatchedRowOk(run: Run)
    requires RunOk(run)
    ensures RunOk(DispatchedRow(run))
  {
    var next := DispatchedRow(run);
    assert HasBearing(next) <==> HasBearing(run);
  }

  lemma {:induction false} EventRowsContents(es: seq<BatchEvent>)
    requires EventRows(es).Ok?
    ensures var m := EventRows(es).value;
            && m.Keys == (set i | 0 <= i < |es| :: es[i].sequence)
            && (forall i :: 0 <= i < |es| ==> es[i].sequence >= 1 && m[es[i].sequence] == Stored(es[i].event))
  {
    if es != [] {
      var front := es[..|es| - 1];
      EventRowsContents(front);
      var m := EventRows(front).value;
      forall i | 0 <= i < |es| - 1 ensures es[i].sequence in m && m[es[i].sequence] == Stored(es[i].event) {
        assert front[i] == es[i];
      }
      var all := set i | 0 <= i < |es| :: es[i].sequence;
      forall k ensures k in EventRows(es).value <==> k in all {
        if k in m {
          var i :| 0 <= i < |front| && front[i].sequence == k;
          assert es[i].sequence == k;
        }
        if k in all {
          var i :| 0 <= i < |es| && es[i].sequence == k;
          if i < |es| - 1 { assert front[i].sequence == k; }
        }
      }
    }
  }

  /** The shape bootstrapBatch gives every run: numbered 1..n, closed by the terminal event. */
  ghost predicate WellNumbered(r: BatchRun) {
    && |r.events| > 0
    && (forall i :: 0 <= i < |r.events| ==> r.events[i].sequence == i + 1)
    && (ImportedStatus(r.status).Some? ==>
          StatusForEvent(r.events[|r.events| - 1].event.kind) == ImportedStatus(r.status))
  }

  lemma RunOfWellNumbered(thread: Thread, turn: Turn)
    requires TerminalTurn(turn.status)
    ensures WellNumbered(RunOf(thread, turn)) && ImportedStatus(turn.status).Some?
  {
  }

  lemma {:induction false} RunsOfWellNumbered(thread: Thread, turns: seq<Turn>)
    ensures forall i :: 0 <= i < |RunsOf(thread, turns)| ==>
              WellNumbered(RunsOf(thread, turns)[i]) && ImportedStatus(RunsOf(thread, turns)[i].status).Some?
  {
    if turns != [] {
      RunsOfWellNumbered(thread, turns[1..]);
      if TerminalTurn(turns[0].status) { RunOfWellNumbered(thread, turns[0]); }
    }
  }

  lemma ImportedRowOk(prior: Option<Run>, r: BatchRun, session: string, status: Status)
    requires WellNumbered(r) && ImportedStatus(r.status) == Some(status) && EventRows(r.events).Ok?
    ensures RunOk(ImportedRow(prior, r, session, status, EventRows(r.events).value))
    ensures HasBearing(ImportedRow(prior, r, session, status, EventRows(r.events).value))
  {
    EventRowsContents(r.events);
    var next := ImportedRow(prior, r, session, status, EventRows(r.events).value);
    var n := |r.events|;
    assert r.events[n - 1].sequence == n;
    assert n in next.events && StatusForEvent(next.events[n].kind) == Some(status);
    forall k | k in next.events ensures 1 <= k <= n {
      var i :| 0 <= i < n && r.events[i].sequence == k;
    }
  }

  lemma LogSessionEventOk(sessions: map<string, Session>, s: string, e: SessionEvent, now: Time)
    requires s in sessions && SessionsOk(sessions)
    ensures var out := LogSessionEvent(sessions, s, e, now);
            && out.Ok?
            && SessionsOk(out.value)
            && LogsKept(sessions, out.value)
  {
  }

  /* ---- transactions ---- */

  ghost predicate Keeps(before: Db, after: Db) { DbOk(after) && Extends(before, after) }

  lemma {:induction false} UpsertProjectsKeeps(db: Db, ps: seq<BatchProject>, now: Time)
    requires DbOk(db)
    ensures Keeps(db, UpsertProjects(db, ps, now))
    decreases |ps|
  {
    if ps != [] {
      if IsBlank(ps[0].id) || IsBlank(ps[0].name) {
        UpsertProjectsKeeps(db, ps[1..], now);
      } else {
        var row := Project(ps[0].name, if ps[0].id in db.projects then db.projects[ps[0].id].lastSeen else None, None,
                           now);
        var next := db.(projects := db.projects[ps[0].id := row]);
        assert Keeps(db, next);
        UpsertProjectsKeeps(next, ps[1..], now);
        ExtendsTrans(db, next, UpsertProjects(db, ps, now));
      }
    }
  }

  lemma CreateSessionKeeps(db: Db, id: string, project: string, title: string, key: string, hash: string, now: Time)
    requires DbOk(db)
    ensures var out := CreateSession(db, id, project, title, key, hash, now); out.Ok? ==> Keeps(db, out.value.0)
  {
    var out := CreateSession(db, id, project, title, key, hash, now);
    if out.Ok? && out.value.0 != db {
      var sessions := out.value.0.sessions;
      forall a, b, t | HoldsThread(sessions, a, t) && HoldsThread(sessions, b, t) ensures a == b {
        assert HoldsThread(db.sessions, a, t) && HoldsThread(db.sessions, b, t);
      }
    }
  }

  /** A rewrite of one run row that moves neither its session, its turn nor its key. */
  lemma RunUpdateKeeps(db: Db, r: string, row: Run)
    requires DbOk(db) && r in db.runs && RunOk(row)
    requires row.sessionId == db.runs[r].sessionId && row.turnId == db.runs[r].turnId && row.idem == db.runs[r].idem
    ensures Keeps(db, db.(runs := db.runs[r := row]))
  {
    var runs := db.runs[r := row];
    forall a, b, t | HoldsTurn(runs, a, t) && HoldsTurn(runs, b, t) ensures a == b {
      assert HoldsTurn(db.runs, a, t) && HoldsTurn(db.runs, b, t);
    }
    forall a, b, s, k | HoldsKey(runs, a, s, k) && HoldsKey(runs, b, s, k) ensures a == b {
      assert HoldsKey(db.runs, a, s, k) && HoldsKey(db.runs, b, s, k);
    }
  }

  /** A rewrite of one command row that keeps its kind and resource. */
  lemma CommandUpdateKeeps(db: Db, c: string, row: Command)
    requires DbOk(db) && c in db.outbox && SameCommand(db.outbox[c], row)
    ensures Keeps(db, db.(outbox := db.outbox[c := row]))
  {
    var outbox := db.outbox[c := row];
    forall a, b, k, x | HasCommand(outbox, a, k, x) && HasCommand(outbox, b, k, x) ensures a == b {
      assert HasCommand(db.outbox, a, k, x) && HasCommand(db.outbox, b, k, x);
    }
  }

  lemma CommandInsertKeeps(db: Db, c: string, row: Command)
    requires DbOk(db) && !CommandTaken(db.outbox, c, row.kind, row.resource)
    ensures Keeps(db, db.(outbox := db.outbox[c := row]))
  {
    var outbox := db.outbox[c := row];
    forall a, b, k, x | HasCommand(outbox, a, k, x) && HasCommand(outbox, b, k, x) ensures a == b {
      if a != c && b != c { assert HasCommand(db.outbox, a, k, x) && HasCommand(db.outbox, b, k, x); }
      else if a != b { assert HasCommand(db.outbox, if a == c then b else a, row.kind, row.resource); }
    }
  }

  lemma CancelRowKeeps(db: Db, r: string, now: Time)
    requires DbOk(db) && r in db.runs
    ensures Keeps(db, db.(runs := db.runs[r := CancelRow(db.runs[r], now)]))
  {
    SameLogOk(db.runs[r], CancelRow(db.runs[r], now));
    RunUpdateKeeps(db, r, CancelRow(db.runs[r], now));
  }

  lemma RequestCancelKeeps(db: Db, r: string, commandId: string, now: Time)
    requires DbOk(db)
    ensures var out := RequestCancel(db, r, commandId, now); out.Ok? ==> Keeps(db, out.value)
  {
    var out := RequestCancel(db, r, commandId, now);
    if out.Ok? && out.value != db {
      CancelRowKeeps(db, r, now);
      var mid := db.(runs := db.runs[r := CancelRow(db.runs[r], now)]);
      if out.value != mid {
        var cmd := FreshCommand(RunCancel, r, now);
        assert out.value == mid.(outbox := mid.outbox[commandId := cmd]);
        CommandInsertKeeps(mid, commandId, cmd);
        ExtendsTrans(db, mid, out.value);
      }
    }
  }

  lemma ClaimOneKeeps(db: Db, c: string, now: Time)
    requires DbOk(db) && c in db.outbox
    ensures Keeps(db, ClaimOne(db, c, now))
  {
    CommandUpdateKeeps(db, c, ClaimedRow(db.outbox[c], now));
    var mid := db.(outbox := db.outbox[c := ClaimedRow(db.outbox[c], now)]);
    var r := db.outbox[c].resource;
    if db.outbox[c].kind == RunStart && r in db.runs {
      DispatchedRowOk(db.runs[r]);
      RunUpdateKeeps(mid, r, DispatchedRow(db.runs[r]));
      ExtendsTrans(db, mid, ClaimOne(db, c, now));
    }
  }

  lemma {:induction false} ClaimCommandsKeeps(db: Db, chosen: seq<string>, now: Time)
    requires DbOk(db) && forall i :: 0 <= i < |chosen| ==> chosen[i] in db.outbox
    ensures Keeps(db, ClaimCommands(db, chosen, now))
    decreases |chosen|
  {
    if chosen != [] {
      ClaimOneKeeps(db, chosen[0], now);
      ClaimCommandsKeeps(ClaimOne(db, chosen[0], now), chosen[1..], now);
      ExtendsTrans(db, ClaimOne(db, chosen[0], now), ClaimCommands(db, chosen, now));
    }
  }

  lemma MarkAndReleaseKeep(db: Db, c: string, now: Time)
    requires DbOk(db)
    ensures Keeps(db, MarkCommandDelivered(db, c)) && Keeps(db, ReleaseCommand(db, c, now))
  {
    if c in db.outbox {
      CommandUpdateKeeps(db, c, db.outbox[c].(status := Delivered, claimExpiresAt := None));
      CommandUpdateKeeps(db, c,
                         db.outbox[c].(status := Pending, nextAttemptAt := now + SECOND, claimExpiresAt := None));
    }
  }

  lemma CreateSyncJobKeeps(db: Db, id: string, commandId: string, key: string, now: Time)
    requires DbOk(db)
    ensures var out := CreateSyncJob(db, id, commandId, key, now); out.Ok? ==> Keeps(db, out.value.0)
  {
    var out := CreateSyncJob(db, id, commandId, key, now);
    if out.Ok? && out.value.0 != db {
      CommandInsertKeeps(db, commandId, FreshCommand(BootstrapStart, id, now));
    }
  }

  /** The session table after an event: one session adopted a thread, perhaps, and one log grew. */
  lemma AdoptThreadOk(db: Db, s: string, thread: string, now: Time)
    requires DbOk(db) && s in db.sessions
    ensures var out := AdoptThread(db.sessions, s, thread, now);
            out.Ok? ==> Keeps(db, db.(sessions := out.value))
  {
    var out := AdoptThread(db.sessions, s, thread, now);
    if out.Ok? {
      var sessions := out.value;
      forall a, b, t | HoldsThread(sessions, a, t) && HoldsThread(sessions, b, t) ensures a == b {
        if db.sessions[s].threadId.Some? || (a != s && b != s) {
          assert HoldsThread(db.sessions, a, t) && HoldsThread(db.sessions, b, t);
        } else {
          assert t == thread && !HoldsThread(db.sessions, a, t) && !HoldsThread(db.sessions, b, t);
        }
      }
    }
  }

  lemma LoggedKeeps(db: Db, s: string, e: SessionEvent, now: Time)
    requires DbOk(db) && s in db.sessions
    ensures var out := LogSessionEvent(db.sessions, s, e, now); out.Ok? && Keeps(db, db.(sessions := out.value))
  {
    LogSessionEventOk(db.sessions, s, e, now);
    var sessions := LogSessionEvent(db.sessions, s, e, now).value;
    forall a, b, t | HoldsThread(sessions, a, t) && HoldsThread(sessions, b, t) ensures a == b {
      assert HoldsThread(db.sessions, a, t) && HoldsThread(db.sessions, b, t);
    }
  }

  /** Replacing a run row, free to move its session and turn as far as the unique indexes allow. */
  lemma RunReplaceKeeps(db: Db, r: string, row: Run)
    requires DbOk(db) && RunOk(row) && row.sessionId in db.sessions
    requires row.turnId.Some? ==> !TurnClash(db.runs, r, row.turnId.value)
    requires !KeyClash(db.runs, r, row.sessionId, row.idem)
    requires r in db.runs ==> row.idem == db.runs[r].idem
    ensures Keeps(db, db.(runs := db.runs[r := row]))
  {
    var runs := db.runs[r := row];
    forall a, b, t | HoldsTurn(runs, a, t) && HoldsTurn(runs, b, t) ensures a == b {
      if a != r && b != r { assert HoldsTurn(db.runs, a, t) && HoldsTurn(db.runs, b, t); }
      else if a != b { assert HoldsTurn(db.runs, if a == r then b else a, t); }
    }
    forall a, b, s, k | HoldsKey(runs, a, s, k) && HoldsKey(runs, b, s, k) ensures a == b {
      if a != r && b != r { assert HoldsKey(db.runs, a, s, k) && HoldsKey(db.runs, b, s, k); }
      else if a != b { assert HoldsKey(db.runs, if a == r then b else a, row.sessionId, row.idem.value.key); }
    }
  }

  lemma CreateRunKeeps(db: Db, session: string, prompt: string, profile: string, key: string, hash: string,
                       runId: string, commandId: string, now: Time)
    requires DbOk(db)
    ensures var out := CreateRunCommit(db, session, prompt, profile, key, hash, runId, commandId, now);
            out.Ok? ==> Keeps(db, out.value.0)
  {
    var out := CreateRunCommit(db, session, prompt, profile, key, hash, runId, commandId, now);
    if out.Ok? && CreateRunLookup(db, session, key, hash).None? {
      var row := FreshRun(session, prompt, profile, key, hash);
      var written := db.(runs := db.runs[runId := row]);
      FreshRunKeeps(db, runId, session, prompt, profile, key, hash);
      LoggedKeeps(written, session, SessionEvent(RunCreated, runId, Queued), now);
      var logged :=
        written.(sessions := LogSessionEvent(db.sessions, session, SessionEvent(RunCreated, runId, Queued), now).value);
      ExtendsTrans(db, written, logged);
      CommandInsertKeeps(logged, commandId, FreshCommand(RunStart, runId, now));
      ExtendsTrans(db, logged, out.value.0);
    }
  }

  lemma FreshRunKeeps(db: Db, runId: string, session: string, prompt: string, profile: string, key: string,
                      hash: string)
    requires DbOk(db) && runId !in db.runs && session in db.sessions && KeyHolder(db.runs, session, key).None?
    ensures Keeps(db, db.(runs := db.runs[runId := FreshRun(session, prompt, profile, key, hash)]))
  {
    var row := FreshRun(session, prompt, profile, key, hash);
    assert !HasBearing(row);
    RunReplaceKeeps(db, runId, row);
  }

  lemma AppendedRunKeeps(db: Db, r: string, n: int, e: RunEvent, now: Time)
    requires DbOk(db) && r in db.runs && n >= 1 && n !in db.runs[r].events
    requires e.kind == TurnStarted ==> !TurnClash(db.runs, r, TurnOf(e.payload))
    ensures Keeps(db, db.(runs := db.runs[r := AppendedRow(db.runs[r], n, e, now)]))
  {
    var row := AppendedRow(db.runs[r], n, e, now);
    AppendedRowOk(db.runs[r], n, e, now);
    if row.idem.Some? { assert HoldsKey(db.runs, r, row.sessionId, row.idem.value.key); }
    if e.kind != TurnStarted && row.turnId.Some? { assert HoldsTurn(db.runs, r, row.turnId.value); }
    RunReplaceKeeps(db, r, row);
  }

  lemma AppendAgentEventKeeps(db: Db, r: string, n: int, e: RunEvent, now: Time)
    requires DbOk(db)
    ensures var out := AppendAgentEvent(db, r, n, e, now); out.Ok? ==> Keeps(db, out.value)
  {
    var out := AppendAgentEvent(db, r, n, e, now);
    if out.Ok? && out.value != db {
      var s := db.runs[r].sessionId;
      AppendedRunKeeps(db, r, n, e, now);
      var written := db.(runs := db.runs[r := AppendedRow(db.runs[r], n, e, now)]);
      var adopted := written;
      if e.kind == TurnStarted {
        AdoptThreadOk(written, s, ThreadOf(e.payload), now);
        adopted := written.(sessions := AdoptThread(db.sessions, s, ThreadOf(e.payload), now).value);
        ExtendsTrans(db, written, adopted);
      }
      if Bears(e.kind) {
        var status := StatusForEvent(e.kind).value;
        LoggedKeeps(adopted, s, SessionEvent(SessionKindFor(status), r, status), now);
        ExtendsTrans(db, adopted, out.value);
      }
    }
  }

  /* ---- bootstrap ---- */

  lemma {:induction false} ImportProjectsGrows(projects: map<string, Project>, ps: seq<BatchProject>, snapshot: string,
                                               now: Time)
    ensures projects.Keys <= ImportProjects(projects, ps, snapshot, now).Keys
    decreases |ps|
  {
    if ps != [] {
      ImportProjectsGrows(projects[ps[0].id := SeenProject(ps[0], snapshot, now)], ps[1..], snapshot, now);
    }
  }

  lemma InsertSessionKeeps(db: Db, v: BatchSession, now: Time)
    requires DbOk(db)
    ensures var out := InsertSession(db, v, now); out.Ok? ==> Keeps(db, db.(sessions := out.value))
  {
    var out := InsertSession(db, v, now);
    if out.Ok? && !SessionConflict(db.sessions, v) {
      forall a, b, t | HoldsThread(out.value, a, t) && HoldsThread(out.value, b, t) ensures a == b {
        assert HoldsThread(db.sessions, a, t) || (a == v.id && t == v.threadId);
        assert HoldsThread(db.sessions, b, t) || (b == v.id && t == v.threadId);
      }
    }
  }

  /** A session update that keeps thread and log. */
  lemma SessionUpdateKeeps(db: Db, s: string, row: Session)
    requires DbOk(db) && s in db.sessions && row.projectId in db.projects
    requires row.threadId == db.sessions[s].threadId && row.log == db.sessions[s].log
    requires row.lastSeq == db.sessions[s].lastSeq
    ensures Keeps(db, db.(sessions := db.sessions[s := row]))
  {
    var sessions := db.sessions[s := row];
    forall a, b, t | HoldsThread(sessions, a, t) && HoldsThread(sessions, b, t) ensures a == b {
      assert HoldsThread(db.sessions, a, t) && HoldsThread(db.sessions, b, t);
    }
  }

  lemma ImportSessionKeeps(db: Db, v: BatchSession, snapshot: string, now: Time)
    requires DbOk(db)
    ensures var out := ImportSession(db, v, snapshot, now);
            out.Ok? ==> Keeps(db, out.value.0) && out.value.0 == db.(sessions := out.value.0.sessions)
  {
    var out := ImportSession(db, v, snapshot, now);
    if out.Ok? {
      InsertSessionKeeps(db, v, now);
      var mid := db.(sessions := InsertSession(db, v, now).value);
      var s := out.value.1;
      if s in mid.sessions {
        SessionUpdateKeeps(mid, s, out.value.0.sessions[s]);
        ExtendsTrans(db, mid, out.value.0);
      }
    }
  }

  lemma {:induction false} ImportSessionsKeeps(db: Db, vs: seq<BatchSession>, snapshot: string,
                                               ids: map<string, string>, now: Time)
    requires DbOk(db)
    ensures var out := ImportSessions(db, vs, snapshot, ids, now);
            out.Ok? ==> Keeps(db, out.value.0) && out.value.0 == db.(sessions := out.value.0.sessions)
    decreases |vs|
  {
    if vs != [] {
      var first := ImportSession(db, vs[0], snapshot, now);
      ImportSessionKeeps(db, vs[0], snapshot, now);
      if first.Ok? {
        ImportSessionsKeeps(first.value.0, vs[1..], snapshot, ids[vs[0].id := first.value.1], now);
        var out := ImportSessions(db, vs, snapshot, ids, now);
        if out.Ok? { ExtendsTrans(db, first.value.0, out.value.0); }
      }
    }
  }

  lemma RewriteRunKeeps(db: Db, r: BatchRun, session: string, status: Status, target: string, now: Time)
    requires DbOk(db) && WellNumbered(r) && ImportedStatus(r.status) == Some(status)
    ensures var out := RewriteRun(db, r, session, status, target, now); out.Ok? ==> Keeps(db, out.value)
  {
    var out := RewriteRun(db, r, session, status, target, now);
    if out.Ok? {
      var prior := if target in db.runs then Some(db.runs[target]) else None;
      ImportedRowOk(prior, r, session, status);
      var row := ImportedRow(prior, r, session, status, EventRows(r.events).value);
      RunReplaceKeeps(db, target, row);
      var mid := db.(runs := db.runs[target := row]);
      LoggedKeeps(mid, session, SessionEvent(SessionKindFor(status), target, status), now);
      ExtendsTrans(db, mid, out.value);
    }
  }

  /** An import writes the run and session tables only. */
  ghost predicate OnlyLogs(before: Db, after: Db) {
    after == before.(runs := after.runs, sessions := after.sessions)
  }

  lemma ImportIfKeeps(changed: bool, db: Db, r: BatchRun, session: string, status: Status, now: Time)
    requires DbOk(db) && WellNumbered(r) && ImportedStatus(r.status) == Some(status)
    ensures var out := ImportIf(changed, db, r, session, status, now);
            out.Ok? ==> Keeps(db, out.value) && OnlyLogs(db, out.value)
  {
    if changed { RewriteRunKeeps(db, r, session, status, TargetId(db.runs, r), now); }
  }

  lemma ImportRunKeeps(db: Db, r: BatchRun, ids: map<string, string>, now: Time)
    requires DbOk(db) && WellNumbered(r)
    ensures var out := ImportRun(db, r, ids, now); out.Ok? ==> Keeps(db, out.value.0) && OnlyLogs(db, out.value.0)
  {
    if ImportedStatus(r.status).Some? {
      var session, status := SessionFor(ids, r.sessionId), ImportedStatus(r.status).value;
      ImportIfKeeps(NeedsImport(db.runs, r, session, status), db, r, session, status, now);
    }
  }

  lemma {:induction false} ImportRunsKeeps(db: Db, rs: seq<BatchRun>, ids: map<string, string>, now: Time)
    requires DbOk(db) && forall i :: 0 <= i < |rs| ==> WellNumbered(rs[i])
    ensures var out := ImportRuns(db, rs, ids, now); out.Ok? ==> Keeps(db, out.value.0) && OnlyLogs(db, out.value.0)
    decreases |rs|
  {
    if rs != [] {
      ImportRunKeeps(db, rs[0], ids, now);
      var first := ImportRun(db, rs[0], ids, now);
      if first.Ok? {
        ImportRunsKeeps(first.value.0, rs[1..], ids, now);
        var out := ImportRuns(db, rs, ids, now);
        if out.Ok? { ExtendsTrans(db, first.value.0, out.value.0); }
      }
    }
  }

  lemma ReconcileKeeps(db: Db, b: Batch, since: Time, now: Time)
    requires DbOk(db)
    ensures Keeps(db, Reconcile(db, b, since, now).0)
  {
    if Reconciles(b) {
      var sessions := ArchiveSessions(db.sessions, StaleSessions(db, b.snapshotId, since), now);
      forall s | s in sessions ensures SessionOk(sessions[s]) && LogExtends(db.sessions[s], sessions[s]) {
        assert SessionOk(db.sessions[s]);
      }
      forall x, y, t | HoldsThread(sessions, x, t) && HoldsThread(sessions, y, t) ensures x == y {
        assert HoldsThread(db.sessions, x, t) && HoldsThread(db.sessions, y, t);
      }
    }
  }

  lemma CommitBatchKeeps(db: Db, b: Batch, now: Time)
    requires DbOk(db) && b.syncId in db.jobs && forall i :: 0 <= i < |b.runs| ==> WellNumbered(b.runs[i])
    ensures var out := CommitBatch(db, b, now); out.Ok? ==> Keeps(db, out.value)
  {
    var out := CommitBatch(db, b, now);
    if out.Ok? {
      var named := db.(projects := ImportProjects(db.projects, b.projects, b.snapshotId, now));
      ImportProjectsGrows(db.projects, b.projects, b.snapshotId, now);
      assert Keeps(db, named);
      ImportSessionsKeeps(named, b.sessions, b.snapshotId, map[], now);
      var placed := ImportSessions(named, b.sessions, b.snapshotId, map[], now).value;
      ExtendsTrans(db, named, placed.0);
      ImportRunsKeeps(placed.0, b.runs, placed.1, now);
      var imported := ImportRuns(placed.0, b.runs, placed.1, now).value;
      ExtendsTrans(db, placed.0, imported.0);
      ReconcileKeeps(imported.0, b, db.jobs[b.syncId].createdAt, now);
      var reconciled := Reconcile(imported.0, b, db.jobs[b.syncId].createdAt, now).0;
      ExtendsTrans(db, imported.0, reconciled);
      FinishKeeps(db, reconciled, b, out.value);
    }
  }

  lemma FinishKeeps(db: Db, mid: Db, b: Batch, next: Db)
    requires DbOk(mid) && Extends(db, mid) && UniqueCommands(db.outbox)
    requires next == mid.(jobs := next.jobs, outbox := FinishCommand(db.outbox, b)) && db.jobs.Keys <= next.jobs.Keys
    ensures Keeps(db, next)
  {
    forall x, y, k, z | HasCommand(next.outbox, x, k, z) && HasCommand(next.outbox, y, k, z) ensures x == y {
      assert HasCommand(db.outbox, x, k, z) && HasCommand(db.outbox, y, k, z);
    }
  }

  /** Every batch the coordinator builds is well numbered, so applying it keeps the store. */
  lemma ApplyBatchKeeps(db: Db, p: BatchPayload, now: Time)
    requires DbOk(db)
    ensures var out := ApplyBatch(db, BatchOf(p), now); out.Ok? ==> Keeps(db, out.value)
  {
    BatchWellNumbered(p);
    ApplyBatchCases(db, BatchOf(p), now);
    KeepsRefl(db);
    if BatchOf(p).syncId in db.jobs { CommitBatchKeeps(db, BatchOf(p), now); }
  }

  lemma KeepsRefl(db: Db)
    requires DbOk(db)
    ensures Keeps(db, db)
  {
  }

  lemma BatchWellNumbered(p: BatchPayload)
    ensures forall i :: 0 <= i < |BatchOf(p).runs| ==> WellNumbered(BatchOf(p).runs[i])
  {
    if p.thread.Some? { RunsOfWellNumbered(p.thread.value, p.thread.value.turns); }
  }

  /** What is applied is the batch or, on a repetition, nothing. */
  lemma ApplyBatchCases(db: Db, b: Batch, now: Time)
    ensures var out := ApplyBatch(db, b, now);
            out.Ok? ==> out.value == db || (b.syncId in db.jobs && out == CommitBatch(db, b, now))
  {
  }
}
