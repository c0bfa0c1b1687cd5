/** The runtime store as the program has it: tables that its transactions update row by row, with the
    loops over batches, runs and events. Every method is proved against the transaction it performs. */
module PostgresStore {
  import opened RuntimeTypes
  import opened RuntimeStore
  import opened Bootstrap
  import opened StoreInvariant
  import Pages
  import T = TurnContents
  import R = RequestRows

  /* ---- bootstrapBatch ---- */

  /** Scanning the items of a turn with a running sequence number. */
  method TurnRun(thread: Thread, turn: Turn) returns (run: BatchRun)
    ensures run == RunOf(thread, turn) && T.Translates(thread, turn, run)
  {
    T.TurnTranslates(thread, turn);
    var startedAt := if turn.startedAt.Some? then turn.startedAt.value else thread.createdAt;
    var finishedAt := if turn.completedAt.Some? then turn.completedAt.value else thread.updatedAt;
    var prompt := "";
    var events: seq<BatchEvent> := [];
    var sequence := 1;
    var i := 0;
    while i < |turn.items|
      invariant 0 <= i <= |turn.items| && sequence == i + 1
      invariant events == ItemEvents(turn.items[..i], startedAt)
      invariant if prompt == "" then PromptOf(turn.items) == PromptOf(turn.items[i..])
                else PromptOf(turn.items) == prompt
    {
      var item := turn.items[i];
      assert turn.items[i..][0] == item && turn.items[i..][1..] == turn.items[i + 1..];
      if prompt == "" && (item.role == "user" || item.kind == "userMessage") { prompt := item.text; }
      events := events + [BatchEvent(sequence, RunEvent(ItemCompleted, ItemPayload(item), startedAt))];
      assert events == ItemEvents(turn.items[..i + 1], startedAt);
      sequence := sequence + 1;
      i := i + 1;
    }
    assert turn.items[..i] == turn.items && turn.items[i..] == [];
    events := events
      + [BatchEvent(sequence,
                    RunEvent(TerminalKind(turn.status), TurnPayload(thread.id, turn.id, turn.status, turn.failure),
                             finishedAt))];
    run := BatchRun("run_" + turn.id, "session_" + thread.id, turn.id, turn.status, prompt, Some(startedAt),
                    Some(finishedAt), events);
  }

  method BootstrapBatch(p: BatchPayload) returns (b: Batch)
    ensures b == BatchOf(p) && T.SaysBatch(p, b)
  {
    b := ThreadBatch(p);
    T.BatchTranslates(p);
  }

  method ThreadBatch(p: BatchPayload) returns (b: Batch)
    ensures b == BatchOf(p)
  {
    var projects: seq<BatchProject> := [];
    if p.project.Some? { projects := [p.project.value]; }
    b := Batch(p.commandId, p.syncId, p.snapshotId, p.batchNo, p.checksum, p.totalSessions, p.processedSessions,
               p.reconciliationSafe, projects, [], [], p.done);
    if p.thread.None? { return; }
    var thread := p.thread.value;
    var runs := ThreadRuns(thread);
    b := b.(sessions := [BatchSession("session_" + thread.id, thread.projectId, thread.id, thread.title)],
            runs := runs);
  }

  method ThreadRuns(thread: Thread) returns (runs: seq<BatchRun>)
    ensures runs == RunsOf(thread, thread.turns)
  {
    runs := [];
    var i := 0;
    while i < |thread.turns|
      invariant 0 <= i <= |thread.turns|
      invariant runs + RunsOf(thread, thread.turns[i..]) == RunsOf(thread, thread.turns)
    {
      assert thread.turns[i..][0] == thread.turns[i] && thread.turns[i..][1..] == thread.turns[i + 1..];
      if TerminalTurn(thread.turns[i].status) {
        var run := TurnRun(thread, thread.turns[i]);
        ghost var rest := RunsOf(thread, thread.turns[i + 1..]);
        assert runs + ([run] + rest) == (runs + [run]) + rest;
        runs := runs + [run];
      }
      i := i + 1;
    }
    assert thread.turns[i..] == [] && runs + [] == runs;
  }

  /* ---- importedEventsMatch ---- */

  lemma RowsExact(events: map<int, RunEvent>)
    ensures var rows := AllRows(events);
            && Pages.InOrder(rows)
            && (forall i :: 0 <= i < |rows| ==> rows[i].sequence in events && events[rows[i].sequence] == rows[i].value)
            && (forall k :: k in events ==> Pages.Contains(rows, k))
  {
    Pages.SortedFacts(events.Keys);
    var ks, rows := Pages.Sorted(events.Keys), AllRows(events);
    forall k | k in events ensures Pages.Contains(rows, k) {
      assert k in events.Keys;
      var i :| 0 <= i < |ks| && ks[i] == k;
      assert rows[i].sequence == k;
    }
  }

  /** SELECT ... ORDER BY agent_sequence. */
  function AllRows(events: map<int, RunEvent>): seq<Pages.Row<RunEvent>> {
    Pages.SortedFacts(events.Keys);
    Pages.Fetch(events, Pages.Sorted(events.Keys))
  }

  ghost predicate RowsAgree(rows: seq<Pages.Row<RunEvent>>, es: seq<BatchEvent>, n: int) {
    forall i :: 0 <= i < n && i < |rows| && i < |es|
        ==> rows[i].sequence == es[i].sequence && SameEvent(rows[i].value, es[i].event)
  }

  /** Comparing row by row in order is the same as comparing the whole log. */
  lemma AgreeExact(events: map<int, RunEvent>, es: seq<BatchEvent>)
    ensures EventsMatch(events, es) <==> |AllRows(events)| == |es| && RowsAgree(AllRows(events), es, |es|)
  {
    var rows := AllRows(events);
    RowsExact(events);
    if |rows| == |es| && RowsAgree(rows, es, |es|) {
      forall k ensures k in events <==> k in (set i | 0 <= i < |es| :: es[i].sequence) {
        if k in events {
          var i :| 0 <= i < |rows| && rows[i].sequence == k;
          assert es[i].sequence == k;
        }
        if i :| 0 <= i < |es| && es[i].sequence == k { assert rows[i].sequence == k; }
      }
    }
    if EventsMatch(events, es) { MatchAligned(events, es); }
  }

  predicate Rising(ks: seq<int>) { forall i, j :: 0 <= i < j < |ks| ==> ks[i] < ks[j] }

  /** Rising sequences of the same numbers are equal. */
  lemma {:induction false} RisingUnique(a: seq<int>, b: seq<int>)
    requires Rising(a) && Rising(b) && forall k :: k in a <==> k in b
    ensures a == b
  {
    assert a == [] || a[0] in a;
    assert b == [] || b[0] in b;
    if a != [] {
      var x, y := a[1..], b[1..];
      assert a[0] == b[0];
      forall k ensures k in x <==> k in y {
        assert k in x <==> k in a && k != a[0];
        assert k in y <==> k in b && k != b[0];
      }
      RisingUnique(x, y);
      assert a == [a[0]] + x && b == [b[0]] + y;
    }
  }

  lemma MatchAligned(events: map<int, RunEvent>, es: seq<BatchEvent>)
    requires EventsMatch(events, es)
    ensures |AllRows(events)| == |es| && RowsAgree(AllRows(events), es, |es|)
  {
    var ks, wanted := Pages.Sorted(events.Keys), Numbers(es);
    Pages.SortedFacts(events.Keys);
    forall k ensures k in ks <==> k in wanted { NumbersHold(events, es, k); }
    RisingUnique(ks, wanted);
  }

  function Numbers(es: seq<BatchEvent>): seq<int> { seq(|es|, i requires 0 <= i < |es| => es[i].sequence) }

  lemma NumbersHold(events: map<int, RunEvent>, es: seq<BatchEvent>, k: int)
    requires events.Keys == (set i | 0 <= i < |es| :: es[i].sequence)
    ensures k in events <==> k in Numbers(es)
  {
    if k in events {
      var i :| 0 <= i < |es| && es[i].sequence == k;
      assert Numbers(es)[i] == k;
    }
    if k in Numbers(es) {
      var i :| 0 <= i < |es| && Numbers(es)[i] == k;
      assert es[i].sequence in events.Keys;
    }
  }

  method ImportedEventsMatch(events: map<int, RunEvent>, expected: seq<BatchEvent>) returns (same: bool)
    ensures same <==> EventsMatch(events, expected)
  {
    var rows := AllRows(events);
    AgreeExact(events, expected);
    var index := 0;
    while index < |rows|
      invariant 0 <= index <= |rows| && index <= |expected|
      invariant RowsAgree(rows, expected, index)
    {
      if index >= |expected| { return false; }
      var want := expected[index];
      if rows[index].sequence != want.sequence || !SameEvent(rows[index].value, want.event) { return false; }
      index := index + 1;
    }
    return index == |expected|;
  }

  /* ---- the rows of one batch, inside its transaction ---- */

  method ImportProjectRows(projects: map<string, Project>, ps: seq<BatchProject>, snapshot: string, now: Time)
    returns (out: map<string, Project>)
    ensures out == ImportProjects(projects, ps, snapshot, now)
  {
    out := projects;
    var i := 0;
    while i < |ps|
      invariant 0 <= i <= |ps|
      invariant ImportProjects(out, ps[i..], snapshot, now) == ImportProjects(projects, ps, snapshot, now)
    {
      assert ps[i..][0] == ps[i] && ps[i..][1..] == ps[i + 1..];
      out := out[ps[i].id := Project(ps[i].name, Some(snapshot), None, now)];
      i := i + 1;
    }
  }

  /** SELECT session_id ... WHERE codex_thread_id = thread. */
  method FindThread(sessions: map<string, Session>, thread: string) returns (o: Option<string>)
    requires UniqueThreads(sessions)
    ensures o == ThreadHolder(sessions, thread)
  {
    if s :| s in sessions && sessions[s].threadId == Some(thread) {
      assert HoldsThread(sessions, s, thread);
      return Some(s);
    }
    assert forall s :: !HoldsThread(sessions, s, thread);
    return None;
  }

  method FindTurn(runs: map<string, Run>, turn: string) returns (o: Option<string>)
    requires UniqueTurns(runs)
    ensures o == TurnHolder(runs, turn)
  {
    if r :| r in runs && runs[r].turnId == Some(turn) {
      assert HoldsTurn(runs, r, turn);
      return Some(r);
    }
    assert forall r :: !HoldsTurn(runs, r, turn);
    return None;
  }

  method FindKey(runs: map<string, Run>, session: string, key: string) returns (o: Option<string>)
    requires UniqueKeys(runs)
    ensures o == KeyHolder(runs, session, key)
  {
    if r :| r in runs && runs[r].sessionId == session && runs[r].idem.Some? && runs[r].idem.value.key == key {
      assert HoldsKey(runs, r, session, key);
      return Some(r);
    }
    assert forall r :: !HoldsKey(runs, r, session, key);
    return None;
  }

  /** INSERT ... ON CONFLICT DO NOTHING, resolve the stored identifier, UPDATE it. */
  method ImportSessionRow(db: Db, v: BatchSession, snapshot: string, now: Time) returns (out: Result<(Db, string)>)
    requires DbOk(db)
    ensures out == ImportSession(db, v, snapshot, now)
  {
    var sessions := db.sessions;
    var holder := FindThread(db.sessions, v.threadId);
    if v.id !in sessions && holder.None? {
      if v.projectId !in db.projects { return Err(Constraint); }
      sessions := sessions[v.id := Session(v.projectId, Some(v.threadId), v.title, 0, map[], None, now, None, None)];
    }
    InsertSessionKeeps(db, v, now);
    assert InsertSession(db, v, now) == Ok(sessions);
    var stored := v.id;
    if v.threadId != "" && v.id !in sessions {
      holder := FindThread(sessions, v.threadId);
      if holder.Some? { stored := holder.value; }
    }
    if stored in sessions {
      if v.projectId !in db.projects { return Err(Constraint); }
      sessions :=
        sessions[stored :=
                 sessions[stored].(projectId := v.projectId, title := v.title, lastSeen := Some(snapshot),
                                   archivedAt := None)];
    }
    return Ok((db.(sessions := sessions), stored));
  }

  method ImportSessionRows(db: Db, vs: seq<BatchSession>, snapshot: string, now: Time)
      returns (out: Result<(Db, map<string, string>)>)
    requires DbOk(db)
    ensures out == ImportSessions(db, vs, snapshot, map[], now)
  {
    var tx, ids := db, map[];
    var i := 0;
    while i < |vs|
      invariant 0 <= i <= |vs| && DbOk(tx)
      invariant ImportSessions(tx, vs[i..], snapshot, ids, now) == ImportSessions(db, vs, snapshot, map[], now)
    {
      assert vs[i..][0] == vs[i] && vs[i..][1..] == vs[i + 1..];
      ImportSessionKeeps(tx, vs[i], snapshot, now);
      var step :- ImportSessionRow(tx, vs[i], snapshot, now);
      tx, ids := step.0, ids[vs[i].id := step.1];
      i := i + 1;
    }
    return Ok((tx, ids));
  }

  method EventRowsLoop(es: seq<BatchEvent>) returns (out: Result<map<int, RunEvent>>)
    ensures out == EventRows(es)
  {
    var rows: map<int, RunEvent> := map[];
    var i := 0;
    while i < |es|
      invariant 0 <= i <= |es| && EventRows(es[..i]) == Ok(rows)
    {
      assert es[..i + 1][..i] == es[..i];
      if es[i].sequence < 1 || es[i].sequence in rows {
        FailsOn(es, i);
        return Err(Constraint);
      }
      rows := rows[es[i].sequence := Stored(es[i].event)];
      i := i + 1;
    }
    assert es[..i] == es;
    return Ok(rows);
  }

  lemma {:induction false} FailsOn(es: seq<BatchEvent>, i: nat)
    requires i < |es| && EventRows(es[..i]).Ok?
    requires es[i].sequence < 1 || es[i].sequence in EventRows(es[..i]).value
    ensures EventRows(es) == Err(Constraint)
    decreases |es|
  {
    if i == |es| - 1 {
      assert es[..i] == es[..|es| - 1];
    } else {
      assert es[..|es| - 1][..i] == es[..i];
      FailsOn(es[..|es| - 1], i);
    }
  }

  /** The lookup by run identifier or turn, the comparison, and the rewrite or insert. */
  method ImportRunRow(db: Db, r: BatchRun, ids: map<string, string>, now: Time) returns (out: Result<(Db, int)>)
    requires UniqueTurns(db.runs)
    ensures out == ImportRun(db, r, ids, now)
  {
    var normalized := ImportedStatus(r.status);
    if normalized.None? { return Ok((db, 0)); }
    var status := normalized.value;
    var session := r.sessionId;
    if r.sessionId in ids { session := ids[r.sessionId]; }
    var found: Option<string> := None;
    if r.id in db.runs { found := Some(r.id); }
    else if r.turnId != "" { found := FindTurn(db.runs, r.turnId); }
    assert found == TargetRun(db.runs, r.id, r.turnId);
    var changed := true;
    if found.Some? {
      var run := db.runs[found.value];
      var eventsMatch := ImportedEventsMatch(run.events, r.events);
      changed := run.sessionId != session || run.status != status || run.prompt != r.prompt
        || MicroOption(run.startedAt) != MicroOption(r.startedAt)
           || MicroOption(run.finishedAt) != MicroOption(r.finishedAt)
        || run.persisted != |r.events| || run.final != Some(|r.events|) || !eventsMatch;
    }
    assert changed <==> NeedsImport(db.runs, r, session, status);
    if !changed { return Ok((db, 1)); }
    var stored := if found.Some? then found.value else r.id;
    var written :- WriteRunRow(db, r, session, status, stored, now);
    return Ok((written, 1));
  }

  /** The foreign key, the CHECKs and the two unique indexes on runs. */
  method RowRefused(db: Db, r: BatchRun, session: string, target: string) returns (refused: bool)
    ensures refused <==>
              || session !in db.sessions || |r.events| == 0 || (r.turnId != "" && TurnClash(db.runs, target, r.turnId))
              || (target in db.runs && KeyClash(db.runs, target, session, db.runs[target].idem))
  {
    if session !in db.sessions || |r.events| == 0 { return true; }
    if other :| other in db.runs && other != target && r.turnId != "" && db.runs[other].turnId == Some(r.turnId) {
      assert HoldsTurn(db.runs, other, r.turnId);
      return true;
    }
    assert r.turnId != "" ==> forall other :: other != target ==> !HoldsTurn(db.runs, other, r.turnId);
    if target !in db.runs || db.runs[target].idem.None? { return false; }
    var key := db.runs[target].idem.value.key;
    if other :| other in db.runs && other != target && db.runs[other].sessionId == session
                && db.runs[other].idem.Some? && db.runs[other].idem.value.key == key {
      assert HoldsKey(db.runs, other, session, key);
      return true;
    }
    assert forall other :: other != target ==> !HoldsKey(db.runs, other, session, key);
    return false;
  }

  method WriteRunRow(db: Db, r: BatchRun, session: string, status: Status, target: string, now: Time)
      returns (out: Result<Db>)
    ensures out == RewriteRun(db, r, session, status, target, now)
  {
    var refused := RowRefused(db, r, session, target);
    if refused { return Err(Constraint); }
    var prior := if target in db.runs then Some(db.runs[target]) else None;
    var events :- EventRowsLoop(r.events);
    var row := ImportedRow(prior, r, session, status, events);
    var entry := SessionEvent(if status == Completed then RunCompleted else RunStatusChanged, target, status);
    var sessions :- LogRow(db.sessions, session, entry, now);
    return Ok(db.(runs := db.runs[target := row], sessions := sessions));
  }

  /** UPDATE sessions ... RETURNING last_session_sequence, then INSERT INTO session_events. */
  method LogRow(sessions: map<string, Session>, s: string, entry: SessionEvent, now: Time)
      returns (out: Result<map<string, Session>>)
    ensures out == LogSessionEvent(sessions, s, entry, now)
  {
    if s !in sessions { return Err(Constraint); }
    var row := sessions[s].(lastSeq := sessions[s].lastSeq + 1, updatedAt := now);
    if row.lastSeq in row.log { return Err(Constraint); }
    return Ok(sessions[s := row.(log := row.log[row.lastSeq := entry])]);
  }

  function AddCount(n: int, out: Result<(Db, int)>): Result<(Db, int)> {
    match out
    case Err(e) => Err(e)
    case Ok(pair) => Ok((pair.0, n + pair.1))
  }

  lemma ImportRunsUnfolds(db: Db, rs: seq<BatchRun>, i: nat, ids: map<string, string>, now: Time)
    requires i < |rs|
    ensures var first := ImportRun(db, rs[i], ids, now);
            ImportRuns(db, rs[i..], ids, now) ==
            if first.Err? then Err(first.error)
            else AddCount(first.value.1, ImportRuns(first.value.0, rs[i + 1..], ids, now))
  {
    assert rs[i..][0] == rs[i] && rs[i..][1..] == rs[i + 1..];
  }

  /** `n` runs are counted, and the rest of the batch, from `tx` on, brings it to `total`. */
  ghost predicate Remaining(total: Result<(Db, int)>, rs: seq<BatchRun>, ids: map<string, string>, now: Time, n: int,
                            tx: Db, i: nat) {
    i <= |rs| && total == AddCount(n, ImportRuns(tx, rs[i..], ids, now))
  }

  lemma RemainingNext(total: Result<(Db, int)>, rs: seq<BatchRun>, ids: map<string, string>, now: Time, n: int, tx: Db,
                      i: nat, step: Result<(Db, int)>)
    requires Remaining(total, rs, ids, now, n, tx, i) && i < |rs| && step == ImportRun(tx, rs[i], ids, now)
    ensures if step.Err? then total == Err(step.error)
            else Remaining(total, rs, ids, now, n + step.value.1, step.value.0, i + 1)
  {
    ImportRunsUnfolds(tx, rs, i, ids, now);
  }

  /** The unique index on turns holds whatever is imported. */
  lemma RewriteUnique(db: Db, r: BatchRun, session: string, status: Status, target: string, now: Time)
    requires UniqueTurns(db.runs)
    ensures var out := RewriteRun(db, r, session, status, target, now); out.Ok? ==> UniqueTurns(out.value.runs)
  {
    var out := RewriteRun(db, r, session, status, target, now);
    if out.Ok? {
      var runs := out.value.runs;
      forall a, b, t | HoldsTurn(runs, a, t) && HoldsTurn(runs, b, t) ensures a == b {
        if a != target && b != target { assert HoldsTurn(db.runs, a, t) && HoldsTurn(db.runs, b, t); }
        else if a != b { assert HoldsTurn(db.runs, if a == target then b else a, t); }
      }
    }
  }

  lemma ImportRunUnique(db: Db, r: BatchRun, ids: map<string, string>, now: Time)
    requires UniqueTurns(db.runs)
    ensures var out := ImportRun(db, r, ids, now); out.Ok? ==> UniqueTurns(out.value.0.runs)
  {
    if ImportedStatus(r.status).Some? {
      var session, status := SessionFor(ids, r.sessionId), ImportedStatus(r.status).value;
      UniqueIf(NeedsImport(db.runs, r, session, status), db, r, session, status, now);
    }
  }

  lemma UniqueIf(changed: bool, db: Db, r: BatchRun, session: string, status: Status, now: Time)
    requires UniqueTurns(db.runs)
    ensures var out := ImportIf(changed, db, r, session, status, now); out.Ok? ==> UniqueTurns(out.value.runs)
  {
    if changed { RewriteUnique(db, r, session, status, TargetId(db.runs, r), now); }
  }

  method ImportRunRows(db: Db, rs: seq<BatchRun>, ids: map<string, string>, now: Time) returns (out: Result<(Db, int)>)
    requires UniqueTurns(db.runs)
    ensures out == ImportRuns(db, rs, ids, now)
  {
    ghost var total := ImportRuns(db, rs, ids, now);
    var tx, count := db, 0;
    var i := 0;
    assert rs[0..] == rs;
    while i < |rs|
      invariant 0 <= i <= |rs| && UniqueTurns(tx.runs) && Remaining(total, rs, ids, now, count, tx, i)
    {
      var step := ImportRunRow(tx, rs[i], ids, now);
      RemainingNext(total, rs, ids, now, count, tx, i, step);
      ImportRunUnique(tx, rs[i], ids, now);
      if step.Err? { return Err(step.error); }
      tx, count := step.value.0, count + step.value.1;
      i := i + 1;
    }
    assert rs[i..] == [];
    return Ok((tx, count));
  }

  /** The two archiving UPDATEs; the counts are their affected rows. */
  method ReconcileRows(db: Db, b: Batch, since: Time, now: Time) returns (out: (Db, nat, nat))
    ensures out == Reconcile(db, b, since, now)
  {
    if !(b.done && b.reconciliationSafe && b.snapshotId != "") { return (db, 0, 0); }
    var stale := set s | s in db.sessions && db.sessions[s].threadId.Some? && db.sessions[s].archivedAt.None?
                         && db.sessions[s].lastSeen != Some(b.snapshotId) && db.sessions[s].updatedAt <= since
                         && !(exists r :: r in db.runs && db.runs[r].sessionId == s && InFlight(db.runs[r].status));
    assert stale == StaleSessions(db, b.snapshotId, since);
    var sessions := ArchiveSessions(db.sessions, stale, now);
    var gone := set p | p in db.projects && db.projects[p].archivedAt.None?
                        && db.projects[p].lastSeen != Some(b.snapshotId) && db.projects[p].updatedAt <= since
                        && !(exists s :: s in sessions && sessions[s].projectId == p
                                         && exists r ::
                                              r in db.runs && db.runs[r].sessionId == s && InFlight(db.runs[r].status));
    assert gone == StaleProjects(db.(sessions := sessions), b.snapshotId, since);
    return (db.(sessions := sessions, projects := ArchiveProjects(db.projects, gone, now)), |stale|, |gone|);
  }

  /** The body of ApplyBootstrapBatch once the batch is known to be the next one. */
  method CommitRows(db: Db, b: Batch, now: Time) returns (out: Result<Db>)
    requires DbOk(db) && b.syncId in db.jobs
    ensures out == CommitBatch(db, b, now)
  {
    var job := db.jobs[b.syncId];
    var projects := ImportProjectRows(db.projects, b.projects, b.snapshotId, now);
    var named := db.(projects := projects);
    ImportProjectsGrows(db.projects, b.projects, b.snapshotId, now);
    assert DbOk(named);
    var placed :- ImportSessionRows(named, b.sessions, b.snapshotId, now);
    ImportSessionsKeeps(named, b.sessions, b.snapshotId, map[], now);
    var imported :- ImportRunRows(placed.0, b.runs, placed.1, now);
    var reconciled := ReconcileRows(imported.0, b, job.createdAt, now);
    if j :| !b.done && j in db.jobs && j != b.syncId && Active(db.jobs[j]) { return Err(Constraint); }
    var row := FinishedJob(job, b, imported.1, reconciled.1, reconciled.2);
    return Ok(reconciled.0.(jobs := db.jobs[b.syncId := row], outbox := FinishCommand(db.outbox, b)));
  }

  method AdoptRow(rows: map<string, Session>, s: string, thread: string, now: Time)
      returns (out: Result<map<string, Session>>)
    requires UniqueThreads(rows)
    ensures out == AdoptThread(rows, s, thread, now)
  {
    if s !in rows { return Ok(rows); }
    if rows[s].threadId.Some? { return Ok(rows[s := rows[s].(updatedAt := now)]); }
    var holder := FindThread(rows, thread);
    if holder.Some? { return Err(Constraint); }
    return Ok(rows[s := rows[s].(threadId := Some(thread), updatedAt := now)]);
  }

  /** The statements of AppendAgentEvent. */
  /** An append writes the run and its session and no other table. */
  lemma AppendFrame(db: Db, r: string, sequence: int, event: RunEvent, now: Time)
    ensures var out := AppendAgentEvent(db, r, sequence, event, now);
            out.Ok? ==> out.value == db.(runs := out.value.runs, sessions := out.value.sessions) && r in out.value.runs
  {
  }

  method AppendRows(db: Db, r: string, sequence: int, event: RunEvent, now: Time) returns (out: Result<Db>)
    requires UniqueThreads(db.sessions)
    ensures out == AppendAgentEvent(db, r, sequence, event, now)
  {
    if r !in db.runs || sequence < 1 { return Err(Constraint); }
    if sequence in db.runs[r].events { return Ok(db); }
    var s := db.runs[r].sessionId;
    var tx := db.sessions;
    if event.kind == TurnStarted {
      tx :- AdoptRow(tx, s, ThreadOf(event.payload), now);
      if other :| other in db.runs && other != r && db.runs[other].turnId == Some(TurnOf(event.payload)) {
        assert HoldsTurn(db.runs, other, TurnOf(event.payload));
        return Err(Constraint);
      }
      assert forall other :: other != r ==> !HoldsTurn(db.runs, other, TurnOf(event.payload));
    }
    var status := StatusForEvent(event.kind);
    if status.Some? {
      var kind := if status.value == Completed then RunCompleted else RunStatusChanged;
      tx :- LogRow(tx, s, SessionEvent(kind, r, status.value), now);
    }
    return Ok(db.(runs := db.runs[r := AppendedRow(db.runs[r], sequence, event, now)], sessions := tx));
  }

  /** The primary key and UNIQUE (command_type, resource_id). */
  method CommandRefused(outbox: map<string, Command>, id: string, kind: CommandKind, resource: string)
      returns (refused: bool)
    ensures refused <==> CommandTaken(outbox, id, kind, resource)
  {
    if id in outbox { return true; }
    if c :| c in outbox && outbox[c].kind == kind && outbox[c].resource == resource {
      assert HasCommand(outbox, c, kind, resource);
      return true;
    }
    assert forall c :: !HasCommand(outbox, c, kind, resource);
    return false;
  }

  /** The locked transaction of CreateRun, reached when the lookup before it found nothing. */
  method CreateRunRows(db: Db, session: string, prompt: string, profile: string, key: string, hash: string,
                       runId: string, commandId: string, now: Time) returns (out: Result<(Db, string)>)
    requires UniqueKeys(db.runs)
    ensures out == CreateRunCommit(db, session, prompt, profile, key, hash, runId, commandId, now)
  {
    if !Visible(db, session) { return Err(NotFound); }
    var existing := FindKey(db.runs, session, key);
    if existing.Some? {
      if db.runs[existing.value].idem.value.hash != hash { return Err(IdempotencyConflict); }
      return Ok((db, existing.value));
    }
    var taken := CommandRefused(db.outbox, commandId, RunStart, runId);
    if runId in db.runs || taken { return Err(Constraint); }
    var logged :- LogRow(db.sessions, session, SessionEvent(RunCreated, runId, Queued), now);
    return Ok((db.(runs := db.runs[runId := FreshRun(session, prompt, profile, key, hash)],
                   sessions := logged,
                   outbox := db.outbox[commandId := FreshCommand(RunStart, runId, now)]), runId));
  }

  lemma CancelTables(db: Db, r: string, commandId: string, now: Time)
    ensures var out := RequestCancel(db, r, commandId, now);
            out.Ok? ==> r in out.value.runs && out.value == db.(runs := out.value.runs, outbox := out.value.outbox)
  {
  }

  method CancelRows(db: Db, r: string, commandId: string, now: Time) returns (out: Result<Db>)
    ensures out == RequestCancel(db, r, commandId, now)
  {
    if r !in db.runs { return Err(NotFound); }
    if db.runs[r].cancelRequestedAt.Some? || IsTerminal(db.runs[r].status) { return Ok(db); }
    var runs := db.runs[r := CancelRow(db.runs[r], now)];
    if c :| c in db.outbox && db.outbox[c].kind == RunCancel && db.outbox[c].resource == r {
      assert HasCommand(db.outbox, c, RunCancel, r);
      return Ok(db.(runs := runs));
    }
    assert forall c :: !HasCommand(db.outbox, c, RunCancel, r);
    if commandId in db.outbox { return Err(Constraint); }
    return Ok(db.(runs := runs, outbox := db.outbox[commandId := FreshCommand(RunCancel, r, now)]));
  }

  /** Claimed in order of age, and nothing eligible that was passed over is older. */
  ghost predicate OldestFirst(outbox: map<string, Command>, chosen: seq<string>, now: Time) {
    && (forall i :: 0 <= i < |chosen| ==> chosen[i] in outbox)
    && (forall i, j :: 0 <= i < j < |chosen| ==> outbox[chosen[i]].createdAt <= outbox[chosen[j]].createdAt)
    && (forall i, c :: 0 <= i < |chosen| && c in outbox && Eligible(outbox[c], now) && c !in chosen ==>
          outbox[chosen[i]].createdAt <= outbox[c].createdAt)
  }

  /** `chosen` is the oldest part of what is eligible, and `left` the rest. */
  ghost predicate Picked(outbox: map<string, Command>, chosen: seq<string>, left: set<string>, now: Time) {
    && left <= outbox.Keys
    && (forall i :: 0 <= i < |chosen| ==> chosen[i] in outbox && Eligible(outbox[chosen[i]], now) && chosen[i] !in left)
    && (forall c :: c in left ==> Eligible(outbox[c], now))
    && (forall c :: c in outbox && Eligible(outbox[c], now) ==> c in chosen || c in left)
    && (forall i, j :: 0 <= i < j < |chosen|
          ==> chosen[i] != chosen[j] && outbox[chosen[i]].createdAt <= outbox[chosen[j]].createdAt)
    && (forall i, c :: 0 <= i < |chosen| && c in left ==> outbox[chosen[i]].createdAt <= outbox[c].createdAt)
  }

  lemma PickedNext(outbox: map<string, Command>, chosen: seq<string>, left: set<string>, now: Time, c: string)
    requires Picked(outbox, chosen, left, now) && c in left
    requires forall x :: x in left ==> outbox[c].createdAt <= outbox[x].createdAt
    ensures Picked(outbox, chosen + [c], left - {c}, now)
  {
    var next := chosen + [c];
    forall x | x in outbox && Eligible(outbox[x], now) ensures x in next || x in left - {c} {
      if x in chosen { var i :| 0 <= i < |chosen| && chosen[i] == x; assert next[i] == x; }
      else if x == c { assert next[|chosen|] == c; }
    }
  }

  lemma PickedAll(outbox: map<string, Command>, chosen: seq<string>, left: set<string>, now: Time)
    requires Picked(outbox, chosen, left, now)
    ensures forall i, j :: 0 <= i < j < |chosen| ==> chosen[i] != chosen[j]
    ensures forall i :: 0 <= i < |chosen| ==> chosen[i] in outbox && Eligible(outbox[chosen[i]], now)
    ensures left == {} ==> forall c :: c in outbox && Eligible(outbox[c], now) ==> c in chosen
    ensures OldestFirst(outbox, chosen, now)
  {
  }

  method Oldest(outbox: map<string, Command>, among: set<string>) returns (c: string)
    requires among != {} && among <= outbox.Keys
    ensures c in among && forall x :: x in among ==> outbox[c].createdAt <= outbox[x].createdAt
  {
    c :| c in among;
    var left := among - {c};
    while left != {}
      invariant c in among && left <= among
      invariant forall x :: x in among && x !in left ==> outbox[c].createdAt <= outbox[x].createdAt
      decreases left
    {
      var x :| x in left;
      if outbox[x].createdAt < outbox[c].createdAt { c := x; }
      left := left - {x};
    }
  }

  /* ---- the store ---- */

  class Store {
    var projects: map<string, Project>
    var sessions: map<string, Session>
    var runs: map<string, Run>
    var outbox: map<string, Command>
    var jobs: map<string, SyncJob>

    ghost function Contents(): Db
      reads this
    {
      Db(projects, sessions, runs, outbox, jobs)
    }

    ghost predicate Valid()
      reads this
    {
      DbOk(Contents())
    }

    constructor ()
      ensures Contents() == EMPTY_DB && Valid()
    {
      projects, sessions, runs, outbox, jobs := map[], map[], map[], map[], map[];
    }

    method UpsertProjectRows(ps: seq<BatchProject>, now: Time)
      requires Valid()
      modifies this`projects
      ensures Valid() && Contents() == UpsertProjects(old(Contents()), ps, now)
    {
      UpsertProjectsKeeps(Contents(), ps, now);
      ghost var target := UpsertProjects(Contents(), ps, now);
      var i := 0;
      while i < |ps|
        invariant 0 <= i <= |ps| && UpsertProjects(Contents(), ps[i..], now) == target
      {
        assert ps[i..][0] == ps[i] && ps[i..][1..] == ps[i + 1..];
        if !IsBlank(ps[i].id) && !IsBlank(ps[i].name) {
          var seen := if ps[i].id in projects then projects[ps[i].id].lastSeen else None;
          projects := projects[ps[i].id := Project(ps[i].name, seen, None, now)];
        }
        i := i + 1;
      }
      assert ps[i..] == [];
    }

    /** CreateRun: the lookup outside the transaction, then the locked transaction. */
    method CreateRun(session: string, prompt: string, profile: string, key: string, hash: string,
                     runId: string, commandId: string, now: Time) returns (out: Result<string>)
      requires Valid()
      modifies this`runs, this`sessions, this`outbox
      ensures Valid()
      ensures match CreateRunLookup(old(Contents()), session, key, hash)
              case Some(answer) => out == answer && Contents() == old(Contents())
              case None =>
                match CreateRunCommit(old(Contents()), session, prompt, profile, key, hash, runId, commandId, now)
                case Err(e) => out == Err(e) && Contents() == old(Contents())
                case Ok(pair) => out == Ok(pair.1) && Contents() == pair.0
      ensures out.Ok? ==>
                || (Contents() == old(Contents()) && R.Answers(old(Contents()), session, key, hash, out))
                || (out.value == runId && R.Created(old(Contents()), Contents(), session, prompt, profile, key, hash,
                                                    runId, commandId, now))
    {
      R.CreateRunStores(Contents(), session, prompt, profile, key, hash, runId, commandId, now);
      ghost var before := Contents();
      out := CreateRunCalls(session, prompt, profile, key, hash, runId, commandId, now);
      if CreateRunLookup(before, session, key, hash).Some? { R.LookupAnswers(before, session, key, hash); }
    }

    /** The lookup, and the transaction if it finds nothing. */
    method CreateRunCalls(session: string, prompt: string, profile: string, key: string, hash: string,
                          runId: string, commandId: string, now: Time) returns (out: Result<string>)
      requires Valid()
      modifies this`runs, this`sessions, this`outbox
      ensures Valid()
      ensures match CreateRunLookup(old(Contents()), session, key, hash)
              case Some(answer) => out == answer && Contents() == old(Contents())
              case None =>
                match CreateRunCommit(old(Contents()), session, prompt, profile, key, hash, runId, commandId, now)
                case Err(e) => out == Err(e) && Contents() == old(Contents())
                case Ok(pair) => out == Ok(pair.1) && Contents() == pair.0
    {
      var existing := FindKey(runs, session, key);
      if existing.Some? {
        if runs[existing.value].idem.value.hash != hash { return Err(IdempotencyConflict); }
        return Ok(existing.value);
      }
      CreateRunKeeps(Contents(), session, prompt, profile, key, hash, runId, commandId, now);
      var tx := CreateRunRows(Db(projects, sessions, runs, outbox, jobs), session, prompt, profile, key, hash, runId,
                              commandId, now);
      if tx.Err? { return Err(tx.error); }
      runs, sessions, outbox := tx.value.0.runs, tx.value.0.sessions, tx.value.0.outbox;
      return Ok(tx.value.1);
    }

    method RequestCancelOf(r: string, commandId: string, now: Time) returns (out: Result<Run>)
      requires Valid()
      modifies this`runs, this`outbox
      ensures Valid()
      ensures match RequestCancel(old(Contents()), r, commandId, now)
              case Err(e) => out == Err(e) && Contents() == old(Contents())
              case Ok(next) => Contents() == next && r in runs && out == Ok(runs[r])
      ensures out.Ok? && old(runs)[r].cancelRequestedAt.None? && !IsTerminal(old(runs)[r].status) ==>
                R.Canceling(old(Contents()), Contents(), r, commandId, now)
    {
      R.CancelStores(Contents(), r, commandId, now);
      out := CancelCall(r, commandId, now);
    }

    /** Its transaction. */
    method CancelCall(r: string, commandId: string, now: Time) returns (out: Result<Run>)
      requires Valid()
      modifies this`runs, this`outbox
      ensures Valid()
      ensures match RequestCancel(old(Contents()), r, commandId, now)
              case Err(e) => out == Err(e) && Contents() == old(Contents())
              case Ok(next) => Contents() == next && r in runs && out == Ok(runs[r])
    {
      var tx := CancelRows(Db(projects, sessions, runs, outbox, jobs), r, commandId, now);
      RequestCancelKeeps(Contents(), r, commandId, now);
      CancelTables(Contents(), r, commandId, now);
      if tx.Err? { return Err(tx.error); }
      runs, outbox := tx.value.runs, tx.value.outbox;
      return Ok(runs[r]);
    }

    /** Select eligible commands up to the limit, then claim them one by one. */
    method ClaimCommandRows(limit: int, now: Time) returns (claimed: seq<string>)
      requires Valid()
      modifies this`runs, this`outbox
      ensures Valid() && Claimable(old(Contents()), claimed, limit, now)
      ensures Contents() == ClaimCommands(old(Contents()), claimed, now)
      ensures |claimed| < (if limit < 1 then 16 else limit) ==>
                forall c :: c in old(outbox) && Eligible(old(outbox[c]), now) ==> c in claimed
      ensures OldestFirst(old(outbox), claimed, now)
    {
      claimed := SelectEligible(if limit < 1 then 16 else limit, now);
      ClaimCommandsKeeps(Contents(), claimed, now);
      ClaimAll(claimed, now);
    }

    method ClaimAll(claimed: seq<string>, now: Time)
      requires forall i :: 0 <= i < |claimed| ==> claimed[i] in outbox
      modifies this`runs, this`outbox
      ensures Contents() == ClaimCommands(old(Contents()), claimed, now)
    {
      ghost var target := ClaimCommands(Contents(), claimed, now);
      var i := 0;
      while i < |claimed|
        invariant 0 <= i <= |claimed|
        invariant forall j :: 0 <= j < |claimed| ==> claimed[j] in outbox
        invariant ClaimCommands(Contents(), claimed[i..], now) == target
      {
        assert claimed[i..][0] == claimed[i] && claimed[i..][1..] == claimed[i + 1..];
        var c := outbox[claimed[i]];
        outbox := outbox[claimed[i] := ClaimedRow(c, now)];
        if c.kind == RunStart && c.resource in runs {
          runs := runs[c.resource := DispatchedRow(runs[c.resource])];
        }
        i := i + 1;
      }
      assert claimed[i..] == [];
    }

    /** ORDER BY created_at LIMIT. */
    method SelectEligible(limit: nat, now: Time) returns (chosen: seq<string>)
      ensures |chosen| <= limit
      ensures forall i, j :: 0 <= i < j < |chosen| ==> chosen[i] != chosen[j]
      ensures forall i :: 0 <= i < |chosen| ==> chosen[i] in outbox && Eligible(outbox[chosen[i]], now)
      ensures |chosen| < limit ==> forall c :: c in outbox && Eligible(outbox[c], now) ==> c in chosen
      ensures OldestFirst(outbox, chosen, now)
    {
      chosen := [];
      var left := set c | c in outbox && Eligible(outbox[c], now);
      while |chosen| < limit && left != {}
        invariant |chosen| <= limit && Picked(outbox, chosen, left, now)
        decreases left
      {
        var c := Oldest(outbox, left);
        PickedNext(outbox, chosen, left, now, c);
        chosen := chosen + [c];
        left := left - {c};
      }
      PickedAll(outbox, chosen, left, now);
    }

    method MarkDelivered(id: string)
      requires Valid()
      modifies this`outbox
      ensures Valid() && Contents() == MarkCommandDelivered(old(Contents()), id)
    {
      MarkAndReleaseKeep(Contents(), id, 0);
      if id in outbox { outbox := outbox[id := outbox[id].(status := Delivered, claimExpiresAt := None)]; }
    }

    method Release(id: string, now: Time)
      requires Valid()
      modifies this`outbox
      ensures Valid() && Contents() == ReleaseCommand(old(Contents()), id, now)
    {
      MarkAndReleaseKeep(Contents(), id, now);
      if id in outbox {
        outbox := outbox[id := outbox[id].(status := Pending, nextAttemptAt := now + SECOND, claimExpiresAt := None)];
      }
    }

    /** INSERT ... ON CONFLICT DO NOTHING, then the session's thread, the run row and the session log. */
    method AppendEvent(r: string, sequence: int, event: RunEvent, now: Time) returns (out: Result<Run>)
      requires Valid()
      modifies this`runs, this`sessions
      ensures Valid()
      ensures match AppendAgentEvent(old(Contents()), r, sequence, event, now)
              case Err(e) => out == Err(e) && Contents() == old(Contents())
              case Ok(next) => Contents() == next && r in runs && out == Ok(runs[r])
    {
      AppendAgentEventKeeps(Contents(), r, sequence, event, now);
      AppendFrame(Contents(), r, sequence, event, now);
      var tx := AppendRows(Db(projects, sessions, runs, outbox, jobs), r, sequence, event, now);
      if tx.Err? { return Err(tx.error); }
      runs, sessions := tx.value.runs, tx.value.sessions;
      return Ok(runs[r]);
    }

    /** A bootstrap message: translated, checked against the job's last batch, and applied. */
    method ApplyBootstrapBatch(p: BatchPayload, now: Time) returns (out: Result<SyncJob>)
      requires Valid()
      modifies this
      ensures Valid()
      ensures match ApplyBatch(old(Contents()), BatchOf(p), now)
              case Err(e) => out == Err(e) && Contents() == old(Contents())
              case Ok(next) => Contents() == next && p.syncId in jobs && out == Ok(jobs[p.syncId])
    {
      ApplyBatchKeeps(Contents(), p, now);
      var b := ThreadBatch(p);
      if b.syncId !in jobs { return Err(NotFound); }
      var job := jobs[b.syncId];
      if b.batchNo == job.lastBatch && b.checksum == job.checksum { return Ok(job); }
      if b.batchNo != job.lastBatch + 1 { return Err(OutOfOrder); }
      var committed := CommitRows(Db(projects, sessions, runs, outbox, jobs), b, now);
      if committed.Err? { return Err(committed.error); }
      var tx := committed.value;
      projects, sessions, runs, outbox, jobs := tx.projects, tx.sessions, tx.runs, tx.outbox, tx.jobs;
      return Ok(jobs[p.syncId]);
    }
  }
}
