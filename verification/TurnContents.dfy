/** What a bootstrap batch says of a Codex thread and what the import then stores of it, described on the rows
    themselves: which item is where, what closes a turn, and what the prompt is. */
module TurnContents {
  import opened RuntimeTypes
  import opened RuntimeStore
  import opened Bootstrap

  /* ---- a turn ---- */

  predicate Finished(status: string) {
    status == "completed" || status == "failed" || Interrupted(status)
  }

  predicate Interrupted(status: string) { status == "interrupted" || status == "canceled" || status == "cancelled" }

  predicate UserText(item: Item) { (item.role == "user" || item.kind == "userMessage") && item.text != "" }

  /** The text of the first user item that has any; empty if none has. */
  ghost predicate IsPrompt(items: seq<Item>, prompt: string) {
    if prompt == "" then forall i :: 0 <= i < |items| ==> !UserText(items[i])
    else exists i :: FirstText(items, i) && items[i].text == prompt
  }

  ghost predicate FirstText(items: seq<Item>, i: int) {
    0 <= i < |items| && UserText(items[i]) && forall j :: 0 <= j < i ==> !UserText(items[j])
  }

  function Begin(thread: Thread, turn: Turn): Time {
    match turn.startedAt
    case Some(t) => t
    case None => thread.createdAt
  }

  function End(thread: Thread, turn: Turn): Time {
    match turn.completedAt
    case Some(t) => t
    case None => thread.updatedAt
  }

  /** Event `k` of a turn, counted from one: its items in order, then what closed it. */
  predicate Says(thread: Thread, turn: Turn, k: int, e: RunEvent) {
    if 1 <= k <= |turn.items| then e.kind == ItemCompleted && e.payload == ItemPayload(turn.items[k - 1])
    else
      && k == |turn.items| + 1
      && e.payload == TurnPayload(thread.id, turn.id, turn.status, turn.failure)
      && (turn.status == "completed" ==> e.kind == TurnCompleted)
      && (turn.status == "failed" ==> e.kind == TurnFailed)
      && (Interrupted(turn.status) ==> e.kind == TurnInterrupted)
  }

  function Instant(thread: Thread, turn: Turn, k: int): Time {
    if k <= |turn.items| then Begin(thread, turn) else End(thread, turn)
  }

  /** The events of a batch's run. */
  ghost predicate Lists(thread: Thread, turn: Turn, es: seq<BatchEvent>) {
    && |es| == |turn.items| + 1
    && forall i :: 0 <= i < |es| ==>
         && es[i].sequence == i + 1
         && Says(thread, turn, i + 1, es[i].event)
         && es[i].event.occurredAt == Instant(thread, turn, i + 1)
  }

  /** The batch's run is the turn. */
  ghost predicate Translates(thread: Thread, turn: Turn, run: BatchRun) {
    && run.id == "run_" + turn.id && run.sessionId == "session_" + thread.id
    && run.turnId == turn.id && run.status == turn.status
    && IsPrompt(turn.items, run.prompt)
    && run.startedAt == Some(Begin(thread, turn)) && run.finishedAt == Some(End(thread, turn))
    && Lists(thread, turn, run.events)
  }

  lemma {:induction false} PromptExact(items: seq<Item>)
    ensures IsPrompt(items, PromptOf(items))
    decreases |items|
  {
    if items != [] {
      var rest := items[1..];
      PromptExact(rest);
      if UserText(items[0]) {
        assert FirstText(items, 0);
      } else if PromptOf(rest) != "" {
        var i :| FirstText(rest, i) && rest[i].text == PromptOf(rest);
        assert forall j :: 1 <= j < |items| ==> items[j] == rest[j - 1];
        assert FirstText(items, i + 1) && items[i + 1].text == PromptOf(items);
      } else {
        assert forall j :: 1 <= j < |items| ==> items[j] == rest[j - 1];
      }
    }
  }

  /** The translation of a finished turn, whatever its items: each item under its own number, then the end. */
  lemma TurnTranslates(thread: Thread, turn: Turn)
    ensures Translates(thread, turn, RunOf(thread, turn))
  {
    PromptExact(turn.items);
    var es, n := TurnEvents(thread, turn), |turn.items|;
    forall i | 0 <= i < |es|
      ensures && es[i].sequence == i + 1 && Says(thread, turn, i + 1, es[i].event)
              && es[i].event.occurredAt == Instant(thread, turn, i + 1)
    {
      if i < n { assert es[i] == ItemEvents(turn.items, StartOf(thread, turn))[i]; }
    }
  }

  lemma FinishedExact(status: string)
    ensures TerminalTurn(status) <==> Finished(status)
  {
  }

  /* ---- a batch ---- */

  /** The positions of the finished turns from `k` on, in order. */
  ghost predicate Selects(turns: seq<Turn>, k: nat, at: seq<nat>) {
    && (forall i, j :: 0 <= i < j < |at| ==> at[i] < at[j])
    && (forall x :: x in at <==> k <= x < |turns| && Finished(turns[x].status))
  }

  /** The runs are those turns, one each. */
  ghost predicate RunsSay(thread: Thread, at: seq<nat>, runs: seq<BatchRun>) {
    && |runs| == |at|
    && forall j :: 0 <= j < |at| ==> at[j] < |thread.turns| && Translates(thread, thread.turns[at[j]], runs[j])
  }

  lemma {:induction false} RunsTranslate(thread: Thread, k: nat) returns (at: seq<nat>)
    requires k <= |thread.turns|
    ensures Selects(thread.turns, k, at) && RunsSay(thread, at, RunsOf(thread, thread.turns[k..]))
    decreases |thread.turns| - k
  {
    at := [];
    if k < |thread.turns| {
      var turns := thread.turns[k..];
      assert turns[0] == thread.turns[k] && turns[1..] == thread.turns[k + 1..];
      FinishedExact(turns[0].status);
      var rest := RunsTranslate(thread, k + 1);
      at := rest;
      if Finished(turns[0].status) {
        at := [k] + rest;
        OneMoreSelected(thread.turns, k, rest);
        TurnTranslates(thread, turns[0]);
        OneMoreSays(thread, k, rest, RunsOf(thread, turns[1..]));
      }
    }
  }

  lemma OneMoreSelected(turns: seq<Turn>, k: nat, rest: seq<nat>)
    requires k < |turns| && Finished(turns[k].status) && Selects(turns, k + 1, rest)
    ensures Selects(turns, k, [k] + rest)
  {
    var at := [k] + rest;
    forall j | 1 <= j < |at| ensures k < at[j] { assert at[j] == rest[j - 1] && rest[j - 1] in rest; }
  }

  lemma OneMoreSays(thread: Thread, k: nat, rest: seq<nat>, runs: seq<BatchRun>)
    requires k < |thread.turns| && RunsSay(thread, rest, runs)
    requires Translates(thread, thread.turns[k], RunOf(thread, thread.turns[k]))
    ensures RunsSay(thread, [k] + rest, [RunOf(thread, thread.turns[k])] + runs)
  {
  }

  ghost predicate SaysTurns(p: BatchPayload, b: Batch) {
    if p.thread.None? then b.sessions == [] && b.runs == []
    else
      var thread := p.thread.value;
      && b.sessions == [BatchSession("session_" + thread.id, thread.projectId, thread.id, thread.title)]
      && exists at :: Selects(thread.turns, 0, at) && RunsSay(thread, at, b.runs)
  }

  /** The batch is what the message says: its own fields, the project, one session per thread and one run
      per finished turn, in order. */
  ghost predicate SaysBatch(p: BatchPayload, b: Batch) {
    && b.commandId == p.commandId && b.syncId == p.syncId && b.snapshotId == p.snapshotId
    && b.batchNo == p.batchNo && b.checksum == p.checksum
    && b.totalSessions == p.totalSessions && b.processedSessions == p.processedSessions
    && (b.reconciliationSafe <==> p.reconciliationSafe) && (b.done <==> p.done)
    && (match p.project
        case None => b.projects == []
        case Some(x) => b.projects == [x])
    && SaysTurns(p, b)
  }

  lemma BatchTranslates(p: BatchPayload)
    ensures SaysBatch(p, BatchOf(p))
  {
    if p.thread.Some? {
      var thread := p.thread.value;
      var at := RunsTranslate(thread, 0);
      assert thread.turns[0..] == thread.turns;
      assert Selects(thread.turns, 0, at) && RunsSay(thread, at, BatchOf(p).runs);
    }
  }

  /* ---- the stored row ---- */

  /** The log is the turn, as far as PostgreSQL keeps instants. */
  ghost predicate HoldsEvents(events: map<int, RunEvent>, thread: Thread, turn: Turn) {
    && (forall k :: k in events <==> 1 <= k <= |turn.items| + 1)
    && forall k :: k in events ==>
         Says(thread, turn, k, events[k]) && Micro(events[k].occurredAt) == Micro(Instant(thread, turn, k))
  }

  /** The row is the turn. */
  ghost predicate Holds(run: Run, thread: Thread, turn: Turn, session: string) {
    && run.sessionId == session && IsPrompt(turn.items, run.prompt)
    && (turn.status == "completed" ==> run.status == Completed)
    && (turn.status == "failed" ==> run.status == Failed)
    && (Interrupted(turn.status) ==> run.status == Canceled)
    && MicroOption(run.startedAt) == Some(Micro(Begin(thread, turn)))
    && MicroOption(run.finishedAt) == Some(Micro(End(thread, turn)))
    && run.persisted == |turn.items| + 1 && run.final == Some(|turn.items| + 1)
    && HoldsEvents(run.events, thread, turn)
  }

  lemma MatchedHolds(events: map<int, RunEvent>, es: seq<BatchEvent>, thread: Thread, turn: Turn)
    requires Lists(thread, turn, es) && EventsMatch(events, es)
    ensures HoldsEvents(events, thread, turn)
  {
    forall k ensures k in events <==> 1 <= k <= |es| {
      if 1 <= k <= |es| { assert es[k - 1].sequence == k; }
    }
    forall k | k in events
      ensures Says(thread, turn, k, events[k]) && Micro(events[k].occurredAt) == Micro(Instant(thread, turn, k))
    {
      assert es[k - 1].sequence == k && SameEvent(events[k], es[k - 1].event);
    }
  }

  lemma {:induction false} RowsOfEvents(es: seq<BatchEvent>)
    requires forall i :: 0 <= i < |es| ==> es[i].sequence == i + 1
    requires EventRows(es).Ok?
    ensures forall k :: k in EventRows(es).value <==> 1 <= k <= |es|
    ensures forall k :: 1 <= k <= |es| ==> EventRows(es).value[k] == Stored(es[k - 1].event)
    decreases |es|
  {
    if es != [] { RowsOfEvents(es[..|es| - 1]); }
  }

  lemma RowsHold(es: seq<BatchEvent>, thread: Thread, turn: Turn)
    requires Lists(thread, turn, es) && EventRows(es).Ok?
    ensures HoldsEvents(EventRows(es).value, thread, turn)
  {
    RowsOfEvents(es);
    var events := EventRows(es).value;
    forall k | k in events
      ensures Says(thread, turn, k, events[k]) && Micro(events[k].occurredAt) == Micro(Instant(thread, turn, k))
    {
      assert events[k] == Stored(es[k - 1].event);
    }
  }

  lemma MicroMicro(t: Time)
    ensures Micro(Micro(t)) == Micro(t)
  {
  }

  /** A row that the import leaves alone already is the turn. */
  lemma UnchangedHolds(run: Run, r: BatchRun, thread: Thread, turn: Turn, session: string, status: Status)
    requires Translates(thread, turn, r) && ImportedStatus(turn.status) == Some(status)
    requires !Changed(run, r, session, status)
    ensures Holds(run, thread, turn, session)
  {
    MatchedHolds(run.events, r.events, thread, turn);
  }

  /** A row that the import writes is the turn. */
  lemma WrittenHolds(prior: Option<Run>, r: BatchRun, thread: Thread, turn: Turn, session: string, status: Status)
    requires Translates(thread, turn, r) && ImportedStatus(turn.status) == Some(status) && EventRows(r.events).Ok?
    ensures Holds(ImportedRow(prior, r, session, status, EventRows(r.events).value), thread, turn, session)
  {
    RowsHold(r.events, thread, turn);
    MicroMicro(Begin(thread, turn));
    MicroMicro(End(thread, turn));
  }

  /** The row that an import of turn `id` is stored under: one of its own name, else the one that holds the
      turn, else a new one of its own name. */
  ghost predicate StoredUnder(before: map<string, Run>, t: string, id: string) {
    || t == "run_" + id
    || ("run_" + id !in before && id != "" && HoldsTurn(before, t, id))
  }

  /** Only row `t` may differ, and what the turn says nothing about stays. */
  ghost predicate OnlyRow(before: map<string, Run>, after: map<string, Run>, t: string) {
    && after.Keys == before.Keys + {t}
    && (forall r :: r in before && r != t ==> after[r] == before[r])
    && (if t in before then SameAsk(before[t], after[t]) else NoAsk(after[t]))
  }

  predicate SameAsk(before: Run, after: Run) {
    && after.profile == before.profile && after.idem == before.idem
    && (after.cancelRequestedAt == before.cancelRequestedAt || after.cancelRequestedAt.None?)
  }

  predicate NoAsk(run: Run) { run.profile == "" && run.idem.None? && run.cancelRequestedAt.None? }

  /** Importing a finished turn stores it: whatever was there before, some row of the table now is the turn,
      and no other row changed. */
  lemma ImportStoresTurn(db: Db, r: BatchRun, thread: Thread, turn: Turn, ids: map<string, string>, now: Time)
    returns (t: string)
    requires Finished(turn.status) && Translates(thread, turn, r) && ImportRun(db, r, ids, now).Ok?
    ensures var out := ImportRun(db, r, ids, now).value;
            && out.1 == 1 && StoredUnder(db.runs, t, turn.id) && OnlyRow(db.runs, out.0.runs, t)
            && Holds(out.0.runs[t], thread, turn, SessionFor(ids, "session_" + thread.id))
  {
    var session, status := SessionFor(ids, r.sessionId), ImportedStatus(r.status).value;
    t := TargetId(db.runs, r);
    if NeedsImport(db.runs, r, session, status) {
      RewriteStoresTurn(db, r, thread, turn, session, status, t, now);
    } else {
      UnchangedHolds(db.runs[t], r, thread, turn, session, status);
    }
  }

  lemma RewriteStoresTurn(db: Db, r: BatchRun, thread: Thread, turn: Turn, session: string, status: Status, t: string,
                          now: Time)
    requires Translates(thread, turn, r) && ImportedStatus(turn.status) == Some(status)
    requires RewriteRun(db, r, session, status, t, now).Ok?
    ensures var runs := RewriteRun(db, r, session, status, t, now).value.runs;
            OnlyRow(db.runs, runs, t) && Holds(runs[t], thread, turn, session)
  {
    Rewritten(db, r, session, status, t, now);
    WrittenHolds(if t in db.runs then Some(db.runs[t]) else None, r, thread, turn, session, status);
  }

  lemma Rewritten(db: Db, r: BatchRun, session: string, status: Status, t: string, now: Time)
    requires RewriteRun(db, r, session, status, t, now).Ok?
    ensures var prior := if t in db.runs then Some(db.runs[t]) else None;
            && EventRows(r.events).Ok?
            && RewriteRun(db, r, session, status, t, now).value.runs
               == db.runs[t := ImportedRow(prior, r, session, status, EventRows(r.events).value)]
  {
  }

  /* ---- the rows of a whole thread ---- */

  ghost predicate LastUnder(rows: seq<string>, j: int) {
    0 <= j < |rows| && forall k :: j < k < |rows| ==> rows[k] != rows[j]
  }

  lemma {:induction false} LastOf(rows: seq<string>, r: string) returns (j: nat)
    requires r in rows
    ensures LastUnder(rows, j) && rows[j] == r
    decreases |rows|
  {
    j := |rows| - 1;
    if rows[j] != r {
      var front := rows[..j];
      var i :| 0 <= i < |rows| && rows[i] == r;
      assert front[i] == r;
      j := LastOf(front, r);
      assert forall k :: j < k < |front| ==> front[k] == rows[k];
    }
  }

  /** An import never changes who asked for a run and under which profile, and requests no cancel. */
  ghost predicate SameAsker(before: map<string, Run>, after: map<string, Run>) {
    && (forall r :: r in before ==> r in after && SameAsk(before[r], after[r]))
    && (forall r :: r in after && r !in before ==> NoAsk(after[r]))
  }

  /** Only the rows named change. */
  ghost predicate OnlyRows(before: map<string, Run>, after: map<string, Run>, rows: seq<string>) {
    && (forall r :: r in after <==> r in before || r in rows)
    && (forall r :: r in before && r !in rows ==> after[r] == before[r])
    && SameAsker(before, after)
  }

  /** The turns at the positions `at` are stored in order, each under its row: every row holds the last turn
      stored under it, and no other row changed. */
  ghost predicate Stores(before: map<string, Run>, after: map<string, Run>, thread: Thread, at: seq<nat>,
                         rows: seq<string>, session: string) {
    && |rows| == |at| && OnlyRows(before, after, rows)
    && forall j :: LastUnder(rows, j) ==> HoldsAt(after, rows[j], thread, at[j], session)
  }

  ghost predicate HoldsAt(runs: map<string, Run>, r: string, thread: Thread, i: nat, session: string) {
    r in runs && i < |thread.turns| && Holds(runs[r], thread, thread.turns[i], session)
  }

  lemma OneMoreRow(before: map<string, Run>, mid: map<string, Run>, after: map<string, Run>, t: string,
                   rows: seq<string>)
    requires OnlyRow(before, mid, t) && OnlyRows(mid, after, rows)
    ensures OnlyRows(before, after, [t] + rows) && (t !in rows ==> after[t] == mid[t])
  {
    assert forall r :: r in [t] + rows <==> r == t || r in rows;
  }

  lemma LastUnderTail(t: string, rows: seq<string>, j: int)
    requires LastUnder([t] + rows, j)
    ensures if j == 0 then t !in rows else LastUnder(rows, j - 1) && ([t] + rows)[j] == rows[j - 1]
  {
    var all := [t] + rows;
    forall k | 0 <= k < |rows| ensures k + 1 > j ==> rows[k] != all[j] { assert rows[k] == all[k + 1]; }
  }

  lemma OneMoreStored(before: map<string, Run>, mid: map<string, Run>, after: map<string, Run>, thread: Thread,
                      at: seq<nat>, t: string, rows: seq<string>, session: string)
    requires at != [] && OnlyRow(before, mid, t) && HoldsAt(mid, t, thread, at[0], session)
    requires Stores(mid, after, thread, at[1..], rows, session)
    ensures Stores(before, after, thread, at, [t] + rows, session)
  {
    OneMoreRow(before, mid, after, t, rows);
    var all := [t] + rows;
    forall j | LastUnder(all, j) ensures HoldsAt(after, all[j], thread, at[j], session) {
      LastUnderTail(t, rows, j);
      if j != 0 { assert HoldsAt(after, rows[j - 1], thread, at[1..][j - 1], session); }
    }
  }

  lemma {:induction false} ImportStoresTurns(db: Db, thread: Thread, at: seq<nat>, runs: seq<BatchRun>,
                                             ids: map<string, string>, now: Time) returns (rows: seq<string>)
    requires RunsSay(thread, at, runs) && forall j :: 0 <= j < |at| ==> Finished(thread.turns[at[j]].status)
    requires ImportRuns(db, runs, ids, now).Ok?
    ensures var out := ImportRuns(db, runs, ids, now).value;
            && out.1 == |at|
            && Stores(db.runs, out.0.runs, thread, at, rows, SessionFor(ids, "session_" + thread.id))
    decreases |runs|
  {
    rows := [];
    if runs != [] {
      var session := SessionFor(ids, "session_" + thread.id);
      var t := ImportStoresTurn(db, runs[0], thread, thread.turns[at[0]], ids, now);
      var mid := ImportRun(db, runs[0], ids, now).value.0;
      var rest := ImportStoresTurns(mid, thread, at[1..], runs[1..], ids, now);
      var end := ImportRuns(mid, runs[1..], ids, now).value.0;
      OneMoreStored(db.runs, mid.runs, end.runs, thread, at, t, rest, session);
      rows := [t] + rest;
    }
  }
}
