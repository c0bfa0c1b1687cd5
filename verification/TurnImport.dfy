/** Importing a finished turn in one shot and feeding its events one at a time through the live
    path leave the same run and the same session log. */
module TurnImport {
  import opened RuntimeTypes
  import opened RuntimeStore
  import opened Bootstrap
  import opened StoreInvariant

  /** The events `es`, one AppendAgentEvent each; event `i` is stored at `times[i]`. */
  ghost function Feed(db: Db, r: string, es: seq<BatchEvent>, times: seq<Time>): Result<Db>
    requires |times| == |es|
    decreases |es|
  {
    if es == [] then Ok(db)
    else
      var n := |es| - 1;
      var fed :- Feed(db, r, es[..n], times[..n]);
      AppendAgentEvent(fed, r, es[n].sequence, es[n].event, times[n])
  }

  predicate NoEventsYet(run: Run) { run.events == map[] && run.persisted == 0 && run.final.None? }

  /** What an importer and a reader of the run's log can see. */
  predicate SameHistory(a: Run, b: Run) {
    a.events == b.events && a.status == b.status && a.persisted == b.persisted && a.final == b.final
  }

  predicate Numbered(es: seq<BatchEvent>) { forall i :: 0 <= i < |es| ==> es[i].sequence == i + 1 }

  /** Events numbered 1, 2, ... always make rows. */
  lemma {:induction false} NumberedRows(es: seq<BatchEvent>)
    requires Numbered(es)
    ensures EventRows(es).Ok? && forall k :: k in EventRows(es).value <==> 1 <= k <= |es|
  {
    if es != [] { NumberedRows(es[..|es| - 1]); }
  }

  /** Item events touch nothing but the run's events and watermark. */
  lemma {:induction false} FeedItems(db: Db, r: string, es: seq<BatchEvent>, times: seq<Time>)
    requires r in db.runs && NoEventsYet(db.runs[r]) && |times| == |es| && Numbered(es)
    requires forall i :: 0 <= i < |es| ==> es[i].event.kind == ItemCompleted
    ensures EventRows(es).Ok?
    ensures Feed(db, r, es, times) ==
            Ok(db.(runs := db.runs[r := db.runs[r].(events := EventRows(es).value, persisted := |es|)]))
    decreases |es|
  {
    NumberedRows(es);
    if es == [] {
      assert db.runs[r := db.runs[r].(events := map[], persisted := 0)] == db.runs;
    } else {
      var n := |es| - 1;
      FeedItems(db, r, es[..n], times[..n]);
      NumberedRows(es[..n]);
      var before := db.runs[r].(events := EventRows(es[..n]).value, persisted := n);
      var after := db.runs[r].(events := EventRows(es).value, persisted := n + 1);
      assert AppendedRow(before, n + 1, es[n].event, times[n]) == after;
      assert db.runs[r := before][r := after] == db.runs[r := after];
    }
  }

  function ClosedRow(run: Run, events: map<int, RunEvent>, n: int, status: Status, now: Time): Run {
    run.(events := events, persisted := n, final := Some(n), status := status, version := run.version + 1,
         finishedAt := Some(now))
  }

  /** The terminal event closes the run under the next number and logs one session event. */
  lemma AppendTerminal(db: Db, r: string, n: int, e: RunEvent, now: Time)
    requires SessionsOk(db.sessions) && r in db.runs && db.runs[r].sessionId in db.sessions
    requires n == db.runs[r].persisted + 1 >= 1 && n !in db.runs[r].events && Ends(e.kind)
    ensures var run, status := db.runs[r], StatusForEvent(e.kind).value;
            var logged :=
              LogSessionEvent(db.sessions, run.sessionId, SessionEvent(SessionKindFor(status), r, status), now);
            && logged.Ok?
            && AppendAgentEvent(db, r, n, e, now) ==
               Ok(db.(sessions := logged.value,
                      runs := db.runs[r := ClosedRow(run, run.events[n := Stored(e)], n, status, now)]))
  {
    var status := StatusForEvent(e.kind).value;
    LogSessionEventOk(db.sessions, db.runs[r].sessionId, SessionEvent(SessionKindFor(status), r, status), now);
  }

  lemma TurnEventsShape(thread: Thread, turn: Turn)
    requires TerminalTurn(turn.status)
    ensures var es, n := TurnEvents(thread, turn), |turn.items|;
            && |es| == n + 1 && Numbered(es) && es[..n] == ItemEvents(turn.items, StartOf(thread, turn))
            && Ends(es[n].event.kind) && StatusForEvent(es[n].event.kind) == ImportedStatus(turn.status)
  {
  }

  /** AppendTerminal seen from the store in which the item events were not yet appended. */
  lemma CloseItems(db: Db, r: string, items: map<int, RunEvent>, n: nat, e: RunEvent, now: Time)
    requires SessionsOk(db.sessions) && r in db.runs && db.runs[r].sessionId in db.sessions
    requires n + 1 !in items && Ends(e.kind)
    ensures var run, status := db.runs[r], StatusForEvent(e.kind).value;
            var mid := db.(runs := db.runs[r := run.(events := items, persisted := n)]);
            var logged :=
              LogSessionEvent(db.sessions, run.sessionId, SessionEvent(SessionKindFor(status), r, status), now);
            && logged.Ok?
            && AppendAgentEvent(mid, r, n + 1, e, now) ==
               Ok(db.(sessions := logged.value,
                      runs := db.runs[r := ClosedRow(run, items[n + 1 := Stored(e)], n + 1, status, now)]))
  {
    var mid := db.(runs := db.runs[r := db.runs[r].(events := items, persisted := n)]);
    AppendTerminal(mid, r, n + 1, e, now);
    var closed := ClosedRow(db.runs[r], items[n + 1 := Stored(e)], n + 1, StatusForEvent(e.kind).value, now);
    assert mid.runs[r := closed] == db.runs[r := closed];
  }

  /** Item events 1..n closed by a terminal event. */
  lemma FeedClosed(db: Db, r: string, es: seq<BatchEvent>, times: seq<Time>, n: nat)
    requires SessionsOk(db.sessions) && r in db.runs && db.runs[r].sessionId in db.sessions && NoEventsYet(db.runs[r])
    requires |times| == |es| == n + 1 && Numbered(es) && Ends(es[n].event.kind)
    requires forall i :: 0 <= i < n ==> es[i].event.kind == ItemCompleted
    ensures EventRows(es).Ok?
    ensures var run, status := db.runs[r], StatusForEvent(es[n].event.kind).value;
            var logged :=
              LogSessionEvent(db.sessions, run.sessionId, SessionEvent(SessionKindFor(status), r, status), times[n]);
            && logged.Ok?
            && Feed(db, r, es, times) ==
               Ok(db.(sessions := logged.value,
                      runs := db.runs[r := ClosedRow(run, EventRows(es).value, n + 1, status, times[n])]))
  {
    FeedItems(db, r, es[..n], times[..n]);
    NumberedRows(es);
    NumberedRows(es[..n]);
    CloseItems(db, r, EventRows(es[..n]).value, n, es[n].event, times[n]);
  }

  /** The whole effect of feeding a finished turn to a run that has no events: its log is the turn's,
      it is in the turn's status, and its session logs one event. */
  lemma FeedTurn(db: Db, r: string, thread: Thread, turn: Turn, times: seq<Time>)
    requires DbOk(db) && r in db.runs && NoEventsYet(db.runs[r]) && TerminalTurn(turn.status)
    requires |times| == |TurnEvents(thread, turn)|
    ensures var es := TurnEvents(thread, turn);
            var run := db.runs[r];
            var status := ImportedStatus(turn.status);
            && status.Some? && EventRows(es).Ok?
            && var logged := LogSessionEvent(db.sessions, run.sessionId,
                                             SessionEvent(SessionKindFor(status.value), r, status.value),
                                             times[|es| - 1]);
            && logged.Ok?
            && Feed(db, r, es, times) ==
               Ok(db.(sessions := logged.value,
                      runs := db.runs[r := ClosedRow(run, EventRows(es).value, |es|, status.value, times[|es| - 1])]))
  {
    TurnEventsShape(thread, turn);
    FeedClosed(db, r, TurnEvents(thread, turn), times, |turn.items|);
  }

  /** The log of session `s` grew by one event with this kind and status. */
  ghost predicate LoggedOne(before: map<string, Session>, after: map<string, Session>, s: string, status: Status) {
    && s in before && s in after
    && after[s].lastSeq == before[s].lastSeq + 1 && after[s].lastSeq in after[s].log
    && after[s].log[after[s].lastSeq].kind == SessionKindFor(status)
    && after[s].log[after[s].lastSeq].status == status
    && after[s].log - {after[s].lastSeq} == before[s].log - {after[s].lastSeq}
  }

  /** One-shot import equals feeding, for every turn with any number of items: whatever store the
      import lands in, the two rows agree on the event log, status and both watermarks, and each
      path logs one session event of the same kind and status. */
  lemma ImportEqualsFeeding(live: Db, r: string, store: Db, session: string, target: string, thread: Thread, turn: Turn,
                            times: seq<Time>, now: Time)
    requires DbOk(live) && r in live.runs && NoEventsYet(live.runs[r]) && TerminalTurn(turn.status)
    requires |times| == |TurnEvents(thread, turn)|
    requires ImportedStatus(turn.status).Some?
    requires RewriteRun(store, RunOf(thread, turn), session, ImportedStatus(turn.status).value, target, now).Ok?
    ensures var fed := Feed(live, r, TurnEvents(thread, turn), times);
            var status := ImportedStatus(turn.status).value;
            var imported := RewriteRun(store, RunOf(thread, turn), session, status, target, now).value;
            && fed.Ok? && r in fed.value.runs && target in imported.runs
            && SameHistory(fed.value.runs[r], imported.runs[target])
            && LoggedOne(live.sessions, fed.value.sessions, live.runs[r].sessionId, status)
            && LoggedOne(store.sessions, imported.sessions, session, status)
  {
    FeedTurn(live, r, thread, turn, times);
  }
}
