/** Where every stored run event comes from, over whole traces of the server: a message of the Agent for that
    run under that number, or a finished turn of a bootstrap batch. */
module EventOrigins {
  import opened RuntimeTypes
  import opened RuntimeStore
  import opened Bootstrap
  import opened RelaySystem
  import opened StoreInvariant
  import opened SystemInvariant
  import opened MessageEffects
  import T = TurnContents
  import B = BatchContents

  /** The message names the run and the number and is what the entry holds. */
  predicate Sends(a: Action, r: string, entry: Entry) {
    a.DoReceive? && a.message.run == r && a.message.sequence == entry.sequence && Carries(a.message, entry.event)
  }

  ghost predicate SaidBy(thread: Thread, i: int, k: int, e: RunEvent) {
    && 0 <= i < |thread.turns| && T.Finished(thread.turns[i].status)
    && T.Says(thread, thread.turns[i], k, e)
    && Micro(e.occurredAt) == Micro(T.Instant(thread, thread.turns[i], k))
  }

  /** The action brought event `e` under number `k` of run `r`. */
  ghost predicate Brings(a: Action, r: string, k: int, e: RunEvent) {
    || (a.DoReceive? && a.message.run == r && a.message.sequence == k && Kept(a.message, e))
    || (a.DoBatch? && a.payload.thread.Some? && exists i :: SaidBy(a.payload.thread.value, i, k, e))
  }

  ghost predicate EntryFrom(past: seq<Action>, r: string, entry: Entry) { exists a :: a in past && Sends(a, r, entry) }

  ghost predicate EventFrom(past: seq<Action>, r: string, k: int, e: RunEvent) {
    exists a :: a in past && Brings(a, r, k, e)
  }

  ghost predicate LogFrom(past: seq<Action>, r: string, events: map<int, RunEvent>) {
    forall k :: k in events ==> EventFrom(past, r, k, events[k])
  }

  ghost predicate Origins(sys: System, past: seq<Action>) {
    && (forall d :: d in sys.handlers ==> EntryFrom(past, sys.handlers[d].run, sys.handlers[d].entry))
    && (forall r :: r in sys.db.runs ==> LogFrom(past, r, sys.db.runs[r].events))
  }

  lemma EntryStays(past: seq<Action>, a: Action, r: string, entry: Entry)
    requires EntryFrom(past, r, entry)
    ensures EntryFrom(past + [a], r, entry)
  {
    var x :| x in past && Sends(x, r, entry);
    assert x in past + [a];
  }

  lemma LogStays(past: seq<Action>, a: Action, r: string, events: map<int, RunEvent>)
    requires LogFrom(past, r, events)
    ensures LogFrom(past + [a], r, events)
  {
    forall k | k in events ensures EventFrom(past + [a], r, k, events[k]) {
      var x :| x in past && Brings(x, r, k, events[k]);
      assert x in past + [a];
    }
  }

  /** Steps that bring nothing. */
  lemma QuietOrigins(sys: System, a: Action, past: seq<Action>)
    requires DbOk(sys.db) && Origins(sys, past) && !TouchesEvents(a)
    ensures Origins(Step(sys, a), past + [a])
  {
    var next := Step(sys, a);
    QuietStep(sys, a);
    QuietHandlers(sys, a);
    forall d | d in next.handlers ensures EntryFrom(past + [a], next.handlers[d].run, next.handlers[d].entry) {
      EntryStays(past, a, sys.handlers[d].run, sys.handlers[d].entry);
    }
    forall r | r in next.db.runs ensures LogFrom(past + [a], r, next.db.runs[r].events) {
      LogStays(past, a, r, sys.db.runs[r].events);
    }
  }

  lemma ReceiveOrigins(sys: System, a: Action, past: seq<Action>)
    requires sys.handlers.Keys <= sys.deliveries && Origins(sys, past) && a.DoReceive?
    ensures Origins(Step(sys, a), past + [a])
  {
    var next, m := Step(sys, a), a.message;
    ReceiveCases(sys, a.delivery, m, a.lookupFails, a.redisFails, a.appTakes);
    EventCarries(m);
    assert a in past + [a] && Sends(a, m.run, Entry(m.sequence, EventOf(m)));
    forall d | d in next.handlers ensures EntryFrom(past + [a], next.handlers[d].run, next.handlers[d].entry) {
      if d in sys.handlers && next.handlers[d] == sys.handlers[d] {
        EntryStays(past, a, sys.handlers[d].run, sys.handlers[d].entry);
      }
    }
    forall r | r in next.db.runs ensures LogFrom(past + [a], r, next.db.runs[r].events) {
      LogStays(past, a, r, sys.db.runs[r].events);
    }
  }

  /** An entry that some message sent becomes an event that it brought. */
  lemma EntryBrings(past: seq<Action>, r: string, entry: Entry)
    requires EntryFrom(past, r, entry)
    ensures EventFrom(past, r, entry.sequence, Stored(entry.event))
  {
    var a :| a in past && Sends(a, r, entry);
    assert Kept(a.message, Stored(entry.event));
    assert Brings(a, r, entry.sequence, Stored(entry.event));
  }

  lemma StoredRows(sys: System, d: nat, storeFails: bool, now: Time, r: string)
    requires r in Persist(sys, d, storeFails, now).db.runs
    ensures var next := Persist(sys, d, storeFails, now);
            && r in sys.db.runs
            && (next.db.runs[r].events == sys.db.runs[r].events
                || (d in sys.handlers && sys.handlers[d].run == r
                    && next.db.runs[r].events
                       == sys.db.runs[r].events[sys.handlers[d].entry.sequence := Stored(sys.handlers[d].entry.event)]))
  {
    if d in sys.handlers && !sys.handlers[d].stored {
      var h := sys.handlers[d];
      AppendAgentEventRuns(sys.db, h.run, h.entry.sequence, h.entry.event, now);
    }
  }

  lemma PersistHandlers(sys: System, d: nat, storeFails: bool, now: Time, x: nat)
    requires x in Persist(sys, d, storeFails, now).handlers
    ensures x in sys.handlers
    ensures var h := Persist(sys, d, storeFails, now).handlers[x];
            h.run == sys.handlers[x].run && h.entry == sys.handlers[x].entry
  {
  }

  lemma PersistOrigins(sys: System, a: Action, past: seq<Action>)
    requires Origins(sys, past) && a.DoPersist?
    ensures Origins(Step(sys, a), past + [a])
  {
    var next := Step(sys, a);
    forall d | d in next.handlers ensures EntryFrom(past + [a], next.handlers[d].run, next.handlers[d].entry) {
      PersistHandlers(sys, a.delivery, a.storeFails, a.now, d);
      EntryStays(past, a, sys.handlers[d].run, sys.handlers[d].entry);
    }
    forall r | r in next.db.runs ensures LogFrom(past + [a], r, next.db.runs[r].events) {
      StoredRows(sys, a.delivery, a.storeFails, a.now, r);
      LogStays(past, a, r, sys.db.runs[r].events);
      if a.delivery in sys.handlers && sys.handlers[a.delivery].run == r {
        EntryStays(past, a, r, sys.handlers[a.delivery].entry);
        EntryBrings(past + [a], r, sys.handlers[a.delivery].entry);
      }
    }
  }

  lemma HeldFrom(run: Run, a: Action, i: nat, session: string, r: string, past: seq<Action>)
    requires a.DoBatch? && a.payload.thread.Some? && a in past
    requires var thread := a.payload.thread.value;
             i < |thread.turns| && T.Finished(thread.turns[i].status) && T.Holds(run, thread, thread.turns[i], session)
    ensures LogFrom(past, r, run.events)
  {
    forall k | k in run.events ensures EventFrom(past, r, k, run.events[k]) {
      assert SaidBy(a.payload.thread.value, i, k, run.events[k]);
      assert Brings(a, r, k, run.events[k]);
    }
  }

  lemma BatchRows(sys: System, a: Action, past: seq<Action>, r: string)
    requires Origins(sys, past) && a.DoBatch? && r in Step(sys, a).db.runs
    ensures LogFrom(past + [a], r, Step(sys, a).db.runs[r].events)
  {
    var p, next := a.payload, Step(sys, a);
    if next.db == sys.db {
      LogStays(past, a, r, sys.db.runs[r].events);
    } else {
      assert ApplyBatch(sys.db, BatchOf(p), a.now) == Ok(next.db);
      var session, at, rows := B.BatchLands(sys.db, p, a.now);
      if p.thread.Some? && r in rows {
        var j := T.LastOf(rows, r);
        assert T.HoldsAt(next.db.runs, rows[j], p.thread.value, at[j], session) && at[j] in at;
        assert a in past + [a];
        HeldFrom(next.db.runs[r], a, at[j], session, r, past + [a]);
      } else {
        LogStays(past, a, r, sys.db.runs[r].events);
      }
    }
  }

  lemma BatchOrigins(sys: System, a: Action, past: seq<Action>)
    requires Origins(sys, past) && a.DoBatch?
    ensures Origins(Step(sys, a), past + [a])
  {
    var next := Step(sys, a);
    forall d | d in next.handlers ensures EntryFrom(past + [a], next.handlers[d].run, next.handlers[d].entry) {
      EntryStays(past, a, sys.handlers[d].run, sys.handlers[d].entry);
    }
    forall r | r in next.db.runs ensures LogFrom(past + [a], r, next.db.runs[r].events) { BatchRows(sys, a, past, r); }
  }

  lemma CreateOrigins(sys: System, a: Action, past: seq<Action>)
    requires Origins(sys, past) && a.DoCreateRunCommit?
    ensures Origins(Step(sys, a), past + [a])
  {
    var next := Step(sys, a);
    CreateRunRuns(sys.db, a.session, a.prompt, a.profile, a.key, a.hash, a.runId, a.commandId, a.now);
    forall d | d in next.handlers ensures EntryFrom(past + [a], next.handlers[d].run, next.handlers[d].entry) {
      EntryStays(past, a, sys.handlers[d].run, sys.handlers[d].entry);
    }
    forall r | r in next.db.runs ensures LogFrom(past + [a], r, next.db.runs[r].events) {
      if r in sys.db.runs { LogStays(past, a, r, sys.db.runs[r].events); }
    }
  }

  lemma {:induction false} OriginsOver(sys: System, actions: seq<Action>, past: seq<Action>)
    requires DbOk(sys.db) && FlowOk(sys) && Origins(sys, past)
    ensures Origins(Execute(sys, actions), past + actions)
    decreases |actions|
  {
    if actions == [] {
      assert past + actions == past;
    } else {
      var a := actions[0];
      if a.DoReceive? { ReceiveOrigins(sys, a, past); }
      else if a.DoPersist? { PersistOrigins(sys, a, past); }
      else if a.DoBatch? { BatchOrigins(sys, a, past); }
      else if a.DoCreateRunCommit? { CreateOrigins(sys, a, past); }
      else { QuietOrigins(sys, a, past); }
      StepKeepsStore(sys, a);
      StepKeepsFlow(sys, a);
      OriginsOver(Step(sys, a), actions[1..], past + [a]);
      assert past + [a] + actions[1..] == past + actions;
    }
  }

  /** Over every trace of the server, an event stored under number `k` of run `r` was brought there: by a
      message of the Agent for that run with that number, of the kind that makes such an event and with that
      document and instant, or by a batch, as event `k` of one of its thread's finished turns. */
  lemma EventsHaveOrigins(actions: seq<Action>, r: string, k: int)
    requires var end := Execute(INIT, actions); r in end.db.runs && k in end.db.runs[r].events
    ensures EventFrom(actions, r, k, Execute(INIT, actions).db.runs[r].events[k])
  {
    OriginsOver(INIT, actions, []);
    assert [] + actions == actions;
    assert LogFrom(actions, r, Execute(INIT, actions).db.runs[r].events);
  }
}
