/** Acknowledgement soundness over router and coordinator: what an ack promises is already true
    when it is sent, and a message is either persisted or forwarded, never both. */
module Acknowledgements {
  import opened RuntimeTypes
  import opened StoreInvariant
  import opened RelaySystem
  import opened SystemInvariant

  ghost predicate Before(outputs: seq<Output>, o: Output, i: int) {
    exists j :: 0 <= j < i && j < |outputs| && outputs[j] == o
  }

  /** Every durable ack comes after the received ack of the same delivery. */
  ghost predicate AcksOrdered(outputs: seq<Output>) {
    forall i :: 0 <= i < |outputs| && outputs[i].DurableAck? ==>
      Before(outputs, ReceivedAck(outputs[i].delivery, outputs[i].run, outputs[i].sequence), i)
  }

  ghost predicate HandlersAcked(handlers: map<nat, Handler>, outputs: seq<Output>) {
    forall d :: d in handlers ==>
      Before(outputs, ReceivedAck(d, handlers[d].run, handlers[d].entry.sequence), |outputs|)
  }

  /** No forwarded delivery was, is being, or will be persisted. */
  ghost predicate ForwardedApart(sys: System) {
    forall i :: 0 <= i < |sys.outputs| && sys.outputs[i].Forwarded? ==>
      var d := sys.outputs[i].delivery; d in sys.deliveries && d !in sys.handlers && d !in sys.stored
  }

  ghost predicate AcksOk(sys: System) {
    AcksOrdered(sys.outputs) && HandlersAcked(sys.handlers, sys.outputs) && ForwardedApart(sys)
  }

  lemma BeforeExtends(outputs: seq<Output>, more: seq<Output>, o: Output, i: int)
    requires Before(outputs, o, i)
    ensures Before(outputs + more, o, i)
  {
    var j :| 0 <= j < i && j < |outputs| && outputs[j] == o;
    assert (outputs + more)[j] == o;
  }

  lemma AcksOrderedExtends(outputs: seq<Output>, more: seq<Output>)
    requires AcksOrdered(outputs)
    requires forall i :: 0 <= i < |more| && more[i].DurableAck? ==>
               Before(outputs + more, ReceivedAck(more[i].delivery, more[i].run, more[i].sequence), |outputs| + i)
    ensures AcksOrdered(outputs + more)
  {
    var all := outputs + more;
    forall i | 0 <= i < |all| && all[i].DurableAck?
      ensures Before(all, ReceivedAck(all[i].delivery, all[i].run, all[i].sequence), i)
    {
      if i < |outputs| { BeforeExtends(outputs, more, ReceivedAck(all[i].delivery, all[i].run, all[i].sequence), i); }
      else { assert all[i] == more[i - |outputs|]; }
    }
  }

  /** Steps that add no handler and no ack of a run event. */
  lemma CalmAcks(sys: System, next: System, more: seq<Output>)
    requires AcksOk(sys) && next.outputs == sys.outputs + more && |more| <= 1 && (more != [] ==> more[0].BatchAck?)
    requires next.handlers.Keys <= sys.handlers.Keys
    requires forall d :: d in next.handlers ==> next.handlers[d] == sys.handlers[d]
    requires next.deliveries == sys.deliveries && next.stored == sys.stored
    ensures AcksOk(next)
  {
    AcksOrderedExtends(sys.outputs, more);
    forall d | d in next.handlers
      ensures Before(next.outputs, ReceivedAck(d, next.handlers[d].run, next.handlers[d].entry.sequence),
                     |next.outputs|)
    {
      BeforeExtends(sys.outputs, more, ReceivedAck(d, next.handlers[d].run, next.handlers[d].entry.sequence),
                    |sys.outputs|);
    }
    forall i | 0 <= i < |next.outputs| && next.outputs[i].Forwarded?
      ensures var d := next.outputs[i].delivery; d in next.deliveries && d !in next.handlers && d !in next.stored
    {
      assert i < |sys.outputs| && next.outputs[i] == sys.outputs[i];
    }
  }

  lemma HandlersAckedExtends(handlers: map<nat, Handler>, outputs: seq<Output>, more: seq<Output>)
    requires HandlersAcked(handlers, outputs)
    ensures HandlersAcked(handlers, outputs + more)
  {
    forall d | d in handlers
      ensures Before(outputs + more, ReceivedAck(d, handlers[d].run, handlers[d].entry.sequence), |outputs + more|)
    {
      BeforeExtends(outputs, more, ReceivedAck(d, handlers[d].run, handlers[d].entry.sequence), |outputs|);
    }
  }

  lemma ForwardAcks(sys: System, next: System, d: nat, r: string, n: int)
    requires AcksOk(sys) && d !in sys.deliveries && sys.handlers.Keys <= sys.deliveries && sys.stored <= sys.deliveries
    requires next.outputs == sys.outputs + [Forwarded(d, r, n), ReceivedAck(d, r, n), DurableAck(d, r, n)]
    requires next.handlers == sys.handlers && next.stored == sys.stored && next.deliveries == sys.deliveries + {d}
    ensures AcksOk(next)
  {
    var more := [Forwarded(d, r, n), ReceivedAck(d, r, n), DurableAck(d, r, n)];
    assert (sys.outputs + more)[|sys.outputs| + 1] == ReceivedAck(d, r, n);
    AcksOrderedExtends(sys.outputs, more);
    HandlersAckedExtends(sys.handlers, sys.outputs, more);
  }

  lemma AppendAcks(sys: System, next: System, d: nat, h: Handler)
    requires AcksOk(sys) && d !in sys.deliveries && next.stored == sys.stored && next.deliveries == sys.deliveries + {d}
    requires next.outputs == sys.outputs + [ReceivedAck(d, h.run, h.entry.sequence)]
    requires next.handlers == sys.handlers[d := h]
    ensures AcksOk(next)
  {
    var more := [ReceivedAck(d, h.run, h.entry.sequence)];
    AcksOrderedExtends(sys.outputs, more);
    HandlersAckedExtends(sys.handlers, sys.outputs, more);
    assert next.outputs[|sys.outputs|] == more[0];
  }

  lemma PersistSends(sys: System, d: nat, storeFails: bool, now: Time)
    ensures var next := Persist(sys, d, storeFails, now);
            && next.deliveries == sys.deliveries
            && (if next.outputs == sys.outputs then
                  next.stored == sys.stored && (next.handlers == sys.handlers || next.handlers == sys.handlers - {d})
                else
                  && d in sys.handlers && next.handlers == sys.handlers[d := sys.handlers[d].(stored := true)]
                     && next.stored == sys.stored + {d}
                  && next.outputs == sys.outputs + [DurableAck(d, sys.handlers[d].run, sys.handlers[d].entry.sequence)])
  {
  }

  lemma StoredAcks(sys: System, next: System, d: nat)
    requires AcksOk(sys) && d in sys.handlers && next.deliveries == sys.deliveries && next.stored == sys.stored + {d}
    requires next.handlers == sys.handlers[d := sys.handlers[d].(stored := true)]
    requires next.outputs == sys.outputs + [DurableAck(d, sys.handlers[d].run, sys.handlers[d].entry.sequence)]
    ensures AcksOk(next)
  {
    var h := sys.handlers[d];
    var more := [DurableAck(d, h.run, h.entry.sequence)];
    BeforeExtends(sys.outputs, more, ReceivedAck(d, h.run, h.entry.sequence), |sys.outputs|);
    AcksOrderedExtends(sys.outputs, more);
    HandlersAckedExtends(sys.handlers, sys.outputs, more);
  }

  lemma PersistAcks(sys: System, d: nat, storeFails: bool, now: Time)
    requires AcksOk(sys)
    ensures AcksOk(Persist(sys, d, storeFails, now))
  {
    var next := Persist(sys, d, storeFails, now);
    PersistSends(sys, d, storeFails, now);
    if next.outputs == sys.outputs { SameAcks(sys, next); } else { StoredAcks(sys, next, d); }
  }

  lemma ReceiveSends(sys: System, d: nat, m: Message, lookupFails: bool, redisFails: bool, appTakes: bool)
    requires sys.handlers.Keys <= sys.deliveries
    ensures var next := Receive(sys, d, m, lookupFails, redisFails, appTakes);
            && next.stored == sys.stored
            && (if next.handlers != sys.handlers then
                  && d !in sys.deliveries && next.deliveries == sys.deliveries + {d} && d in next.handlers
                  && next.handlers == sys.handlers[d := next.handlers[d]]
                  && next.outputs
                     == sys.outputs + [ReceivedAck(d, next.handlers[d].run, next.handlers[d].entry.sequence)]
                else if next.outputs != sys.outputs then
                  && d !in sys.deliveries && next.deliveries == sys.deliveries + {d}
                  && next.outputs
                     == sys.outputs
                         + [Forwarded(d, m.run, m.sequence), ReceivedAck(d, m.run, m.sequence),
                            DurableAck(d, m.run, m.sequence)]
                else sys.deliveries <= next.deliveries)
  {
    assert d !in sys.deliveries ==> d !in sys.handlers;
    assert d in sys.handlers[d := Handler(m.run, Entry(m.sequence, EventOf(m)), false)];
  }

  lemma ReceiveAcks(sys: System, d: nat, m: Message, lookupFails: bool, redisFails: bool, appTakes: bool)
    requires AcksOk(sys) && FlowOk(sys)
    ensures AcksOk(Receive(sys, d, m, lookupFails, redisFails, appTakes))
  {
    var next := Receive(sys, d, m, lookupFails, redisFails, appTakes);
    ReceiveSends(sys, d, m, lookupFails, redisFails, appTakes);
    if next.handlers != sys.handlers {
      AppendAcks(sys, next, d, next.handlers[d]);
    } else if next.outputs != sys.outputs {
      ForwardAcks(sys, next, d, m.run, m.sequence);
    }
  }

  lemma SameAcks(sys: System, next: System)
    requires AcksOk(sys) && next.outputs == sys.outputs && next.deliveries == sys.deliveries
    requires next.stored == sys.stored
    requires next.handlers.Keys <= sys.handlers.Keys
    requires forall d :: d in next.handlers ==> next.handlers[d] == sys.handlers[d]
    ensures AcksOk(next)
  {
    assert sys.outputs + [] == sys.outputs;
    CalmAcks(sys, next, []);
  }

  lemma BatchAcks(sys: System, p: BatchPayload, storeFails: bool, now: Time)
    requires AcksOk(sys)
    ensures AcksOk(ReceiveBatch(sys, p, storeFails, now))
  {
    var next := ReceiveBatch(sys, p, storeFails, now);
    if next.outputs == sys.outputs { SameAcks(sys, next); }
    else { CalmAcks(sys, next, [BatchAck(p.syncId, p.batchNo, p.checksum)]); }
  }

  lemma CreateRunAcks(sys: System, session: string, prompt: string, profile: string, key: string, hash: string,
                      runId: string, commandId: string, now: Time)
    requires AcksOk(sys)
    ensures AcksOk(CreateRunSlow(sys, session, prompt, profile, key, hash, runId, commandId, now))
  {
    SameAcks(sys, CreateRunSlow(sys, session, prompt, profile, key, hash, runId, commandId, now));
  }

  lemma QuietAcks(sys: System, a: Action)
    requires AcksOk(sys) && !TouchesEvents(a)
    ensures AcksOk(Step(sys, a))
  {
    QuietFrame(sys, a);
    SameAcks(sys, Step(sys, a));
  }

  lemma StepKeepsAcks(sys: System, a: Action)
    requires FlowOk(sys) && AcksOk(sys)
    ensures AcksOk(Step(sys, a))
  {
    match a
    case DoReceive(d, m, lookupFails, redisFails, appTakes) =>
      ReceiveAcks(sys, d, m, lookupFails, redisFails, appTakes);
    case DoPersist(d, storeFails, now) => PersistAcks(sys, d, storeFails, now);
    case DoBatch(p, storeFails, now) => BatchAcks(sys, p, storeFails, now);
    case DoCreateRunCommit(session, prompt, profile, key, hash, runId, commandId, now) =>
      CreateRunAcks(sys, session, prompt, profile, key, hash, runId, commandId, now);
    case _ => QuietAcks(sys, a);
  }

  ghost predicate RelayOk(sys: System) { DbOk(sys.db) && FlowOk(sys) && AcksOk(sys) }

  lemma {:induction false} ReachableRelay(sys: System, actions: seq<Action>)
    requires RelayOk(sys)
    ensures RelayOk(Execute(sys, actions))
    decreases |actions|
  {
    if actions != [] {
      StepKeepsStore(sys, actions[0]);
      StepKeepsFlow(sys, actions[0]);
      StepKeepsAcks(sys, actions[0]);
      ReachableRelay(Step(sys, actions[0]), actions[1..]);
    }
  }

  lemma InitialRelay()
    ensures RelayOk(INIT)
  {
  }

  /** What a durable_ack sent as output `i` stands for. */
  ghost predicate AckBacked(next: System, i: int) {
    && 0 <= i < |next.outputs| && next.outputs[i].DurableAck?
    && var DurableAck(d, r, n) := next.outputs[i];
       && Before(next.outputs, ReceivedAck(d, r, n), i)
       && ((r in next.db.runs && n in next.db.runs[r].events && d in next.stored) || Forwarded(d, r, n) in next.outputs)
       && !(d in next.stored && Forwarded(d, r, n) in next.outputs)
  }

  lemma StepAckBacked(sys: System, a: Action, i: int)
    requires AcksOk(Step(sys, a)) && |sys.outputs| <= i < |Step(sys, a).outputs| && Step(sys, a).outputs[i].DurableAck?
    ensures AckBacked(Step(sys, a), i)
  {
    NewDurableAck(sys, a, i);
  }

  /** After any history, a step that sends durable_ack for (run, sequence) finds a received_ack of
      the same delivery already sent, and either the event row committed or the message accepted
      by the App; the cache names only stored runs; nothing was both forwarded and persisted. */
  lemma DurableAckSound(actions: seq<Action>, a: Action, i: int)
    requires var sys := Execute(INIT, actions); var next := Step(sys, a);
             |sys.outputs| <= i < |next.outputs| && next.outputs[i].DurableAck?
    ensures var next := Step(Execute(INIT, actions), a); AckBacked(next, i) && next.cache <= next.db.runs.Keys
  {
    InitialRelay();
    ReachableRelay(INIT, actions);
    var sys := Execute(INIT, actions);
    StepKeepsStore(sys, a);
    StepKeepsFlow(sys, a);
    StepKeepsAcks(sys, a);
    StepAckBacked(sys, a, i);
  }

  lemma NoDurableAck(sys: System, a: Action, i: int)
    requires !a.DoReceive? && !a.DoPersist?
    ensures |sys.outputs| <= i < |Step(sys, a).outputs| ==> !Step(sys, a).outputs[i].DurableAck?
  {
    match a
    case DoBatch(_, _, _) =>
    case DoCreateRunCommit(_, _, _, _, _, _, _, _) =>
    case _ => QuietFrame(sys, a);
  }

  lemma ForwardedAck(sys: System, x: nat, m: Message, lookupFails: bool, redisFails: bool, appTakes: bool, i: int)
    requires var next := Receive(sys, x, m, lookupFails, redisFails, appTakes);
             |sys.outputs| <= i < |next.outputs| && next.outputs[i].DurableAck?
    ensures var next := Receive(sys, x, m, lookupFails, redisFails, appTakes);
            Forwarded(next.outputs[i].delivery, next.outputs[i].run, next.outputs[i].sequence) in next.outputs
  {
    var next := Receive(sys, x, m, lookupFails, redisFails, appTakes);
    assert |next.outputs| == |sys.outputs| + 3 ==> next.outputs[|sys.outputs|] == Forwarded(x, m.run, m.sequence);
  }

  /** Only two steps send a durable ack: the PostgreSQL append and the forward. */
  lemma NewDurableAck(sys: System, a: Action, i: int)
    requires |sys.outputs| <= i < |Step(sys, a).outputs| && Step(sys, a).outputs[i].DurableAck?
    ensures var next := Step(sys, a);
            var DurableAck(d, r, n) := next.outputs[i];
            || (r in next.db.runs && n in next.db.runs[r].events && d in next.stored)
            || Forwarded(d, r, n) in next.outputs
  {
    match a
    case DoReceive(x, m, lookupFails, redisFails, appTakes) =>
      ForwardedAck(sys, x, m, lookupFails, redisFails, appTakes, i);
    case DoPersist(x, storeFails, now) => PersistedAck(sys, x, storeFails, now);
    case _ => NoDurableAck(sys, a, i);
  }

  lemma PersistedAck(sys: System, d: nat, storeFails: bool, now: Time)
    ensures var next := Persist(sys, d, storeFails, now);
            next.outputs != sys.outputs ==>
              && d in sys.handlers
              && var Handler(r, Entry(n, _), _) := sys.handlers[d];
              && next.outputs == sys.outputs + [DurableAck(d, r, n)]
              && r in next.db.runs && n in next.db.runs[r].events && d in next.stored
  {
    if d in sys.handlers {
      var h := sys.handlers[d];
      AppendAgentEventRuns(sys.db, h.run, h.entry.sequence, h.entry.event, now);
    }
  }

  /* ---- nothing stored goes unacknowledged ---- */

  ghost predicate Acked(outputs: seq<Output>, d: nat) {
    exists o :: o in outputs && o.DurableAck? && o.delivery == d
  }

  ghost predicate AllAcked(sys: System) { forall d :: d in sys.stored ==> Acked(sys.outputs, d) }

  lemma AckedLater(outputs: seq<Output>, more: seq<Output>, d: nat)
    requires Acked(outputs, d)
    ensures Acked(outputs + more, d)
  {
    var o :| o in outputs && o.DurableAck? && o.delivery == d;
    assert o in outputs + more;
  }

  lemma AckedStep(sys: System, next: System, more: seq<Output>)
    requires AllAcked(sys) && next.outputs == sys.outputs + more
    requires forall d :: d in next.stored && d !in sys.stored ==> Acked(more, d)
    ensures AllAcked(next)
  {
    forall d | d in next.stored ensures Acked(next.outputs, d) {
      if d in sys.stored {
        AckedLater(sys.outputs, more, d);
      } else {
        var o :| o in more && o.DurableAck? && o.delivery == d;
        assert o in next.outputs;
      }
    }
  }

  lemma StepAcked(sys: System, a: Action)
    requires FlowOk(sys) && AllAcked(sys)
    ensures AllAcked(Step(sys, a))
  {
    var next := Step(sys, a);
    if a.DoPersist? {
      PersistSends(sys, a.delivery, a.storeFails, a.now);
      if next.outputs != sys.outputs {
        var h := sys.handlers[a.delivery];
        assert DurableAck(a.delivery, h.run, h.entry.sequence) in [DurableAck(a.delivery, h.run, h.entry.sequence)];
        AckedStep(sys, next, [DurableAck(a.delivery, h.run, h.entry.sequence)]);
      }
    } else {
      SameStored(sys, a);
      AckedStep(sys, next, next.outputs[|sys.outputs|..]);
    }
  }

  lemma SameStored(sys: System, a: Action)
    requires FlowOk(sys) && !a.DoPersist?
    ensures Step(sys, a).stored == sys.stored && |sys.outputs| <= |Step(sys, a).outputs|
    ensures Step(sys, a).outputs == sys.outputs + Step(sys, a).outputs[|sys.outputs|..]
  {
    if a.DoReceive? {
      ReceiveSends(sys, a.delivery, a.message, a.lookupFails, a.redisFails, a.appTakes);
    } else if !a.DoBatch? && !a.DoCreateRunCommit? {
      QuietFrame(sys, a);
    }
  }

  /** Over every trace, every delivery whose event reached PostgreSQL has had its durable_ack sent. */
  lemma {:induction false} StoredAreAcked(sys: System, actions: seq<Action>)
    requires DbOk(sys.db) && FlowOk(sys) && AllAcked(sys)
    ensures AllAcked(Execute(sys, actions))
    decreases |actions|
  {
    if actions != [] {
      StepKeepsStore(sys, actions[0]);
      StepKeepsFlow(sys, actions[0]);
      StepAcked(sys, actions[0]);
      StoredAreAcked(Step(sys, actions[0]), actions[1..]);
    }
  }
}
