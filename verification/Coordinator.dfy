/** The coordinator's message path on the real objects: one call of AgentMessage does to the store, the
    broker, the cache and the peer what the three steps of the interleaved machine do. */
module Coordinator {
  import opened RuntimeTypes
  import opened RuntimeStore
  import opened RelaySystem
  import opened Bootstrap
  import Tables = PostgresStore
  import RedisBroker
  import opened MessageEffects
  import opened StoreInvariant
  import opened DispatchRounds

  class Coordinator {
    const store: Tables.Store
    const broker: RedisBroker.Broker
    var runIDs: set<string>
    var sent: seq<Output>

    ghost predicate Valid()
      reads this, store, broker
    {
      store.Valid() && broker.Valid()
    }

    constructor (store: Tables.Store, broker: RedisBroker.Broker)
      requires store.Valid() && broker.Valid()
      ensures Valid() && this.store == store && this.broker == broker && runIDs == {} && sent == []
    {
      this.store, this.broker := store, broker;
      runIDs, sent := {}, [];
    }

    /** The machine's state between messages, as far as this object holds it. */
    ghost function Machine(): System
      reads this, store, broker
    {
      INIT.(db := store.Contents(), streams := broker.streams, cache := runIDs, outputs := sent)
    }

    /** Known runs are cached; a failed lookup counts as owned and is not cached. */
    method OwnsRuntimeRun(run: string, lookupFails: bool) returns (owned: bool)
      modifies this`runIDs
      ensures owned <==> run in old(runIDs) || lookupFails || run in store.runs
      ensures runIDs == if !owned || lookupFails || run in old(runIDs) then old(runIDs) else old(runIDs) + {run}
    {
      if run in runIDs { return true; }
      if lookupFails { return true; }
      if run in store.runs {
        runIDs := runIDs + {run};
        return true;
      }
      return false;
    }

    /** A message of the Agent, with what it comes to on the tables when it is new and no call fails. */
    method AgentMessage(d: nat, m: Message, lookupFails: bool, redisFails: bool, storeFails: bool, now: Time)
        returns (handled: bool)
      requires Valid()
      modifies this`runIDs, this`sent, store, broker
      ensures Valid()
      ensures handled <==> m.sequence < 1 || m.run in old(runIDs) || lookupFails || m.run in old(store.runs)
      ensures var done := Handled(old(Machine()), d, m, lookupFails, redisFails, storeFails, now);
              && store.Contents() == done.db && broker.streams == done.streams && runIDs == done.cache
                 && sent == done.outputs
      ensures !redisFails && !storeFails && New(old(store.Contents()), old(broker.streams), m) ==>
                && Effect(old(store.Contents()), store.Contents(), m, now)
                && Appended(old(broker.streams), broker.streams, m)
                && Acks(old(sent), sent, d, m, Refused(old(store.Contents()), m))
    {
      ghost var before := Machine();
      handled := HandleMessage(d, m, lookupFails, redisFails, storeFails, now);
      if !redisFails && !storeFails && New(before.db, before.streams, m) {
        HandledLands(before, d, m, lookupFails, now);
      }
    }

    /** Its three store calls in a row. */
    method HandleMessage(d: nat, m: Message, lookupFails: bool, redisFails: bool, storeFails: bool, now: Time)
        returns (handled: bool)
      requires Valid()
      modifies this`runIDs, this`sent, store, broker
      ensures Valid()
      ensures handled <==> m.sequence < 1 || m.run in old(runIDs) || lookupFails || m.run in old(store.runs)
      ensures var done := Handled(old(Machine()), d, m, lookupFails, redisFails, storeFails, now);
              && store.Contents() == done.db && broker.streams == done.streams && runIDs == done.cache
                 && sent == done.outputs
    {
      ReceiveEffect(old(Machine()), d, m, lookupFails, redisFails);
      MessageEffect(old(Machine()), d, m, lookupFails, redisFails, storeFails, now);
      if m.sequence < 1 { return true; }
      var owned := OwnsRuntimeRun(m.run, lookupFails);
      if !owned { return false; }
      if redisFails { return true; }
      var event := RunEvent(EventKindOf(m.kind), m.payload, m.occurredAt);
      var appended := broker.AppendRunEvent(m.run, m.sequence, event);
      if appended.Err? { return true; }
      sent := sent + [ReceivedAck(d, m.run, m.sequence)];
      if storeFails { return true; }
      var persisted := store.AppendEvent(m.run, m.sequence, event, now);
      if persisted.Err? { return true; }
      sent := sent + [DurableAck(d, m.run, m.sequence)];
      if event.kind == RunAccepted && CommandOf(m.payload) != "" { store.MarkDelivered(CommandOf(m.payload)); }
      return true;
    }

    /** A bootstrap batch: applied, acknowledged, and its command marked when it was the last one. */
    method BootstrapMessage(p: BatchPayload, now: Time)
      requires Valid()
      modifies this`sent, store
      ensures Valid()
      ensures var out := ApplyBatch(old(store.Contents()), BatchOf(p), now);
              if p.commandId == "" || p.syncId == "" || p.checksum == "" || out.Err? then
                store.Contents() == old(store.Contents()) && sent == old(sent)
              else
                && sent == old(sent) + [BatchAck(p.syncId, p.batchNo, p.checksum)]
                && store.Contents() == if p.done then MarkCommandDelivered(out.value, p.commandId) else out.value
    {
      if p.commandId == "" || p.syncId == "" || p.checksum == "" { return; }
      var applied := store.ApplyBootstrapBatch(p, now);
      if applied.Err? { return; }
      sent := sent + [BatchAck(p.syncId, p.batchNo, p.checksum)];
      if p.done { store.MarkDelivered(p.commandId); }
    }

    /** sendCommand and what follows it: a cancel is delivered once it is sent, a bootstrap whose job is over
        without being sent, and what could not be sent is released. */
    method SendCommand(id: string, sends: bool, now: Time)
      requires Valid()
      modifies store
      ensures Valid() && store.Contents() == Sent(old(store.Contents()), id, sends, now)
      ensures SendsOne(old(store.outbox), store.outbox, store.jobs, id, !sends, now)
    {
      SentExact(store.Contents(), id, sends, now);
      if id !in store.outbox { return; }
      var command := store.outbox[id];
      match command.kind {
        case RunStart =>
          if !sends { store.Release(id, now); }
        case RunCancel =>
          if sends { store.MarkDelivered(id); } else { store.Release(id, now); }
        case BootstrapStart =>
          if command.resource !in store.jobs { store.Release(id, now); }
          else if !Active(store.jobs[command.resource]) { store.MarkDelivered(id); }
          else if !sends { store.Release(id, now); }
      }
    }

    method SendAll(claimed: seq<string>, fails: set<string>, now: Time)
      requires Valid()
      modifies store
      ensures Valid() && store.Contents() == SentAll(old(store.Contents()), claimed, fails, now)
    {
      ghost var target := SentAll(store.Contents(), claimed, fails, now);
      var i := 0;
      while i < |claimed|
        invariant 0 <= i <= |claimed| && Valid()
        invariant SentAll(store.Contents(), claimed[i..], fails, now) == target
      {
        assert claimed[i..][0] == claimed[i] && claimed[i..][1..] == claimed[i + 1..];
        SendCommand(claimed[i], claimed[i] !in fails, now);
        i := i + 1;
      }
      assert claimed[i..] == [];
    }

    /** One round of dispatch: claim up to eight commands, oldest first, and send each. */
    method Dispatch(online: bool, fails: set<string>, now: Time) returns (claimed: seq<string>)
      requires Valid()
      modifies store
      ensures Valid()
      ensures !online ==> claimed == [] && store.Contents() == old(store.Contents())
      ensures online ==> Claimable(old(store.Contents()), claimed, 8, now)
      ensures online ==> Tables.OldestFirst(old(store.outbox), claimed, now)
      ensures online
              ==> store.Contents() == SentAll(ClaimCommands(old(store.Contents()), claimed, now), claimed, fails, now)
      ensures online ==> RoundDone(old(store.Contents()), store.Contents(), claimed, fails, now)
    {
      claimed := [];
      if !online { return; }
      claimed := store.ClaimCommandRows(8, now);
      RoundExact(old(store.Contents()), claimed, fails, now);
      SendAll(claimed, fails, now);
    }
  }

  /** The three steps of one message in a row. */
  ghost function Handled(sys: System, d: nat, m: Message, lookupFails: bool, redisFails: bool, storeFails: bool,
                         now: Time): System {
    MarkAccepted(Persist(Receive(sys, d, m, lookupFails, redisFails, false), d, storeFails, now), d)
  }

  function Remembered(sys: System, run: string, lookupFails: bool): set<string> {
    if lookupFails || run in sys.cache then sys.cache else sys.cache + {run}
  }

  lemma ReceiveEffect(sys: System, d: nat, m: Message, lookupFails: bool, redisFails: bool)
    requires sys.handlers == map[] && sys.deliveries == {}
    ensures var next := Receive(sys, d, m, lookupFails, redisFails, false);
            var gate := AppendEntry(StreamOf(sys, m.run), m.sequence, EventOf(m));
            && next.db == sys.db
            && (if m.sequence < 1 || !Owns(sys, m.run, lookupFails) then
                  next.handlers == map[] && next.streams == sys.streams && next.cache == sys.cache
                      && next.outputs == sys.outputs
                else
                  && next.cache == Remembered(sys, m.run, lookupFails)
                  && (if redisFails || gate.Err? then
                        next.handlers == map[] && next.streams == sys.streams && next.outputs == sys.outputs
                      else
                        && next.handlers == map[d := Handler(m.run, Entry(m.sequence, EventOf(m)), false)]
                        && next.streams == sys.streams[m.run := gate.value]
                        && next.outputs == sys.outputs + [ReceivedAck(d, m.run, m.sequence)]))
  {
  }

  /** What the three steps come to. */
  lemma MessageEffect(sys: System, d: nat, m: Message, lookupFails: bool, redisFails: bool, storeFails: bool, now: Time)
    requires sys.handlers == map[] && sys.deliveries == {}
    ensures var next := Handled(sys, d, m, lookupFails, redisFails, storeFails, now);
            var received := Receive(sys, d, m, lookupFails, redisFails, false);
            var out := AppendAgentEvent(sys.db, m.run, m.sequence, EventOf(m), now);
            && next.streams == received.streams && next.cache == received.cache
            && (if d !in received.handlers || storeFails || out.Err?
                then next.db == sys.db && next.outputs == received.outputs
                else
                  && next.outputs == received.outputs + [DurableAck(d, m.run, m.sequence)]
                  && next.db == if EventKindOf(m.kind) == RunAccepted && CommandOf(m.payload) != ""
                                then MarkCommandDelivered(out.value, CommandOf(m.payload)) else out.value)
  {
    ReceiveEffect(sys, d, m, lookupFails, redisFails);
  }

  /* ---- the effect of a message, on the tables ---- */

  function Stream(streams: map<string, seq<Entry>>, r: string): seq<Entry> { if r in streams then streams[r] else [] }

  /** The message is numbered above all in its stream, and its run does not have it yet. */
  predicate New(db: Db, streams: map<string, seq<Entry>>, m: Message) {
    && m.run in db.runs && m.sequence >= 1 && m.sequence !in db.runs[m.run].events
    && forall e :: e in Stream(streams, m.run) ==> e.sequence < m.sequence
  }

  /** Its stream, and no other, ends with it. */
  predicate Appended(before: map<string, seq<Entry>>, after: map<string, seq<Entry>>, m: Message) {
    && m.run in after && after == before[m.run := after[m.run]]
    && EndsWith(Stream(before, m.run), after[m.run], m)
  }

  predicate EndsWith(before: seq<Entry>, after: seq<Entry>, m: Message) {
    && |after| == |before| + 1 && after[..|before|] == before
    && after[|before|].sequence == m.sequence && Carries(m, after[|before|].event)
  }

  /** The message is acknowledged as received, and as durable unless its event was refused. */
  predicate Acks(before: seq<Output>, after: seq<Output>, d: nat, m: Message, refused: bool) {
    after == before + [ReceivedAck(d, m.run, m.sequence)]
             + if refused then [] else [DurableAck(d, m.run, m.sequence)]
  }

  /** A run.accepted delivers the command it names, and nothing else touches the outbox. */
  predicate Settles(before: map<string, Command>, after: map<string, Command>, m: Message) {
    && after.Keys == before.Keys
    && forall c :: c in before ==>
         if m.kind == MsgRunAccepted && c != "" && c == CommandOf(m.payload)
         then after[c] == before[c].(status := Delivered, claimExpiresAt := None)
         else after[c] == before[c]
  }

  /** The tables after a new message of a stored run, no call failing. */
  ghost predicate Effect(before: Db, after: Db, m: Message, now: Time) {
    && m.run in before.runs && before.runs[m.run].sessionId in before.sessions
    && if Refused(before, m) then after == before
       else
         var s := before.runs[m.run].sessionId;
         && OnlyRun(before, after.(outbox := before.outbox), m.run, s)
         && Lands(m, before.runs[m.run], after.runs[m.run], now)
         && Logged(m, before.sessions[s], after.sessions[s])
         && Settles(before.outbox, after.outbox, m)
  }

  lemma NewPasses(sys: System, m: Message)
    requires New(sys.db, sys.streams, m)
    ensures var gate := AppendEntry(StreamOf(sys, m.run), m.sequence, EventOf(m));
            gate.Ok? && EndsWith(Stream(sys.streams, m.run), gate.value, m)
  {
    EventCarries(m);
    var stream := StreamOf(sys, m.run);
    assert stream != [] ==> stream[|stream| - 1] in stream;
  }

  lemma AcceptSettles(outbox: map<string, Command>, db: Db, m: Message)
    requires db.outbox == outbox
    ensures var next := if EventKindOf(m.kind) == RunAccepted && CommandOf(m.payload) != ""
                        then MarkCommandDelivered(db, CommandOf(m.payload)) else db;
            Settles(outbox, next.outbox, m) && next == db.(outbox := next.outbox)
  {
    EventCarries(m);
  }

  /** One message, new to its run and with no call failing, does to the stream, the run, its session and the
      outbox what its kind says, and nothing else. */
  lemma HandledLands(sys: System, d: nat, m: Message, lookupFails: bool, now: Time)
    requires sys.handlers == map[] && sys.deliveries == {} && DbOk(sys.db)
    requires New(sys.db, sys.streams, m)
    ensures var next := Handled(sys, d, m, lookupFails, false, false, now);
            && Effect(sys.db, next.db, m, now)
            && Appended(sys.streams, next.streams, m)
            && Acks(sys.outputs, next.outputs, d, m, Refused(sys.db, m))
  {
    ReceiveEffect(sys, d, m, lookupFails, false);
    MessageEffect(sys, d, m, lookupFails, false, false, now);
    NewPasses(sys, m);
    MessageStored(sys.db, m, now);
    var out := AppendAgentEvent(sys.db, m.run, m.sequence, EventOf(m), now);
    if out.Ok? {
      AcceptSettles(sys.db.outbox, out.value, m);
      EffectOf(sys.db, out.value, Handled(sys, d, m, lookupFails, false, false, now).db, m, now);
    }
  }

  lemma EffectOf(before: Db, mid: Db, after: Db, m: Message, now: Time)
    requires m.run in before.runs && before.runs[m.run].sessionId in before.sessions && !Refused(before, m)
    requires OnlyRun(before, mid, m.run, before.runs[m.run].sessionId)
    requires Lands(m, before.runs[m.run], mid.runs[m.run], now)
    requires Logged(m, before.sessions[before.runs[m.run].sessionId], mid.sessions[before.runs[m.run].sessionId])
    requires Settles(before.outbox, after.outbox, m) && after == mid.(outbox := after.outbox)
    ensures Effect(before, after, m, now)
  {
    assert after.(outbox := before.outbox) == mid;
  }
}
