/** The run event log over every trace: store failures, overlapping handlers of one run and bootstrap
    rewrites included. The row of a run stays the replay of its log exactly as long as every append is
    in place, and no event gets into it that did not pass the Redis stream. */
module RunReplay {
  import opened RuntimeTypes
  import opened RuntimeStore
  import opened StoreInvariant
  import opened RelaySystem
  import opened SystemInvariant
  import opened Acknowledgements
  import opened Outbox
  import opened RunLog

  /* ---- the fold, exactly ---- */

  ghost predicate Folded(db: Db, r: string) { r in db.runs ==> IsFold(db.runs[r], BaseStatus(db, r)) }

  /** The step commits a new event of `r`. */
  ghost predicate Appends(sys: System, a: Action, r: string) {
    && a.DoPersist? && Open(sys, a.delivery, r) && !a.storeFails && r in sys.db.runs
    && sys.handlers[a.delivery].entry.sequence !in sys.db.runs[r].events
    && AppendAgentEvent(sys.db, r, sys.handlers[a.delivery].entry.sequence, sys.handlers[a.delivery].entry.event,
                        a.now).Ok?
  }

  /** ... and puts it below a persisted one whose status it overwrites. */
  ghost predicate Misplaces(sys: System, a: Action, r: string) {
    Appends(sys, a, r)
      && !InPlace(sys.db.runs[r], sys.handlers[a.delivery].entry.sequence, sys.handlers[a.delivery].entry.event)
  }

  /** What a PostgreSQL append does to the row of `r`. */
  lemma PersistRow(sys: System, a: Action, r: string)
    requires a.DoPersist?
    ensures var next := Step(sys, a).db;
            && next.outbox == sys.db.outbox && next.runs.Keys == sys.db.runs.Keys
            && (r in sys.db.runs ==>
                  next.runs[r] == if Appends(sys, a, r)
                    then AppendedRow(sys.db.runs[r], sys.handlers[a.delivery].entry.sequence,
                                     sys.handlers[a.delivery].entry.event, a.now)
                    else sys.db.runs[r])
            && (Appends(sys, a, r) ==> sys.handlers[a.delivery].entry.sequence >= 1)
  {
    if a.delivery in sys.handlers {
      var h := sys.handlers[a.delivery];
      AppendAgentEventRuns(sys.db, h.run, h.entry.sequence, h.entry.event, a.now);
    }
  }

  lemma PersistFoldExact(sys: System, a: Action, r: string)
    requires DbOk(sys.db) && Folded(sys.db, r) && a.DoPersist?
    ensures Folded(Step(sys, a).db, r) <==> !Misplaces(sys, a, r)
  {
    PersistRow(sys, a, r);
    StartClaimedSame(sys.db, Step(sys, a).db, r);
    if Appends(sys, a, r) {
      var h := sys.handlers[a.delivery];
      assert RunOk(sys.db.runs[r]);
      LateAppendExact(sys.db.runs[r], h.entry.sequence, h.entry.event, a.now, BaseStatus(sys.db, r));
    }
  }

  lemma ClosedFolds(run: Run, base: Status)
    requires Closed(run)
    ensures IsFold(run, base)
  {
  }

  /** A batch leaves a row as it was, or closes it; either way it is a fold. */
  lemma BatchFolds(sys: System, a: Action, r: string)
    requires DbOk(sys.db) && Folded(sys.db, r) && a.DoBatch?
    ensures Folded(Step(sys, a).db, r)
  {
    var next := Step(sys, a).db;
    BatchBase(sys, a, r);
    if next != sys.db && r in next.runs {
      BatchRow(sys, a, r);
      if Closed(next.runs[r]) { ClosedFolds(next.runs[r], BaseStatus(next, r)); }
    }
  }

  lemma BatchRow(sys: System, a: Action, r: string)
    requires DbOk(sys.db) && a.DoBatch? && r in Step(sys, a).db.runs
    ensures (r in sys.db.runs && Step(sys, a).db.runs[r] == sys.db.runs[r]) || Closed(Step(sys, a).db.runs[r])
  {
    ApplyBatchImports(sys.db, a.payload, a.now);
  }

  lemma CreatedFolds(sys: System, a: Action, r: string)
    requires a.DoCreateRunCommit? && r !in sys.db.runs
    ensures Folded(Step(sys, a).db, r)
  {
    var out := CreateRunCommit(sys.db, a.session, a.prompt, a.profile, a.key, a.hash, a.runId, a.commandId, a.now);
    CreateRunRuns(sys.db, a.session, a.prompt, a.profile, a.key, a.hash, a.runId, a.commandId, a.now);
    if out.Ok? && r in out.value.0.runs {
      forall c | HasCommand(out.value.0.outbox, c, RunStart, r) ensures out.value.0.outbox[c].attempts == 0 {
        FreshStart(sys.db, a.session, a.prompt, a.profile, a.key, a.hash, a.runId, a.commandId, a.now, c);
      }
      assert !StartClaimed(out.value.0, r);
    }
  }

  lemma OutsideFolds(sys: System, a: Action, r: string)
    requires DbOk(sys.db) && Folded(sys.db, r) && Outside(a)
    ensures Folded(Step(sys, a).db, r)
  {
    if r in sys.db.runs {
      OutsideRowStep(sys, a, r);
      assert RunOk(sys.db.runs[r]);
      RowStepFolds(sys.db, Step(sys, a).db, r);
    } else if a.DoCreateRunCommit? {
      CreatedFolds(sys, a, r);
    } else {
      QuietStep(sys, a);
    }
  }

  lemma MarkFolds(sys: System, a: Action, r: string)
    requires DbOk(sys.db) && Folded(sys.db, r) && a.DoMarkAccepted?
    ensures Folded(Step(sys, a).db, r)
  {
    MarkStep(sys, a);
    if r in sys.db.runs && Marks(sys, a).Some? {
      MarkRowStep(sys.db, Marks(sys, a).value, r);
      assert RunOk(sys.db.runs[r]);
      RowStepFolds(sys.db, Step(sys, a).db, r);
    }
  }

  /** Any step at all keeps the row of `r` the replay of its log, if and only if it does not commit an
      event of `r` out of place. */
  lemma StepFoldExact(sys: System, a: Action, r: string)
    requires DbOk(sys.db) && Folded(sys.db, r)
    ensures Folded(Step(sys, a).db, r) <==> !Misplaces(sys, a, r)
  {
    if a.DoPersist? { PersistFoldExact(sys, a, r); }
    else if a.DoReceive? { ReceiveDb(sys, a.delivery, a.message, a.lookupFails, a.redisFails, a.appTakes); }
    else if a.DoMarkAccepted? { MarkFolds(sys, a, r); }
    else if a.DoBatch? { BatchFolds(sys, a, r); }
    else { OutsideFolds(sys, a, r); }
  }

  ghost predicate AlwaysFolded(sys: System, actions: seq<Action>, r: string)
    decreases |actions|
  {
    Folded(sys.db, r) && (actions == [] || AlwaysFolded(Step(sys, actions[0]), actions[1..], r))
  }

  ghost predicate NeverMisplaces(sys: System, actions: seq<Action>, r: string)
    decreases |actions|
  {
    actions == [] || (!Misplaces(sys, actions[0], r) && NeverMisplaces(Step(sys, actions[0]), actions[1..], r))
  }

  lemma NotAlways(sys: System, actions: seq<Action>, r: string)
    requires !Folded(sys.db, r)
    ensures !AlwaysFolded(sys, actions, r)
  {
  }

  /** Over every trace, with store failures, overlapping handlers and bootstrap: in all its states the row
      of `r` is the fold of its events in sequence order, if and only if no step of the trace commits an
      event of `r` out of place. */
  lemma {:induction false} ReplayExact(sys: System, actions: seq<Action>, r: string)
    requires DbOk(sys.db) && Folded(sys.db, r)
    ensures AlwaysFolded(sys, actions, r) <==> NeverMisplaces(sys, actions, r)
    decreases |actions|
  {
    if actions != [] {
      StepKeepsStore(sys, actions[0]);
      StepFoldExact(sys, actions[0], r);
      if Misplaces(sys, actions[0], r) { NotAlways(Step(sys, actions[0]), actions[1..], r); }
      else { ReplayExact(Step(sys, actions[0]), actions[1..], r); }
    }
  }

  /* ---- the log against the stream ---- */

  ghost predicate InLog(stream: seq<Entry>, k: int, e: RunEvent, i: int) {
    0 <= i < |stream| && stream[i].sequence == k && e == Stored(stream[i].event)
  }

  ghost predicate RowSourced(events: map<int, RunEvent>, stream: seq<Entry>) {
    forall k :: k in events ==> exists i :: InLog(stream, k, events[k], i)
  }

  /** Every persisted event of `r` is an entry of its stream. */
  ghost predicate Sourced(sys: System, r: string) {
    r in sys.db.runs ==> RowSourced(sys.db.runs[r].events, StreamOf(sys, r))
  }

  lemma PutSourced(events: map<int, RunEvent>, stream: seq<Entry>, e: Entry)
    requires RowSourced(events, stream) && e in stream
    ensures RowSourced(events[e.sequence := Stored(e.event)], stream)
  {
    var next := events[e.sequence := Stored(e.event)];
    forall k | k in next ensures exists i :: InLog(stream, k, next[k], i) {
      if k == e.sequence {
        var i :| 0 <= i < |stream| && stream[i] == e;
        assert InLog(stream, k, next[k], i);
      }
    }
  }

  lemma GrownSourced(events: map<int, RunEvent>, stream: seq<Entry>, grown: seq<Entry>)
    requires RowSourced(events, stream) && |stream| <= |grown| && grown[..|stream|] == stream
    ensures RowSourced(events, grown)
  {
    forall k | k in events ensures exists i :: InLog(grown, k, events[k], i) {
      var i :| InLog(stream, k, events[k], i);
      assert grown[..|stream|][i] == grown[i];
      assert InLog(grown, k, events[k], i);
    }
  }

  ghost predicate Brings(sys: System, d: nat, r: string, e: Entry) { Open(sys, d, r) && sys.handlers[d].entry == e }

  /** Every entry of the stream of `r` is persisted or on its way. */
  ghost predicate Carried(sys: System, r: string) {
    && r in sys.db.runs
    && forall i :: 0 <= i < |StreamOf(sys, r)| ==>
         StreamOf(sys, r)[i].sequence in sys.db.runs[r].events || exists d :: Brings(sys, d, r, StreamOf(sys, r)[i])
  }

  ghost predicate Drained(sys: System, r: string) { forall d :: !Open(sys, d, r) }

  /** Neither the stream nor the events of `r` changed, and what was open still is. */
  ghost predicate SameFlowOf(sys: System, next: System, r: string) {
    && StreamOf(next, r) == StreamOf(sys, r)
    && r in sys.db.runs && r in next.db.runs && next.db.runs[r].events == sys.db.runs[r].events
    && forall d, e :: Brings(sys, d, r, e) ==> Brings(next, d, r, e)
  }

  lemma SameFlowSourced(sys: System, next: System, r: string)
    requires SameFlowOf(sys, next, r) && Sourced(sys, r)
    ensures Sourced(next, r) && (Carried(sys, r) ==> Carried(next, r))
  {
    if Carried(sys, r) {
      forall i | 0 <= i < |StreamOf(next, r)| && StreamOf(next, r)[i].sequence !in next.db.runs[r].events
        ensures exists d :: Brings(next, d, r, StreamOf(next, r)[i])
      {
        var d :| Brings(sys, d, r, StreamOf(sys, r)[i]);
        assert Brings(next, d, r, StreamOf(next, r)[i]);
      }
    }
  }

  lemma OutsideFlow(sys: System, a: Action, r: string)
    requires DbOk(sys.db) && r in sys.db.runs && Outside(a)
    ensures SameFlowOf(sys, Step(sys, a), r)
  {
    OutsideRowStep(sys, a, r);
    OutsideFrame(sys, a);
  }

  lemma MarkedFlow(sys: System, a: Action, r: string)
    requires r in sys.db.runs && a.DoMarkAccepted?
    ensures SameFlowOf(sys, Step(sys, a), r)
  {
    MarkFrame(sys, a.delivery, r);
    MarkStep(sys, a);
  }

  lemma BatchedFlow(sys: System, a: Action, r: string)
    requires r in sys.db.runs && a.DoBatch? && LeavesRow(sys, a, r)
    ensures SameFlowOf(sys, Step(sys, a), r)
  {
    BatchFrame(sys, a);
  }

  /** Storing an open message moves its entry from the way into the row; failing leaves the row alone. */
  lemma PersistFlow(sys: System, a: Action, r: string)
    requires FlowOk(sys) && r in sys.db.runs && Sourced(sys, r) && a.DoPersist?
    ensures Sourced(Step(sys, a), r)
    ensures StreamOf(Step(sys, a), r) == StreamOf(sys, r)
  {
    PersistRow(sys, a, r);
    PersistStreams(sys, a);
    if Appends(sys, a, r) {
      assert HandlerFlows(sys, sys.handlers[a.delivery]);
      PutSourced(sys.db.runs[r].events, StreamOf(sys, r), sys.handlers[a.delivery].entry);
    }
  }

  lemma PersistStreams(sys: System, a: Action)
    requires a.DoPersist?
    ensures Step(sys, a).streams == sys.streams
    ensures forall d, r, e :: Brings(sys, d, r, e) && d != a.delivery ==> Brings(Step(sys, a), d, r, e)
  {
  }

  lemma PersistCarries(sys: System, a: Action, r: string)
    requires Carried(sys, r) && Unfailed(sys, a, r) && a.DoPersist?
    ensures Carried(Step(sys, a), r)
  {
    var next, stream := Step(sys, a), StreamOf(sys, r);
    PersistRow(sys, a, r);
    PersistStreams(sys, a);
    assert StreamOf(next, r) == stream;
    forall i | 0 <= i < |stream| && stream[i].sequence !in next.db.runs[r].events
      ensures exists d :: Brings(next, d, r, stream[i])
    {
      assert stream[i].sequence !in sys.db.runs[r].events;
      var d :| Brings(sys, d, r, stream[i]);
      assert d != a.delivery;
      assert Brings(next, d, r, stream[i]);
    }
  }

  /** A message passes the gate, or leaves streams and handlers alone. */
  ghost predicate PassesGate(sys: System, d: nat, m: Message, lookupFails: bool, redisFails: bool) {
    && d !in sys.deliveries && m.sequence >= 1 && !redisFails && Owns(sys, m.run, lookupFails)
    && AppendEntry(StreamOf(sys, m.run), m.sequence, EventOf(m)).Ok?
  }

  ghost predicate Passes(sys: System, a: Action)
    requires a.DoReceive?
  {
    PassesGate(sys, a.delivery, a.message, a.lookupFails, a.redisFails)
  }

  lemma GateShape(sys: System, d: nat, m: Message, lookupFails: bool, redisFails: bool, appTakes: bool)
    ensures var next := Receive(sys, d, m, lookupFails, redisFails, appTakes);
            && next.db == sys.db
            && (if PassesGate(sys, d, m, lookupFails, redisFails) then
                  && next.streams
                     == sys.streams[m.run := AppendEntry(StreamOf(sys, m.run), m.sequence, EventOf(m)).value]
                  && next.handlers == sys.handlers[d := Handler(m.run, Entry(m.sequence, EventOf(m)), false)]
                else next.streams == sys.streams && next.handlers == sys.handlers)
  {
  }

  lemma ReceiveShape(sys: System, a: Action)
    requires a.DoReceive?
    ensures var next, m := Step(sys, a), a.message;
            && next.db == sys.db
            && (if Passes(sys, a) then
                  && next.streams
                     == sys.streams[m.run := AppendEntry(StreamOf(sys, m.run), m.sequence, EventOf(m)).value]
                  && next.handlers == sys.handlers[a.delivery := Handler(m.run, Entry(m.sequence, EventOf(m)), false)]
                else next.streams == sys.streams && next.handlers == sys.handlers)
  {
    GateShape(sys, a.delivery, a.message, a.lookupFails, a.redisFails, a.appTakes);
  }

  /** Taking in a message: the stream follows the reference, and what was open stays open. */
  lemma ReceiveStream(sys: System, a: Action, r: string)
    requires FlowOk(sys) && r in sys.db.runs && a.DoReceive?
    ensures var next := Step(sys, a);
            && next.db == sys.db && (forall d, e :: Brings(sys, d, r, e) ==> Brings(next, d, r, e))
            && (StreamOf(next, r) == StreamOf(sys, r)
                || GrownBy(StreamOf(sys, r), Entry(a.message.sequence, EventOf(a.message)), StreamOf(next, r)))
            && (StreamOf(next, r) != StreamOf(sys, r)
                ==> Brings(next, a.delivery, r, Entry(a.message.sequence, EventOf(a.message))))
            && (Unfailed(sys, a, r) ==> StreamOf(next, r) == Admit(StreamOf(sys, r), a, r))
  {
    ReceiveShape(sys, a);
    assert sys.handlers.Keys <= sys.deliveries;
    MessageStream(sys, Step(sys, a), a, r);
  }

  lemma MessageStream(sys: System, next: System, a: Action, r: string)
    requires r in sys.db.runs && a.DoReceive? && sys.handlers.Keys <= sys.deliveries
    requires var m := a.message;
             if Passes(sys, a) then
               && next.streams == sys.streams[m.run := AppendEntry(StreamOf(sys, m.run), m.sequence, EventOf(m)).value]
               && next.handlers == sys.handlers[a.delivery := Handler(m.run, Entry(m.sequence, EventOf(m)), false)]
             else next.streams == sys.streams && next.handlers == sys.handlers
    ensures forall d, e :: Brings(sys, d, r, e) ==> Brings(next, d, r, e)
    ensures StreamOf(next, r) == StreamOf(sys, r)
            || GrownBy(StreamOf(sys, r), Entry(a.message.sequence, EventOf(a.message)), StreamOf(next, r))
    ensures StreamOf(next, r) != StreamOf(sys, r)
            ==> Brings(next, a.delivery, r, Entry(a.message.sequence, EventOf(a.message)))
    ensures Unfailed(sys, a, r) ==> StreamOf(next, r) == Admit(StreamOf(sys, r), a, r)
  {
    if a.message.run == r && a.message.sequence >= 1 {
      GateAdmits(StreamOf(sys, r), a.message.sequence, EventOf(a.message));
    }
  }

  lemma ReceivedFlow(sys: System, a: Action, r: string)
    requires FlowOk(sys) && r in sys.db.runs && Sourced(sys, r) && a.DoReceive?
    ensures Sourced(Step(sys, a), r) && (Carried(sys, r) ==> Carried(Step(sys, a), r))
  {
    ReceiveStream(sys, a, r);
    GrownFlow(sys, Step(sys, a), a.delivery, Entry(a.message.sequence, EventOf(a.message)), r);
  }

  /** The stream grew by an entry that is on its way, or not at all. */
  lemma GrownFlow(sys: System, next: System, d: nat, e: Entry, r: string)
    requires r in sys.db.runs && Sourced(sys, r) && next.db == sys.db
    requires forall x, y :: Brings(sys, x, r, y) ==> Brings(next, x, r, y)
    requires StreamOf(next, r) == StreamOf(sys, r)
             || (GrownBy(StreamOf(sys, r), e, StreamOf(next, r)) && Brings(next, d, r, e))
    ensures Sourced(next, r) && (Carried(sys, r) ==> Carried(next, r))
  {
    var before, grown := StreamOf(sys, r), StreamOf(next, r);
    GrownSourced(sys.db.runs[r].events, before, grown);
    if Carried(sys, r) {
      forall i | 0 <= i < |grown| && grown[i].sequence !in next.db.runs[r].events
        ensures exists x :: Brings(next, x, r, grown[i])
      {
        if i < |before| {
          assert grown[i] == before[i];
          var x :| Brings(sys, x, r, before[i]);
          assert Brings(next, x, r, grown[i]);
        } else {
          assert Brings(next, d, r, grown[i]);
        }
      }
    }
  }

  lemma StepFlow(sys: System, a: Action, r: string)
    requires DbOk(sys.db) && FlowOk(sys) && r in sys.db.runs && Sourced(sys, r) && LeavesRow(sys, a, r)
    ensures r in Step(sys, a).db.runs && Sourced(Step(sys, a), r)
    ensures Unfailed(sys, a, r) ==> StreamOf(Step(sys, a), r) == Admit(StreamOf(sys, r), a, r)
    ensures Unfailed(sys, a, r) && Carried(sys, r) ==> Carried(Step(sys, a), r)
  {
    if a.DoReceive? {
      ReceiveStream(sys, a, r);
      ReceivedFlow(sys, a, r);
    } else if a.DoPersist? {
      PersistStepFlow(sys, a, r);
    } else {
      OtherStepFlow(sys, a, r);
      SameFlowSourced(sys, Step(sys, a), r);
    }
  }

  lemma OtherStepFlow(sys: System, a: Action, r: string)
    requires DbOk(sys.db) && r in sys.db.runs && LeavesRow(sys, a, r) && !a.DoReceive? && !a.DoPersist?
    ensures SameFlowOf(sys, Step(sys, a), r)
  {
    if a.DoMarkAccepted? {
      MarkedFlow(sys, a, r);
    } else if a.DoBatch? {
      BatchedFlow(sys, a, r);
    } else {
      OutsideFlow(sys, a, r);
    }
  }

  lemma PersistStepFlow(sys: System, a: Action, r: string)
    requires FlowOk(sys) && r in sys.db.runs && Sourced(sys, r) && a.DoPersist?
    ensures r in Step(sys, a).db.runs && Sourced(Step(sys, a), r) && StreamOf(Step(sys, a), r) == StreamOf(sys, r)
    ensures Unfailed(sys, a, r) && Carried(sys, r) ==> Carried(Step(sys, a), r)
  {
    PersistRow(sys, a, r);
    PersistFlow(sys, a, r);
    if Unfailed(sys, a, r) && Carried(sys, r) { PersistCarries(sys, a, r); }
  }

  ghost predicate NeverRewritten(sys: System, actions: seq<Action>, r: string)
    decreases |actions|
  {
    actions == [] || (LeavesRow(sys, actions[0], r) && NeverRewritten(Step(sys, actions[0]), actions[1..], r))
  }

  ghost predicate NeverFails(sys: System, actions: seq<Action>, r: string)
    decreases |actions|
  {
    actions == [] || (Unfailed(sys, actions[0], r) && NeverFails(Step(sys, actions[0]), actions[1..], r))
  }

  /** Over every trace that does not bootstrap `r`, every event in its log passed its stream. If no event
      of `r` fails, however its handlers overlap, the stream is the reference log, and whenever none of
      its messages is under way the log is the reference log, up to persisted_through_sequence. */
  lemma {:induction false} LogIsReference(sys: System, actions: seq<Action>, r: string)
    requires RelayOk(sys) && r in sys.db.runs && Sourced(sys, r) && NeverRewritten(sys, actions, r)
    ensures var end := Execute(sys, actions);
            && r in end.db.runs && Sourced(end, r)
            && (NeverFails(sys, actions, r) && Carried(sys, r) ==>
                  && StreamOf(end, r) == Admitted(StreamOf(sys, r), actions, r) && Carried(end, r)
                  && (Drained(end, r) ==>
                        LogIs(end.db.runs[r].events, StreamOf(end, r))
                          && end.db.runs[r].persisted == LastSequence(StreamOf(end, r))))
    decreases |actions|
  {
    if actions == [] {
      if Carried(sys, r) && Drained(sys, r) { DrainedLog(sys, r); }
    } else {
      StepKeepsRelay(sys, actions[0]);
      StepFlow(sys, actions[0], r);
      LogIsReference(Step(sys, actions[0]), actions[1..], r);
    }
  }

  lemma DrainedLog(sys: System, r: string)
    requires RelayOk(sys) && Carried(sys, r) && Sourced(sys, r) && Drained(sys, r)
    ensures LogIs(sys.db.runs[r].events, StreamOf(sys, r)) && sys.db.runs[r].persisted == LastSequence(StreamOf(sys, r))
  {
    assert RunOk(sys.db.runs[r]);
    assert r in sys.streams ==> StreamAscending(sys.streams[r]);
    assert forall d, e :: !Brings(sys, d, r, e);
    SourcedLog(sys.db.runs[r], StreamOf(sys, r));
  }

  lemma SourcedLog(run: Run, stream: seq<Entry>)
    requires RunOk(run) && StreamAscending(stream) && RowSourced(run.events, stream)
    requires forall i :: 0 <= i < |stream| ==> stream[i].sequence in run.events
    ensures LogIs(run.events, stream) && run.persisted == LastSequence(stream)
  {
    SourcedKeys(run.events, stream);
    SourcedEvents(run.events, stream);
    SourcedLast(run, stream);
  }

  lemma SourcedKeys(events: map<int, RunEvent>, stream: seq<Entry>)
    requires RowSourced(events, stream)
    requires forall i :: 0 <= i < |stream| ==> stream[i].sequence in events
    ensures events.Keys == (set i | 0 <= i < |stream| :: stream[i].sequence)
  {
    forall k | k in events ensures k in (set i | 0 <= i < |stream| :: stream[i].sequence) {
      var i :| InLog(stream, k, events[k], i);
      assert stream[i].sequence == k;
    }
  }

  lemma SourcedEvents(events: map<int, RunEvent>, stream: seq<Entry>)
    requires StreamAscending(stream) && RowSourced(events, stream)
    requires forall i :: 0 <= i < |stream| ==> stream[i].sequence in events
    ensures forall i :: 0 <= i < |stream| ==> events[stream[i].sequence] == Stored(stream[i].event)
  {
    forall i | 0 <= i < |stream| ensures events[stream[i].sequence] == Stored(stream[i].event) {
      var j :| InLog(stream, stream[i].sequence, events[stream[i].sequence], j);
      assert i == j;
    }
  }

  lemma SourcedLast(run: Run, stream: seq<Entry>)
    requires RunOk(run) && StreamAscending(stream) && RowSourced(run.events, stream)
    requires forall i :: 0 <= i < |stream| ==> stream[i].sequence in run.events
    ensures run.persisted == LastSequence(stream)
  {
    if stream != [] {
      var last := stream[|stream| - 1].sequence;
      assert last in run.events;
      var i :| InLog(stream, run.persisted, run.events[run.persisted], i);
    }
  }
}
