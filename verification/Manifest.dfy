/** A sync job fed from a fixed manifest of numbered bootstrap batches, in any trace of the whole
    server: deliveries may be duplicated, reordered, dropped or rolled back. */
module Manifest {
  import opened RuntimeTypes
  import opened RuntimeStore
  import opened Bootstrap
  import opened RelaySystem

  ghost predicate IsManifest(ps: seq<BatchPayload>, sync: string) {
    forall n :: 0 <= n < |ps| ==> ps[n].batchNo == n && ps[n].syncId == sync
  }

  predicate Feeds(a: Action, sync: string) { a.DoBatch? && a.payload.syncId == sync }

  /** Whatever the Agent delivers for the job is an entry of the manifest. */
  ghost predicate FromManifest(actions: seq<Action>, ps: seq<BatchPayload>, sync: string) {
    forall i :: 0 <= i < |actions| && Feeds(actions[i], sync) ==>
      0 <= actions[i].payload.batchNo < |ps| && actions[i].payload == ps[actions[i].payload.batchNo]
  }

  function LastBatch(sys: System, sync: string): int
    requires sync in sys.db.jobs
  {
    sys.db.jobs[sync].lastBatch
  }

  ghost predicate Moves(sys: System, a: Action, sync: string) {
    && sync in sys.db.jobs && sync in Step(sys, a).db.jobs
    && LastBatch(Step(sys, a), sync) != LastBatch(sys, sync)
  }

  /** The trace without the deliveries for the job that commit nothing new. */
  ghost function Effective(sys: System, actions: seq<Action>, sync: string): seq<Action>
    decreases |actions|
  {
    if actions == [] then []
    else if Feeds(actions[0], sync) && !Moves(sys, actions[0], sync)
    then Effective(Step(sys, actions[0]), actions[1..], sync)
    else [actions[0]] + Effective(Step(sys, actions[0]), actions[1..], sync)
  }

  /** The batches a trace delivers for the job, in order. */
  function Delivered(actions: seq<Action>, sync: string): seq<BatchPayload> {
    if actions == [] then []
    else if Feeds(actions[0], sync) then [actions[0].payload] + Delivered(actions[1..], sync)
    else Delivered(actions[1..], sync)
  }

  /* ---- one step ---- */

  lemma ApplyBatchJobs(db: Db, b: Batch, now: Time, sync: string)
    requires sync in db.jobs && ApplyBatch(db, b, now).Ok?
    ensures var next := ApplyBatch(db, b, now).value;
            && sync in next.jobs
            && (if b.syncId != sync then next.jobs[sync] == db.jobs[sync]
                else if Repeats(db.jobs[sync], b) then next == db
                else next.jobs[sync].lastBatch == b.batchNo == db.jobs[sync].lastBatch + 1
                     && next.jobs[sync].checksum == b.checksum)
  {
  }

  lemma {:induction false} ClaimJobs(db: Db, chosen: seq<string>, now: Time)
    requires forall i :: 0 <= i < |chosen| ==> chosen[i] in db.outbox
    ensures ClaimCommands(db, chosen, now).jobs == db.jobs
    decreases |chosen|
  {
    if chosen != [] { ClaimJobs(ClaimOne(db, chosen[0], now), chosen[1..], now); }
  }

  lemma {:induction false} UpsertJobs(db: Db, ps: seq<BatchProject>, now: Time)
    ensures UpsertProjects(db, ps, now).jobs == db.jobs
    decreases |ps|
  {
    if ps != [] {
      if IsBlank(ps[0].id) || IsBlank(ps[0].name) { UpsertJobs(db, ps[1..], now); }
      else {
        var row := Project(ps[0].name, if ps[0].id in db.projects then db.projects[ps[0].id].lastSeen else None, None,
                           now);
        UpsertJobs(db.(projects := db.projects[ps[0].id := row]), ps[1..], now);
      }
    }
  }

  predicate Handling(a: Action) { a.DoReceive? || a.DoPersist? || a.DoMarkAccepted? }

  lemma HandlingJobs(sys: System, a: Action)
    requires Handling(a)
    ensures Step(sys, a).db.jobs == sys.db.jobs
  {
  }

  lemma OtherBatchJobs(sys: System, a: Action, sync: string)
    requires a.DoBatch? && a.payload.syncId != sync && sync in sys.db.jobs
    ensures sync in Step(sys, a).db.jobs && Step(sys, a).db.jobs[sync] == sys.db.jobs[sync]
  {
    if ApplyBatch(sys.db, BatchOf(a.payload), a.now).Ok? { ApplyBatchJobs(sys.db, BatchOf(a.payload), a.now, sync); }
  }

  /** Only a delivery for the job touches its row. */
  lemma JobFrame(sys: System, a: Action, sync: string)
    requires sync in sys.db.jobs && !Feeds(a, sync)
    ensures sync in Step(sys, a).db.jobs && Step(sys, a).db.jobs[sync] == sys.db.jobs[sync]
  {
    if Handling(a) { HandlingJobs(sys, a); }
    else if a.DoBatch? { OtherBatchJobs(sys, a, sync); }
    else { RestJobs(sys, a, sync); }
  }

  lemma RestJobs(sys: System, a: Action, sync: string)
    requires sync in sys.db.jobs && !Handling(a) && !a.DoBatch?
    ensures sync in Step(sys, a).db.jobs && Step(sys, a).db.jobs[sync] == sys.db.jobs[sync]
  {
    match a
    case DoUpsertProjects(ps, now) => UpsertJobs(sys.db, ps, now);
    case DoClaim(chosen, limit, now) => if Claimable(sys.db, chosen, limit, now) { ClaimJobs(sys.db, chosen, now); }
    case DoCreateRunCommit(session, prompt, profile, key, hash, runId, commandId, now) =>
      CreateRunJobs(sys, session, prompt, profile, key, hash, runId, commandId, now);
    case DoCreateSyncJob(id, commandId, key, now) => NewJobKeepsJobs(sys.db, id, commandId, key, now, sync);
    case _ => SmallStepJobs(sys, a);
  }

  lemma SmallStepJobs(sys: System, a: Action)
    requires a.DoCreateSession? || a.DoCreateRunLookup? || a.DoRequestCancel? || a.DoRelease? || a.DoMarkSent?
             || a.DoMarkBatchDone?
    ensures Step(sys, a).db.jobs == sys.db.jobs
  {
  }

  lemma CreateRunJobs(sys: System, session: string, prompt: string, profile: string, key: string, hash: string,
                      runId: string, commandId: string, now: Time)
    ensures CreateRunSlow(sys, session, prompt, profile, key, hash, runId, commandId, now).db.jobs == sys.db.jobs
  {
  }

  lemma NewJobKeepsJobs(db: Db, id: string, commandId: string, key: string, now: Time, sync: string)
    requires sync in db.jobs
    ensures var out := CreateSyncJob(db, id, commandId, key, now);
            out.Ok? ==> sync in out.value.0.jobs && out.value.0.jobs[sync] == db.jobs[sync]
  {
  }

  /** A delivery for the job is refused, is a repeat of the last committed batch, or commits the next one. */
  lemma FeedCases(sys: System, a: Action, sync: string)
    requires sync in sys.db.jobs && Feeds(a, sync)
    ensures var next := Step(sys, a);
            var n := a.payload.batchNo;
            && sync in next.db.jobs
            && (next == sys
                || (next.outputs == sys.outputs + [BatchAck(sync, n, a.payload.checksum)]
                    && LastBatch(next, sync) == n && next.applied == sys.applied + {a.payload}
                    && (if Moves(sys, a, sync) then n == LastBatch(sys, sync) + 1
                        else next == sys.(outputs := next.outputs, clock := next.clock, applied := next.applied))))
  {
    if Step(sys, a) != sys { ApplyBatchJobs(sys.db, BatchOf(a.payload), a.now, sync); }
  }

  /* ---- dropping what commits nothing ---- */

  /** Equal up to what has been sent and when. */
  ghost predicate SameStore(x: System, y: System) { x == y.(outputs := x.outputs, clock := x.clock) }

  lemma ReceiveRespects(x: System, y: System, d: nat, m: Message, lookupFails: bool, redisFails: bool, appTakes: bool)
    requires SameStore(x, y)
    ensures SameStore(Receive(x, d, m, lookupFails, redisFails, appTakes),
                      Receive(y, d, m, lookupFails, redisFails, appTakes))
  {
    if d !in x.deliveries && m.sequence >= 1 && Owns(x, m.run, lookupFails) {
      assert StreamOf(x, m.run) == StreamOf(y, m.run);
    }
  }

  lemma PersistRespects(x: System, y: System, d: nat, storeFails: bool, now: Time)
    requires SameStore(x, y)
    ensures SameStore(Persist(x, d, storeFails, now), Persist(y, d, storeFails, now))
  {
  }

  lemma HandlingRespects(x: System, y: System, a: Action)
    requires SameStore(x, y) && Handling(a)
    ensures SameStore(Step(x, a), Step(y, a))
  {
    match a
    case DoReceive(d, m, lookupFails, redisFails, appTakes) =>
      ReceiveRespects(x, y, d, m, lookupFails, redisFails, appTakes);
    case DoPersist(d, storeFails, now) => PersistRespects(x, y, d, storeFails, now);
    case DoMarkAccepted(d) =>
  }

  lemma StepRespects(x: System, y: System, a: Action)
    requires SameStore(x, y)
    ensures SameStore(Step(x, a), Step(y, a))
  {
    if Handling(a) { HandlingRespects(x, y, a); }
  }

  /** The last committed batch of the job was answered. */
  ghost predicate LastAnswered(sys: System, ps: seq<BatchPayload>, sync: string) {
    && sync in sys.db.jobs && -1 <= LastBatch(sys, sync) < |ps|
    && (LastBatch(sys, sync) >= 0 ==> ps[LastBatch(sys, sync)] in sys.applied)
  }

  /** What was answered stays so, and only a delivery for the job is answered for it. */
  lemma AppliedStays(sys: System, a: Action)
    ensures sys.applied <= Step(sys, a).applied
  {
    if Handling(a) { HandlingApplied(sys, a); }
  }

  lemma HandlingApplied(sys: System, a: Action)
    requires Handling(a)
    ensures Step(sys, a).applied == sys.applied
  {
  }

  lemma StepAnswered(sys: System, a: Action, ps: seq<BatchPayload>, sync: string)
    requires LastAnswered(sys, ps, sync)
    requires Feeds(a, sync) ==> 0 <= a.payload.batchNo < |ps| && a.payload == ps[a.payload.batchNo]
    ensures LastAnswered(Step(sys, a), ps, sync)
    ensures Feeds(a, sync) && !Moves(sys, a, sync) ==> Step(sys, a).applied == sys.applied
  {
    AppliedStays(sys, a);
    if Feeds(a, sync) { FeedCases(sys, a, sync); } else { JobFrame(sys, a, sync); }
  }

  lemma {:induction false} DropIdle(x: System, y: System, actions: seq<Action>, ps: seq<BatchPayload>, sync: string)
    requires SameStore(x, y) && LastAnswered(x, ps, sync) && FromManifest(actions, ps, sync)
    ensures SameStore(Execute(x, actions), Execute(y, Effective(x, actions, sync)))
    decreases |actions|
  {
    if actions != [] {
      var a := actions[0];
      var rest := Effective(Step(x, a), actions[1..], sync);
      FromManifestSplit(actions, ps, sync);
      StepRespects(x, y, a);
      StepAnswered(x, a, ps, sync);
      if Feeds(a, sync) && !Moves(x, a, sync) {
        FeedCases(x, a, sync);
        DropIdle(Step(x, a), y, actions[1..], ps, sync);
      } else {
        DropIdle(Step(x, a), Step(y, a), actions[1..], ps, sync);
        assert ([a] + rest)[1..] == rest;
      }
    }
  }

  /* ---- what remains is the manifest in order ---- */

  /** Where the job stands after one step, and what the step contributes. */
  lemma OneDelivered(sys: System, a: Action, ps: seq<BatchPayload>, sync: string)
    requires IsManifest(ps, sync)
    requires (Feeds(a, sync) ==> 0 <= a.payload.batchNo < |ps| && a.payload == ps[a.payload.batchNo])
    requires sync in sys.db.jobs && -1 <= LastBatch(sys, sync) < |ps|
    ensures var next := Step(sys, a);
            && sync in next.db.jobs
            && (if Feeds(a, sync) && Moves(sys, a, sync)
                then LastBatch(next, sync) == LastBatch(sys, sync) + 1 < |ps| && a.payload == ps[LastBatch(next, sync)]
                else LastBatch(next, sync) == LastBatch(sys, sync))
  {
    if Feeds(a, sync) { FeedCases(sys, a, sync); } else { JobFrame(sys, a, sync); }
  }

  lemma DeliveredSplit(sys: System, actions: seq<Action>, sync: string)
    requires actions != []
    ensures var a := actions[0];
            var rest := Delivered(Effective(Step(sys, a), actions[1..], sync), sync);
            Delivered(Effective(sys, actions, sync), sync) ==
            if Feeds(a, sync) && Moves(sys, a, sync) then [a.payload] + rest else rest
  {
    var rest := Effective(Step(sys, actions[0]), actions[1..], sync);
    assert ([actions[0]] + rest)[1..] == rest;
  }

  /** `part` is what follows number `n` in `ps`, up to number `m`. */
  ghost predicate Covers(ps: seq<BatchPayload>, n: int, m: int, part: seq<BatchPayload>) {
    -1 <= n <= m < |ps| && part == ps[n + 1..m + 1]
  }

  lemma CoversMore(ps: seq<BatchPayload>, n: int, m: int, part: seq<BatchPayload>)
    requires -1 <= n && Covers(ps, n + 1, m, part)
    ensures Covers(ps, n, m, [ps[n + 1]] + part)
  {
  }

  lemma FromManifestSplit(actions: seq<Action>, ps: seq<BatchPayload>, sync: string)
    requires actions != [] && FromManifest(actions, ps, sync)
    ensures FromManifest([actions[0]], ps, sync) && FromManifest(actions[1..], ps, sync)
    ensures Feeds(actions[0], sync)
            ==> 0 <= actions[0].payload.batchNo < |ps| && actions[0].payload == ps[actions[0].payload.batchNo]
  {
  }

  /** What the trace delivers to effect is what the manifest holds between the two numbers. */
  ghost predicate InManifestOrder(sys: System, actions: seq<Action>, end: System, ps: seq<BatchPayload>, sync: string) {
    && sync in sys.db.jobs && sync in end.db.jobs
    && Covers(ps, LastBatch(sys, sync), LastBatch(end, sync), Delivered(Effective(sys, actions, sync), sync))
  }

  lemma OneMoreInOrder(sys: System, actions: seq<Action>, end: System, ps: seq<BatchPayload>, sync: string)
    requires actions != [] && InManifestOrder(Step(sys, actions[0]), actions[1..], end, ps, sync)
    requires sync in sys.db.jobs && -1 <= LastBatch(sys, sync)
    requires if Feeds(actions[0], sync) && Moves(sys, actions[0], sync)
             then LastBatch(Step(sys, actions[0]), sync) == LastBatch(sys, sync) + 1 < |ps|
                  && actions[0].payload == ps[LastBatch(sys, sync) + 1]
             else LastBatch(Step(sys, actions[0]), sync) == LastBatch(sys, sync)
    ensures InManifestOrder(sys, actions, end, ps, sync)
  {
    DeliveredSplit(sys, actions, sync);
    if Feeds(actions[0], sync) && Moves(sys, actions[0], sync) {
      CoversMore(ps, LastBatch(sys, sync), LastBatch(end, sync),
                 Delivered(Effective(Step(sys, actions[0]), actions[1..], sync), sync));
    }
  }

  lemma {:induction false} DeliveredInOrder(sys: System, actions: seq<Action>, ps: seq<BatchPayload>, sync: string)
    requires IsManifest(ps, sync) && FromManifest(actions, ps, sync)
    requires sync in sys.db.jobs && -1 <= LastBatch(sys, sync) < |ps|
    ensures InManifestOrder(sys, actions, Execute(sys, actions), ps, sync)
    decreases |actions|
  {
    if actions != [] {
      FromManifestSplit(actions, ps, sync);
      OneDelivered(sys, actions[0], ps, sync);
      DeliveredInOrder(Step(sys, actions[0]), actions[1..], ps, sync);
      OneMoreInOrder(sys, actions, Execute(sys, actions), ps, sync);
    }
  }

  /** A job fed from a manifest: the store (Redis, handlers and replies included) is the one reached
      by the trace in which the job's deliveries are batches 0, 1, ..., last_committed_batch_no,
      each once and in this order. */
  lemma ManifestAppliedOnce(sys: System, actions: seq<Action>, ps: seq<BatchPayload>, sync: string)
    requires IsManifest(ps, sync) && FromManifest(actions, ps, sync)
    requires sync in sys.db.jobs && LastBatch(sys, sync) == -1
    ensures var end := Execute(sys, actions);
            var once := Effective(sys, actions, sync);
            && sync in end.db.jobs && -1 <= LastBatch(end, sync) < |ps|
            && Delivered(once, sync) == ps[..LastBatch(end, sync) + 1]
            && SameStore(end, Execute(sys, once))
  {
    DeliveredInOrder(sys, actions, ps, sync);
    DropIdle(sys, sys, actions, ps, sync);
  }

  /* ---- acknowledgements ---- */

  predicate AcksBatch(o: Output, sync: string) { o.BatchAck? && o.sync == sync }

  /** Every acknowledged batch is committed, and is the manifest's. */
  ghost predicate AckedCommitted(sys: System, ps: seq<BatchPayload>, sync: string) {
    && sync in sys.db.jobs && -1 <= LastBatch(sys, sync) < |ps|
    && forall i :: 0 <= i < |sys.outputs| && AcksBatch(sys.outputs[i], sync) ==>
         && 0 <= sys.outputs[i].batchNo <= LastBatch(sys, sync)
         && sys.outputs[i].checksum == ps[sys.outputs[i].batchNo].checksum
  }

  /** `next` sent more, and nothing of it acknowledges the job. */
  ghost predicate SentOther(sys: System, next: System, sync: string) {
    && |sys.outputs| <= |next.outputs| && next.outputs[..|sys.outputs|] == sys.outputs
    && forall i :: |sys.outputs| <= i < |next.outputs| ==> !AcksBatch(next.outputs[i], sync)
  }

  lemma HandlingSends(sys: System, a: Action, sync: string)
    requires Handling(a)
    ensures SentOther(sys, Step(sys, a), sync)
  {
  }

  /** Other steps acknowledge nothing for the job. */
  lemma AckFrame(sys: System, a: Action, sync: string)
    requires !Feeds(a, sync)
    ensures SentOther(sys, Step(sys, a), sync)
  {
    if Handling(a) { HandlingSends(sys, a, sync); }
  }

  lemma StepKeepsAcked(sys: System, a: Action, ps: seq<BatchPayload>, sync: string)
    requires AckedCommitted(sys, ps, sync) && IsManifest(ps, sync) && FromManifest([a], ps, sync)
    ensures AckedCommitted(Step(sys, a), ps, sync)
  {
    assert [a][0] == a;
    if Feeds(a, sync) {
      FeedCases(sys, a, sync);
    } else {
      JobFrame(sys, a, sync);
      AckFrame(sys, a, sync);
      var next := Step(sys, a);
      forall i | 0 <= i < |sys.outputs| ensures next.outputs[i] == sys.outputs[i] {
        assert next.outputs[..|sys.outputs|][i] == next.outputs[i];
      }
    }
  }

  /** A durable acknowledgement of batch n is sent only when n is committed: in every state of the
      trace the acknowledged numbers lie within 0..last_committed_batch_no. */
  lemma {:induction false} BatchAcksSound(sys: System, actions: seq<Action>, ps: seq<BatchPayload>, sync: string)
    requires AckedCommitted(sys, ps, sync) && IsManifest(ps, sync) && FromManifest(actions, ps, sync)
    ensures AckedCommitted(Execute(sys, actions), ps, sync)
    decreases |actions|
  {
    if actions != [] {
      FromManifestSplit(actions, ps, sync);
      StepKeepsAcked(sys, actions[0], ps, sync);
      BatchAcksSound(Step(sys, actions[0]), actions[1..], ps, sync);
    }
  }
}
