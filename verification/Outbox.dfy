/** The command outbox: a waiting run always has a start command that will become claimable, and
    a command is never claimed more often than once a second. */
module Outbox {
  import opened RuntimeTypes
  import opened RuntimeStore
  import opened Bootstrap
  import opened StoreInvariant
  import opened RelaySystem
  import opened SystemInvariant
  import opened Acknowledgements

  /* ---- a queued or dispatching run is never lost ---- */

  ghost predicate Undelivered(outbox: map<string, Command>, c: string, r: string) {
    HasCommand(outbox, c, RunStart, r) && outbox[c].status != Delivered
  }

  ghost predicate Live(runs: map<string, Run>, outbox: map<string, Command>) {
    forall r :: r in runs && Waiting(runs[r].status) ==> exists c :: Undelivered(outbox, c, r)
  }

  /** The command that the Agent's message makes the server mark delivered. */
  function Marks(sys: System, a: Action): Option<string> {
    match a
    case DoMarkAccepted(d) =>
      if d in sys.handlers && sys.handlers[d].stored && sys.handlers[d].entry.event.kind == RunAccepted
         && CommandOf(sys.handlers[d].entry.event.payload) != ""
      then Some(CommandOf(sys.handlers[d].entry.event.payload)) else None
    case DoMarkBatchDone(p) => if p in sys.applied && p.done then Some(p.commandId) else None
    case _ => None
  }

  /** The step takes the start command away from a run that still waits for it. */
  predicate Strands(sys: System, a: Action) {
    var c := Marks(sys, a);
    c.Some? && c.value in sys.db.outbox && StartOfWaiting(sys.db, c.value)
  }

  predicate StartOfWaiting(db: Db, c: string)
    requires c in db.outbox
  {
    db.outbox[c].kind == RunStart && db.outbox[c].resource in db.runs && Waiting(db.runs[db.outbox[c].resource].status)
  }

  /** The Agent's side of the contract: run.accepted echoes the command of its own run, and a
      bootstrap batch does not name a run.start command. */
  predicate Echoes(sys: System, a: Action) {
    match a
    case DoMarkAccepted(d) =>
      d in sys.handlers ==>
        var c := CommandOf(sys.handlers[d].entry.event.payload);
        c in sys.db.outbox && sys.db.outbox[c].kind == RunStart ==> sys.db.outbox[c].resource == sys.handlers[d].run
    case DoMarkBatchDone(p) => p.commandId in sys.db.outbox ==> sys.db.outbox[p.commandId].kind != RunStart
    case _ => true
  }

  /** Start commands stay undelivered unless their run has left the queue. */
  ghost predicate StartsKept(before: map<string, Command>, after: map<string, Command>, runs: map<string, Run>) {
    forall c, r :: Undelivered(before, c, r) && r in runs && Waiting(runs[r].status) ==> Undelivered(after, c, r)
  }

  ghost predicate StillWaiting(before: map<string, Run>, after: map<string, Run>) {
    forall r :: r in after && Waiting(after[r].status) ==> r in before && Waiting(before[r].status)
  }

  lemma LiveKept(runs: map<string, Run>, outbox: map<string, Command>, runs': map<string, Run>,
                 outbox': map<string, Command>)
    requires Live(runs, outbox) && StillWaiting(runs, runs') && StartsKept(outbox, outbox', runs')
    ensures Live(runs', outbox')
  {
    forall r | r in runs' && Waiting(runs'[r].status) ensures exists c :: Undelivered(outbox', c, r) {
      var c :| Undelivered(outbox, c, r);
      assert Undelivered(outbox', c, r);
    }
  }

  /** A persisted run.accepted is a status-bearing event of its run, whatever was rewritten since. */
  lemma AcceptedBears(sys: System, d: nat)
    requires DbOk(sys.db) && FlowOk(sys) && d in sys.handlers
    requires sys.handlers[d].stored && sys.handlers[d].entry.event.kind == RunAccepted
    ensures var r := sys.handlers[d].run; r in sys.db.runs && !Waiting(sys.db.runs[r].status)
  {
    var h := sys.handlers[d];
    var run, stream, n := sys.db.runs[h.run], StreamOf(sys, h.run), h.entry.sequence;
    assert HandlerFlows(sys, h) && RunFlows(sys, h.run) && RunOk(run);
    if n in run.events && Mirrors(run, stream) {
      assert InStream(stream, n, run.events[n].kind);
      var i :| 0 <= i < |stream| && stream[i].sequence == n && stream[i].event.kind == run.events[n].kind;
      var j :| 0 <= j < |stream| && stream[j] == h.entry;
      assert i == j;
      assert Bears(run.events[n].kind);
    }
  }

  /** An Agent that echoes never strands a run. */
  lemma EchoNeverStrands(sys: System, a: Action)
    requires DbOk(sys.db) && FlowOk(sys) && Echoes(sys, a)
    ensures !Strands(sys, a)
  {
    if a.DoMarkAccepted? && Marks(sys, a).Some? { AcceptedBears(sys, a.delivery); }
  }

  lemma MarkKeepsLive(db: Db, c: string)
    requires Live(db.runs, db.outbox) && (c in db.outbox ==> !StartOfWaiting(db, c))
    ensures Live(db.runs, MarkCommandDelivered(db, c).outbox)
  {
    LiveKept(db.runs, db.outbox, db.runs, MarkCommandDelivered(db, c).outbox);
  }

  /** A start command is the only one of its run, so marking it early loses the run. */
  lemma MarkStrands(db: Db, c: string)
    requires UniqueCommands(db.outbox) && c in db.outbox && StartOfWaiting(db, c)
    ensures !Live(db.runs, MarkCommandDelivered(db, c).outbox)
  {
    var r, outbox := db.outbox[c].resource, MarkCommandDelivered(db, c).outbox;
    forall x ensures !Undelivered(outbox, x, r) {
      if HasCommand(outbox, x, RunStart, r) {
        assert HasCommand(db.outbox, x, RunStart, r) && HasCommand(db.outbox, c, RunStart, r);
      }
    }
  }

  lemma {:induction false} ClaimRows(db: Db, chosen: seq<string>, now: Time)
    requires forall i :: 0 <= i < |chosen| ==> chosen[i] in db.outbox
    requires forall i, j :: 0 <= i < j < |chosen| ==> chosen[i] != chosen[j]
    ensures var outbox := ClaimCommands(db, chosen, now).outbox;
            && outbox.Keys == db.outbox.Keys
            && forall c :: c in outbox
                 ==> outbox[c] == if c in chosen then ClaimedRow(db.outbox[c], now) else db.outbox[c]
    decreases |chosen|
  {
    if chosen != [] {
      var mid := ClaimOne(db, chosen[0], now);
      ClaimRows(mid, chosen[1..], now);
      var outbox := ClaimCommands(db, chosen, now).outbox;
      forall c | c in outbox ensures outbox[c] == if c in chosen then ClaimedRow(db.outbox[c], now) else db.outbox[c] {
        assert c in chosen <==> c == chosen[0] || c in chosen[1..];
      }
    }
  }

  lemma ClaimKeepsLive(sys: System, chosen: seq<string>, limit: int, now: Time)
    requires DbOk(sys.db) && Live(sys.db.runs, sys.db.outbox)
    ensures var next := Claim(sys, chosen, limit, now); Live(next.db.runs, next.db.outbox)
  {
    if Claimable(sys.db, chosen, limit, now) {
      var next := ClaimCommands(sys.db, chosen, now);
      ClaimRows(sys.db, chosen, now);
      forall r | r in sys.db.runs ensures sys.db.runs[r].status != WaitingAgent { NeverWaitingAgent(sys.db.runs, r); }
      ClaimCommandsQuiet(sys.db, chosen, now);
      LiveKept(sys.db.runs, sys.db.outbox, next.runs, next.outbox);
    }
  }

  lemma PersistKeepsLive(sys: System, d: nat, storeFails: bool, now: Time)
    requires Live(sys.db.runs, sys.db.outbox)
    ensures var next := Persist(sys, d, storeFails, now); Live(next.db.runs, next.db.outbox)
  {
    if d in sys.handlers && !sys.handlers[d].stored {
      var next := Persist(sys, d, storeFails, now);
      AppendAgentEventRuns(sys.db, sys.handlers[d].run, sys.handlers[d].entry.sequence, sys.handlers[d].entry.event,
                           now);
      LiveKept(sys.db.runs, sys.db.outbox, next.db.runs, next.db.outbox);
    }
  }

  lemma BatchOutbox(db: Db, p: BatchPayload, now: Time)
    ensures var out := ApplyBatch(db, BatchOf(p), now);
            out.Ok? ==> out.value == db || out.value.outbox == FinishCommand(db.outbox, BatchOf(p))
  {
  }

  /** Finishing a batch touches no start command. */
  lemma FinishKeepsStarts(outbox: map<string, Command>, b: Batch, runs: map<string, Run>)
    ensures StartsKept(outbox, FinishCommand(outbox, b), runs)
  {
  }

  lemma CommittedKeepsLive(db: Db, next: Db, b: Batch)
    requires Live(db.runs, db.outbox) && StillWaiting(db.runs, next.runs) && next.outbox == FinishCommand(db.outbox, b)
    ensures Live(next.runs, next.outbox)
  {
    FinishKeepsStarts(db.outbox, b, next.runs);
    LiveKept(db.runs, db.outbox, next.runs, next.outbox);
  }

  lemma ImportsStillWait(db: Db, p: BatchPayload, now: Time)
    requires DbOk(db) && ApplyBatch(db, BatchOf(p), now).Ok?
    ensures StillWaiting(db.runs, ApplyBatch(db, BatchOf(p), now).value.runs)
  {
    ApplyBatchImports(db, p, now);
  }

  lemma BatchKeepsLive(sys: System, p: BatchPayload, storeFails: bool, now: Time)
    requires DbOk(sys.db) && Live(sys.db.runs, sys.db.outbox)
    ensures var next := ReceiveBatch(sys, p, storeFails, now); Live(next.db.runs, next.db.outbox)
  {
    if ApplyBatch(sys.db, BatchOf(p), now).Ok? {
      ImportsStillWait(sys.db, p, now);
      BatchOutbox(sys.db, p, now);
      var next := ApplyBatch(sys.db, BatchOf(p), now).value;
      if next != sys.db { CommittedKeepsLive(sys.db, next, BatchOf(p)); }
    }
  }

  lemma CreateRunKeepsLive(db: Db, session: string, prompt: string, profile: string, key: string, hash: string,
                           runId: string, commandId: string, now: Time)
    requires Live(db.runs, db.outbox)
    ensures var out := CreateRunCommit(db, session, prompt, profile, key, hash, runId, commandId, now);
            out.Ok? ==> Live(out.value.0.runs, out.value.0.outbox)
  {
    var out := CreateRunCommit(db, session, prompt, profile, key, hash, runId, commandId, now);
    if out.Ok? && out.value.0 != db {
      var next := out.value.0;
      forall r | r in next.runs && Waiting(next.runs[r].status) ensures exists c :: Undelivered(next.outbox, c, r) {
        if r == runId {
          assert Undelivered(next.outbox, commandId, r);
        } else {
          var c :| Undelivered(db.outbox, c, r);
          assert Undelivered(next.outbox, c, r);
        }
      }
    }
  }

  predicate IsLiveStep(a: Action) {
    a.DoUpsertProjects? || a.DoCreateSession? || a.DoCreateRunLookup? || a.DoRequestCancel? || a.DoCreateSyncJob?
  }

  predicate IsFresh(c: Command) { c.status == Pending && c.attempts == 0 }

  /** Rows stay as they are; what is new was never claimed. */
  ghost predicate OutboxGrows(before: map<string, Command>, after: map<string, Command>) {
    && before.Keys <= after.Keys
    && forall c :: c in after ==> if c in before then after[c] == before[c] else IsFresh(after[c])
  }

  lemma RequestCancelOutbox(db: Db, r: string, commandId: string, now: Time)
    ensures var out := RequestCancel(db, r, commandId, now);
            out.Ok? ==> out.value.outbox == db.outbox ||
                        (commandId !in db.outbox
                         && out.value.outbox == db.outbox[commandId := FreshCommand(RunCancel, r, now)])
  {
  }

  lemma CreateSyncJobOutbox(db: Db, id: string, commandId: string, key: string, now: Time)
    ensures var out := CreateSyncJob(db, id, commandId, key, now);
            out.Ok? ==> out.value.0.outbox == db.outbox ||
                        (commandId !in db.outbox
                         && out.value.0.outbox == db.outbox[commandId := FreshCommand(BootstrapStart, id, now)])
  {
  }

  lemma LiveStepOutbox(sys: System, a: Action)
    requires IsLiveStep(a)
    ensures OutboxGrows(sys.db.outbox, Step(sys, a).db.outbox)
  {
    match a
    case DoUpsertProjects(ps, now) => UpsertProjectsQuiet(sys.db, ps, now);
    case DoRequestCancel(r, commandId, now) => RequestCancelOutbox(sys.db, r, commandId, now);
    case DoCreateSyncJob(id, commandId, key, now) => CreateSyncJobOutbox(sys.db, id, commandId, key, now);
    case _ =>
  }

  lemma QuietLive(runs: map<string, Run>, outbox: map<string, Command>, runs': map<string, Run>,
                  outbox': map<string, Command>)
    requires Live(runs, outbox) && Quiet(runs, runs') && OutboxGrows(outbox, outbox')
    ensures Live(runs', outbox')
  {
    LiveKept(runs, outbox, runs', outbox');
  }

  lemma LiveStepKeepsLive(sys: System, a: Action)
    requires DbOk(sys.db) && Live(sys.db.runs, sys.db.outbox) && IsLiveStep(a)
    ensures Live(Step(sys, a).db.runs, Step(sys, a).db.outbox)
  {
    QuietStep(sys, a);
    LiveStepOutbox(sys, a);
    QuietLive(sys.db.runs, sys.db.outbox, Step(sys, a).db.runs, Step(sys, a).db.outbox);
  }

  predicate IsOutboxStep(a: Action) { a.DoClaim? || a.DoRelease? || a.DoMarkSent? || a.DoCreateRunCommit? }

  lemma OutboxStepKeepsLive(sys: System, a: Action)
    requires DbOk(sys.db) && Live(sys.db.runs, sys.db.outbox) && IsOutboxStep(a)
    ensures Live(Step(sys, a).db.runs, Step(sys, a).db.outbox)
  {
    match a
    case DoCreateRunCommit(session, prompt, profile, key, hash, runId, commandId, now) =>
      CreateRunKeepsLive(sys.db, session, prompt, profile, key, hash, runId, commandId, now);
    case DoClaim(chosen, limit, now) => ClaimKeepsLive(sys, chosen, limit, now);
    case DoRelease(c, now) => ReleaseKeepsLive(sys.db, c, now);
    case DoMarkSent(c) => MarkSentKeepsLive(sys, c);
  }

  lemma HandlerStepKeepsLive(sys: System, a: Action)
    requires Live(sys.db.runs, sys.db.outbox) && (a.DoReceive? || a.DoPersist?)
    ensures Live(Step(sys, a).db.runs, Step(sys, a).db.outbox)
  {
    match a
    case DoReceive(d, m, lookupFails, redisFails, appTakes) =>
      ReceiveDb(sys, d, m, lookupFails, redisFails, appTakes);
    case DoPersist(d, storeFails, now) => PersistKeepsLive(sys, d, storeFails, now);
  }

  lemma MarkStep(sys: System, a: Action)
    requires a.DoMarkAccepted? || a.DoMarkBatchDone?
    ensures Step(sys, a).db == if Marks(sys, a).Some? then MarkCommandDelivered(sys.db, Marks(sys, a).value) else sys.db
  {
  }

  lemma MarkStepExact(sys: System, a: Action)
    requires UniqueCommands(sys.db.outbox) && Live(sys.db.runs, sys.db.outbox)
    requires (a.DoMarkAccepted? || a.DoMarkBatchDone?)
    ensures Live(Step(sys, a).db.runs, Step(sys, a).db.outbox) <==> !Strands(sys, a)
  {
    MarkStep(sys, a);
    if Strands(sys, a) { MarkStrands(sys.db, Marks(sys, a).value); }
    else if Marks(sys, a).Some? { MarkKeepsLive(sys.db, Marks(sys, a).value); }
  }

  /** A step keeps every waiting run claimable if and only if it strands none. */
  lemma StepLiveExact(sys: System, a: Action)
    requires DbOk(sys.db) && Live(sys.db.runs, sys.db.outbox)
    ensures Live(Step(sys, a).db.runs, Step(sys, a).db.outbox) <==> !Strands(sys, a)
  {
    if a.DoMarkAccepted? || a.DoMarkBatchDone? { MarkStepExact(sys, a); }
    else if a.DoReceive? || a.DoPersist? { HandlerStepKeepsLive(sys, a); }
    else if a.DoBatch? { BatchKeepsLive(sys, a.payload, a.storeFails, a.now); }
    else if IsOutboxStep(a) { OutboxStepKeepsLive(sys, a); }
    else { LiveStepKeepsLive(sys, a); }
  }

  lemma ReleaseKeepsLive(db: Db, c: string, now: Time)
    requires Live(db.runs, db.outbox)
    ensures Live(ReleaseCommand(db, c, now).runs, ReleaseCommand(db, c, now).outbox)
  {
    LiveKept(db.runs, db.outbox, db.runs, ReleaseCommand(db, c, now).outbox);
  }

  lemma MarkSentKeepsLive(sys: System, c: string)
    requires Live(sys.db.runs, sys.db.outbox)
    ensures Live(MarkSent(sys, c).db.runs, MarkSent(sys, c).db.outbox)
  {
    if c in sys.db.outbox && sys.db.outbox[c].kind != RunStart { MarkKeepsLive(sys.db, c); }
  }

  /* ---- retries are bounded ---- */

  function History(claims: map<string, seq<Time>>, c: string): seq<Time> { if c in claims then claims[c] else [] }

  ghost predicate Spaced(h: seq<Time>) { forall i :: 0 <= i < |h| - 1 ==> h[i] + SECOND <= h[i + 1] }

  /** A command row against the instants at which it was claimed. */
  ghost predicate CommandOk(c: Command, h: seq<Time>, clock: Time) {
    && |h| == c.attempts
    && Spaced(h)
    && (h != [] ==> h[|h| - 1] <= clock)
    && (c.status == Claimed ==> h != [] && c.claimExpiresAt == Some(h[|h| - 1] + 15 * SECOND))
    && (c.status == Pending && h != [] ==> h[|h| - 1] + SECOND <= c.nextAttemptAt)
  }

  ghost predicate ClaimsOk(sys: System) {
    && sys.claims.Keys <= sys.db.outbox.Keys
    && forall c :: c in sys.db.outbox ==> CommandOk(sys.db.outbox[c], History(sys.claims, c), sys.clock)
  }

  function Now(a: Action): Option<Time> {
    match a
    case DoUpsertProjects(_, now) => Some(now)
    case DoCreateSession(_, _, _, _, _, now) => Some(now)
    case DoCreateRunCommit(_, _, _, _, _, _, _, now) => Some(now)
    case DoRequestCancel(_, _, now) => Some(now)
    case DoClaim(_, _, now) => Some(now)
    case DoRelease(_, now) => Some(now)
    case DoPersist(_, _, now) => Some(now)
    case DoCreateSyncJob(_, _, _, now) => Some(now)
    case DoBatch(_, _, now) => Some(now)
    case _ => None
  }

  /** The database clock does not run backwards. */
  predicate Timed(sys: System, a: Action) { Now(a).Some? ==> sys.clock <= Now(a).value }

  lemma SpacedSpan(h: seq<Time>, i: int, j: int)
    requires Spaced(h) && 0 <= i <= j < |h|
    ensures (j - i) * SECOND <= h[j] - h[i]
    decreases j - i
  {
    if i < j {
      SpacedSpan(h, i, j - 1);
      assert h[j - 1] + SECOND <= h[j - 1 + 1];
    }
  }

  /** Steps that change command rows only by adding fresh ones or marking some delivered. */
  ghost predicate OutboxCalm(before: map<string, Command>, after: map<string, Command>) {
    && before.Keys <= after.Keys
    && forall c :: c in after ==>
         if c in before
         then after[c] == before[c] || (after[c].status == Delivered && after[c].attempts == before[c].attempts)
         else IsFresh(after[c])
  }

  lemma CalmClaims(sys: System, next: System)
    requires ClaimsOk(sys) && OutboxCalm(sys.db.outbox, next.db.outbox)
    requires next.claims == sys.claims && sys.clock <= next.clock
    ensures ClaimsOk(next)
  {
    forall c | c in next.db.outbox ensures CommandOk(next.db.outbox[c], History(next.claims, c), next.clock) {
      if c in sys.db.outbox { assert CommandOk(sys.db.outbox[c], History(sys.claims, c), sys.clock); }
    }
  }

  lemma ReleaseClaims(sys: System, id: string, now: Time)
    requires ClaimsOk(sys) && sys.clock <= now
    ensures ClaimsOk(Step(sys, DoRelease(id, now)))
  {
    var next := Step(sys, DoRelease(id, now));
    forall c | c in next.db.outbox ensures CommandOk(next.db.outbox[c], History(next.claims, c), next.clock) {
      assert CommandOk(sys.db.outbox[c], History(sys.claims, c), sys.clock);
    }
  }

  lemma ClaimedCommandOk(c: Command, h: seq<Time>, clock: Time, now: Time)
    requires CommandOk(c, h, clock) && Eligible(c, now) && clock <= now
    ensures CommandOk(ClaimedRow(c, now), h + [now], now)
  {
    var g := h + [now];
    forall i | 0 <= i < |g| - 1 ensures g[i] + SECOND <= g[i + 1] {
      if i == |h| - 1 { assert g[i] == h[|h| - 1]; } else { assert h[i] + SECOND <= h[i + 1]; }
    }
  }

  lemma ClaimClaims(sys: System, chosen: seq<string>, limit: int, now: Time)
    requires ClaimsOk(sys) && sys.clock <= now
    ensures ClaimsOk(Claim(sys, chosen, limit, now))
  {
    if Claimable(sys.db, chosen, limit, now) {
      var next := Claim(sys, chosen, limit, now);
      ClaimRows(sys.db, chosen, now);
      forall c | c in next.db.outbox ensures CommandOk(next.db.outbox[c], History(next.claims, c), next.clock) {
        ClaimHistory(sys, chosen, limit, now, c);
        ClaimedHistoryOk(sys.db.outbox[c], History(sys.claims, c), sys.clock, now, c in chosen);
      }
    }
  }

  /** A claim adds its instant to the history of what it chose. */
  lemma ClaimHistory(sys: System, chosen: seq<string>, limit: int, now: Time, c: string)
    requires Claimable(sys.db, chosen, limit, now)
    ensures History(Claim(sys, chosen, limit, now).claims, c)
            == History(sys.claims, c) + if c in chosen then [now] else []
  {
  }

  lemma ClaimedHistoryOk(c: Command, h: seq<Time>, clock: Time, now: Time, claimed: bool)
    requires CommandOk(c, h, clock) && clock <= now && (claimed ==> Eligible(c, now))
    ensures CommandOk(if claimed then ClaimedRow(c, now) else c, h + if claimed then [now] else [], now)
  {
    if claimed { ClaimedCommandOk(c, h, clock, now); } else { assert h + [] == h; }
  }

  lemma MarkCalm(db: Db, c: string)
    ensures OutboxCalm(db.outbox, MarkCommandDelivered(db, c).outbox)
  {
  }

  lemma CreateRunOutbox(db: Db, session: string, prompt: string, profile: string, key: string, hash: string,
                        runId: string, commandId: string, now: Time)
    ensures var out := CreateRunCommit(db, session, prompt, profile, key, hash, runId, commandId, now);
            out.Ok? ==> out.value.0.outbox == db.outbox ||
                        (commandId !in db.outbox
                         && out.value.0.outbox == db.outbox[commandId := FreshCommand(RunStart, runId, now)])
  {
  }

  lemma FinishCalm(outbox: map<string, Command>, b: Batch)
    ensures OutboxCalm(outbox, FinishCommand(outbox, b))
  {
  }

  /** Every step but a claim and a release is calm. */
  lemma CalmAgentStep(sys: System, a: Action)
    requires FromAgent(a)
    ensures OutboxCalm(sys.db.outbox, Step(sys, a).db.outbox)
  {
    match a
    case DoReceive(d, m, lookupFails, redisFails, appTakes) => ReceiveDb(sys, d, m, lookupFails, redisFails, appTakes);
    case DoPersist(d, storeFails, now) =>
      if d in sys.handlers {
        AppendAgentEventRuns(sys.db, sys.handlers[d].run, sys.handlers[d].entry.sequence, sys.handlers[d].entry.event,
                             now);
      }
    case DoBatch(p, storeFails, now) =>
      BatchOutbox(sys.db, p, now);
      FinishCalm(sys.db.outbox, BatchOf(p));
    case DoMarkAccepted(d) => if d in sys.handlers { MarkCalm(sys.db, CommandOf(sys.handlers[d].entry.event.payload)); }
    case DoMarkBatchDone(p) => MarkCalm(sys.db, p.commandId);
  }

  lemma CalmStep(sys: System, a: Action)
    requires !a.DoClaim? && !a.DoRelease?
    ensures OutboxCalm(sys.db.outbox, Step(sys, a).db.outbox)
  {
    match a
    case DoCreateRunCommit(session, prompt, profile, key, hash, runId, commandId, now) =>
      CreateRunOutbox(sys.db, session, prompt, profile, key, hash, runId, commandId, now);
    case DoMarkSent(c) => MarkCalm(sys.db, c);
    case _ => if FromAgent(a) { CalmAgentStep(sys, a); } else { LiveStepOutbox(sys, a); }
  }

  lemma ClaimsFrame(sys: System, a: Action)
    requires !a.DoClaim? && Timed(sys, a)
    ensures Step(sys, a).claims == sys.claims && sys.clock <= Step(sys, a).clock
  {
    if FromAgent(a) { AgentClaimsFrame(sys, a); }
  }

  lemma AgentClaimsFrame(sys: System, a: Action)
    requires FromAgent(a) && Timed(sys, a)
    ensures Step(sys, a).claims == sys.claims && sys.clock <= Step(sys, a).clock
  {
  }

  lemma StepKeepsClaims(sys: System, a: Action)
    requires ClaimsOk(sys) && Timed(sys, a)
    ensures ClaimsOk(Step(sys, a))
  {
    match a
    case DoClaim(chosen, limit, now) => ClaimClaims(sys, chosen, limit, now);
    case DoRelease(c, now) => ReleaseClaims(sys, c, now);
    case _ =>
      CalmStep(sys, a);
      ClaimsFrame(sys, a);
      CalmClaims(sys, Step(sys, a));
  }

  /* ---- whole runs ---- */

  ghost predicate NeverStrands(sys: System, actions: seq<Action>)
    decreases |actions|
  {
    actions == [] || (!Strands(sys, actions[0]) && NeverStrands(Step(sys, actions[0]), actions[1..]))
  }

  ghost predicate AlwaysLive(sys: System, actions: seq<Action>)
    decreases |actions|
  {
    Live(sys.db.runs, sys.db.outbox) && (actions == [] || AlwaysLive(Step(sys, actions[0]), actions[1..]))
  }

  /** In every state of a trace each queued or dispatching run has an undelivered start command, if and
      only if no step of the trace strands one. */
  lemma {:induction false} NeverLostExact(sys: System, actions: seq<Action>)
    requires DbOk(sys.db) && Live(sys.db.runs, sys.db.outbox)
    ensures AlwaysLive(sys, actions) <==> NeverStrands(sys, actions)
    decreases |actions|
  {
    if actions != [] {
      StepKeepsStore(sys, actions[0]);
      StepLiveExact(sys, actions[0]);
      if !Strands(sys, actions[0]) { NeverLostExact(Step(sys, actions[0]), actions[1..]); }
      else { DeadEnds(Step(sys, actions[0]), actions[1..]); }
    }
  }

  lemma DeadEnds(sys: System, actions: seq<Action>)
    requires !Live(sys.db.runs, sys.db.outbox)
    ensures !AlwaysLive(sys, actions)
  {
  }

  /** No step strands a run, and the clock does not run backwards. */
  ghost predicate Disciplined(sys: System, actions: seq<Action>)
    decreases |actions|
  {
    actions == []
        || (!Strands(sys, actions[0]) && Timed(sys, actions[0]) && Disciplined(Step(sys, actions[0]), actions[1..]))
  }

  ghost predicate OutboxOk(sys: System) { RelayOk(sys) && Live(sys.db.runs, sys.db.outbox) && ClaimsOk(sys) }

  lemma {:induction false} ReachableOutbox(sys: System, actions: seq<Action>)
    requires OutboxOk(sys) && Disciplined(sys, actions)
    ensures OutboxOk(Execute(sys, actions))
    decreases |actions|
  {
    if actions != [] {
      StepKeepsStore(sys, actions[0]);
      StepKeepsFlow(sys, actions[0]);
      StepKeepsAcks(sys, actions[0]);
      StepLiveExact(sys, actions[0]);
      StepKeepsClaims(sys, actions[0]);
      ReachableOutbox(Step(sys, actions[0]), actions[1..]);
    }
  }

  /** A trace whose accepts echo their own command and whose batches name no start command. */
  ghost predicate Echoing(sys: System, actions: seq<Action>)
    decreases |actions|
  {
    actions == [] || (Echoes(sys, actions[0]) && Timed(sys, actions[0]) && Echoing(Step(sys, actions[0]), actions[1..]))
  }

  lemma {:induction false} EchoingIsDisciplined(sys: System, actions: seq<Action>)
    requires RelayOk(sys) && Echoing(sys, actions)
    ensures Disciplined(sys, actions)
    decreases |actions|
  {
    if actions != [] {
      EchoNeverStrands(sys, actions[0]);
      StepKeepsStore(sys, actions[0]);
      StepKeepsFlow(sys, actions[0]);
      StepKeepsAcks(sys, actions[0]);
      EchoingIsDisciplined(Step(sys, actions[0]), actions[1..]);
    }
  }

  /** The first instant from which ClaimCommands may pick the command, if nobody touches it. */
  function DueAt(c: Command): Time {
    if c.status == Claimed && c.claimExpiresAt.Some? && c.nextAttemptAt <= c.claimExpiresAt.value
    then c.claimExpiresAt.value + 1
    else c.nextAttemptAt
  }

  /** After any disciplined run, a queued or dispatching run has an undelivered run.start command
      that every claim from `DueAt` on would see as eligible. */
  lemma RunNeverLost(actions: seq<Action>, r: string)
    requires Disciplined(INIT, actions)
    requires var db := Execute(INIT, actions).db; r in db.runs && Waiting(db.runs[r].status)
    ensures var db := Execute(INIT, actions).db;
            exists c :: Undelivered(db.outbox, c, r)
                && forall t :: DueAt(db.outbox[c]) <= t ==> Eligible(db.outbox[c], t)
  {
    InitialRelay();
    ReachableOutbox(INIT, actions);
    var sys := Execute(INIT, actions);
    var c :| Undelivered(sys.db.outbox, c, r);
    assert CommandOk(sys.db.outbox[c], History(sys.claims, c), sys.clock);
    forall t | DueAt(sys.db.outbox[c]) <= t ensures Eligible(sys.db.outbox[c], t) { }
  }

  /** ... in particular when accepts echo their own command and batches name no start command. */
  lemma EchoedRunNeverLost(actions: seq<Action>, r: string)
    requires Echoing(INIT, actions)
    requires var db := Execute(INIT, actions).db; r in db.runs && Waiting(db.runs[r].status)
    ensures var db := Execute(INIT, actions).db;
            exists c :: Undelivered(db.outbox, c, r)
                && forall t :: DueAt(db.outbox[c]) <= t ==> Eligible(db.outbox[c], t)
  {
    InitialRelay();
    EchoingIsDisciplined(INIT, actions);
    RunNeverLost(actions, r);
  }

  ghost predicate Clocked(sys: System, actions: seq<Action>)
    decreases |actions|
  {
    actions == [] || (Timed(sys, actions[0]) && Clocked(Step(sys, actions[0]), actions[1..]))
  }

  lemma {:induction false} ReachableClaims(sys: System, actions: seq<Action>)
    requires ClaimsOk(sys) && Clocked(sys, actions)
    ensures ClaimsOk(Execute(sys, actions))
    decreases |actions|
  {
    if actions != [] {
      StepKeepsClaims(sys, actions[0]);
      ReachableClaims(Step(sys, actions[0]), actions[1..]);
    }
  }

  /** After any trace whose clock does not run backwards, a command claimed `n` times was claimed over
      at least `n - 1` seconds. */
  lemma RetriesBounded(actions: seq<Action>, c: string)
    requires Clocked(INIT, actions)
    requires var db := Execute(INIT, actions).db; c in db.outbox && db.outbox[c].attempts > 0
    ensures var sys := Execute(INIT, actions); var h := History(sys.claims, c);
            |h| == sys.db.outbox[c].attempts && (sys.db.outbox[c].attempts - 1) * SECOND <= h[|h| - 1] - h[0]
  {
    ReachableClaims(INIT, actions);
    var sys := Execute(INIT, actions);
    var h := History(sys.claims, c);
    assert CommandOk(sys.db.outbox[c], h, sys.clock);
    SpacedSpan(h, 0, |h| - 1);
  }
}
