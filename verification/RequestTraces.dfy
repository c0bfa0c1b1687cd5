/** The rows that requests create, over whole traces of the server: a run stays what was asked for, a cancel
    stays in the outbox, and at most one sync job is active. */
module RequestTraces {
  import opened RuntimeTypes
  import opened RuntimeStore
  import opened Bootstrap
  import opened RelaySystem
  import opened StoreInvariant
  import opened SystemInvariant
  import opened RequestRows
  import Manifest
  import T = TurnContents
  import B = BatchContents

  /* ---- what was asked for ---- */

  /** Every run keeps its profile and its key, and no step but an import changes its prompt or its session or
      takes back a cancel. */
  ghost predicate KeepsAsk(before: map<string, Run>, after: map<string, Run>, imports: bool) {
    forall r :: r in before ==> r in after && SameAsked(before[r], after[r], imports)
  }

  predicate SameAsked(before: Run, after: Run, imports: bool) {
    && after.profile == before.profile && after.idem == before.idem
    && (imports || (after.prompt == before.prompt && after.sessionId == before.sessionId))
  }

  /** No run has a cancel requested that had none. */
  ghost predicate NoNewCancel(before: map<string, Run>, after: map<string, Run>) {
    forall r :: r in after && after[r].cancelRequestedAt.Some? ==> r in before && before[r].cancelRequestedAt.Some?
  }

  ghost predicate AskStep(before: map<string, Run>, after: map<string, Run>, imports: bool) {
    KeepsAsk(before, after, imports) && NoNewCancel(before, after)
  }

  lemma {:induction false} ClaimAsk(db: Db, chosen: seq<string>, now: Time)
    requires forall i :: 0 <= i < |chosen| ==> chosen[i] in db.outbox
    ensures AskStep(db.runs, ClaimCommands(db, chosen, now).runs, false)
    decreases |chosen|
  {
    if chosen != [] {
      var mid := ClaimOne(db, chosen[0], now);
      ClaimOneAsk(db, chosen[0], now);
      ClaimAsk(mid, chosen[1..], now);
      AskStepTrans(db.runs, mid.runs, ClaimCommands(db, chosen, now).runs);
    }
  }

  lemma ClaimOneAsk(db: Db, id: string, now: Time)
    requires id in db.outbox
    ensures AskStep(db.runs, ClaimOne(db, id, now).runs, false)
  {
    var r := db.outbox[id].resource;
    if r in db.runs { RowAsk(db.runs, r, DispatchedRow(db.runs[r])); }
  }

  lemma RowAsk(runs: map<string, Run>, r: string, row: Run)
    requires r in runs && SameAsked(runs[r], row, false) && row.cancelRequestedAt == runs[r].cancelRequestedAt
    ensures AskStep(runs, runs[r := row], false)
  {
  }

  lemma AskStepTrans(a: map<string, Run>, b: map<string, Run>, c: map<string, Run>)
    requires AskStep(a, b, false) && AskStep(b, c, false)
    ensures AskStep(a, c, false)
  {
  }

  lemma ClaimStepAsk(sys: System, a: Action)
    requires a.DoClaim?
    ensures AskStep(sys.db.runs, Step(sys, a).db.runs, false)
  {
    if Claimable(sys.db, a.chosen, a.limit, a.now) { ClaimAsk(sys.db, a.chosen, a.now); }
  }

  lemma AppendedAsk(runs: map<string, Run>, r: string, n: int, e: RunEvent, now: Time)
    requires r in runs
    ensures AskStep(runs, runs[r := AppendedRow(runs[r], n, e, now)], false)
  {
    RowAsk(runs, r, AppendedRow(runs[r], n, e, now));
  }

  lemma PersistAsk(sys: System, d: nat, storeFails: bool, now: Time)
    ensures AskStep(sys.db.runs, Persist(sys, d, storeFails, now).db.runs, false)
  {
    if d in sys.handlers && !sys.handlers[d].stored {
      var h := sys.handlers[d];
      AppendAgentEventRuns(sys.db, h.run, h.entry.sequence, h.entry.event, now);
      if h.run in sys.db.runs { AppendedAsk(sys.db.runs, h.run, h.entry.sequence, h.entry.event, now); }
    }
  }

  lemma HandlingAsk(sys: System, a: Action)
    requires a.DoPersist? || a.DoReceive?
    ensures AskStep(sys.db.runs, Step(sys, a).db.runs, false)
  {
    if a.DoPersist? { PersistAsk(sys, a.delivery, a.storeFails, a.now); }
  }

  lemma CreateAsk(sys: System, a: Action)
    requires a.DoCreateRunCommit?
    ensures AskStep(sys.db.runs, Step(sys, a).db.runs, false)
  {
    CreateRunRuns(sys.db, a.session, a.prompt, a.profile, a.key, a.hash, a.runId, a.commandId, a.now);
  }

  lemma CancelAsk(sys: System, a: Action)
    requires a.DoRequestCancel?
    ensures KeepsAsk(sys.db.runs, Step(sys, a).db.runs, false)
  {
    RequestCancelRuns(sys.db, a.run, a.commandId, a.now);
  }

  lemma BatchAsk(sys: System, a: Action)
    requires a.DoBatch?
    ensures AskStep(sys.db.runs, Step(sys, a).db.runs, true)
  {
    BatchKeepsAsker(sys, a);
  }

  /** What a batch does to the runs, as far as requests are concerned. */
  lemma BatchKeepsAsker(sys: System, a: Action)
    requires a.DoBatch?
    ensures T.SameAsker(sys.db.runs, Step(sys, a).db.runs)
  {
    var next := Step(sys, a);
    if next.db != sys.db {
      assert ApplyBatch(sys.db, BatchOf(a.payload), a.now) == Ok(next.db);
      var session, at, rows := B.BatchLands(sys.db, a.payload, a.now);
    }
  }

  lemma SameAskStep(sys: System, a: Action)
    requires !TouchesEvents(a) && !a.DoClaim? && !a.DoRequestCancel?
    ensures AskStep(sys.db.runs, Step(sys, a).db.runs, false)
  {
    SameRunsStep(sys, a);
  }

  lemma StepKeepsAsk(sys: System, a: Action)
    ensures KeepsAsk(sys.db.runs, Step(sys, a).db.runs, a.DoBatch?)
    ensures !a.DoRequestCancel? ==> NoNewCancel(sys.db.runs, Step(sys, a).db.runs)
  {
    if a.DoRequestCancel? { CancelAsk(sys, a); }
    else if a.DoClaim? { ClaimStepAsk(sys, a); }
    else if a.DoPersist? || a.DoReceive? { HandlingAsk(sys, a); }
    else if a.DoCreateRunCommit? { CreateAsk(sys, a); }
    else if a.DoBatch? { BatchAsk(sys, a); }
    else { SameAskStep(sys, a); }
  }

  ghost predicate NoRewrite(sys: System, actions: seq<Action>, r: string)
    decreases |actions|
  {
    actions == [] ||
    ((actions[0].DoBatch? && r in sys.db.runs ==>
        r in Step(sys, actions[0]).db.runs && Step(sys, actions[0]).db.runs[r] == sys.db.runs[r])
     && NoRewrite(Step(sys, actions[0]), actions[1..], r))
  }

  /** A run keeps its profile and its key over every trace, and its prompt and its session over every trace
      in which no batch rewrites it. */
  lemma {:induction false} RequestKept(sys: System, actions: seq<Action>, r: string)
    requires DbOk(sys.db) && r in sys.db.runs
    ensures var end := Execute(sys, actions).db.runs;
            r in end && SameAsked(sys.db.runs[r], end[r], !NoRewrite(sys, actions, r))
    decreases |actions|
  {
    if actions != [] {
      StepKeepsAsk(sys, actions[0]);
      StepKeepsStore(sys, actions[0]);
      RequestKept(Step(sys, actions[0]), actions[1..], r);
    }
  }

  /** Some finished turn that a batch of the trace brought has the prompt. */
  ghost predicate PromptBrought(past: seq<Action>, prompt: string) {
    exists a :: a in past && BringsPrompt(a, prompt)
  }

  ghost predicate BringsPrompt(a: Action, prompt: string) {
    a.DoBatch? && a.payload.thread.Some?
    && exists i :: 0 <= i < |a.payload.thread.value.turns| && TurnPrompt(a.payload.thread.value.turns[i], prompt)
  }

  ghost predicate TurnPrompt(turn: Turn, prompt: string) { T.Finished(turn.status) && T.IsPrompt(turn.items, prompt) }

  predicate Asks(a: Action, r: string, run: Run) {
    && a.DoCreateRunCommit? && a.runId == r
    && run.profile == a.profile && run.idem == Some(Idempotency(a.key, a.hash))
  }

  predicate AsksText(a: Action, run: Run) {
    a.DoCreateRunCommit? && run.prompt == a.prompt && run.sessionId == a.session
  }

  /** Where the request behind a row comes from. */
  ghost predicate AskedFrom(past: seq<Action>, r: string, run: Run) {
    if run.idem.Some? then
      exists a :: a in past && Asks(a, r, run) && (AsksText(a, run) || PromptBrought(past, run.prompt))
    else run.profile == "" && PromptBrought(past, run.prompt)
  }

  ghost predicate AllAsked(sys: System, past: seq<Action>) {
    forall r :: r in sys.db.runs ==> AskedFrom(past, r, sys.db.runs[r])
  }

  lemma PromptStays(past: seq<Action>, a: Action, prompt: string)
    requires PromptBrought(past, prompt)
    ensures PromptBrought(past + [a], prompt)
  {
    var x :| x in past && BringsPrompt(x, prompt);
    assert x in past + [a];
  }

  /** A row that asks for the same, or took a prompt that a batch brought. */
  lemma AskedStays(past: seq<Action>, a: Action, r: string, run: Run, next: Run)
    requires AskedFrom(past, r, run) && next.profile == run.profile && next.idem == run.idem
    requires (next.prompt == run.prompt && next.sessionId == run.sessionId) || PromptBrought(past + [a], next.prompt)
    ensures AskedFrom(past + [a], r, next)
  {
    if PromptBrought(past, run.prompt) { PromptStays(past, a, run.prompt); }
    if run.idem.Some? {
      var x :| x in past && Asks(x, r, run) && (AsksText(x, run) || PromptBrought(past, run.prompt));
      assert x in past + [a] && Asks(x, r, next);
    }
  }

  lemma CreateStep(sys: System, a: Action)
    requires DbOk(sys.db) && a.DoCreateRunCommit?
    ensures var next := Step(sys, a).db;
            || next == sys.db
            || Created(sys.db, next, a.session, a.prompt, a.profile, a.key, a.hash, a.runId, a.commandId, a.now)
  {
    CreateRunStores(sys.db, a.session, a.prompt, a.profile, a.key, a.hash, a.runId, a.commandId, a.now);
  }

  lemma CreateAsked(sys: System, a: Action, past: seq<Action>)
    requires DbOk(sys.db) && AllAsked(sys, past) && a.DoCreateRunCommit?
    ensures AllAsked(Step(sys, a), past + [a])
  {
    var next := Step(sys, a);
    CreateStep(sys, a);
    forall r | r in next.db.runs ensures AskedFrom(past + [a], r, next.db.runs[r]) {
      CreatedRowAsked(sys.db, next.db, a, past, r);
    }
  }

  lemma CreatedRowAsked(db: Db, next: Db, a: Action, past: seq<Action>, r: string)
    requires a.DoCreateRunCommit? && r in next.runs
    requires || next == db
             || Created(db, next, a.session, a.prompt, a.profile, a.key, a.hash, a.runId, a.commandId, a.now)
    requires r in db.runs ==> AskedFrom(past, r, db.runs[r])
    ensures AskedFrom(past + [a], r, next.runs[r])
  {
    if r in db.runs { AskedStays(past, a, r, db.runs[r], next.runs[r]); } else { JustAsked(past, a, next.runs[r]); }
  }

  lemma JustAsked(past: seq<Action>, a: Action, run: Run)
    requires a.DoCreateRunCommit? && AsAsked(run, a.session, a.prompt, a.profile, a.key, a.hash)
    ensures AskedFrom(past + [a], a.runId, run)
  {
    assert a in past + [a] && Asks(a, a.runId, run) && AsksText(a, run);
  }

  lemma BatchRowAsked(sys: System, a: Action, past: seq<Action>, r: string)
    requires AllAsked(sys, past) && a.DoBatch? && r in Step(sys, a).db.runs
    ensures AskedFrom(past + [a], r, Step(sys, a).db.runs[r])
  {
    var next := Step(sys, a);
    if next.db == sys.db {
      AskedStays(past, a, r, sys.db.runs[r], sys.db.runs[r]);
    } else {
      assert ApplyBatch(sys.db, BatchOf(a.payload), a.now) == Ok(next.db);
      var session, at, rows := B.BatchLands(sys.db, a.payload, a.now);
      LandedAsked(sys.db, next.db, a, past, r, session, at, rows);
    }
  }

  lemma LandedAsked(db: Db, next: Db, a: Action, past: seq<Action>, r: string, session: string, at: seq<nat>,
                    rows: seq<string>)
    requires a.DoBatch? && B.ThreadAfter(db, next, a.payload, session, at, rows) && r in next.runs
    requires r in db.runs ==> AskedFrom(past, r, db.runs[r])
    ensures AskedFrom(past + [a], r, next.runs[r])
  {
    if a.payload.thread.Some? && r in rows {
      var j := T.LastOf(rows, r);
      assert T.HoldsAt(next.runs, r, a.payload.thread.value, at[j], session) && at[j] in at;
      BroughtBy(a, past, at[j], next.runs[r].prompt);
      if r in db.runs { AskedStays(past, a, r, db.runs[r], next.runs[r]); }
    } else {
      AskedStays(past, a, r, db.runs[r], db.runs[r]);
    }
  }

  lemma BroughtBy(a: Action, past: seq<Action>, i: nat, prompt: string)
    requires a.DoBatch? && a.payload.thread.Some? && i < |a.payload.thread.value.turns|
    requires TurnPrompt(a.payload.thread.value.turns[i], prompt)
    ensures PromptBrought(past + [a], prompt)
  {
    assert a in past + [a] && BringsPrompt(a, prompt);
  }

  lemma StepAsked(sys: System, a: Action, past: seq<Action>)
    requires DbOk(sys.db) && AllAsked(sys, past)
    ensures AllAsked(Step(sys, a), past + [a])
  {
    var next := Step(sys, a);
    if a.DoCreateRunCommit? {
      CreateAsked(sys, a, past);
    } else if a.DoBatch? {
      forall r | r in next.db.runs ensures AskedFrom(past + [a], r, next.db.runs[r]) { BatchRowAsked(sys, a, past, r); }
    } else {
      StepKeepsAsk(sys, a);
      NoNewRuns(sys, a);
      forall r | r in next.db.runs ensures AskedFrom(past + [a], r, next.db.runs[r]) {
        AskedStays(past, a, r, sys.db.runs[r], next.db.runs[r]);
      }
    }
  }

  lemma NoNewRuns(sys: System, a: Action)
    requires DbOk(sys.db) && !a.DoCreateRunCommit? && !a.DoBatch?
    ensures Step(sys, a).db.runs.Keys == sys.db.runs.Keys
  {
    if a.DoPersist? {
      if a.delivery in sys.handlers && !sys.handlers[a.delivery].stored {
        var h := sys.handlers[a.delivery];
        AppendAgentEventRuns(sys.db, h.run, h.entry.sequence, h.entry.event, a.now);
      }
    } else if !a.DoReceive? {
      QuietStep(sys, a);
    }
  }

  lemma {:induction false} AskedOver(sys: System, actions: seq<Action>, past: seq<Action>)
    requires DbOk(sys.db) && AllAsked(sys, past)
    ensures AllAsked(Execute(sys, actions), past + actions)
    decreases |actions|
  {
    if actions == [] {
      assert past + actions == past;
    } else {
      StepAsked(sys, actions[0], past);
      StepKeepsStore(sys, actions[0]);
      AskedOver(Step(sys, actions[0]), actions[1..], past + [actions[0]]);
      assert past + [actions[0]] + actions[1..] == past + actions;
    }
  }

  /** Over every trace: a run with a key was asked for by a CreateRun of the trace with that key, hash and
      profile, and has its prompt and session unless a batch brought the prompt; a run without a key was
      brought by a batch, with its prompt, and has no profile. */
  lemma RunsWereAsked(actions: seq<Action>, r: string)
    requires r in Execute(INIT, actions).db.runs
    ensures AskedFrom(actions, r, Execute(INIT, actions).db.runs[r])
  {
    AskedOver(INIT, actions, []);
    assert [] + actions == actions;
  }

  /* ---- cancels ---- */

  ghost predicate CancelBacked(db: Db) {
    forall r :: r in db.runs && db.runs[r].cancelRequestedAt.Some? ==> HasCancel(db.outbox, r)
  }

  ghost predicate HasCancel(outbox: map<string, Command>, r: string) {
    exists c :: HasCommand(outbox, c, RunCancel, r)
  }

  lemma CancelStays(before: map<string, Command>, after: map<string, Command>, r: string)
    requires CommandsKept(before, after) && HasCancel(before, r)
    ensures HasCancel(after, r)
  {
    var c :| HasCommand(before, c, RunCancel, r);
    assert HasCommand(after, c, RunCancel, r);
  }

  lemma StepCancelBacked(sys: System, a: Action)
    requires DbOk(sys.db) && CancelBacked(sys.db)
    ensures CancelBacked(Step(sys, a).db)
  {
    StepKeepsStore(sys, a);
    StepKeepsAsk(sys, a);
    if a.DoRequestCancel? { CancelBacks(sys, a); } else { StillBacked(sys.db, Step(sys, a).db); }
  }

  lemma StillBacked(db: Db, next: Db)
    requires CancelBacked(db) && NoNewCancel(db.runs, next.runs) && CommandsKept(db.outbox, next.outbox)
    ensures CancelBacked(next)
  {
    forall r | r in next.runs && next.runs[r].cancelRequestedAt.Some? ensures HasCancel(next.outbox, r) {
      CancelStays(db.outbox, next.outbox, r);
    }
  }

  lemma CancelBacks(sys: System, a: Action)
    requires CancelBacked(sys.db) && a.DoRequestCancel?
    requires CommandsKept(sys.db.outbox, Step(sys, a).db.outbox)
    ensures CancelBacked(Step(sys, a).db)
  {
    var next := Step(sys, a);
    CancelStores(sys.db, a.run, a.commandId, a.now);
    forall r | r in next.db.runs && next.db.runs[r].cancelRequestedAt.Some? ensures HasCancel(next.db.outbox, r) {
      if r in sys.db.runs && sys.db.runs[r].cancelRequestedAt.Some? {
        CancelStays(sys.db.outbox, next.db.outbox, r);
      }
    }
  }

  /** Over every trace, a run whose cancel was requested has a run.cancel command. */
  lemma {:induction false} CancelsHaveCommands(sys: System, actions: seq<Action>)
    requires DbOk(sys.db) && CancelBacked(sys.db)
    ensures CancelBacked(Execute(sys, actions).db)
    decreases |actions|
  {
    if actions != [] {
      StepCancelBacked(sys, actions[0]);
      StepKeepsStore(sys, actions[0]);
      CancelsHaveCommands(Step(sys, actions[0]), actions[1..]);
    }
  }

  /* ---- sync jobs ---- */

  ghost predicate OneActive(jobs: map<string, SyncJob>) {
    forall j, k :: j in jobs && k in jobs && Unfinished(jobs[j]) && Unfinished(jobs[k]) ==> j == k
  }

  lemma BatchOneActive(sys: System, a: Action)
    requires a.DoBatch? && OneActive(sys.db.jobs)
    ensures OneActive(Step(sys, a).db.jobs)
  {
    var b := BatchOf(a.payload);
    ApplyBatchCases(sys.db, b, a.now);
    if b.syncId in sys.db.jobs && CommitBatch(sys.db, b, a.now).Ok? { CommitOneActive(sys.db, b, a.now); }
  }

  lemma CommitOneActive(db: Db, b: Batch, now: Time)
    requires b.syncId in db.jobs && CommitBatch(db, b, now).Ok? && OneActive(db.jobs)
    ensures OneActive(CommitBatch(db, b, now).value.jobs)
  {
    var named, placed, imported := B.Commits(db, b, now);
    B.CommitParts(db, b, now, named, placed, imported);
    if !b.done { assert !OtherActive(db.jobs, b.syncId); }
  }

  lemma CreateOneActive(sys: System, a: Action)
    requires a.DoCreateSyncJob? && OneActive(sys.db.jobs)
    ensures OneActive(Step(sys, a).db.jobs)
  {
    JobStores(sys.db, a.id, a.commandId, a.key, a.now);
  }

  lemma OtherJobs(sys: System, a: Action)
    requires !a.DoBatch? && !a.DoCreateSyncJob?
    ensures Step(sys, a).db.jobs == sys.db.jobs
  {
    if Manifest.Handling(a) { Manifest.HandlingJobs(sys, a); }
    else {
      match a
      case DoUpsertProjects(ps, now) => Manifest.UpsertJobs(sys.db, ps, now);
      case DoClaim(chosen, limit, now) =>
        if Claimable(sys.db, chosen, limit, now) { Manifest.ClaimJobs(sys.db, chosen, now); }
      case DoCreateRunCommit(session, prompt, profile, key, hash, runId, commandId, now) =>
        Manifest.CreateRunJobs(sys, session, prompt, profile, key, hash, runId, commandId, now);
      case _ => Manifest.SmallStepJobs(sys, a);
    }
  }

  /** Over every trace at most one sync job is queued or running. */
  lemma {:induction false} OneActiveJob(sys: System, actions: seq<Action>)
    requires OneActive(sys.db.jobs)
    ensures OneActive(Execute(sys, actions).db.jobs)
    decreases |actions|
  {
    if actions != [] {
      var a := actions[0];
      if a.DoBatch? { BatchOneActive(sys, a); }
      else if a.DoCreateSyncJob? { CreateOneActive(sys, a); }
      else { OtherJobs(sys, a); }
      OneActiveJob(Step(sys, a), actions[1..]);
    }
  }
}
