/** The run event log. Agent events reach PostgreSQL through the Redis gate; as long as no store
    call fails, whatever the transport duplicates, reorders, drops or resends with other contents,
    the run row is the plain fold of its events in sequence order. */
module RunLog {
  import opened RuntimeTypes
  import opened RuntimeStore
  import opened StoreInvariant
  import opened RelaySystem
  import opened SystemInvariant
  import opened Acknowledgements
  import opened Outbox

  /* ---- the fold ---- */

  /** The status after replaying the events numbered 1..n in order from `base`. */
  function FoldStatus(events: map<int, RunEvent>, base: Status, n: int): Status
    decreases n
  {
    if n <= 0 then base
    else if n in events && Bears(events[n].kind) then StatusForEvent(events[n].kind).value
    else FoldStatus(events, base, n - 1)
  }

  /** The last terminal event among 1..n. */
  function FoldFinal(events: map<int, RunEvent>, n: int): Option<int>
    decreases n
  {
    if n <= 0 then None
    else if n in events && Ends(events[n].kind) then Some(n)
    else FoldFinal(events, n - 1)
  }

  /** A run is queued until its start command is first claimed. */
  ghost predicate StartClaimed(db: Db, r: string) {
    exists c :: HasCommand(db.outbox, c, RunStart, r) && db.outbox[c].attempts > 0
  }

  ghost function BaseStatus(db: Db, r: string): Status { if StartClaimed(db, r) then Dispatching else Queued }

  ghost predicate IsFold(run: Run, base: Status) {
    && run.status == FoldStatus(run.events, base, run.persisted)
    && run.final == FoldFinal(run.events, run.persisted)
  }

  /** Numbers above the last persisted one change nothing. */
  lemma {:induction false} FoldSkips(events: map<int, RunEvent>, base: Status, p: int, n: int)
    requires 0 <= p <= n && forall k :: k in events ==> k <= p
    ensures FoldStatus(events, base, n) == FoldStatus(events, base, p) && FoldFinal(events, n) == FoldFinal(events, p)
    decreases n
  {
    if p < n { FoldSkips(events, base, p, n - 1); }
  }

  /** The base only shows while nothing persisted bears a status. */
  lemma {:induction false} FoldBase(events: map<int, RunEvent>, n: int, a: Status, b: Status)
    ensures FoldStatus(events, a, n) == FoldStatus(events, b, n)
            || (FoldStatus(events, a, n) == a && FoldStatus(events, b, n) == b)
    ensures FoldStatus(events, a, n) == a || exists k :: k in events && Bears(events[k].kind)
                                                      && StatusForEvent(events[k].kind)
                                                         == Some(FoldStatus(events, a, n))
    decreases n
  {
    if n > 0 { FoldBase(events, n - 1, a, b); }
  }

  /* ---- late events: exactly when an append out of order keeps the fold ---- */

  ghost predicate NoBearingAbove(run: Run, n: int) {
    forall k :: k in run.events && n < k ==> !Bears(run.events[k].kind)
  }

  lemma {:induction false} FoldFrom(events: map<int, RunEvent>, base: Status, p: int, n: int)
    requires 0 <= p <= n
    ensures (forall k :: p < k <= n && k in events ==> !Bears(events[k].kind)) ==>
              FoldStatus(events, base, n) == FoldStatus(events, base, p) && FoldFinal(events, n) == FoldFinal(events, p)
    ensures (exists k :: p < k <= n && k in events && Bears(events[k].kind)) ==>
              exists k ::
                  p < k <= n && k in events && StatusForEvent(events[k].kind) == Some(FoldStatus(events, base, n))
                          && (IsTerminal(FoldStatus(events, base, n)) ==> FoldFinal(events, n) == Some(k))
    decreases n
  {
    if p < n {
      FoldFrom(events, base, p, n - 1);
      if n in events && Bears(events[n].kind) {
        assert StatusForEvent(events[n].kind) == Some(FoldStatus(events, base, n));
        assert IsTerminal(FoldStatus(events, base, n)) ==> FoldFinal(events, n) == Some(n);
      }
    }
  }

  /** What putting one more event under a free number can change. */
  lemma {:induction false} FoldPut(events: map<int, RunEvent>, n: int, e: RunEvent, base: Status, m: int)
    requires n !in events
    ensures !Bears(e.kind) || m < n || (exists k :: n < k <= m && k in events && Bears(events[k].kind)) ==>
              FoldStatus(events[n := e], base, m) == FoldStatus(events, base, m)
    ensures !Ends(e.kind) || m < n ==> FoldFinal(events[n := e], m) == FoldFinal(events, m)
    decreases m
  {
    if m > 0 { FoldPut(events, n, e, base, m - 1); }
  }

  lemma LateQuiet(run: Run, n: int, e: RunEvent, now: Time, base: Status)
    requires RunOk(run) && IsFold(run, base) && n >= 1 && n !in run.events && !Bears(e.kind)
    ensures IsFold(AppendedRow(run, n, e, now), base)
  {
    var p := AppendedRow(run, n, e, now).persisted;
    FoldSkips(run.events, base, run.persisted, p);
    FoldPut(run.events, n, Stored(e), base, p);
  }

  lemma {:induction false} FoldTop(events: map<int, RunEvent>, n: int, e: RunEvent, base: Status, p: int)
    requires 1 <= n <= p && n !in events && Bears(e.kind)
    requires forall k :: n < k && k in events ==> !Bears(events[k].kind)
    ensures FoldStatus(events[n := e], base, p) == StatusForEvent(e.kind).value
    ensures FoldFinal(events[n := e], p) == if Ends(e.kind) then Some(n) else FoldFinal(events, p)
    decreases p
  {
    if n < p { FoldTop(events, n, e, base, p - 1); }
    else { FoldPut(events, n, e, base, n - 1); }
  }

  lemma LateTop(run: Run, n: int, e: RunEvent, now: Time, base: Status)
    requires RunOk(run) && IsFold(run, base) && n >= 1 && n !in run.events && Bears(e.kind) && NoBearingAbove(run, n)
    ensures IsFold(AppendedRow(run, n, e, now), base)
  {
    var p := AppendedRow(run, n, e, now).persisted;
    FoldSkips(run.events, base, run.persisted, p);
    FoldTop(run.events, n, Stored(e), base, p);
  }

  lemma LateBuried(run: Run, n: int, e: RunEvent, now: Time, base: Status)
    requires RunOk(run) && IsFold(run, base) && n >= 1 && n !in run.events && Bears(e.kind) && !NoBearingAbove(run, n)
    ensures IsFold(AppendedRow(run, n, e, now), base) <==> StatusForEvent(e.kind) == Some(run.status) && !Ends(e.kind)
  {
    var next := AppendedRow(run, n, e, now);
    var p := run.persisted;
    var k :| k in run.events && n < k && Bears(run.events[k].kind);
    assert next.persisted == p;
    FoldPut(run.events, n, Stored(e), base, p);
    assert k in next.events && Bears(next.events[k].kind);
    FoldFrom(next.events, base, n, p);
  }

  /** The event bears no status, or nothing persisted above it does, or it only repeats the current,
      non-terminal status. */
  ghost predicate InPlace(run: Run, n: int, e: RunEvent) {
    !Bears(e.kind) || NoBearingAbove(run, n) || (StatusForEvent(e.kind) == Some(run.status) && !Ends(e.kind))
  }

  /** Appending event `n` leaves the row a fold if and only if it is in place. */
  lemma LateAppendExact(run: Run, n: int, e: RunEvent, now: Time, base: Status)
    requires RunOk(run) && IsFold(run, base) && n >= 1 && n !in run.events
    ensures IsFold(AppendedRow(run, n, e, now), base) <==> InPlace(run, n, e)
  {
    if !Bears(e.kind) { LateQuiet(run, n, e, now, base); }
    else if NoBearingAbove(run, n) { LateTop(run, n, e, now, base); }
    else { LateBuried(run, n, e, now, base); }
  }

  /* ---- healthy traces ---- */

  predicate Outside(a: Action) { !a.DoReceive? && !a.DoPersist? && !a.DoMarkAccepted? && !a.DoBatch? }

  /** A message of run `r` is between its Redis append and its PostgreSQL append. */
  predicate Open(sys: System, d: nat, r: string) {
    d in sys.handlers && sys.handlers[d].run == r && !sys.handlers[d].stored
  }

  /** A bootstrap batch, if the step is one, does not rewrite the row of `r`. */
  ghost predicate LeavesRow(sys: System, a: Action, r: string) {
    a.DoBatch? && r in sys.db.runs ==> r in Step(sys, a).db.runs && Step(sys, a).db.runs[r] == sys.db.runs[r]
  }

  /** A message of `r` is a delivery of its own, and an event of `r` that passed Redis is stored. */
  ghost predicate Unfailed(sys: System, a: Action, r: string) {
    && (a.DoReceive? && a.message.run == r ==> a.delivery !in sys.deliveries)
    && (a.DoPersist? && Open(sys, a.delivery, r) ==>
          !a.storeFails
          && AppendAgentEvent(sys.db, r, sys.handlers[a.delivery].entry.sequence, sys.handlers[a.delivery].entry.event,
                              a.now).Ok?)
  }

  /** ... and the messages of `r` are taken in one after another. Every other run may do anything,
      store failures and bootstrap rewrites included. */
  ghost predicate Healthy(sys: System, a: Action, r: string) {
    && LeavesRow(sys, a, r) && Unfailed(sys, a, r)
    && (a.DoReceive? && a.message.run == r ==> forall d :: !Open(sys, d, r))
  }

  ghost predicate HealthyTrace(sys: System, actions: seq<Action>, r: string)
    decreases |actions|
  {
    actions == [] || (Healthy(sys, actions[0], r) && HealthyTrace(Step(sys, actions[0]), actions[1..], r))
  }

  /** The reference: of the messages that reach Redis, an event enters the log when its number exceeds
      every number before it. */
  function Admit(log: seq<Entry>, a: Action, r: string): seq<Entry> {
    if a.DoReceive? && a.message.run == r && !a.redisFails && a.message.sequence >= 1
      && LastSequence(log) < a.message.sequence
    then log + [Entry(a.message.sequence, EventOf(a.message))]
    else log
  }

  function Admitted(log: seq<Entry>, actions: seq<Action>, r: string): seq<Entry>
    decreases |actions|
  {
    if actions == [] then log else Admitted(Admit(log, actions[0], r), actions[1..], r)
  }

  ghost predicate LogIs(events: map<int, RunEvent>, log: seq<Entry>) {
    && events.Keys == (set i | 0 <= i < |log| :: log[i].sequence)
    && forall i :: 0 <= i < |log| ==> events[log[i].sequence] == Stored(log[i].event)
  }

  function LastSequence(log: seq<Entry>): int { if log == [] then 0 else log[|log| - 1].sequence }

  ghost predicate RowInOrder(run: Run, log: seq<Entry>, base: Status) {
    StreamAscending(log) && LogIs(run.events, log) && run.persisted == LastSequence(log) && IsFold(run, base)
  }

  /** A stream without its last entry while that one is still on its way to PostgreSQL. */
  function Landed(run: Run, stream: seq<Entry>): seq<Entry> {
    if stream != [] && stream[|stream| - 1].sequence !in run.events then stream[..|stream| - 1] else stream
  }

  function LogOf(sys: System, r: string): seq<Entry>
    requires r in sys.db.runs
  {
    Landed(sys.db.runs[r], StreamOf(sys, r))
  }

  /** What is on its way: at most one message of the run, and nothing else is missing from the row. */
  ghost predicate OneOpen(sys: System, r: string) {
    && (forall d, e :: Open(sys, d, r) && Open(sys, e, r) ==> d == e)
    && (r in sys.db.runs && LogOf(sys, r) != StreamOf(sys, r) ==> exists d :: Carries(sys, d, r))
  }

  /** An open message of the run that brought the last entry of its stream. */
  predicate Carries(sys: System, d: nat, r: string) {
    Open(sys, d, r) && StreamOf(sys, r) != [] && sys.handlers[d].entry == StreamOf(sys, r)[|StreamOf(sys, r)| - 1]
  }

  ghost predicate SameOpen(sys: System, next: System, r: string) {
    && (forall d :: Open(next, d, r) <==> Open(sys, d, r))
    && (forall d :: Open(sys, d, r) ==> d in next.handlers && next.handlers[d].entry == sys.handlers[d].entry)
  }

  /** The run row is the fold of its log, and its log is the run's stream up to what is on its way. */
  ghost predicate InOrder(sys: System, r: string) {
    && r in sys.db.runs && RowInOrder(sys.db.runs[r], LogOf(sys, r), BaseStatus(sys.db, r))
    && OneOpen(sys, r)
  }

  /* ---- the rest of the server ---- */

  ghost predicate SameLog(run: Run, next: Run) {
    next.events == run.events && next.persisted == run.persisted && next.final == run.final
  }

  /** What a step outside the handlers does to a run: nothing to its log, and its status changes
      only with the first claim of its start command. */
  ghost predicate RowStep(db: Db, next: Db, r: string) {
    && r in db.runs && r in next.runs && SameLog(db.runs[r], next.runs[r])
    && ((next.runs[r].status == db.runs[r].status && (StartClaimed(next, r) <==> StartClaimed(db, r)))
        || (StartClaimed(next, r) && next.runs[r].status == DispatchedRow(db.runs[r]).status))
  }

  lemma AttemptsSame(db: Db, next: Db, r: string)
    requires db.outbox.Keys <= next.outbox.Keys
    requires forall c :: c in next.outbox ==>
               if c in db.outbox
               then SameCommand(db.outbox[c], next.outbox[c]) && next.outbox[c].attempts == db.outbox[c].attempts
               else next.outbox[c].attempts == 0
    ensures StartClaimed(next, r) <==> StartClaimed(db, r)
  {
    if StartClaimed(db, r) {
      var c :| HasCommand(db.outbox, c, RunStart, r) && db.outbox[c].attempts > 0;
      assert HasCommand(next.outbox, c, RunStart, r);
    }
    if StartClaimed(next, r) {
      var c :| HasCommand(next.outbox, c, RunStart, r) && next.outbox[c].attempts > 0;
      assert HasCommand(db.outbox, c, RunStart, r);
    }
  }

  lemma SameStarts(db: Db, next: Db, r: string)
    requires next.outbox.Keys == db.outbox.Keys && CommandsKept(db.outbox, next.outbox)
    ensures forall c :: HasCommand(next.outbox, c, RunStart, r) <==> HasCommand(db.outbox, c, RunStart, r)
  {
  }

  ghost predicate StartsAmong(outbox: map<string, Command>, chosen: seq<string>, r: string) {
    exists i :: 0 <= i < |chosen| && HasCommand(outbox, chosen[i], RunStart, r)
  }

  lemma StartsAmongSplit(outbox: map<string, Command>, chosen: seq<string>, r: string)
    requires chosen != []
    ensures StartsAmong(outbox, chosen, r)
            <==> HasCommand(outbox, chosen[0], RunStart, r) || StartsAmong(outbox, chosen[1..], r)
  {
    if i :| 0 <= i < |chosen| && HasCommand(outbox, chosen[i], RunStart, r) {
      if i > 0 { assert chosen[1..][i - 1] == chosen[i]; }
    }
    if i :| 0 <= i < |chosen[1..]| && HasCommand(outbox, chosen[1..][i], RunStart, r) {
      assert chosen[i + 1] == chosen[1..][i];
    }
  }

  /** Claiming a start command dispatches its run; claiming any other command leaves runs alone. */
  lemma ClaimOneRow(db: Db, c: string, now: Time, r: string)
    requires r in db.runs && c in db.outbox
    ensures var next := ClaimOne(db, c, now);
            && r in next.runs && next.outbox.Keys == db.outbox.Keys && CommandsKept(db.outbox, next.outbox)
            && next.runs[r] == if HasCommand(db.outbox, c, RunStart, r) then DispatchedRow(db.runs[r]) else db.runs[r]
  {
  }

  lemma {:induction false} ClaimRunRow(db: Db, chosen: seq<string>, now: Time, r: string)
    requires r in db.runs && forall i :: 0 <= i < |chosen| ==> chosen[i] in db.outbox
    ensures var next := ClaimCommands(db, chosen, now);
            r in next.runs && next.runs[r] == if StartsAmong(db.outbox, chosen, r) then DispatchedRow(db.runs[r])
                else db.runs[r]
    decreases |chosen|
  {
    if chosen != [] {
      var mid := ClaimOne(db, chosen[0], now);
      ClaimOneRow(db, chosen[0], now, r);
      ClaimRunRow(mid, chosen[1..], now, r);
      SameStarts(db, mid, r);
      StartsAmongSplit(db.outbox, chosen, r);
      assert StartsAmong(mid.outbox, chosen[1..], r) <==> StartsAmong(db.outbox, chosen[1..], r);
    }
  }

  lemma ClaimRowStep(db: Db, chosen: seq<string>, limit: int, now: Time, r: string)
    requires Claimable(db, chosen, limit, now) && r in db.runs
    ensures RowStep(db, ClaimCommands(db, chosen, now), r)
  {
    var next := ClaimCommands(db, chosen, now);
    ClaimRunRow(db, chosen, now, r);
    ClaimRows(db, chosen, now);
    if i :| 0 <= i < |chosen| && HasCommand(db.outbox, chosen[i], RunStart, r) {
      assert HasCommand(next.outbox, chosen[i], RunStart, r) && next.outbox[chosen[i]].attempts > 0;
    } else {
      if StartClaimed(db, r) {
        var c :| HasCommand(db.outbox, c, RunStart, r) && db.outbox[c].attempts > 0;
        assert HasCommand(next.outbox, c, RunStart, r);
      }
      if StartClaimed(next, r) {
        var c :| HasCommand(next.outbox, c, RunStart, r) && next.outbox[c].attempts > 0;
        assert HasCommand(db.outbox, c, RunStart, r);
      }
    }
  }

  lemma CalmRowStep(db: Db, next: Db, r: string)
    requires r in db.runs && r in next.runs && SameLog(db.runs[r], next.runs[r])
    requires next.runs[r].status == db.runs[r].status
    requires OutboxCalm(db.outbox, next.outbox) && CommandsKept(db.outbox, next.outbox)
    ensures RowStep(db, next, r)
  {
    AttemptsSame(db, next, r);
  }

  lemma OutsideRow(sys: System, a: Action, r: string)
    requires Outside(a) && !a.DoClaim? && r in sys.db.runs
    ensures var next := Step(sys, a).db;
            r in next.runs && SameLog(sys.db.runs[r], next.runs[r]) && next.runs[r].status == sys.db.runs[r].status
  {
    match a
    case DoCreateRunCommit(session, prompt, profile, key, hash, runId, commandId, now) =>
      CreateRunRuns(sys.db, session, prompt, profile, key, hash, runId, commandId, now);
    case DoRequestCancel(x, commandId, now) => RequestCancelRuns(sys.db, x, commandId, now);
    case _ => SameRunsStep(sys, a);
  }

  lemma ReleaseStepRow(sys: System, c: string, now: Time, r: string)
    requires r in sys.db.runs
    ensures RowStep(sys.db, Step(sys, DoRelease(c, now)).db, r)
  {
    AttemptsSame(sys.db, ReleaseCommand(sys.db, c, now), r);
  }

  lemma ClaimStepRow(sys: System, chosen: seq<string>, limit: int, now: Time, r: string)
    requires r in sys.db.runs
    ensures RowStep(sys.db, Step(sys, DoClaim(chosen, limit, now)).db, r)
  {
    if Claimable(sys.db, chosen, limit, now) { ClaimRowStep(sys.db, chosen, limit, now, r); }
  }

  lemma OutsideRowStep(sys: System, a: Action, r: string)
    requires DbOk(sys.db) && Outside(a) && r in sys.db.runs
    ensures RowStep(sys.db, Step(sys, a).db, r)
  {
    if a.DoClaim? { ClaimStepRow(sys, a.chosen, a.limit, a.now, r); }
    else if a.DoRelease? { ReleaseStepRow(sys, a.command, a.now, r); }
    else { CalmStepRow(sys, a, r); }
  }

  lemma CalmStepRow(sys: System, a: Action, r: string)
    requires DbOk(sys.db) && Outside(a) && !a.DoClaim? && !a.DoRelease? && r in sys.db.runs
    ensures RowStep(sys.db, Step(sys, a).db, r)
  {
    OutsideRow(sys, a, r);
    CalmStep(sys, a);
    StepKeepsStore(sys, a);
    CalmRowStep(sys.db, Step(sys, a).db, r);
  }

  /** The status of a fold whose base becomes Dispatching is the dispatched status. */
  lemma RowStepFolds(db: Db, next: Db, r: string)
    requires RowStep(db, next, r) && RunOk(db.runs[r]) && IsFold(db.runs[r], BaseStatus(db, r))
    ensures IsFold(next.runs[r], BaseStatus(next, r))
  {
    var run := db.runs[r];
    FoldBase(run.events, run.persisted, BaseStatus(db, r), Dispatching);
    FoldBase(run.events, run.persisted, Dispatching, Dispatching);
  }

  /** A step that leaves the stream and the open messages of the run alone, and its row a fold. */
  lemma SameOrder(sys: System, next: System, r: string)
    requires InOrder(sys, r) && StreamOf(next, r) == StreamOf(sys, r) && SameOpen(sys, next, r)
    requires r in next.db.runs && SameLog(sys.db.runs[r], next.db.runs[r])
    requires IsFold(next.db.runs[r], BaseStatus(next.db, r))
    ensures InOrder(next, r) && LogOf(next, r) == LogOf(sys, r)
  {
    if LogOf(sys, r) != StreamOf(sys, r) {
      var d :| Carries(sys, d, r);
      assert Carries(next, d, r);
    }
  }

  lemma OutsideFrame(sys: System, a: Action)
    requires Outside(a)
    ensures Step(sys, a).streams == sys.streams && Step(sys, a).handlers == sys.handlers
  {
    if !a.DoCreateRunCommit? { QuietFrame(sys, a); }
  }

  lemma OutsideKeepsOrder(sys: System, a: Action, r: string)
    requires DbOk(sys.db) && InOrder(sys, r) && Outside(a)
    ensures InOrder(Step(sys, a), r) && StreamOf(Step(sys, a), r) == StreamOf(sys, r)
    ensures LogOf(Step(sys, a), r) == LogOf(sys, r)
  {
    OutsideRowStep(sys, a, r);
    OutsideFrame(sys, a);
    assert RunOk(sys.db.runs[r]);
    RowStepFolds(sys.db, Step(sys, a).db, r);
    SameOrder(sys, Step(sys, a), r);
  }

  /* ---- messages ---- */

  lemma MarkRowStep(db: Db, c: string, r: string)
    requires r in db.runs
    ensures RowStep(db, MarkCommandDelivered(db, c), r)
  {
    MarkCalm(db, c);
    CalmRowStep(db, MarkCommandDelivered(db, c), r);
  }

  lemma MarkFrame(sys: System, d: nat, r: string)
    ensures var next := MarkAccepted(sys, d);
            && next.streams == sys.streams && SameOpen(sys, next, r)
            && (next.db == sys.db || exists c :: next.db == MarkCommandDelivered(sys.db, c))
  {
  }

  lemma MarkAcceptedKeepsOrder(sys: System, d: nat, r: string)
    requires DbOk(sys.db) && InOrder(sys, r)
    ensures var next := MarkAccepted(sys, d);
            InOrder(next, r) && StreamOf(next, r) == StreamOf(sys, r) && LogOf(next, r) == LogOf(sys, r)
  {
    var next := MarkAccepted(sys, d);
    MarkFrame(sys, d, r);
    if next.db != sys.db {
      var c :| next.db == MarkCommandDelivered(sys.db, c);
      MarkRowStep(sys.db, c, r);
      assert RunOk(sys.db.runs[r]);
      RowStepFolds(sys.db, next.db, r);
    }
    SameOrder(sys, next, r);
  }

  /** Taking in a message of another run. */
  lemma OtherReceived(sys: System, d: nat, m: Message, lookupFails: bool, redisFails: bool, appTakes: bool, r: string)
    requires FlowOk(sys) && m.run != r
    ensures var next := Receive(sys, d, m, lookupFails, redisFails, appTakes);
            next.db == sys.db && StreamOf(next, r) == StreamOf(sys, r) && SameOpen(sys, next, r)
  {
  }

  /** Taking in a message of the run: what the gate does, and who is open then. */
  lemma OwnReceived(sys: System, d: nat, m: Message, lookupFails: bool, redisFails: bool, appTakes: bool)
    requires m.run in sys.db.runs && d !in sys.deliveries && forall e :: !Open(sys, e, m.run)
    ensures var next := Receive(sys, d, m, lookupFails, redisFails, appTakes);
            var gate := AppendEntry(StreamOf(sys, m.run), m.sequence, EventOf(m));
            && next.db == sys.db
            && (if m.sequence < 1 || redisFails || gate.Err? then
                  StreamOf(next, m.run) == StreamOf(sys, m.run) && forall e :: !Open(next, e, m.run)
                else
                  && StreamOf(next, m.run) == gate.value && (forall e :: Open(next, e, m.run) <==> e == d)
                  && d in next.handlers && next.handlers[d].entry == Entry(m.sequence, EventOf(m)))
  {
    var next := Receive(sys, d, m, lookupFails, redisFails, appTakes);
    forall e ensures Open(next, e, m.run) <==> e == d && d in next.handlers && next.handlers != sys.handlers {
      assert !Open(sys, e, m.run);
    }
  }

  /** What the gate makes of the entries offered to an empty stream, one after another. */
  ghost function Offered(offers: seq<Entry>): seq<Entry>
    decreases |offers|
  {
    if offers == [] then []
    else
      var prior, e := Offered(offers[..|offers| - 1]), offers[|offers| - 1];
      var gate := AppendEntry(prior, e.sequence, e.event);
      if gate.Ok? then gate.value else prior
  }

  /** The `i`-th offer is numbered above all before it. */
  predicate Record(offers: seq<Entry>, i: int) {
    0 <= i < |offers| && forall j :: 0 <= j < i ==> offers[j].sequence < offers[i].sequence
  }

  ghost predicate FirstOffered(offers: seq<Entry>, e: Entry) { exists i :: Record(offers, i) && offers[i] == e }

  ghost predicate Covers(stream: seq<Entry>, offers: seq<Entry>) {
    forall i :: 0 <= i < |offers| ==> stream != [] && offers[i].sequence <= stream[|stream| - 1].sequence
  }

  lemma RecordFront(front: seq<Entry>, e: Entry, i: int)
    requires 0 <= i < |front|
    ensures Record(front, i) <==> Record(front + [e], i)
  {
    var offers := front + [e];
    assert forall j :: 0 <= j <= i ==> offers[j] == front[j];
    if Record(offers, i) {
      forall j | 0 <= j < i ensures front[j].sequence < front[i].sequence {
        assert offers[j].sequence < offers[i].sequence;
      }
    }
  }

  ghost predicate Records(stream: seq<Entry>, offers: seq<Entry>) {
    forall e :: e in stream <==> FirstOffered(offers, e)
  }

  /** One more offer adds at most one record. */
  lemma OneMoreRecord(front: seq<Entry>, e: Entry, x: Entry)
    ensures FirstOffered(front + [e], x) <==> FirstOffered(front, x) || (x == e && Record(front + [e], |front|))
  {
    var offers := front + [e];
    if FirstOffered(front, x) {
      var i :| Record(front, i) && front[i] == x;
      RecordFront(front, e, i);
      assert Record(offers, i) && offers[i] == x;
    }
    if FirstOffered(offers, x) {
      var i :| Record(offers, i) && offers[i] == x;
      if i < |front| {
        RecordFront(front, e, i);
        assert Record(front, i) && front[i] == x;
      }
    }
    if x == e && Record(offers, |front|) { assert offers[|front|] == x; }
  }

  /** The gate is exactly the filter of record highs: whatever is offered, and in whatever order, the stream
      is ascending and holds exactly the offers numbered above all before them. */
  lemma {:induction false} GateExact(offers: seq<Entry>)
    ensures StreamAscending(Offered(offers)) && Covers(Offered(offers), offers) && Records(Offered(offers), offers)
    decreases |offers|
  {
    if offers != [] {
      var front, e := offers[..|offers| - 1], offers[|offers| - 1];
      assert offers == front + [e];
      GateExact(front);
      RecordExact(Offered(front), front, e);
      OfferTaken(Offered(front), front, e);
      OneMoreOffer(Offered(front), Offered(offers), front, e);
    }
  }

  lemma OneMoreOffer(stream: seq<Entry>, next: seq<Entry>, front: seq<Entry>, e: Entry)
    requires Records(stream, front) && next == if Record(front + [e], |front|) then stream + [e] else stream
    ensures Records(next, front + [e])
  {
    forall x ensures x in next <==> FirstOffered(front + [e], x) { OneMoreRecord(front, e, x); }
  }

  /** One offer, whether or not it is appended. */
  lemma OfferTaken(stream: seq<Entry>, front: seq<Entry>, e: Entry)
    requires StreamAscending(stream) && Covers(stream, front)
    ensures var gate := AppendEntry(stream, e.sequence, e.event);
            var next := if gate.Ok? then gate.value else stream;
            && next == (if stream == [] || LastSequence(stream) < e.sequence then stream + [e] else stream)
            && StreamAscending(next) && Covers(next, front + [e])
  {
  }

  /** An offer is a record high if and only if it is numbered above the last entry. */
  lemma RecordExact(stream: seq<Entry>, front: seq<Entry>, e: Entry)
    requires Covers(stream, front) && Records(stream, front)
    ensures Record(front + [e], |front|) <==> stream == [] || LastSequence(stream) < e.sequence
  {
    var offers := front + [e];
    if stream != [] {
      var last := stream[|stream| - 1];
      assert last in stream && FirstOffered(front, last);
      var i :| Record(front, i) && front[i] == last;
      assert offers[i] == last;
    }
  }

  /** The answer to a further offer: appended exactly if it is a record high, let through without a trace if
      it repeats one, refused otherwise. */
  lemma GateAnswers(offers: seq<Entry>, e: Entry)
    ensures AppendEntry(Offered(offers), e.sequence, e.event) ==
            if Record(offers + [e], |offers|) then Ok(Offered(offers) + [e])
            else if FirstOffered(offers, e) then Ok(Offered(offers))
            else Err(StreamConflict)
  {
    GateExact(offers);
    RecordExact(Offered(offers), offers, e);
    assert Entry(e.sequence, e.event) == e;
  }

  /** The gate admits exactly what the reference admits. */
  lemma GateAdmits(stream: seq<Entry>, n: int, e: RunEvent)
    requires n >= 1
    ensures var gate := AppendEntry(stream, n, e);
            if LastSequence(stream) < n then gate == Ok(stream + [Entry(n, e)]) else gate.Ok? ==> gate.value == stream
  {
  }

  lemma OpenLog(run: Run, log: seq<Entry>, e: Entry)
    requires LogIs(run.events, log) && StreamAscending(log) && LastSequence(log) < e.sequence
    ensures Landed(run, log + [e]) == log
  {
    var all := log + [e];
    assert all[|all| - 1] == e && all[..|all| - 1] == log;
    assert forall i :: 0 <= i < |log| ==> log[i].sequence <= LastSequence(log);
  }

  /** The message changed nothing, or only repeats what the row has. */
  lemma OldTaken(sys: System, next: System, r: string)
    requires InOrder(sys, r) && (forall e :: !Open(sys, e, r)) && next.db == sys.db
    requires StreamOf(next, r) == StreamOf(sys, r)
    requires forall d, e :: Open(next, d, r) && Open(next, e, r) ==> d == e
    ensures InOrder(next, r) && LogOf(next, r) == LogOf(sys, r)
  {
    assert forall d :: !Carries(sys, d, r);
  }

  lemma NewTaken(sys: System, next: System, d: nat, e: Entry, r: string)
    requires InOrder(sys, r) && (forall x :: !Open(sys, x, r)) && next.db == sys.db && e.sequence >= 1
    requires LastSequence(StreamOf(sys, r)) < e.sequence && StreamOf(next, r) == StreamOf(sys, r) + [e]
    requires (forall x :: Open(next, x, r) <==> x == d) && d in next.handlers && next.handlers[d].entry == e
    ensures InOrder(next, r) && LogOf(next, r) == LogOf(sys, r)
  {
    assert forall x :: !Carries(sys, x, r);
    OpenLog(sys.db.runs[r], StreamOf(sys, r), e);
    assert Carries(next, d, r);
  }

  lemma OwnMessageTaken(sys: System, a: Action, r: string)
    requires InOrder(sys, r) && a.DoReceive? && a.message.run == r && a.delivery !in sys.deliveries
    requires forall d :: !Open(sys, d, r)
    ensures var next := Step(sys, a);
            InOrder(next, r) && StreamOf(next, r) == Admit(StreamOf(sys, r), a, r) && LogOf(next, r) == LogOf(sys, r)
  {
    OwnReceived(sys, a.delivery, a.message, a.lookupFails, a.redisFails, a.appTakes);
    TakenKeepsOrder(sys, Step(sys, a), a, r);
  }

  lemma TakenKeepsOrder(sys: System, next: System, a: Action, r: string)
    requires InOrder(sys, r) && a.DoReceive? && a.message.run == r && (forall d :: !Open(sys, d, r))
    requires next.db == sys.db
    requires var m, d := a.message, a.delivery;
             var gate := AppendEntry(StreamOf(sys, r), m.sequence, EventOf(m));
             if m.sequence < 1 || a.redisFails || gate.Err? then StreamOf(next, r) == StreamOf(sys, r)
               && forall e :: !Open(next, e, r)
             else
               && StreamOf(next, r) == gate.value && (forall e :: Open(next, e, r) <==> e == d)
               && d in next.handlers && next.handlers[d].entry == Entry(m.sequence, EventOf(m))
    ensures InOrder(next, r) && StreamOf(next, r) == Admit(StreamOf(sys, r), a, r) && LogOf(next, r) == LogOf(sys, r)
  {
    var m := a.message;
    if m.sequence >= 1 { GateAdmits(StreamOf(sys, r), m.sequence, EventOf(m)); }
    if m.sequence >= 1 && !a.redisFails && LastSequence(StreamOf(sys, r)) < m.sequence {
      NewTaken(sys, next, a.delivery, Entry(m.sequence, EventOf(m)), r);
    } else {
      OldTaken(sys, next, r);
    }
  }

  lemma LogIsGrows(events: map<int, RunEvent>, log: seq<Entry>, e: Entry)
    requires LogIs(events, log) && StreamAscending(log) && LastSequence(log) < e.sequence
    ensures LogIs(events[e.sequence := Stored(e.event)], log + [e])
  {
    var next, all := events[e.sequence := Stored(e.event)], log + [e];
    assert forall i :: 0 <= i < |log| ==> log[i].sequence < e.sequence;
    forall k ensures k in next <==> k in (set i | 0 <= i < |all| :: all[i].sequence) {
      if k == e.sequence { assert all[|log|].sequence == k; }
      else if k in events {
        var i :| 0 <= i < |log| && log[i].sequence == k;
        assert all[i].sequence == k;
      }
    }
  }

  lemma AppendKeepsOrder(run: Run, log: seq<Entry>, n: int, e: RunEvent, now: Time, base: Status)
    requires RunOk(run) && RowInOrder(run, log, base) && LastSequence(log) < n
    ensures n !in run.events && RowInOrder(AppendedRow(run, n, e, now), log + [Entry(n, e)], base)
  {
    LogIsGrows(run.events, log, Entry(n, e));
    LateAppendExact(run, n, e, now, base);
  }

  lemma StartClaimedSame(db: Db, next: Db, r: string)
    requires next.outbox == db.outbox
    ensures BaseStatus(next, r) == BaseStatus(db, r)
  {
  }

  /** What storing an open message of the run does to the store and to who is open. */
  lemma OwnStored(sys: System, d: nat, now: Time, r: string)
    requires Open(sys, d, r) && forall e :: Open(sys, e, r) ==> e == d
    requires AppendAgentEvent(sys.db, r, sys.handlers[d].entry.sequence, sys.handlers[d].entry.event, now).Ok?
    ensures var next := Persist(sys, d, false, now);
            && next.streams == sys.streams && (forall e :: !Open(next, e, r))
            && Ok(next.db)
               == AppendAgentEvent(sys.db, r, sys.handlers[d].entry.sequence, sys.handlers[d].entry.event, now)
  {
    var next := Persist(sys, d, false, now);
    forall e ensures !Open(next, e, r) { assert Open(sys, e, r) ==> e == d; }
  }

  /** An entry of the stream that the row lacks is its last one. */
  lemma Missing(run: Run, stream: seq<Entry>, e: Entry)
    requires LogIs(run.events, Landed(run, stream)) && e in stream && e.sequence !in run.events
    ensures stream == Landed(run, stream) + [e]
  {
    var log := Landed(run, stream);
    var i :| 0 <= i < |stream| && stream[i] == e;
    assert forall j :: 0 <= j < |log| ==> log[j] == stream[j] && log[j].sequence in run.events;
    assert i == |log|;
  }

  /** The last entry of the stream lands in the row. */
  lemma Lands(run: Run, log: seq<Entry>, e: Entry, now: Time, base: Status)
    requires RunOk(run) && StreamAscending(log + [e]) && RowInOrder(run, log, base) && e.sequence >= 1
    ensures LastSequence(log) < e.sequence
    ensures var next := AppendedRow(run, e.sequence, e.event, now);
            RowInOrder(next, log + [e], base) && Landed(next, log + [e]) == log + [e]
  {
    var all := log + [e];
    assert log != [] ==> all[|log| - 1] == log[|log| - 1];
    assert all[|log|] == e;
    AppendKeepsOrder(run, log, e.sequence, e.event, now, base);
  }

  lemma OwnMessageStored(sys: System, a: Action, r: string)
    requires DbOk(sys.db) && FlowOk(sys) && InOrder(sys, r) && Healthy(sys, a, r) && a.DoPersist?
    requires Open(sys, a.delivery, r)
    ensures var next := Step(sys, a);
            && InOrder(next, r) && StreamOf(next, r) == StreamOf(sys, r)
            && (LogOf(next, r) == LogOf(sys, r) || exists e :: GrownBy(LogOf(sys, r), e, LogOf(next, r)))
  {
    OwnEntry(sys, a, r);
    OwnStored(sys, a.delivery, a.now, r);
    assert Step(sys, a) == Persist(sys, a.delivery, false, a.now);
    StoredKeepsOrder(sys, Persist(sys, a.delivery, false, a.now), a.delivery, a.now, r);
  }

  /** A message on its way passed its stream, is the only one of its run, and will be stored. */
  lemma OwnEntry(sys: System, a: Action, r: string)
    requires FlowOk(sys) && InOrder(sys, r) && Healthy(sys, a, r) && a.DoPersist? && Open(sys, a.delivery, r)
    ensures var e := sys.handlers[a.delivery].entry;
            && StreamAscending(StreamOf(sys, r)) && e in StreamOf(sys, r) && !a.storeFails
            && (forall d :: Open(sys, d, r) ==> d == a.delivery)
            && AppendAgentEvent(sys.db, r, e.sequence, e.event, a.now).Ok?
  {
    assert HandlerFlows(sys, sys.handlers[a.delivery]);
  }

  lemma StoredKeepsOrder(sys: System, next: System, d: nat, now: Time, r: string)
    requires RunsOk(sys.db.runs) && StreamAscending(StreamOf(sys, r)) && InOrder(sys, r) && Open(sys, d, r)
    requires next.streams == sys.streams && (forall e :: !Open(next, e, r)) && sys.handlers[d].entry in StreamOf(sys, r)
    requires Ok(next.db)
             == AppendAgentEvent(sys.db, r, sys.handlers[d].entry.sequence, sys.handlers[d].entry.event, now)
    ensures InOrder(next, r)
    ensures LogOf(next, r) == LogOf(sys, r) || exists e :: GrownBy(LogOf(sys, r), e, LogOf(next, r))
  {
    var run, stream, entry := sys.db.runs[r], StreamOf(sys, r), sys.handlers[d].entry;
    AppendAgentEventRuns(sys.db, r, entry.sequence, entry.event, now);
    StartClaimedSame(sys.db, next.db, r);
    assert RunOk(run) && StreamOf(next, r) == stream;
    if entry.sequence in run.events {
      AllLanded(sys, d, r);
    } else {
      Missing(run, stream, entry);
      Lands(run, LogOf(sys, r), entry, now, BaseStatus(sys.db, r));
      assert GrownBy(LogOf(sys, r), entry, LogOf(next, r));
    }
  }

  /** With a resend under way, nothing else is. */
  lemma AllLanded(sys: System, d: nat, r: string)
    requires InOrder(sys, r) && Open(sys, d, r) && sys.handlers[d].entry.sequence in sys.db.runs[r].events
    ensures LogOf(sys, r) == StreamOf(sys, r)
  {
    assert forall e :: Carries(sys, e, r) ==> e == d;
  }

  /** Storing, or failing to store, a message of another run. */
  lemma OtherStored(sys: System, a: Action, r: string)
    requires r in sys.db.runs && a.DoPersist? && !Open(sys, a.delivery, r)
    ensures var next := Step(sys, a);
            && next.streams == sys.streams && SameOpen(sys, next, r)
            && next.db.outbox == sys.db.outbox && r in next.db.runs && next.db.runs[r] == sys.db.runs[r]
  {
    if a.delivery in sys.handlers {
      var h := sys.handlers[a.delivery];
      AppendAgentEventRuns(sys.db, h.run, h.entry.sequence, h.entry.event, a.now);
    }
  }

  ghost predicate GrownBy(log: seq<Entry>, e: Entry, grown: seq<Entry>) {
    LastSequence(log) < e.sequence && grown == log + [e]
  }

  /** One step of a healthy trace: the stream follows the reference, and the log grows at its end or not at all. */
  ghost predicate OrderStep(sys: System, next: System, a: Action, r: string) {
    && r in sys.db.runs && InOrder(next, r)
    && StreamOf(next, r) == Admit(StreamOf(sys, r), a, r)
    && (LogOf(next, r) == LogOf(sys, r) || exists e :: GrownBy(LogOf(sys, r), e, LogOf(next, r)))
  }

  lemma PersistKeepsOrder(sys: System, a: Action, r: string)
    requires DbOk(sys.db) && FlowOk(sys) && InOrder(sys, r) && Healthy(sys, a, r) && a.DoPersist?
    ensures OrderStep(sys, Step(sys, a), a, r)
  {
    if Open(sys, a.delivery, r) { OwnMessageStored(sys, a, r); }
    else {
      OtherStored(sys, a, r);
      StartClaimedSame(sys.db, Step(sys, a).db, r);
      SameOrder(sys, Step(sys, a), r);
    }
  }

  lemma ReceiveKeepsOrder(sys: System, a: Action, r: string)
    requires FlowOk(sys) && InOrder(sys, r) && Healthy(sys, a, r) && a.DoReceive?
    ensures OrderStep(sys, Step(sys, a), a, r)
  {
    if a.message.run == r { OwnMessageTaken(sys, a, r); }
    else {
      OtherReceived(sys, a.delivery, a.message, a.lookupFails, a.redisFails, a.appTakes, r);
      SameOrder(sys, Step(sys, a), r);
    }
  }

  lemma BatchFrame(sys: System, a: Action)
    requires a.DoBatch?
    ensures Step(sys, a).streams == sys.streams && Step(sys, a).handlers == sys.handlers
  {
  }

  /** A batch marks commands and adds none, so no start is claimed by it. */
  lemma BatchBase(sys: System, a: Action, r: string)
    requires DbOk(sys.db) && a.DoBatch?
    ensures BaseStatus(Step(sys, a).db, r) == BaseStatus(sys.db, r)
  {
    CalmAgentStep(sys, a);
    StepKeepsStore(sys, a);
    AttemptsSame(sys.db, Step(sys, a).db, r);
  }

  lemma BatchKeepsOrder(sys: System, a: Action, r: string)
    requires DbOk(sys.db) && InOrder(sys, r) && a.DoBatch? && LeavesRow(sys, a, r)
    ensures InOrder(Step(sys, a), r) && StreamOf(Step(sys, a), r) == StreamOf(sys, r)
    ensures LogOf(Step(sys, a), r) == LogOf(sys, r)
  {
    BatchFrame(sys, a);
    BatchBase(sys, a, r);
    SameOrder(sys, Step(sys, a), r);
  }

  lemma StepKeepsOrder(sys: System, a: Action, r: string)
    requires DbOk(sys.db) && FlowOk(sys) && InOrder(sys, r) && Healthy(sys, a, r)
    ensures OrderStep(sys, Step(sys, a), a, r)
  {
    if a.DoBatch? { BatchKeepsOrder(sys, a, r); }
    else if a.DoPersist? { PersistKeepsOrder(sys, a, r); }
    else if a.DoReceive? { ReceiveKeepsOrder(sys, a, r); }
    else if a.DoMarkAccepted? { MarkAcceptedKeepsOrder(sys, a.delivery, r); }
    else { OutsideKeepsOrder(sys, a, r); }
  }

  /* ---- whole traces ---- */

  lemma StepKeepsRelay(sys: System, a: Action)
    requires RelayOk(sys)
    ensures RelayOk(Step(sys, a))
  {
    StepKeepsStore(sys, a);
    StepKeepsFlow(sys, a);
    StepKeepsAcks(sys, a);
  }

  /** For every healthy trace, whatever is duplicated, reordered, dropped or resent with other contents,
      and however claims, releases, cancels, marks and other runs' messages fall between the store calls:
      the stream is the reference log, the run's events are that log (but for an entry still on its
      way), persisted_through_sequence is its last number, and status and final_sequence are the fold of
      the events in sequence order. */
  lemma {:induction false} RunLogIsFold(sys: System, actions: seq<Action>, r: string)
    requires RelayOk(sys) && InOrder(sys, r) && HealthyTrace(sys, actions, r)
    ensures var end := Execute(sys, actions);
            && RelayOk(end) && InOrder(end, r)
            && StreamOf(end, r) == Admitted(StreamOf(sys, r), actions, r)
            && RowInOrder(end.db.runs[r], LogOf(end, r), BaseStatus(end.db, r))
            && ((forall d :: !Open(end, d, r)) ==> LogOf(end, r) == Admitted(StreamOf(sys, r), actions, r))
    decreases |actions|
  {
    if actions != [] {
      StepKeepsRelay(sys, actions[0]);
      StepKeepsOrder(sys, actions[0], r);
      RunLogIsFold(Step(sys, actions[0]), actions[1..], r);
    }
  }

  /** What is left of messages that came before their run: nothing, or one that is still on its way. */
  ghost predicate Leftover(sys: System, r: string) {
    && |StreamOf(sys, r)| <= 1
    && (forall d, e :: Open(sys, d, r) && Open(sys, e, r) ==> d == e)
    && (StreamOf(sys, r) != [] ==> exists d :: Carries(sys, d, r))
  }

  /** A run that CreateRun has just created starts in order, if and only if at most one message came
      before it and that one is still on its way; normally its stream is empty. */
  lemma FreshRunInOrder(sys: System, session: string, prompt: string, profile: string, key: string, hash: string,
                        runId: string, commandId: string, now: Time)
    requires FlowOk(sys) && runId !in sys.db.runs
    ensures var next := CreateRunSlow(sys, session, prompt, profile, key, hash, runId, commandId, now);
            runId in next.db.runs ==> (InOrder(next, runId) <==> Leftover(sys, runId))
    ensures StreamOf(sys, runId) == [] ==> Leftover(sys, runId)
  {
    var next := CreateRunSlow(sys, session, prompt, profile, key, hash, runId, commandId, now);
    forall d | StreamOf(sys, runId) == [] ensures !Open(sys, d, runId) {
      assert d in sys.handlers ==> HandlerFlows(sys, sys.handlers[d]);
    }
    if runId in next.db.runs {
      FreshRow(sys, session, prompt, profile, key, hash, runId, commandId, now);
      FreshOrder(sys, next, runId);
    }
  }

  lemma FreshRow(sys: System, session: string, prompt: string, profile: string, key: string, hash: string,
                 runId: string, commandId: string, now: Time)
    requires runId !in sys.db.runs
    requires runId in CreateRunSlow(sys, session, prompt, profile, key, hash, runId, commandId, now).db.runs
    ensures var next := CreateRunSlow(sys, session, prompt, profile, key, hash, runId, commandId, now);
            && next.db.runs[runId] == FreshRun(session, prompt, profile, key, hash) && !StartClaimed(next.db, runId)
            && next.streams == sys.streams && next.handlers == sys.handlers
  {
    var next := CreateRunSlow(sys, session, prompt, profile, key, hash, runId, commandId, now);
    CreateRunRuns(sys.db, session, prompt, profile, key, hash, runId, commandId, now);
    forall c | HasCommand(next.db.outbox, c, RunStart, runId) ensures next.db.outbox[c].attempts == 0 {
      FreshStart(sys.db, session, prompt, profile, key, hash, runId, commandId, now, c);
    }
  }

  lemma FreshOrder(sys: System, next: System, r: string)
    requires next.streams == sys.streams && next.handlers == sys.handlers && r in next.db.runs
    requires !StartClaimed(next.db, r)
    requires var run := next.db.runs[r];
             run.events == map[] && run.persisted == 0 && run.final.None? && run.status == Queued
    ensures InOrder(next, r) <==> Leftover(sys, r)
  {
    var stream := StreamOf(sys, r);
    assert StreamOf(next, r) == stream;
    assert forall d :: Carries(next, d, r) <==> Carries(sys, d, r);
    assert forall d :: Open(next, d, r) <==> Open(sys, d, r);
    if |stream| <= 1 { assert LogOf(next, r) == []; }
    else { assert LogOf(next, r)[0].sequence !in next.db.runs[r].events; }
  }

  lemma FreshStart(db: Db, session: string, prompt: string, profile: string, key: string, hash: string,
                   runId: string, commandId: string, now: Time, c: string)
    requires runId !in db.runs
    requires var out := CreateRunCommit(db, session, prompt, profile, key, hash, runId, commandId, now);
             out.Ok? && runId in out.value.0.runs && HasCommand(out.value.0.outbox, c, RunStart, runId)
    ensures CreateRunCommit(db, session, prompt, profile, key, hash, runId, commandId, now).value.0.outbox[c].attempts
            == 0
  {
    if c != commandId { assert HasCommand(db.outbox, c, RunStart, runId); }
  }
}
