/** Waiting for a notification on one Redis channel: a waiter reads the version, subscribes, reads the
    version again and only then blocks; a notifier sets a new version and then publishes. */
module WaitProtocol {
  import opened RuntimeTypes

  datatype Phase =
    | Ready
    | FirstRead(before: Option<int>)
    | Subscribed(before: Option<int>, inbox: nat)
    | Blocked(inbox: nat)
    | Woken

  datatype State = State(
    version: Option<int>,             // the version key; absent before the first notification
    used: set<int>,                   // every version ever set
    waiters: map<nat, Phase>,
    missed: map<nat, set<nat>>,       // notifications whose version was set after a waiter's first read
    pending: set<nat>,                // notifications set but not yet published
    published: set<nat>)

  const INIT := State(None, {}, map[], map[], {}, {})

  datatype Move =
    | ReadVersion(w: nat)
    | Subscribe(w: nat)
    | ReadAgain(w: nat)
    | TakeMessage(w: nat)
    | SetVersion(n: nat, v: int)
    | Publish(n: nat)

  function PhaseOf(s: State, w: nat): Phase { if w in s.waiters then s.waiters[w] else Ready }

  function MissedBy(s: State, w: nat): set<nat> { if w in s.missed then s.missed[w] else {} }

  function Deliver(p: Phase): Phase {
    match p
    case Subscribed(before, inbox) => Subscribed(before, inbox + 1)
    case Blocked(inbox) => Blocked(inbox + 1)
    case _ => p
  }

  function Step(s: State, m: Move): State {
    match m
    case ReadVersion(w) =>
      if PhaseOf(s, w).Ready? then s.(waiters := s.waiters[w := FirstRead(s.version)], missed := s.missed[w := {}])
      else s
    case Subscribe(w) =>
      if PhaseOf(s, w).FirstRead? then s.(waiters := s.waiters[w := Subscribed(s.waiters[w].before, 0)]) else s
    case ReadAgain(w) =>
      if PhaseOf(s, w).Subscribed?
      then s.(waiters :=
              s.waiters[w := if s.version != s.waiters[w].before then Woken else Blocked(s.waiters[w].inbox)])
      else s
    case TakeMessage(w) =>
      if PhaseOf(s, w).Blocked? && s.waiters[w].inbox > 0 then s.(waiters := s.waiters[w := Woken]) else s
    case SetVersion(n, v) =>
      if n in s.pending || n in s.published then s
      else s.(version := Some(v), used := s.used + {v}, pending := s.pending + {n},
              missed := map w | w in s.missed :: s.missed[w] + {n})
    case Publish(n) =>
      if n !in s.pending then s
      else s.(pending := s.pending - {n}, published := s.published + {n},
              waiters := map w | w in s.waiters :: Deliver(s.waiters[w]))
  }

  function Execute(s: State, moves: seq<Move>): State
    decreases |moves|
  {
    if moves == [] then s else Execute(Step(s, moves[0]), moves[1..])
  }

  /** Every notification sets a version that was never set before. */
  predicate FreshMove(s: State, m: Move) { m.SetVersion? ==> m.v !in s.used }

  predicate FreshVersions(s: State, moves: seq<Move>)
    decreases |moves|
  {
    moves == [] || (FreshMove(s, moves[0]) && FreshVersions(Step(s, moves[0]), moves[1..]))
  }

  /** While a waiter has not blocked, a missed notification shows in the version; once it has, it is
      still to be published or lies in the waiter's inbox. */
  ghost predicate WaiterOk(s: State, w: nat) {
    match PhaseOf(s, w)
    case Ready => true
    case FirstRead(before) => OldVersion(s, w, before)
    case Subscribed(before, _) => OldVersion(s, w, before)
    case Blocked(inbox) => MissedBy(s, w) <= s.pending || inbox > 0
    case Woken => true
  }

  ghost predicate OldVersion(s: State, w: nat, before: Option<int>) {
    (before.Some? ==> before.value in s.used) && (MissedBy(s, w) != {} ==> s.version != before)
  }

  ghost predicate Inv(s: State) {
    && s.missed.Keys == s.waiters.Keys
    && (s.version.Some? ==> s.version.value in s.used)
    && s.pending !! s.published
    && (forall w :: w in s.waiters ==> !s.waiters[w].Ready?)
    && (forall w :: w in s.missed ==> s.missed[w] <= s.pending + s.published)
    && (forall w :: w in s.waiters ==> WaiterOk(s, w))
  }

  lemma SetKeeps(s: State, n: nat, v: int)
    requires Inv(s) && v !in s.used
    ensures Inv(Step(s, SetVersion(n, v)))
  {
    var next := Step(s, SetVersion(n, v));
    forall w | w in next.waiters ensures WaiterOk(next, w) { assert WaiterOk(s, w); }
  }

  lemma PublishKeeps(s: State, n: nat)
    requires Inv(s)
    ensures Inv(Step(s, Publish(n)))
  {
    var next := Step(s, Publish(n));
    forall w | w in next.waiters ensures WaiterOk(next, w) { assert WaiterOk(s, w); }
  }

  lemma WaiterKeeps(s: State, m: Move)
    requires Inv(s) && !m.SetVersion? && !m.Publish?
    ensures Inv(Step(s, m))
  {
    var next := Step(s, m);
    forall w | w in next.waiters ensures WaiterOk(next, w) { assert w in s.waiters ==> WaiterOk(s, w); }
  }

  lemma {:induction false} Reachable(s: State, moves: seq<Move>)
    requires Inv(s) && FreshVersions(s, moves)
    ensures Inv(Execute(s, moves))
    decreases |moves|
  {
    if moves != [] {
      match moves[0] {
        case SetVersion(n, v) => SetKeeps(s, n, v);
        case Publish(n) => PublishKeeps(s, n);
        case _ => WaiterKeeps(s, moves[0]);
      }
      Reachable(Step(s, moves[0]), moves[1..]);
    }
  }

  /** The waiter's next own step wakes it. */
  predicate AboutToWake(s: State, w: nat) {
    match PhaseOf(s, w)
    case Ready => false
    case FirstRead(_) => PhaseOf(Step(Step(s, Subscribe(w)), ReadAgain(w)), w).Woken?
    case Subscribed(_, _) => PhaseOf(Step(s, ReadAgain(w)), w).Woken?
    case Blocked(_) => PhaseOf(Step(s, TakeMessage(w)), w).Woken?
    case Woken => true
  }

  /** No wakeup is lost: after any interleaving with fresh versions, a waiter that missed a notification
      at its first read has woken, or wakes by its own next steps, unless that notification is still
      to be published to it. */
  lemma NoLostWakeup(moves: seq<Move>, w: nat, n: nat)
    requires FreshVersions(INIT, moves)
    requires n in MissedBy(Execute(INIT, moves), w)
    ensures var s := Execute(INIT, moves);
            || AboutToWake(s, w)
            || (PhaseOf(s, w).Blocked? && n in s.pending && AboutToWake(Step(s, Publish(n)), w))
  {
    Reachable(INIT, moves);
    var s := Execute(INIT, moves);
    assert WaiterOk(s, w);
    if PhaseOf(s, w).Blocked? && n in s.pending {
      assert PhaseOf(Step(s, Publish(n)), w) == Deliver(s.waiters[w]);
    }
  }

  /** A published notification leaves no waiter of it asleep. */
  lemma PublishedIsObserved(moves: seq<Move>, w: nat, n: nat)
    requires FreshVersions(INIT, moves)
    requires n in MissedBy(Execute(INIT, moves), w) && n in Execute(INIT, moves).published
    ensures AboutToWake(Execute(INIT, moves), w)
  {
    Reachable(INIT, moves);
    NoLostWakeup(moves, w, n);
  }

  /* ---- the exact condition ---- */

  /** The move sets the very version that a waiter has read and not yet subscribed under. */
  predicate Stale(s: State, m: Move) {
    m.SetVersion? && m.n !in s.pending && m.n !in s.published
        && exists w :: w in s.waiters && s.waiters[w] == FirstRead(Some(m.v))
  }

  predicate NeverStale(s: State, moves: seq<Move>)
    decreases |moves|
  {
    moves == [] || (!Stale(s, moves[0]) && NeverStale(Step(s, moves[0]), moves[1..]))
  }

  /** The waiter is blocked with nothing in its inbox, missed a notification, and none that it missed is
      still to be published: nothing it missed will wake it. */
  predicate Lost(s: State, w: nat) {
    PhaseOf(s, w) == Blocked(0) && MissedBy(s, w) != {} && MissedBy(s, w) !! s.pending
  }

  /** What keeps a waiter from being lost. */
  predicate Safe(s: State, w: nat) {
    match PhaseOf(s, w)
    case FirstRead(before) => MissedBy(s, w) != {} ==> s.version != before
    case Subscribed(before, inbox) =>
      MissedBy(s, w) != {} ==> s.version != before || inbox > 0 || MissedBy(s, w) * s.pending != {}
    case Blocked(inbox) => MissedBy(s, w) != {} ==> inbox > 0 || MissedBy(s, w) * s.pending != {}
    case _ => true
  }

  ghost predicate AllSafe(s: State) { s.missed.Keys == s.waiters.Keys && forall w :: w in s.waiters ==> Safe(s, w) }

  lemma StaleFreeStep(s: State, m: Move)
    requires AllSafe(s) && !Stale(s, m)
    ensures AllSafe(Step(s, m))
  {
    var next := Step(s, m);
    forall w | w in next.waiters ensures Safe(next, w) {
      if w in s.waiters { assert Safe(s, w); }
      if m.SetVersion? && next != s { assert m.n in MissedBy(next, w) * next.pending; }
    }
  }

  lemma {:induction false} StaleFree(s: State, moves: seq<Move>)
    requires AllSafe(s) && NeverStale(s, moves)
    ensures AllSafe(Execute(s, moves))
    decreases |moves|
  {
    if moves != [] {
      StaleFreeStep(s, moves[0]);
      StaleFree(Step(s, moves[0]), moves[1..]);
    }
  }

  lemma SafeNotLost(s: State, w: nat)
    requires AllSafe(s)
    ensures !Lost(s, w)
  {
    if w in s.waiters { assert Safe(s, w); }
  }

  /** A continuation in which nothing new is notified. */
  predicate Quiet(moves: seq<Move>) { forall i :: 0 <= i < |moves| ==> !moves[i].SetVersion? }

  lemma {:induction false} QuietIsNeverStale(s: State, moves: seq<Move>)
    requires Quiet(moves)
    ensures NeverStale(s, moves)
    decreases |moves|
  {
    if moves != [] { QuietIsNeverStale(Step(s, moves[0]), moves[1..]); }
  }

  lemma {:induction false} ExecuteSplit(s: State, xs: seq<Move>, ys: seq<Move>)
    ensures Execute(s, xs + ys) == Execute(Execute(s, xs), ys)
    ensures NeverStale(s, xs + ys) <==> NeverStale(s, xs) && NeverStale(Execute(s, xs), ys)
    decreases |xs|
  {
    if xs == [] {
      assert xs + ys == ys;
    } else {
      assert (xs + ys)[1..] == xs[1..] + ys;
      ExecuteSplit(Step(s, xs[0]), xs[1..], ys);
    }
  }

  /** All that is pending gets published; a waiter that has not subscribed notices nothing. */
  lemma {:induction false} PublishAll(s: State, w: nat) returns (moves: seq<Move>)
    requires PhaseOf(s, w).FirstRead?
    ensures Quiet(moves)
    ensures var end := Execute(s, moves);
            end.pending == {} && end.version == s.version && PhaseOf(end, w) == PhaseOf(s, w)
                && MissedBy(end, w) == MissedBy(s, w)
    decreases s.pending
  {
    if s.pending == {} {
      moves := [];
    } else {
      var n :| n in s.pending;
      var next := Step(s, Publish(n));
      assert next.pending < s.pending;
      assert PhaseOf(next, w) == PhaseOf(s, w);
      var rest := PublishAll(next, w);
      moves := [Publish(n)] + rest;
      assert moves[1..] == rest;
    }
  }

  /** From a stale set on, publishing what is pending and letting the waiter go on loses it. */
  lemma StaleLoses(s: State, m: Move, w: nat) returns (moves: seq<Move>)
    requires s.missed.Keys == s.waiters.Keys && Stale(s, m) && w in s.waiters && s.waiters[w] == FirstRead(Some(m.v))
    ensures Quiet(moves) && Lost(Execute(Step(s, m), moves), w)
  {
    var next := Step(s, m);
    assert m.n in MissedBy(next, w) && PhaseOf(next, w) == FirstRead(next.version);
    var publish := PublishAll(next, w);
    var settled := Execute(next, publish);
    var go := [Subscribe(w), ReadAgain(w)];
    moves := publish + go;
    ExecuteSplit(next, publish, go);
    var subscribed := Step(settled, Subscribe(w));
    assert go[1..] == [ReadAgain(w)] && go[1..][1..] == [];
    assert Execute(settled, go) == Execute(subscribed, [ReadAgain(w)]) == Step(subscribed, ReadAgain(w));
  }

  /** After some of `moves` and then without any new notification, some waiter is lost. */
  ghost predicate Loses(moves: seq<Move>, k: nat, more: seq<Move>, w: nat) {
    k <= |moves| && Quiet(more) && Lost(Execute(Execute(INIT, moves[..k]), more), w)
  }

  lemma {:induction false} FirstStale(s: State, moves: seq<Move>) returns (k: nat)
    requires !NeverStale(s, moves)
    ensures k < |moves| && Stale(Execute(s, moves[..k]), moves[k])
    decreases |moves|
  {
    if Stale(s, moves[0]) {
      k := 0;
      assert moves[..0] == [];
    } else {
      var j := FirstStale(Step(s, moves[0]), moves[1..]);
      k := j + 1;
      assert moves[..k][1..] == moves[1..][..j] && moves[..k][0] == moves[0];
    }
  }

  lemma {:induction false} KeysStay(s: State, moves: seq<Move>)
    requires s.missed.Keys == s.waiters.Keys
    ensures Execute(s, moves).missed.Keys == Execute(s, moves).waiters.Keys
    decreases |moves|
  {
    if moves != [] { KeysStay(Step(s, moves[0]), moves[1..]); }
  }

  /** Exactly when a wakeup can be lost: along a trace some waiter can end up blocked for good on what it
      missed, if and only if somewhere in the trace a version is set that a waiter has just read and not
      yet subscribed under. */
  lemma LostExact(moves: seq<Move>)
    ensures (exists k, more, w :: Loses(moves, k, more, w)) <==> !NeverStale(INIT, moves)
  {
    if NeverStale(INIT, moves) {
      forall k: nat, more, w: nat ensures !Loses(moves, k, more, w) {
        if k <= |moves| && Quiet(more) { NeverLoses(moves, k, more, w); }
      }
    } else {
      var k := FirstStale(INIT, moves);
      var s := Execute(INIT, moves[..k]);
      KeysStay(INIT, moves[..k]);
      var w :| w in s.waiters && s.waiters[w] == FirstRead(Some(moves[k].v));
      var more := StaleLoses(s, moves[k], w);
      assert moves[..k + 1] == moves[..k] + [moves[k]];
      ExecuteSplit(INIT, moves[..k], [moves[k]]);
      assert [moves[k]][1..] == [] && Execute(s, [moves[k]]) == Execute(Step(s, moves[k]), []);
      assert Loses(moves, k + 1, more, w);
    }
  }

  lemma NeverLoses(moves: seq<Move>, k: nat, more: seq<Move>, w: nat)
    requires NeverStale(INIT, moves) && k <= |moves| && Quiet(more)
    ensures !Lost(Execute(Execute(INIT, moves[..k]), more), w)
  {
    assert moves == moves[..k] + moves[k..];
    ExecuteSplit(INIT, moves[..k], moves[k..]);
    StaleFree(INIT, moves[..k]);
    var s := Execute(INIT, moves[..k]);
    QuietIsNeverStale(s, more);
    StaleFree(s, more);
    SafeNotLost(Execute(s, more), w);
  }

  /** Fresh versions are never stale. */
  lemma {:induction false} FreshNeverStale(s: State, moves: seq<Move>)
    requires Inv(s) && FreshVersions(s, moves)
    ensures NeverStale(s, moves)
    decreases |moves|
  {
    if moves != [] {
      assert forall w :: w in s.waiters ==> WaiterOk(s, w);
      Reachable(s, [moves[0]]);
      assert [moves[0]][1..] == [] && Execute(s, [moves[0]]) == Execute(Step(s, moves[0]), []);
      FreshNeverStale(Step(s, moves[0]), moves[1..]);
    }
  }

  /** As long as every notification sets a version of its own, no waiter is lost, at any point of a trace. */
  lemma FreshNeverLoses(moves: seq<Move>, k: nat, more: seq<Move>, w: nat)
    requires FreshVersions(INIT, moves)
    ensures !Loses(moves, k, more, w)
  {
    FreshNeverStale(INIT, moves);
    LostExact(moves);
  }

  const AGAIN := [SetVersion(0, 7), Publish(0), ReadVersion(0), SetVersion(1, 7)]

  /** Such a trace: a version that returns between two steps of a waiter. */
  lemma RepeatedVersionLosesWakeup()
    ensures exists k, more, w :: Loses(AGAIN, k, more, w)
  {
    var s1 := Step(INIT, AGAIN[0]);
    var s2 := Step(s1, AGAIN[1]);
    var s3 := Step(s2, AGAIN[2]);
    assert s3.waiters[0] == FirstRead(Some(7)) && Stale(s3, AGAIN[3]);
    assert !NeverStale(s3, AGAIN[3..]) && AGAIN[2..][1..] == AGAIN[3..];
    assert !NeverStale(s2, AGAIN[2..]) && AGAIN[1..][1..] == AGAIN[2..];
    assert !NeverStale(s1, AGAIN[1..]);
    LostExact(AGAIN);
  }
}
