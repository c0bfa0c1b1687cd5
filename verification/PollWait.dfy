/** A long poll on one channel: it reads a page of committed events beyond its cursor and, if the page is
    empty, waits for a notification and reads again; a writer commits an event and then announces it. */
module PollWait {
  import opened RuntimeTypes
  import W = WaitProtocol

  datatype State = State(
    wait: W.State,
    events: map<nat, int>,      // committed events, by the notification that announces them: their numbers
    polls: map<nat, int>)       // polls whose last page was empty: their cursors

  const INIT := State(W.INIT, map[], map[])

  datatype Move =
    | Commit(n: nat, number: int)
    | ReadPage(w: nat, after: int)    // a new poll with its cursor, or a woken one that reads again
    | GiveUp(w: nat)                  // the deadline of the wait
    | Leave(w: nat)                   // the client has gone, or the run has ended
    | Wait(move: W.Move)

  /** Some committed event lies beyond the cursor. */
  predicate HasPage(events: map<nat, int>, after: int) { exists n :: n in events && events[n] > after }

  /** The poll is out of the wait. */
  function Out(s: W.State, w: nat): W.State { s.(waiters := s.waiters - {w}, missed := s.missed - {w}) }

  /** One turn of the poll's loop: it answers with what it found, or is about to wait. */
  function Read(s: State, w: nat, after: int): State {
    s.(wait := Out(s.wait, w), polls := if HasPage(s.events, after) then s.polls - {w} else s.polls[w := after])
  }

  /** A poll waits only after an empty page; only a committed event is announced. */
  predicate Enabled(s: State, m: W.Move) {
    match m
    case ReadVersion(w) => w in s.polls
    case SetVersion(n, _) => n in s.events
    case _ => true
  }

  function Step(s: State, m: Move): State {
    match m
    case Commit(n, number) => if n in s.events then s else s.(events := s.events[n := number])
    case ReadPage(w, after) =>
      if w !in s.polls then Read(s, w, after)
      else if W.PhaseOf(s.wait, w).Woken? then Read(s, w, s.polls[w])
      else s
    case GiveUp(w) => if w in s.polls then s.(wait := s.wait.(waiters := s.wait.waiters[w := W.Woken])) else s
    case Leave(w) => s.(wait := Out(s.wait, w), polls := s.polls - {w})
    case Wait(move) => if Enabled(s, move) then s.(wait := W.Step(s.wait, move)) else s
  }

  function Execute(s: State, moves: seq<Move>): State
    decreases |moves|
  {
    if moves == [] then s else Execute(Step(s, moves[0]), moves[1..])
  }

  predicate Announced(s: State, n: nat) { n in s.wait.pending || n in s.wait.published }

  /** The event that `n` announces lies beyond the cursor of poll `w`. */
  predicate Beyond(s: State, n: nat, w: nat) { n in s.events && w in s.polls && s.events[n] > s.polls[w] }

  /** An event beyond the poll's cursor has been announced. */
  ghost predicate Owing(s: State, w: nat) { exists n :: Announced(s, n) && Beyond(s, n, w) }

  /** The poll sleeps on a committed event: one beyond its cursor was announced, and no announcement is on
      its way, yet it is blocked with nothing in its inbox. */
  ghost predicate Asleep(s: State, w: nat) {
    w in s.polls && W.PhaseOf(s.wait, w) == W.Blocked(0) && s.wait.pending == {} && Owing(s, w)
  }

  /** A first announcement of a committed event. */
  predicate Announces(s: State, m: Move) {
    m.Wait? && m.move.SetVersion? && m.move.n in s.events && !Announced(s, m.move.n)
  }

  /** The announcement cannot be told from what poll `w` is going to compare it with: the poll has read its
      page but no version yet, or the very version that is set now. */
  predicate Blind(s: State, v: int, w: nat) {
    W.PhaseOf(s.wait, w).Ready? || W.PhaseOf(s.wait, w) == W.FirstRead(Some(v))
  }

  /** The announcement slips past a poll that has something to see. */
  ghost predicate SlipsPast(s: State, m: Move, w: nat) {
    Announces(s, m) && w in s.polls && Blind(s, m.move.v, w) && (Beyond(s, m.move.n, w) || Owing(s, w))
  }

  ghost predicate Slips(s: State, m: Move) { exists w :: SlipsPast(s, m, w) }

  ghost predicate NeverSlips(s: State, moves: seq<Move>)
    decreases |moves|
  {
    moves == [] || (!Slips(s, moves[0]) && NeverSlips(Step(s, moves[0]), moves[1..]))
  }

  /* ---- no slip, no sleep ---- */

  ghost predicate Safe(s: State, w: nat) {
    Owing(s, w) ==>
      match W.PhaseOf(s.wait, w)
      case Ready => false
      case FirstRead(before) => s.wait.version != before
      case Subscribed(before, inbox) => s.wait.version != before || inbox > 0 || s.wait.pending != {}
      case Blocked(inbox) => inbox > 0 || s.wait.pending != {}
      case Woken => true
  }

  ghost predicate AllSafe(s: State) {
    && (forall n :: Announced(s, n) ==> n in s.events)
    && (forall w :: w in s.wait.waiters ==> w in s.polls && !s.wait.waiters[w].Ready?)
    && (forall w :: w in s.polls ==> Safe(s, w))
  }

  lemma CommitSafe(s: State, m: Move)
    requires AllSafe(s) && m.Commit?
    ensures AllSafe(Step(s, m))
  {
    var next := Step(s, m);
    forall w | w in next.polls ensures Safe(next, w) {
      assert Safe(s, w);
      if Owing(next, w) {
        var n :| Announced(next, n) && Beyond(next, n, w);
        assert Announced(s, n) && Beyond(s, n, w);
      }
    }
  }

  /** What one poll does by itself leaves every other poll as it was. */
  lemma OthersSafe(s: State, next: State, w: nat)
    requires AllSafe(s) && next.events == s.events
    requires next.wait.version == s.wait.version && next.wait.pending == s.wait.pending
    requires next.wait.published == s.wait.published
    requires forall x :: x != w
               ==> (x in next.polls <==> x in s.polls) && (x in s.polls ==> next.polls[x] == s.polls[x])
    requires forall x :: x != w ==> W.PhaseOf(next.wait, x) == W.PhaseOf(s.wait, x)
    ensures forall x :: x != w && x in next.polls ==> Safe(next, x)
  {
    forall x | x != w && x in next.polls ensures Safe(next, x) {
      assert Safe(s, x);
      if Owing(next, x) {
        var n :| Announced(next, n) && Beyond(next, n, x);
        assert Announced(s, n) && Beyond(s, n, x);
      }
    }
  }

  lemma ReadSafe(s: State, w: nat, after: int)
    requires AllSafe(s)
    ensures AllSafe(Read(s, w, after))
  {
    var next := Read(s, w, after);
    OthersSafe(s, next, w);
    assert w in next.polls ==> !HasPage(s.events, after) && next.polls[w] == after;
  }

  lemma OutSafe(s: State, m: Move)
    requires AllSafe(s) && (m.GiveUp? || m.Leave?)
    ensures AllSafe(Step(s, m))
  {
    OthersSafe(s, Step(s, m), m.w);
  }

  /** The four steps of a wait. */
  predicate Waits(m: W.Move) { m.ReadVersion? || m.Subscribe? || m.ReadAgain? || m.TakeMessage? }

  lemma WaiterMoves(s: W.State, m: W.Move)
    requires Waits(m)
    ensures var next := W.Step(s, m);
            && next.version == s.version && next.pending == s.pending && next.published == s.published
            && (forall x :: x != m.w ==> W.PhaseOf(next, x) == W.PhaseOf(s, x))
            && (forall x :: x in next.waiters ==> x in s.waiters || (m.ReadVersion? && x == m.w))
  {
  }

  lemma WaiterSafe(s: State, m: Move)
    requires AllSafe(s) && m.Wait? && Waits(m.move)
    ensures AllSafe(Step(s, m))
  {
    var next := Step(s, m);
    WaiterMoves(s.wait, m.move);
    OthersSafe(s, next, m.move.w);
    var w := m.move.w;
    if w in next.polls {
      assert Safe(s, w);
      if Owing(next, w) {
        var n :| Announced(next, n) && Beyond(next, n, w);
        assert Announced(s, n) && Beyond(s, n, w);
      }
    }
  }

  lemma PublishSafe(s: State, n: nat)
    requires AllSafe(s)
    ensures AllSafe(Step(s, Wait(W.Publish(n))))
  {
    var next := Step(s, Wait(W.Publish(n)));
    forall w | w in next.polls ensures Safe(next, w) {
      assert Safe(s, w);
      if Owing(next, w) {
        var k :| Announced(next, k) && Beyond(next, k, w);
        assert Announced(s, k) && Beyond(s, k, w);
      }
    }
  }

  lemma AnnounceSafe(s: State, n: nat, v: int)
    requires AllSafe(s) && !Slips(s, Wait(W.SetVersion(n, v)))
    ensures AllSafe(Step(s, Wait(W.SetVersion(n, v))))
  {
    var m := Wait(W.SetVersion(n, v));
    var next := Step(s, m);
    if Announces(s, m) {
      forall w | w in next.polls ensures Safe(next, w) {
        assert Safe(s, w) && !SlipsPast(s, m, w);
        if Owing(next, w) {
          var k :| Announced(next, k) && Beyond(next, k, w);
          assert k == n || Announced(s, k);
          assert Beyond(s, k, w);
          assert W.PhaseOf(next.wait, w) == W.PhaseOf(s.wait, w) && n in next.wait.pending;
        }
      }
    }
  }

  lemma StepSafe(s: State, m: Move)
    requires AllSafe(s) && !Slips(s, m)
    ensures AllSafe(Step(s, m))
  {
    match m
    case Commit(_, _) => CommitSafe(s, m);
    case ReadPage(w, after) =>
      if w !in s.polls { ReadSafe(s, w, after); } else { ReadSafe(s, w, s.polls[w]); }
    case GiveUp(_) => OutSafe(s, m);
    case Leave(_) => OutSafe(s, m);
    case Wait(move) =>
      match move {
        case SetVersion(n, v) => AnnounceSafe(s, n, v);
        case Publish(n) => PublishSafe(s, n);
        case _ => WaiterSafe(s, m);
      }
  }

  lemma {:induction false} SlipFree(s: State, moves: seq<Move>)
    requires AllSafe(s) && NeverSlips(s, moves)
    ensures AllSafe(Execute(s, moves))
    decreases |moves|
  {
    if moves != [] {
      StepSafe(s, moves[0]);
      SlipFree(Step(s, moves[0]), moves[1..]);
    }
  }

  /* ---- a slip can end in sleep ---- */

  /** A continuation in which nothing more is announced. */
  predicate Quiet(moves: seq<Move>) { forall i :: 0 <= i < |moves| ==> !(moves[i].Wait? && moves[i].move.SetVersion?) }

  lemma {:induction false} QuietNeverSlips(s: State, moves: seq<Move>)
    requires Quiet(moves)
    ensures NeverSlips(s, moves)
    decreases |moves|
  {
    if moves != [] { QuietNeverSlips(Step(s, moves[0]), moves[1..]); }
  }

  lemma {:induction false} ExecuteSplit(s: State, xs: seq<Move>, ys: seq<Move>)
    ensures Execute(s, xs + ys) == Execute(Execute(s, xs), ys)
    ensures NeverSlips(s, xs + ys) <==> NeverSlips(s, xs) && NeverSlips(Execute(s, xs), ys)
    decreases |xs|
  {
    if xs == [] {
      assert xs + ys == ys;
    } else {
      assert (xs + ys)[1..] == xs[1..] + ys;
      ExecuteSplit(Step(s, xs[0]), xs[1..], ys);
    }
  }

  lemma One(s: State, m: Move)
    ensures Execute(s, [m]) == Step(s, m)
  {
    assert [m][1..] == [];
    assert Execute(s, [m]) == Execute(Step(s, m), []);
  }

  /** The poll has not subscribed and will find the version it is going to compare with. */
  ghost predicate Doomed(s: State, w: nat) {
    && w in s.polls && Owing(s, w)
    && (W.PhaseOf(s.wait, w).Ready? || W.PhaseOf(s.wait, w) == W.FirstRead(s.wait.version))
  }

  lemma {:induction false} PublishAll(s: State, w: nat) returns (moves: seq<Move>)
    requires Doomed(s, w)
    ensures Quiet(moves) && Doomed(Execute(s, moves), w) && Execute(s, moves).wait.pending == {}
    decreases s.wait.pending
  {
    if s.wait.pending == {} {
      moves := [];
    } else {
      var n :| n in s.wait.pending;
      var next := Step(s, Wait(W.Publish(n)));
      assert next.wait.pending < s.wait.pending;
      var k :| Announced(s, k) && Beyond(s, k, w);
      assert Announced(next, k) && Beyond(next, k, w);
      var rest := PublishAll(next, w);
      moves := [Wait(W.Publish(n))] + rest;
      assert moves[1..] == rest;
    }
  }

  /** With nothing on its way any more, a doomed poll subscribes, finds no change and blocks. */
  lemma DoomedSleeps(s: State, w: nat) returns (moves: seq<Move>)
    requires Doomed(s, w) && s.wait.pending == {}
    ensures Quiet(moves) && Asleep(Execute(s, moves), w)
  {
    var read := Wait(W.ReadVersion(w));
    var subscribe := Wait(W.Subscribe(w));
    var again := Wait(W.ReadAgain(w));
    var s1 := Step(s, read);
    var s2 := Step(s1, subscribe);
    var s3 := Step(s2, again);
    assert W.PhaseOf(s1.wait, w) == W.FirstRead(s.wait.version);
    assert W.PhaseOf(s2.wait, w) == W.Subscribed(s.wait.version, 0);
    assert W.PhaseOf(s3.wait, w) == W.Blocked(0);
    var k :| Announced(s, k) && Beyond(s, k, w);
    assert Announced(s3, k) && Beyond(s3, k, w);
    moves := [read] + ([subscribe] + [again]);
    One(s, read);
    One(s1, subscribe);
    One(s2, again);
    ExecuteSplit(s1, [subscribe], [again]);
    ExecuteSplit(s, [read], [subscribe] + [again]);
  }

  lemma SlipDooms(s: State, m: Move, w: nat)
    requires SlipsPast(s, m, w)
    ensures Doomed(Step(s, m), w)
  {
    var next := Step(s, m);
    if Beyond(s, m.move.n, w) {
      assert Announced(next, m.move.n) && Beyond(next, m.move.n, w);
    } else {
      var k :| Announced(s, k) && Beyond(s, k, w);
      assert Announced(next, k) && Beyond(next, k, w);
    }
  }

  lemma SlipSleeps(s: State, m: Move, w: nat) returns (moves: seq<Move>)
    requires SlipsPast(s, m, w)
    ensures Quiet(moves) && Asleep(Execute(Step(s, m), moves), w)
  {
    SlipDooms(s, m, w);
    var publish := PublishAll(Step(s, m), w);
    var rest := DoomedSleeps(Execute(Step(s, m), publish), w);
    moves := publish + rest;
    ExecuteSplit(Step(s, m), publish, rest);
  }

  lemma {:induction false} FirstSlip(s: State, moves: seq<Move>) returns (k: nat)
    requires !NeverSlips(s, moves)
    ensures k < |moves| && Slips(Execute(s, moves[..k]), moves[k])
    decreases |moves|
  {
    if Slips(s, moves[0]) {
      k := 0;
      assert moves[..0] == [];
    } else {
      var j := FirstSlip(Step(s, moves[0]), moves[1..]);
      k := j + 1;
      assert moves[..k][1..] == moves[1..][..j] && moves[..k][0] == moves[0];
    }
  }

  /** After some of `moves` and then without another announcement, poll `w` sleeps on a committed event. */
  ghost predicate Sleeps(moves: seq<Move>, k: nat, more: seq<Move>, w: nat) {
    k <= |moves| && Quiet(more) && Asleep(Execute(Execute(INIT, moves[..k]), more), w)
  }

  lemma NeverSleeps(moves: seq<Move>, k: nat, more: seq<Move>, w: nat)
    requires NeverSlips(INIT, moves)
    ensures !Sleeps(moves, k, more, w)
  {
    if k <= |moves| && Quiet(more) {
      assert moves == moves[..k] + moves[k..];
      ExecuteSplit(INIT, moves[..k], moves[k..]);
      SlipFree(INIT, moves[..k]);
      var s := Execute(INIT, moves[..k]);
      QuietNeverSlips(s, more);
      SlipFree(s, more);
      assert w in Execute(s, more).polls ==> Safe(Execute(s, more), w);
    }
  }

  /** Exactly when a poll can sleep on a committed event: along a trace some poll can end up blocked although
      an event beyond its cursor was announced and no announcement is on its way, if and only if somewhere in
      the trace an announcement slips past a poll that has read its page and not yet subscribed. */
  lemma SleepsExact(moves: seq<Move>)
    ensures (exists k, more, w :: Sleeps(moves, k, more, w)) <==> !NeverSlips(INIT, moves)
  {
    if NeverSlips(INIT, moves) {
      forall k: nat, more, w: nat ensures !Sleeps(moves, k, more, w) { NeverSleeps(moves, k, more, w); }
    } else {
      var k := FirstSlip(INIT, moves);
      var s := Execute(INIT, moves[..k]);
      var w :| SlipsPast(s, moves[k], w);
      var more := SlipSleeps(s, moves[k], w);
      assert moves[..k + 1] == moves[..k] + [moves[k]];
      ExecuteSplit(INIT, moves[..k], [moves[k]]);
      One(s, moves[k]);
      assert Sleeps(moves, k + 1, more, w);
    }
  }

  /* ---- with versions of their own ---- */

  /** Every announcement sets a version that was never set before. */
  predicate FreshVersions(s: State, moves: seq<Move>)
    decreases |moves|
  {
    moves == [] || ((Announces(s, moves[0]) ==> moves[0].move.v !in s.wait.used)
                    && FreshVersions(Step(s, moves[0]), moves[1..]))
  }

  /** The event is announced after a poll read its page and before it reads its first version. */
  predicate Between(s: State, m: Move) {
    Announces(s, m) && exists w :: w in s.polls && W.PhaseOf(s.wait, w).Ready? && Beyond(s, m.move.n, w)
  }

  predicate NeverBetween(s: State, moves: seq<Move>)
    decreases |moves|
  {
    moves == [] || (!Between(s, moves[0]) && NeverBetween(Step(s, moves[0]), moves[1..]))
  }

  /** A version that was read has been set. */
  ghost predicate ReadWasSet(s: State) {
    && (s.wait.version.Some? ==> s.wait.version.value in s.wait.used)
    && forall w :: w in s.wait.waiters && s.wait.waiters[w].FirstRead? && s.wait.waiters[w].before.Some?
         ==> s.wait.waiters[w].before.value in s.wait.used
  }

  lemma ReadWasSetStep(s: State, m: Move)
    requires ReadWasSet(s)
    ensures ReadWasSet(Step(s, m))
  {
  }

  lemma FreshSlip(s: State, m: Move)
    requires AllSafe(s) && ReadWasSet(s) && (Announces(s, m) ==> m.move.v !in s.wait.used)
    ensures Slips(s, m) <==> Between(s, m)
  {
    if Slips(s, m) {
      var w :| SlipsPast(s, m, w);
      assert Safe(s, w);
    }
    if Between(s, m) {
      var w :| w in s.polls && W.PhaseOf(s.wait, w).Ready? && Beyond(s, m.move.n, w);
      assert SlipsPast(s, m, w);
    }
  }

  lemma {:induction false} FreshSlips(s: State, moves: seq<Move>)
    requires AllSafe(s) && ReadWasSet(s) && FreshVersions(s, moves)
    ensures NeverSlips(s, moves) <==> NeverBetween(s, moves)
    decreases |moves|
  {
    if moves != [] {
      FreshSlip(s, moves[0]);
      if !Slips(s, moves[0]) {
        StepSafe(s, moves[0]);
        ReadWasSetStep(s, moves[0]);
        FreshSlips(Step(s, moves[0]), moves[1..]);
      }
    }
  }

  /** With versions of their own, a poll can sleep on a committed event if and only if one beyond its cursor
      is announced between its page and its first read of the version. */
  lemma FreshSleepsExact(moves: seq<Move>)
    requires FreshVersions(INIT, moves)
    ensures (exists k, more, w :: Sleeps(moves, k, more, w)) <==> !NeverBetween(INIT, moves)
  {
    FreshSlips(INIT, moves);
    SleepsExact(moves);
  }

  const PAGE := ReadPage(0, 4)
  const EVENT := Commit(1, 5)
  const ANNOUNCE := Wait(W.SetVersion(1, 7))

  lemma AnnouncedBetween(s: State)
    requires s == Step(Step(INIT, PAGE), EVENT)
    ensures Between(s, ANNOUNCE) && ANNOUNCE.move.v !in s.wait.used
  {
    assert s.polls == map[0 := 4] && s.events == map[1 := 5];
    assert Beyond(s, 1, 0);
  }

  lemma LastBetween(s: State, m: Move)
    requires Between(s, m) && m.move.v !in s.wait.used
    ensures FreshVersions(s, [m]) && !NeverBetween(s, [m])
  {
    assert [m][1..] == [];
  }

  /** Such a trace, with a version of its own: event 5 is committed and announced right after a poll from 4
      has read its page. */
  lemma AnnouncedBetweenSleeps()
    ensures FreshVersions(INIT, [PAGE, EVENT, ANNOUNCE])
    ensures exists k, more, w :: Sleeps([PAGE, EVENT, ANNOUNCE], k, more, w)
  {
    var s1 := Step(INIT, PAGE);
    var s2 := Step(s1, EVENT);
    AnnouncedBetween(s2);
    LastBetween(s2, ANNOUNCE);
    assert [EVENT, ANNOUNCE][1..] == [ANNOUNCE];
    assert FreshVersions(s1, [EVENT, ANNOUNCE]) && !NeverBetween(s1, [EVENT, ANNOUNCE]);
    assert [PAGE, EVENT, ANNOUNCE][1..] == [EVENT, ANNOUNCE];
    FreshSleepsExact([PAGE, EVENT, ANNOUNCE]);
  }

  /** A sleeping poll is late, not wrong: when its deadline passes, its last page holds the event. */
  lemma DeadlineAnswers(s: State, w: nat, after: int)
    requires Asleep(s, w)
    ensures HasPage(s.events, s.polls[w]) && w !in Step(Step(s, GiveUp(w)), ReadPage(w, after)).polls
  {
    var n :| Announced(s, n) && Beyond(s, n, w);
    assert HasPage(s.events, s.polls[w]);
  }
}
