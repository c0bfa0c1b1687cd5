/** The run table under import. Importing the same finished turns twice is the same as importing
    them once exactly when no two turns collide on one row; `Collides` says when they do. */
module RunTable {
  import opened RuntimeTypes
  import opened RuntimeStore
  import opened Bootstrap
  import opened StoreInvariant
  import opened TurnImport

  datatype AnyImport = Import(thread: Thread, turn: Turn, session: string)

  /** A finished turn, on its way into a session. */
  type Import = x: AnyImport | TerminalTurn(x.turn.status)
    witness Import(Thread("", "", "", 0, 0, []), Turn("", "completed", None, None, "", []), "")

  function IdOf(x: Import): string { "run_" + x.turn.id }

  function StatusOf(x: Import): Status { ImportedStatus(x.turn.status).value }

  ghost function Target(runs: map<string, Run>, x: Import): Option<string> { TargetRun(runs, IdOf(x), x.turn.id) }

  ghost predicate Matches(run: Run, x: Import) { !Changed(run, RunOf(x.thread, x.turn), x.session, StatusOf(x)) }

  /** The store would rewrite or insert a row for `x`. */
  ghost predicate Needs(runs: map<string, Run>, x: Import) {
    var t := Target(runs, x);
    t.None? || (t.value in runs && !Matches(runs[t.value], x))
  }

  function RowsOf(es: seq<BatchEvent>): map<int, RunEvent> { if EventRows(es).Ok? then EventRows(es).value else map[] }

  function Written(prior: Option<Run>, x: Import): Run {
    ImportedRow(prior, RunOf(x.thread, x.turn), x.session, StatusOf(x), RowsOf(TurnEvents(x.thread, x.turn)))
  }

  ghost function Slot(runs: map<string, Run>, x: Import): string {
    if Target(runs, x).Some? then Target(runs, x).value else IdOf(x)
  }

  ghost function Write(runs: map<string, Run>, x: Import): map<string, Run> {
    if Needs(runs, x)
    then runs[Slot(runs, x) := Written(if Slot(runs, x) in runs then Some(runs[Slot(runs, x)]) else None, x)]
    else runs
  }

  ghost function Pass(runs: map<string, Run>, xs: seq<Import>): map<string, Run>
    decreases |xs|
  {
    if xs == [] then runs else Pass(Write(runs, xs[0]), xs[1..])
  }

  /** The unique index on turns accepts the row. */
  ghost predicate Fits(runs: map<string, Run>, x: Import) {
    Needs(runs, x) && x.turn.id != "" ==> !TurnClash(runs, Slot(runs, x), x.turn.id)
  }

  ghost predicate AllFit(runs: map<string, Run>, xs: seq<Import>)
    decreases |xs|
  {
    xs == [] || (Fits(runs, xs[0]) && AllFit(Write(runs, xs[0]), xs[1..]))
  }

  ghost predicate DistinctTurns(xs: seq<Import>) {
    forall i, j :: 0 <= i < j < |xs| ==> xs[i].turn.id != xs[j].turn.id
  }

  /** `x`, imported before `y`, lands on a row that `y` will then take over: a row named after `y`
      that holds turn x, or a row named after `x` that holds turn y and already has the contents of `x`. */
  ghost predicate Collides(runs: map<string, Run>, x: Import, y: Import) {
    || HeldUnder(runs, IdOf(y), x)
    || (HeldUnder(runs, IdOf(x), y) && Matches(runs[IdOf(x)], x))
  }

  /** Turn x has no row of its own name and is held by row `t`. */
  ghost predicate HeldUnder(runs: map<string, Run>, t: string, x: Import) {
    IdOf(x) !in runs && x.turn.id != "" && HoldsTurn(runs, t, x.turn.id)
  }

  ghost predicate NoCollision(runs: map<string, Run>, xs: seq<Import>) {
    forall i, j :: 0 <= i < j < |xs| ==> !Collides(runs, xs[i], xs[j])
  }

  /* ---- contents ---- */

  lemma RowsMatch(es: seq<BatchEvent>)
    requires Numbered(es)
    ensures EventRows(es).Ok? && EventsMatch(EventRows(es).value, es)
  {
    NumberedRows(es);
    EventRowsContents(es);
    var m := EventRows(es).value;
    forall i | 0 <= i < |es| ensures SameEvent(m[es[i].sequence], es[i].event) {
      MicroTwice(Some(es[i].event.occurredAt));
    }
  }

  lemma MicroTwice(t: Option<Time>)
    ensures MicroOption(MicroOption(t)) == MicroOption(t)
  {
  }

  lemma MatchesWritten(prior: Option<Run>, x: Import)
    ensures Matches(Written(prior, x), x)
    ensures EventRows(TurnEvents(x.thread, x.turn)).Ok?
  {
    TurnEventsShape(x.thread, x.turn);
    RowsMatch(TurnEvents(x.thread, x.turn));
    MicroTwice(RunOf(x.thread, x.turn).startedAt);
    MicroTwice(RunOf(x.thread, x.turn).finishedAt);
  }

  /** The closing event names its turn, so no row matches two turns. */
  lemma MatchesOnlyOne(run: Run, x: Import, y: Import)
    requires x.turn.id != y.turn.id && Matches(run, x)
    ensures !Matches(run, y)
  {
    var n, m := |x.turn.items|, |y.turn.items|;
    TurnEventsShape(x.thread, x.turn);
    TurnEventsShape(y.thread, y.turn);
    if n == m {
      assert SameEvent(run.events[TurnEvents(x.thread, x.turn)[n].sequence], TurnEvents(x.thread, x.turn)[n].event);
      assert TurnOf(run.events[n + 1].payload) == x.turn.id;
      assert TurnOf(TurnEvents(y.thread, y.turn)[n].event.payload) == y.turn.id;
    }
  }

  lemma DistinctIds(x: Import, y: Import)
    requires x.turn.id != y.turn.id
    ensures IdOf(x) != IdOf(y)
  {
    assert IdOf(x)[4..] == x.turn.id && IdOf(y)[4..] == y.turn.id;
  }

  /* ---- one write ---- */

  lemma TargetCases(runs: map<string, Run>, x: Import)
    ensures match Target(runs, x)
            case Some(t) =>
              t in runs && (t == IdOf(x) || (IdOf(x) !in runs && x.turn.id != "" && HoldsTurn(runs, t, x.turn.id)))
            case None => IdOf(x) !in runs && (x.turn.id == "" || forall t :: !HoldsTurn(runs, t, x.turn.id))
  {
  }

  lemma TargetIs(runs: map<string, Run>, x: Import, t: string)
    requires UniqueTurns(runs)
    requires t in runs && (t == IdOf(x) || (IdOf(x) !in runs && x.turn.id != "" && HoldsTurn(runs, t, x.turn.id)))
    ensures Target(runs, x) == Some(t)
  {
  }

  /** What a write does to the table, without its contents. */
  lemma WriteShape(runs: map<string, Run>, x: Import)
    requires UniqueTurns(runs) && Fits(runs, x)
    ensures var next, t := Write(runs, x), Slot(runs, x);
            && UniqueTurns(next)
            && next.Keys == runs.Keys + {t} && t in next
            && (forall r :: r in runs && r != t ==> next[r] == runs[r])
            && (if Needs(runs, x) then next[t].turnId == TurnIdOf(x.turn.id) else next == runs)
            && Matches(next[t], x)
  {
    var t := Slot(runs, x);
    TargetCases(runs, x);
    if Needs(runs, x) {
      var prior := if t in runs then Some(runs[t]) else None;
      MatchesWritten(prior, x);
      WrittenTurn(prior, x);
      PutShape(runs, t, Written(prior, x), x.turn.id);
    }
  }

  lemma PutShape(runs: map<string, Run>, t: string, row: Run, turn: string)
    requires UniqueTurns(runs) && row.turnId == TurnIdOf(turn) && (turn != "" ==> !TurnClash(runs, t, turn))
    ensures var next := runs[t := row];
            && UniqueTurns(next) && next.Keys == runs.Keys + {t} && next[t] == row
            && (forall r :: r in runs && r != t ==> next[r] == runs[r])
  {
    PutUnique(runs, t, row, turn);
  }

  lemma PutUnique(runs: map<string, Run>, t: string, row: Run, turn: string)
    requires UniqueTurns(runs) && row.turnId == TurnIdOf(turn) && (turn != "" ==> !TurnClash(runs, t, turn))
    ensures UniqueTurns(runs[t := row])
  {
    var next := runs[t := row];
    forall a, b, u | HoldsTurn(next, a, u) && HoldsTurn(next, b, u) ensures a == b {
      if a != t && b != t { assert HoldsTurn(runs, a, u) && HoldsTurn(runs, b, u); }
      else if a != b { assert HoldsTurn(runs, if a == t then b else a, u); }
    }
  }

  lemma OwnTarget(runs: map<string, Run>, x: Import)
    requires UniqueTurns(runs) && Fits(runs, x)
    ensures Target(Write(runs, x), x) == Some(Slot(runs, x)) && !Needs(Write(runs, x), x)
  {
    WriteShape(runs, x);
    TargetCases(runs, x);
    TargetIs(Write(runs, x), x, Slot(runs, x));
  }

  /** Writing another turn leaves a target alone, or takes its row away from it. */
  lemma OtherTarget(runs: map<string, Run>, y: Import, x: Import)
    requires UniqueTurns(runs) && Fits(runs, y) && x.turn.id != y.turn.id
    ensures var next := Write(runs, y);
            || Target(next, x) == Target(runs, x)
            || (Target(runs, x) == Some(Slot(runs, y)) && Needs(runs, y) && Target(next, x).None?)
  {
    var next, t := Write(runs, y), Slot(runs, y);
    WriteShape(runs, y);
    DistinctIds(x, y);
    TargetCases(runs, x);
    TargetCases(runs, y);
    TargetCases(next, x);
    if Target(next, x).Some? {
      assert HoldsTurn(next, Target(next, x).value, x.turn.id) ==> HoldsTurn(runs, Target(next, x).value, x.turn.id);
    }
    if Target(runs, x).Some? && Target(runs, x) != Some(t) { TargetIs(next, x, Target(runs, x).value); }
  }

  /** A turn that still has to be imported is not helped by another one. */
  lemma NeedStays(runs: map<string, Run>, y: Import, x: Import)
    requires UniqueTurns(runs) && Fits(runs, y) && x.turn.id != y.turn.id && Needs(runs, x)
    ensures Needs(Write(runs, y), x)
  {
    WriteShape(runs, y);
    OtherTarget(runs, y, x);
    TargetCases(runs, x);
    NeedStaysAt(runs, Write(runs, y), Slot(runs, y), y, x);
  }

  lemma NeedStaysAt(runs: map<string, Run>, next: map<string, Run>, slot: string, y: Import, x: Import)
    requires Needs(runs, x) && x.turn.id != y.turn.id && (Target(next, x) == Target(runs, x) || Target(next, x).None?)
    requires slot in next && Matches(next[slot], y)
    requires forall r :: r in runs && r != slot ==> r in next && next[r] == runs[r]
    requires Target(runs, x).Some? ==> Target(runs, x).value in runs
    ensures Needs(next, x)
  {
    if Target(runs, x) == Some(slot) { MatchesOnlyOne(next[slot], y, x); }
  }

  /** An imported turn stays imported when another row is written. */
  lemma SettledStays(runs: map<string, Run>, y: Import, x: Import)
    requires UniqueTurns(runs) && Fits(runs, y) && x.turn.id != y.turn.id
    requires !Needs(runs, x) && Target(runs, y) != Target(runs, x)
    ensures !Needs(Write(runs, y), x) && Target(Write(runs, y), x) == Target(runs, x)
  {
    WriteShape(runs, y);
    OtherTarget(runs, y, x);
    TargetCases(runs, x);
    TargetCases(runs, y);
  }

  /** Two turns with one target: importing the second undoes the first. */
  lemma TakenOver(runs: map<string, Run>, x: Import, y: Import)
    requires UniqueTurns(runs) && Fits(runs, y) && x.turn.id != y.turn.id
    requires !Needs(runs, x) && Target(runs, y) == Target(runs, x)
    ensures Needs(Write(runs, y), x)
  {
    TargetCases(runs, x);
    var t := Target(runs, x).value;
    MatchesOnlyOne(runs[t], x, y);
    WriteShape(runs, y);
    MatchesOnlyOne(Write(runs, y)[t], y, x);
    OtherTarget(runs, y, x);
    TargetCases(Write(runs, y), x);
  }

  /** `Collides` is exactly sharing a target once the first turn is in. */
  lemma CollidesExact(runs: map<string, Run>, x: Import, y: Import)
    requires UniqueTurns(runs) && Fits(runs, x) && x.turn.id != y.turn.id
    ensures Collides(runs, x, y) <==> Target(Write(runs, x), y) == Target(Write(runs, x), x)
  {
    var next := Write(runs, x);
    WriteShape(runs, x);
    OwnTarget(runs, x);
    DistinctIds(x, y);
    TargetCases(runs, x);
    TargetCases(next, y);
    if Collides(runs, x, y) {
      if HeldUnder(runs, IdOf(y), x) {
        TargetIs(runs, x, IdOf(y));
      } else {
        TargetIs(runs, x, IdOf(x));
        TargetIs(runs, y, IdOf(x));
      }
    }
  }

  lemma WrittenTurn(prior: Option<Run>, z: Import)
    ensures Written(prior, z).turnId == TurnIdOf(z.turn.id)
  {
  }

  /** Writing a turn never makes a row hold another one. */
  lemma HeldBefore(runs: map<string, Run>, z: Import, x: Import, t: string)
    requires z.turn.id != x.turn.id
    ensures HeldUnder(Write(runs, z), t, x) ==> HeldUnder(runs, t, x) && Write(runs, z)[t] == runs[t]
  {
    var slot := Slot(runs, z);
    WrittenTurn(if slot in runs then Some(runs[slot]) else None, z);
  }

  /** A row named after `y` that holds turn x is not where a third turn goes. */
  lemma HeldElsewhere(runs: map<string, Run>, z: Import, x: Import, y: Import)
    requires x.turn.id != y.turn.id && z.turn.id != x.turn.id && z.turn.id != y.turn.id && HeldUnder(runs, IdOf(y), x)
    ensures IdOf(y) != Slot(runs, z)
  {
    DistinctIds(z, y);
    TargetCases(runs, z);
  }

  lemma HeldKept(runs: map<string, Run>, z: Import, x: Import, y: Import)
    requires x.turn.id != y.turn.id && z.turn.id != x.turn.id && z.turn.id != y.turn.id && HeldUnder(runs, IdOf(y), x)
    ensures HeldUnder(Write(runs, z), IdOf(y), x) && Write(runs, z)[IdOf(y)] == runs[IdOf(y)]
  {
    HeldElsewhere(runs, z, x, y);
    DistinctIds(z, x);
    TargetCases(runs, z);
    assert IdOf(x) != Slot(runs, z);
  }

  /** Writing a third turn neither makes nor resolves a collision. */
  lemma CollidesStable(runs: map<string, Run>, z: Import, x: Import, y: Import)
    requires x.turn.id != y.turn.id && z.turn.id != x.turn.id && z.turn.id != y.turn.id
    ensures Collides(Write(runs, z), x, y) <==> Collides(runs, x, y)
  {
    if HeldUnder(runs, IdOf(y), x) { HeldKept(runs, z, x, y); }
    if HeldUnder(runs, IdOf(x), y) { HeldKept(runs, z, y, x); }
    HeldBefore(runs, z, x, IdOf(y));
    HeldBefore(runs, z, y, IdOf(x));
  }

  /** A row has one name and holds one turn: three turns never share a target. */
  lemma NoThree(runs: map<string, Run>, x: Import, y: Import, z: Import)
    requires UniqueTurns(runs) && Target(runs, x).Some? && Target(runs, x) == Target(runs, y)
    requires x.turn.id != y.turn.id && z.turn.id != x.turn.id && z.turn.id != y.turn.id
    ensures Target(runs, z) != Target(runs, x)
  {
    TargetCases(runs, x);
    TargetCases(runs, y);
    TargetCases(runs, z);
    DistinctIds(x, y);
    DistinctIds(z, x);
    DistinctIds(z, y);
  }

  /* ---- a whole pass ---- */

  ghost predicate OtherTurns(x: Import, ys: seq<Import>) { forall i :: 0 <= i < |ys| ==> ys[i].turn.id != x.turn.id }

  lemma {:induction false} SettledThrough(runs: map<string, Run>, x: Import, ys: seq<Import>)
    requires UniqueTurns(runs) && AllFit(runs, ys) && DistinctTurns(ys) && OtherTurns(x, ys)
    requires !Needs(runs, x) && forall i :: 0 <= i < |ys| ==> Target(runs, ys[i]) != Target(runs, x)
    ensures !Needs(Pass(runs, ys), x)
    decreases |ys|
  {
    if ys != [] {
      WriteShape(runs, ys[0]);
      SettledStays(runs, ys[0], x);
      forall i | 0 <= i < |ys[1..]| ensures Target(Write(runs, ys[0]), ys[1..][i]) != Target(runs, x) {
        OtherTarget(runs, ys[0], ys[i + 1]);
      }
      SettledThrough(Write(runs, ys[0]), x, ys[1..]);
    }
  }

  lemma {:induction false} NeedThrough(runs: map<string, Run>, x: Import, ys: seq<Import>)
    requires UniqueTurns(runs) && AllFit(runs, ys) && OtherTurns(x, ys) && Needs(runs, x)
    ensures Needs(Pass(runs, ys), x)
    decreases |ys|
  {
    if ys != [] {
      WriteShape(runs, ys[0]);
      NeedStays(runs, ys[0], x);
      NeedThrough(Write(runs, ys[0]), x, ys[1..]);
    }
  }

  lemma {:induction false} TakenOverThrough(runs: map<string, Run>, x: Import, ys: seq<Import>, k: nat)
    requires UniqueTurns(runs) && AllFit(runs, ys) && DistinctTurns(ys) && OtherTurns(x, ys) && k < |ys|
    requires !Needs(runs, x) && Target(runs, ys[k]) == Target(runs, x)
    ensures Needs(Pass(runs, ys), x)
    decreases |ys|
  {
    WriteUnique(runs, ys[0]);
    TailTurns(x, ys);
    if k == 0 {
      TakenOver(runs, x, ys[0]);
      NeedThrough(Write(runs, ys[0]), x, ys[1..]);
    } else {
      StillShared(runs, ys[0], x, ys[k]);
      assert ys[1..][k - 1] == ys[k];
      TakenOverThrough(Write(runs, ys[0]), x, ys[1..], k - 1);
    }
  }

  lemma WriteUnique(runs: map<string, Run>, x: Import)
    requires UniqueTurns(runs) && Fits(runs, x)
    ensures UniqueTurns(Write(runs, x))
  {
    WriteShape(runs, x);
  }

  lemma TailTurns(x: Import, ys: seq<Import>)
    requires ys != [] && DistinctTurns(ys) && OtherTurns(x, ys)
    ensures DistinctTurns(ys[1..]) && OtherTurns(x, ys[1..])
  {
  }

  /** Writing a third turn leaves two turns on their common row. */
  lemma StillShared(runs: map<string, Run>, z: Import, x: Import, y: Import)
    requires UniqueTurns(runs) && Fits(runs, z) && !Needs(runs, x) && Target(runs, y) == Target(runs, x)
    requires x.turn.id != y.turn.id && z.turn.id != x.turn.id && z.turn.id != y.turn.id
    ensures !Needs(Write(runs, z), x) && Target(Write(runs, z), y) == Target(Write(runs, z), x)
  {
    TargetCases(runs, x);
    NoThree(runs, x, y, z);
    SettledStays(runs, z, x);
    TargetCases(runs, z);
    OtherTarget(runs, z, y);
  }

  lemma NoCollisionRest(runs: map<string, Run>, xs: seq<Import>)
    requires xs != [] && UniqueTurns(runs) && Fits(runs, xs[0]) && DistinctTurns(xs) && NoCollision(runs, xs)
    ensures NoCollision(Write(runs, xs[0]), xs[1..])
  {
    var rest := xs[1..];
    forall i, j | 0 <= i < j < |rest| ensures !Collides(Write(runs, xs[0]), rest[i], rest[j]) {
      CollidesStable(runs, xs[0], xs[i + 1], xs[j + 1]);
    }
  }

  lemma HeadSettles(runs: map<string, Run>, xs: seq<Import>)
    requires xs != [] && UniqueTurns(runs) && AllFit(runs, xs) && DistinctTurns(xs) && NoCollision(runs, xs)
    ensures !Needs(Pass(runs, xs), xs[0])
  {
    var next, rest := Write(runs, xs[0]), xs[1..];
    WriteShape(runs, xs[0]);
    OwnTarget(runs, xs[0]);
    forall i | 0 <= i < |rest| ensures Target(next, rest[i]) != Target(next, xs[0]) {
      assert !Collides(runs, xs[0], xs[i + 1]);
      CollidesExact(runs, xs[0], xs[i + 1]);
    }
    SettledThrough(next, xs[0], rest);
  }

  /** After a pass without collisions every turn is in place. */
  lemma {:induction false} PassSettles(runs: map<string, Run>, xs: seq<Import>, k: nat)
    requires UniqueTurns(runs) && AllFit(runs, xs) && DistinctTurns(xs) && NoCollision(runs, xs) && k < |xs|
    ensures !Needs(Pass(runs, xs), xs[k])
    decreases |xs|
  {
    if k == 0 {
      HeadSettles(runs, xs);
    } else {
      WriteShape(runs, xs[0]);
      NoCollisionRest(runs, xs);
      PassSettles(Write(runs, xs[0]), xs[1..], k - 1);
    }
  }

  lemma HeadUnsettles(runs: map<string, Run>, xs: seq<Import>, j: nat)
    requires 0 < j < |xs| && UniqueTurns(runs) && AllFit(runs, xs) && DistinctTurns(xs) && Collides(runs, xs[0], xs[j])
    ensures Needs(Pass(runs, xs), xs[0])
  {
    var rest := xs[1..];
    assert OtherTurns(xs[0], rest) && DistinctTurns(rest) && rest[j - 1] == xs[j];
    SharesTarget(runs, xs[0], xs[j]);
    TakenOverThrough(Write(runs, xs[0]), xs[0], rest, j - 1);
  }

  lemma SharesTarget(runs: map<string, Run>, x: Import, y: Import)
    requires UniqueTurns(runs) && Fits(runs, x) && x.turn.id != y.turn.id && Collides(runs, x, y)
    ensures UniqueTurns(Write(runs, x)) && !Needs(Write(runs, x), x)
    ensures Target(Write(runs, x), y) == Target(Write(runs, x), x)
  {
    WriteUnique(runs, x);
    OwnTarget(runs, x);
    CollidesExact(runs, x, y);
  }

  lemma CollisionRest(runs: map<string, Run>, xs: seq<Import>, i: nat, j: nat)
    requires 0 < i < j < |xs| && UniqueTurns(runs) && Fits(runs, xs[0]) && DistinctTurns(xs)
    requires Collides(runs, xs[i], xs[j])
    ensures UniqueTurns(Write(runs, xs[0])) && DistinctTurns(xs[1..])
    ensures Collides(Write(runs, xs[0]), xs[1..][i - 1], xs[1..][j - 1])
  {
    WriteShape(runs, xs[0]);
    CollidesStable(runs, xs[0], xs[i], xs[j]);
  }

  /** After a pass with a collision the earlier of the two turns is not. */
  lemma {:induction false} CollisionUnsettles(runs: map<string, Run>, xs: seq<Import>, i: nat, j: nat)
    requires UniqueTurns(runs) && AllFit(runs, xs) && DistinctTurns(xs) && i < j < |xs| && Collides(runs, xs[i], xs[j])
    ensures Needs(Pass(runs, xs), xs[i])
    decreases |xs|
  {
    if i == 0 {
      HeadUnsettles(runs, xs, j);
    } else {
      CollisionRest(runs, xs, i, j);
      CollisionUnsettles(Write(runs, xs[0]), xs[1..], i - 1, j - 1);
    }
  }

  ghost predicate AllSettled(runs: map<string, Run>, xs: seq<Import>) {
    forall i :: 0 <= i < |xs| ==> !Needs(runs, xs[i])
  }

  lemma SettledExact(runs: map<string, Run>, xs: seq<Import>)
    requires UniqueTurns(runs) && AllFit(runs, xs) && DistinctTurns(xs)
    ensures AllSettled(Pass(runs, xs), xs) <==> NoCollision(runs, xs)
  {
    if NoCollision(runs, xs) {
      forall k | 0 <= k < |xs| ensures !Needs(Pass(runs, xs), xs[k]) { PassSettles(runs, xs, k); }
    } else {
      var i, j :| 0 <= i < j < |xs| && Collides(runs, xs[i], xs[j]);
      CollisionUnsettles(runs, xs, i, j);
    }
  }

  /* ---- the second pass ---- */

  /** Rows are never lost and versions never fall. */
  ghost predicate Grows(before: map<string, Run>, after: map<string, Run>) {
    forall r :: r in before ==> r in after && before[r].version <= after[r].version
  }

  lemma WriteGrows(runs: map<string, Run>, x: Import)
    ensures Grows(runs, Write(runs, x))
    ensures Needs(runs, x) ==> !Grows(Write(runs, x), runs)
  {
    var t := Slot(runs, x);
    TargetCases(runs, x);
    if Needs(runs, x) { assert t in runs ==> Write(runs, x)[t].version == runs[t].version + 1; }
  }

  lemma {:induction false} PassGrows(runs: map<string, Run>, xs: seq<Import>)
    ensures Grows(runs, Pass(runs, xs))
    decreases |xs|
  {
    if xs != [] {
      WriteGrows(runs, xs[0]);
      PassGrows(Write(runs, xs[0]), xs[1..]);
    }
  }

  /** A pass is idle exactly when nothing is left to import. */
  lemma {:induction false} IdleExact(runs: map<string, Run>, xs: seq<Import>)
    ensures Pass(runs, xs) == runs <==> AllSettled(runs, xs)
    decreases |xs|
  {
    if xs != [] {
      var next, rest := Write(runs, xs[0]), xs[1..];
      WriteGrows(runs, xs[0]);
      PassGrows(next, rest);
      if Pass(runs, xs) == runs || AllSettled(runs, xs) {
        assert !Needs(runs, xs[0]);
        IdleExact(runs, rest);
        if AllSettled(runs, rest) { assert forall i :: 0 < i < |xs| ==> xs[i] == rest[i - 1]; }
      }
    }
  }

  /** Importing again changes the run table if and only if two turns collided in the first place. */
  lemma ReimportExact(runs: map<string, Run>, xs: seq<Import>)
    requires UniqueTurns(runs) && AllFit(runs, xs) && DistinctTurns(xs)
    ensures Pass(Pass(runs, xs), xs) == Pass(runs, xs) <==> NoCollision(runs, xs)
  {
    SettledExact(runs, xs);
    IdleExact(Pass(runs, xs), xs);
  }

  /* ---- the third pass ---- */

  /** If turn x has no row of its own name, every row that holds it has its contents. */
  ghost predicate Filed(runs: map<string, Run>, x: Import) {
    forall t :: HeldUnder(runs, t, x) ==> t in runs && Matches(runs[t], x)
  }

  lemma FiledStays(runs: map<string, Run>, z: Import, x: Import)
    requires z.turn.id != x.turn.id && Filed(runs, x)
    ensures Filed(Write(runs, z), x)
  {
    forall t | HeldUnder(Write(runs, z), t, x) ensures t in Write(runs, z) && Matches(Write(runs, z)[t], x) {
      HeldBefore(runs, z, x, t);
    }
  }

  lemma FiledOnceWritten(runs: map<string, Run>, x: Import)
    requires UniqueTurns(runs) && Fits(runs, x)
    ensures Filed(Write(runs, x), x)
  {
    WriteShape(runs, x);
    OwnTarget(runs, x);
    var next := Write(runs, x);
    forall t | HeldUnder(next, t, x) ensures t in next && Matches(next[t], x) { TargetIs(next, x, t); }
  }

  /** Once `y` is written after `x`, no row named after `y` holds turn x. */
  lemma NotHeldOnceWritten(runs: map<string, Run>, x: Import, y: Import)
    requires x.turn.id != y.turn.id && Filed(runs, x)
    ensures !HeldUnder(Write(runs, y), IdOf(y), x)
  {
    HeldBefore(runs, y, x, IdOf(y));
    if HeldUnder(runs, IdOf(y), x) {
      MatchesOnlyOne(runs[IdOf(y)], x, y);
      WrittenTurn(Some(runs[IdOf(y)]), y);
      assert Write(runs, y)[IdOf(y)].turnId == TurnIdOf(y.turn.id);
    }
  }

  lemma {:induction false} FiledThrough(runs: map<string, Run>, x: Import, ys: seq<Import>)
    requires OtherTurns(x, ys) && Filed(runs, x)
    ensures Filed(Pass(runs, ys), x)
    decreases |ys|
  {
    if ys != [] {
      FiledStays(runs, ys[0], x);
      FiledThrough(Write(runs, ys[0]), x, ys[1..]);
    }
  }

  lemma {:induction false} NotHeldThrough(runs: map<string, Run>, x: Import, t: string, ys: seq<Import>)
    requires OtherTurns(x, ys) && !HeldUnder(runs, t, x)
    ensures !HeldUnder(Pass(runs, ys), t, x)
    decreases |ys|
  {
    if ys != [] {
      HeldBefore(runs, ys[0], x, t);
      NotHeldThrough(Write(runs, ys[0]), x, t, ys[1..]);
    }
  }

  /** What a pass leaves behind, collisions or not: turns without a row of their own name are filed, and
      no row named after a later turn holds an earlier one. */
  ghost predicate Tidy(runs: map<string, Run>, xs: seq<Import>) {
    && (forall i :: 0 <= i < |xs| ==> Filed(runs, xs[i]))
    && (forall i, j :: 0 <= i < j < |xs| ==> !HeldUnder(runs, IdOf(xs[j]), xs[i]))
  }

  lemma {:induction false} FiledAt(runs: map<string, Run>, xs: seq<Import>, k: nat)
    requires UniqueTurns(runs) && AllFit(runs, xs) && DistinctTurns(xs) && k < |xs|
    ensures Filed(Pass(runs, xs), xs[k])
    decreases |xs|
  {
    WriteUnique(runs, xs[0]);
    if k == 0 {
      FiledOnceWritten(runs, xs[0]);
      FiledThrough(Write(runs, xs[0]), xs[0], xs[1..]);
    } else {
      assert xs[1..][k - 1] == xs[k];
      FiledAt(Write(runs, xs[0]), xs[1..], k - 1);
    }
  }

  lemma {:induction false} NotHeldLater(runs: map<string, Run>, x: Import, ys: seq<Import>, k: nat)
    requires OtherTurns(x, ys) && Filed(runs, x) && k < |ys|
    ensures !HeldUnder(Pass(runs, ys), IdOf(ys[k]), x)
    decreases |ys|
  {
    if k == 0 {
      NotHeldOnceWritten(runs, x, ys[0]);
      NotHeldThrough(Write(runs, ys[0]), x, IdOf(ys[0]), ys[1..]);
    } else {
      FiledStays(runs, ys[0], x);
      assert ys[1..][k - 1] == ys[k];
      NotHeldLater(Write(runs, ys[0]), x, ys[1..], k - 1);
    }
  }

  /** No row named after `y` holds turn x. */
  ghost predicate Apart(runs: map<string, Run>, x: Import, y: Import) { !HeldUnder(runs, IdOf(y), x) }

  lemma HeadNotHeld(runs: map<string, Run>, xs: seq<Import>, j: nat)
    requires 0 < j < |xs| && UniqueTurns(runs) && AllFit(runs, xs) && DistinctTurns(xs)
    ensures Apart(Pass(runs, xs), xs[0], xs[j])
  {
    var rest := xs[1..];
    FiledOnceWritten(runs, xs[0]);
    assert OtherTurns(xs[0], rest) && rest[j - 1] == xs[j];
    NotHeldLater(Write(runs, xs[0]), xs[0], rest, j - 1);
  }

  lemma {:induction false} PassSplit(runs: map<string, Run>, xs: seq<Import>, ys: seq<Import>)
    ensures Pass(runs, xs + ys) == Pass(Pass(runs, xs), ys)
    ensures AllFit(runs, xs + ys) <==> AllFit(runs, xs) && AllFit(Pass(runs, xs), ys)
    decreases |xs|
  {
    if xs == [] {
      assert xs + ys == ys;
    } else {
      assert (xs + ys)[1..] == xs[1..] + ys;
      PassSplit(Write(runs, xs[0]), xs[1..], ys);
    }
  }

  lemma {:induction false} PassUnique(runs: map<string, Run>, xs: seq<Import>)
    requires UniqueTurns(runs) && AllFit(runs, xs)
    ensures UniqueTurns(Pass(runs, xs))
    decreases |xs|
  {
    if xs != [] {
      WriteUnique(runs, xs[0]);
      PassUnique(Write(runs, xs[0]), xs[1..]);
    }
  }

  lemma DistinctBack(xs: seq<Import>, i: nat)
    requires i <= |xs| && DistinctTurns(xs)
    ensures DistinctTurns(xs[i..])
  {
  }

  /** Where a pass stands before its `i`-th turn. */
  lemma PassFrom(runs: map<string, Run>, xs: seq<Import>, i: nat) returns (mid: map<string, Run>)
    requires i <= |xs| && UniqueTurns(runs) && AllFit(runs, xs)
    ensures UniqueTurns(mid) && AllFit(mid, xs[i..]) && Pass(mid, xs[i..]) == Pass(runs, xs)
  {
    assert xs == xs[..i] + xs[i..];
    PassSplit(runs, xs[..i], xs[i..]);
    PassUnique(runs, xs[..i]);
    mid := Pass(runs, xs[..i]);
  }

  lemma NotHeldAt(runs: map<string, Run>, xs: seq<Import>, i: nat, j: nat)
    requires i < j < |xs| && UniqueTurns(runs) && AllFit(runs, xs) && DistinctTurns(xs)
    ensures Apart(Pass(runs, xs), xs[i], xs[j])
  {
    var mid := PassFrom(runs, xs, i);
    DistinctBack(xs, i);
    HeadNotHeldFrom(mid, xs, i, j);
  }

  lemma HeadNotHeldFrom(mid: map<string, Run>, xs: seq<Import>, i: nat, j: nat)
    requires i < j < |xs| && UniqueTurns(mid) && AllFit(mid, xs[i..]) && DistinctTurns(xs[i..])
    ensures Apart(Pass(mid, xs[i..]), xs[i], xs[j])
  {
    var ys := xs[i..];
    assert ys[0] == xs[i] && ys[j - i] == xs[j];
    HeadNotHeld(mid, ys, j - i);
  }

  lemma PassTidies(runs: map<string, Run>, xs: seq<Import>)
    requires UniqueTurns(runs) && AllFit(runs, xs) && DistinctTurns(xs)
    ensures Tidy(Pass(runs, xs), xs) && NoCollision(Pass(runs, xs), xs)
  {
    var end := Pass(runs, xs);
    forall k | 0 <= k < |xs| ensures Filed(end, xs[k]) { FiledAt(runs, xs, k); }
    forall i, j | 0 <= i < j < |xs| ensures !HeldUnder(end, IdOf(xs[j]), xs[i]) { NotHeldAt(runs, xs, i, j); }
    TidyDoesNotCollide(end, xs);
  }

  lemma TidyDoesNotCollide(runs: map<string, Run>, xs: seq<Import>)
    requires Tidy(runs, xs) && DistinctTurns(xs)
    ensures NoCollision(runs, xs)
  {
    forall i, j | 0 <= i < j < |xs| ensures !Collides(runs, xs[i], xs[j]) {
      if HeldUnder(runs, IdOf(xs[i]), xs[j]) { MatchesOnlyOne(runs[IdOf(xs[i])], xs[j], xs[i]); }
    }
  }

  /** In a tidy table a turn is written under its own name or not at all. */
  lemma TidySlot(runs: map<string, Run>, x: Import)
    requires Filed(runs, x) && Needs(runs, x)
    ensures Slot(runs, x) == IdOf(x)
  {
    TargetCases(runs, x);
  }

  /** A row under a turn's own name that has its contents settles it. */
  lemma OwnNameSettles(runs: map<string, Run>, x: Import)
    requires IdOf(x) in runs && Matches(runs[IdOf(x)], x)
    ensures !Needs(runs, x) && Filed(runs, x)
  {
  }

  lemma TidyOwn(runs: map<string, Run>, x: Import)
    requires Filed(runs, x)
    ensures !Needs(Write(runs, x), x) && Filed(Write(runs, x), x)
  {
    if Needs(runs, x) {
      TidySlot(runs, x);
      var prior := if IdOf(x) in runs then Some(runs[IdOf(x)]) else None;
      assert Write(runs, x) == runs[IdOf(x) := Written(prior, x)];
      MatchesWritten(prior, x);
      OwnNameSettles(Write(runs, x), x);
    }
  }

  /** A turn that is in place stays there while others are written under their own names. */
  lemma TidyKept(runs: map<string, Run>, y: Import, x: Import)
    requires x.turn.id != y.turn.id && Filed(runs, x) && Filed(runs, y) && !Needs(runs, x)
    requires !HeldUnder(runs, IdOf(y), x)
    ensures !Needs(Write(runs, y), x)
  {
    var next := Write(runs, y);
    DistinctIds(x, y);
    FiledStays(runs, y, x);
    TargetCases(runs, x);
    TargetCases(next, x);
    if Needs(runs, y) { TidySlot(runs, y); }
    var t := Target(runs, x).value;
    if IdOf(x) in runs {
      assert next[IdOf(x)] == runs[IdOf(x)];
    } else {
      assert HeldUnder(runs, t, x) && t != IdOf(y);
      assert next[t] == runs[t] && HeldUnder(next, t, x);
    }
  }

  lemma {:induction false} TidyKeptThrough(runs: map<string, Run>, x: Import, ys: seq<Import>)
    requires DistinctTurns(ys) && OtherTurns(x, ys) && Tidy(runs, ys) && Filed(runs, x) && !Needs(runs, x)
    requires forall i :: 0 <= i < |ys| ==> !HeldUnder(runs, IdOf(ys[i]), x)
    ensures !Needs(Pass(runs, ys), x)
    decreases |ys|
  {
    if ys != [] {
      TailTurns(x, ys);
      TidyKept(runs, ys[0], x);
      FiledStays(runs, ys[0], x);
      TidyRest(runs, ys);
      forall i | 0 <= i < |ys[1..]| ensures !HeldUnder(Write(runs, ys[0]), IdOf(ys[1..][i]), x) {
        assert ys[1..][i] == ys[i + 1];
        HeldBefore(runs, ys[0], x, IdOf(ys[i + 1]));
      }
      TidyKeptThrough(Write(runs, ys[0]), x, ys[1..]);
    }
  }

  lemma TidyRest(runs: map<string, Run>, xs: seq<Import>)
    requires xs != [] && DistinctTurns(xs) && Tidy(runs, xs)
    ensures Tidy(Write(runs, xs[0]), xs[1..])
  {
    var rest := xs[1..];
    forall i | 0 <= i < |rest| ensures Filed(Write(runs, xs[0]), rest[i]) { FiledStays(runs, xs[0], xs[i + 1]); }
    forall i, j | 0 <= i < j < |rest| ensures !HeldUnder(Write(runs, xs[0]), IdOf(rest[j]), rest[i]) {
      HeldBefore(runs, xs[0], xs[i + 1], IdOf(xs[j + 1]));
    }
  }

  lemma TidyHead(runs: map<string, Run>, xs: seq<Import>)
    requires xs != [] && DistinctTurns(xs) && Tidy(runs, xs)
    ensures !Needs(Pass(runs, xs), xs[0])
  {
    var rest := xs[1..];
    TidyRest(runs, xs);
    TidyOwn(runs, xs[0]);
    assert DistinctTurns(rest) && OtherTurns(xs[0], rest);
    forall i | 0 <= i < |rest| ensures !HeldUnder(Write(runs, xs[0]), IdOf(rest[i]), xs[0]) {
      TidyHeadFree(runs, xs, i + 1);
    }
    TidyKeptThrough(Write(runs, xs[0]), xs[0], rest);
  }

  /** Tidiness carries over to what is left of a pass. */
  lemma {:induction false} TidyFrom(runs: map<string, Run>, xs: seq<Import>, k: nat) returns (mid: map<string, Run>)
    requires k <= |xs| && DistinctTurns(xs) && Tidy(runs, xs)
    ensures Tidy(mid, xs[k..]) && Pass(mid, xs[k..]) == Pass(runs, xs)
    decreases k
  {
    if k == 0 {
      mid := runs;
      assert xs[0..] == xs;
    } else {
      TidyRest(runs, xs);
      DistinctBack(xs, 1);
      mid := TidyFrom(Write(runs, xs[0]), xs[1..], k - 1);
      assert xs[1..][k - 1..] == xs[k..];
    }
  }

  lemma TidySettles(runs: map<string, Run>, xs: seq<Import>, k: nat)
    requires DistinctTurns(xs) && Tidy(runs, xs) && k < |xs|
    ensures !Needs(Pass(runs, xs), xs[k])
  {
    var mid := TidyFrom(runs, xs, k);
    DistinctBack(xs, k);
    TidyHead(mid, xs[k..]);
  }

  lemma TidyHeadFree(runs: map<string, Run>, xs: seq<Import>, j: nat)
    requires 0 < j < |xs| && DistinctTurns(xs) && Tidy(runs, xs)
    ensures !HeldUnder(Write(runs, xs[0]), IdOf(xs[j]), xs[0])
  {
    assert !HeldUnder(runs, IdOf(xs[j]), xs[0]);
    if Needs(runs, xs[0]) {
      TidySlot(runs, xs[0]);
      assert IdOf(xs[0]) in Write(runs, xs[0]);
    }
  }

  /** Whatever collided the first time, after a second pass a third one changes nothing: import reaches
      its fixed point in at most two passes. */
  lemma ReimportSettles(runs: map<string, Run>, xs: seq<Import>)
    requires UniqueTurns(runs) && AllFit(runs, xs) && DistinctTurns(xs)
    ensures var twice := Pass(Pass(runs, xs), xs); Pass(twice, xs) == twice
  {
    var once := Pass(runs, xs);
    PassTidies(runs, xs);
    forall k | 0 <= k < |xs| ensures !Needs(Pass(once, xs), xs[k]) { TidySettles(once, xs, k); }
    IdleExact(Pass(once, xs), xs);
  }
}
