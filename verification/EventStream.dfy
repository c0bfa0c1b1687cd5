/** Server-sent run events: each tick merges PostgreSQL and the Redis stream and emits what follows
    the cursor without a gap. */
module EventStream {
  import opened RuntimeTypes
  import opened RelaySystem
  import opened Pages

  type RunRow = Row<RunEvent>

  /** The first entry of the stream under a number. */
  function EntryAt(stream: seq<Entry>, k: int): Option<RunEvent> {
    if stream == [] then None
    else if stream[0].sequence == k then Some(stream[0].event)
    else EntryAt(stream[1..], k)
  }

  /** What the union of the two stores holds under a number, the persisted copy preferred. */
  function Shown(table: map<int, RunEvent>, stream: seq<Entry>, k: int): Option<RunEvent> {
    if k in table then Some(table[k]) else EntryAt(stream, k)
  }

  /** `rows` are after+1, after+2, ... as long as the union goes, and no longer. */
  ghost predicate IsTick(table: map<int, RunEvent>, stream: seq<Entry>, after: int, rows: seq<RunRow>) {
    && (forall i :: 0 <= i < |rows| ==>
          rows[i].sequence == after + 1 + i && Shown(table, stream, after + 1 + i) == Some(rows[i].value))
    && Shown(table, stream, after + 1 + |rows|).None?
  }

  /** The two numbers determine each other: there is one such tick. */
  lemma TickUnique(table: map<int, RunEvent>, stream: seq<Entry>, after: int, a: seq<RunRow>, b: seq<RunRow>)
    requires IsTick(table, stream, after, a) && IsTick(table, stream, after, b)
    ensures a == b
  {
    assert |a| < |b| ==> Shown(table, stream, after + 1 + |a|) == Some(b[|a|].value);
    assert |b| < |a| ==> Shown(table, stream, after + 1 + |b|) == Some(a[|b|].value);
    forall i | 0 <= i < |a| && i < |b| ensures a[i] == b[i] {
      assert Shown(table, stream, after + 1 + i) == Some(a[i].value) == Some(b[i].value);
    }
  }

  lemma {:induction false} EntryAtAppend(stream: seq<Entry>, e: Entry, k: int)
    ensures EntryAt(stream + [e], k) ==
            if EntryAt(stream, k).Some? then EntryAt(stream, k) else if e.sequence == k then Some(e.event) else None
  {
    if stream == [] {
      assert stream + [e] == [e] && [e][1..] == [];
    } else {
      assert (stream + [e])[1..] == stream[1..] + [e];
      EntryAtAppend(stream[1..], e, k);
    }
  }

  /** XRANGE from the cursor, exclusive: a negative cursor is not a stream identifier. */
  method ReadRunEvents(stream: seq<Entry>, after: int) returns (out: Result<seq<Entry>>)
    ensures out.Err? <==> after < 0
    ensures out.Ok? ==> forall k :: after < k ==> EntryAt(out.value, k) == EntryAt(stream, k)
    ensures out.Ok? ==> forall i :: 0 <= i < |out.value| ==> after < out.value[i].sequence
  {
    if after < 0 { return Err(Invalid); }
    var result: seq<Entry> := [];
    var i := 0;
    while i < |stream|
      invariant 0 <= i <= |stream|
      invariant forall k :: after < k ==> EntryAt(result, k) == EntryAt(stream[..i], k)
      invariant forall j :: 0 <= j < |result| ==> after < result[j].sequence
    {
      assert stream[..i + 1] == stream[..i] + [stream[i]];
      forall k ensures EntryAt(stream[..i + 1], k) == if EntryAt(stream[..i], k).Some? then EntryAt(stream[..i], k)
                       else if stream[i].sequence == k then Some(stream[i].event) else None
      {
        EntryAtAppend(stream[..i], stream[i], k);
      }
      if after < stream[i].sequence {
        forall k ensures EntryAt(result + [stream[i]], k) == if EntryAt(result, k).Some? then EntryAt(result, k)
                         else if stream[i].sequence == k then Some(stream[i].event) else None
        {
          EntryAtAppend(result, stream[i], k);
        }
        result := result + [stream[i]];
      }
      i := i + 1;
    }
    assert stream[..i] == stream;
    return Ok(result);
  }

  /** bySequence: the persisted rows above the cursor. */
  method Index(rows: seq<RunRow>) returns (m: map<int, RunEvent>)
    requires InOrder(rows)
    ensures forall k :: k in m <==> Contains(rows, k)
    ensures forall i :: 0 <= i < |rows| ==> rows[i].sequence in m && m[rows[i].sequence] == rows[i].value
  {
    m := map[];
    var i := 0;
    while i < |rows|
      invariant 0 <= i <= |rows|
      invariant forall j :: 0 <= j < i ==> rows[j].sequence in m && m[rows[j].sequence] == rows[j].value
      invariant forall k :: k in m ==> exists j :: 0 <= j < i && rows[j].sequence == k
    {
      m := m[rows[i].sequence := rows[i].value];
      i := i + 1;
    }
  }

  function Lookup(m: map<int, RunEvent>, k: int): Option<RunEvent> { if k in m then Some(m[k]) else None }

  /** ... and the live entries whose number is not taken yet. */
  method AddLive(m: map<int, RunEvent>, live: seq<Entry>) returns (all: map<int, RunEvent>)
    ensures forall k :: Lookup(all, k) == Shown(m, live, k)
  {
    all := m;
    var i := 0;
    while i < |live|
      invariant 0 <= i <= |live|
      invariant forall k :: Lookup(all, k) == Shown(m, live[..i], k)
    {
      assert live[..i + 1] == live[..i] + [live[i]];
      forall k ensures Shown(m, live[..i + 1], k) == if Shown(m, live[..i], k).Some? then Shown(m, live[..i], k)
                       else if live[i].sequence == k then Some(live[i].event) else None
      {
        EntryAtAppend(live[..i], live[i], k);
      }
      ghost var before := all;
      if live[i].sequence !in all {
        all := all[live[i].sequence := live[i].event];
      }
      forall k ensures Lookup(all, k) == Shown(m, live[..i + 1], k) {
        assert Lookup(before, k) == Shown(m, live[..i], k);
      }
      i := i + 1;
    }
    assert live[..i] == live;
  }

  /** The open-ended scan: it stops, because every number found is one of finitely many keys. */
  method Scan(all: map<int, RunEvent>, after: int) returns (rows: seq<RunRow>)
    ensures forall i :: 0 <= i < |rows|
              ==> rows[i].sequence == after + 1 + i && Lookup(all, after + 1 + i) == Some(rows[i].value)
    ensures after + 1 + |rows| !in all
  {
    rows := [];
    var sequence := after + 1;
    while sequence in all
      invariant sequence == after + 1 + |rows|
      invariant forall i :: 0 <= i < |rows|
                  ==> rows[i].sequence == after + 1 + i && Lookup(all, after + 1 + i) == Some(rows[i].value)
      decreases set k | k in all && sequence <= k
    {
      ghost var left := set k | k in all && sequence <= k;
      rows := rows + [Row(sequence, all[sequence])];
      assert sequence in left;
      sequence := sequence + 1;
    }
  }

  /** One tick of the run stream. The cursor moves to the last emitted number. */
  method RunEventsTick(table: map<int, RunEvent>, stream: seq<Entry>, after: int)
      returns (out: Result<(int, seq<RunRow>)>)
    ensures out.Err? <==> after < 0
    ensures out.Ok? ==> IsTick(table, stream, after, out.value.1) && out.value.0 == after + |out.value.1|
  {
    SelectExact(table, after);
    var persisted := Select(table, after);
    var bySequence := Index(persisted);
    var live :- ReadRunEvents(stream, after);
    var all := AddLive(bySequence, live);
    forall k | after < k ensures Lookup(all, k) == Shown(table, stream, k) {
      assert k in bySequence <==> Contains(persisted, k);
    }
    var rows := Scan(all, after);
    assert Lookup(all, after + 1 + |rows|) == None;
    var next := after;
    if |rows| > 0 { next := rows[|rows| - 1].sequence; }
    return Ok((next, rows));
  }

  /** What one tick finds in the two stores; PostgreSQL is read before Redis. */
  datatype Snapshot = Snapshot(table: map<int, RunEvent>, stream: seq<Entry>, fails: bool)

  /** The connection: whatever the stores hold at each tick, the emitted identifiers over all ticks are
      cursor+1, cursor+2, ... and every event is the one the stores showed at its tick. */
  method Stream(ticks: seq<Snapshot>, after: int) returns (emitted: seq<RunRow>, cursor: int, done: nat)
    ensures cursor == after + |emitted|
    ensures forall i :: 0 <= i < |emitted| ==> emitted[i].sequence == after + 1 + i
    ensures forall i :: 0 <= i < |emitted| ==>
              exists t ::
                  0 <= t < |ticks| && Shown(ticks[t].table, ticks[t].stream, after + 1 + i) == Some(emitted[i].value)
    ensures done <= |ticks|
    ensures done < |ticks| <==> exists t :: 0 <= t < |ticks| && (ticks[t].fails || after < 0)
    ensures done == |ticks| > 0 ==> Shown(ticks[done - 1].table, ticks[done - 1].stream, cursor + 1).None?
  {
    emitted, cursor, done := [], after, 0;
    while done < |ticks|
      invariant done <= |ticks|
      invariant cursor == after + |emitted|
      invariant forall i :: 0 <= i < |emitted| ==> emitted[i].sequence == after + 1 + i
      invariant forall i :: 0 <= i < |emitted| ==>
                  exists t ::
                      0 <= t < done && Shown(ticks[t].table, ticks[t].stream, after + 1 + i) == Some(emitted[i].value)
      invariant forall t :: 0 <= t < done ==> !ticks[t].fails && after >= 0
      invariant done == 0 ==> emitted == []
      invariant done > 0 ==> Shown(ticks[done - 1].table, ticks[done - 1].stream, cursor + 1).None?
    {
      if ticks[done].fails { return; }
      var out := RunEventsTick(ticks[done].table, ticks[done].stream, cursor);
      if out.Err? { return; }
      ghost var before := emitted;
      emitted := emitted + out.value.1;
      if |out.value.1| > 0 { cursor := out.value.0; }
      forall i | |before| <= i < |emitted|
        ensures emitted[i].sequence == after + 1 + i
        ensures Shown(ticks[done].table, ticks[done].stream, after + 1 + i) == Some(emitted[i].value)
      {
        assert emitted[i] == out.value.1[i - |before|];
      }
      done := done + 1;
    }
  }
}
