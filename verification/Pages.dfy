/** Reading a log by cursor: SELECT ... WHERE sequence > after ORDER BY sequence, with and without LIMIT. */
module Pages {
  import opened RuntimeTypes

  datatype Row<T> = Row(sequence: int, value: T)

  datatype Page<T> = Page(rows: seq<Row<T>>, hasMore: bool)

  ghost predicate InOrder<T>(rows: seq<Row<T>>) {
    forall i, j :: 0 <= i < j < |rows| ==> rows[i].sequence < rows[j].sequence
  }

  ghost predicate Contains<T>(rows: seq<Row<T>>, k: int) { exists i :: 0 <= i < |rows| && rows[i].sequence == k }

  /** The rows numbered above `after` and up to `last`, all of them, in ascending order. */
  ghost predicate IsRange<T>(table: map<int, T>, after: int, last: int, rows: seq<Row<T>>) {
    && InOrder(rows)
    && (forall i :: 0 <= i < |rows| ==>
          after < rows[i].sequence <= last && rows[i].sequence in table && table[rows[i].sequence] == rows[i].value)
    && (forall k :: k in table && after < k <= last ==> Contains(rows, k))
  }

  function NextCursor<T>(after: int, page: Page<T>): int {
    if page.rows == [] then after else page.rows[|page.rows| - 1].sequence
  }

  /** What a page promises, whatever was read: at most `limit` rows, the next ones after the cursor
      with none skipped, and `hasMore` exactly when the log goes on behind them. */
  ghost predicate IsPage<T>(table: map<int, T>, after: int, limit: int, page: Page<T>) {
    && |page.rows| <= limit
    && after <= NextCursor(after, page)
    && IsRange(table, after, NextCursor(after, page), page.rows)
    && (page.hasMore <==> exists k :: k in table && NextCursor(after, page) < k)
    && (page.hasMore ==> |page.rows| == limit)
  }

  /* ---- the query ---- */

  lemma Inhabited(keys: set<int>)
    ensures keys == {} || exists x :: x in keys
  {
    if forall x :: x !in keys { assert keys == {}; }
  }

  lemma {:induction false} HasMin(keys: set<int>)
    requires keys != {}
    ensures exists m :: IsMin(keys, m)
    decreases keys
  {
    Inhabited(keys);
    var x :| x in keys;
    var rest := keys - {x};
    if rest == {} {
      assert keys == {x} && IsMin(keys, x);
    } else {
      HasMin(rest);
      var m :| IsMin(rest, m);
      forall k | k in keys ensures (if x < m then x else m) <= k { assert k == x || k in rest; }
      assert IsMin(keys, if x < m then x else m);
    }
  }

  predicate IsMin(keys: set<int>, m: int) { m in keys && forall k :: k in keys ==> m <= k }

  function Min(keys: set<int>): (m: int)
    requires keys != {}
    ensures IsMin(keys, m)
  {
    HasMin(keys);
    var m :| m in keys && IsMin(keys, m);
    m
  }

  function Sorted(keys: set<int>): seq<int>
    decreases keys
  {
    if keys == {} then [] else [Min(keys)] + Sorted(keys - {Min(keys)})
  }

  lemma {:induction false} SortedFacts(keys: set<int>)
    ensures var ks := Sorted(keys);
            && (forall i :: 0 <= i < |ks| ==> ks[i] in keys)
            && (forall i, j :: 0 <= i < j < |ks| ==> ks[i] < ks[j])
            && (forall k :: k in keys ==> exists i :: 0 <= i < |ks| && ks[i] == k)
    decreases keys
  {
    if keys != {} {
      var m := Min(keys);
      var rest, tail := keys - {m}, Sorted(keys - {m});
      SortedFacts(rest);
      var ks := [m] + tail;
      forall k | k in keys ensures exists i :: 0 <= i < |ks| && ks[i] == k {
        if k == m { assert ks[0] == k; }
        else {
          assert k in rest;
          var i :| 0 <= i < |tail| && tail[i] == k;
          assert ks[i + 1] == k;
        }
      }
    }
  }

  function Above<T>(table: map<int, T>, after: int): set<int> { set k | k in table && after < k }

  function Fetch<T>(table: map<int, T>, ks: seq<int>): seq<Row<T>>
    requires forall i :: 0 <= i < |ks| ==> ks[i] in table
  {
    seq(|ks|, i requires 0 <= i < |ks| => Row(ks[i], table[ks[i]]))
  }

  function Select<T>(table: map<int, T>, after: int): seq<Row<T>> {
    SortedFacts(Above(table, after));
    Fetch(table, Sorted(Above(table, after)))
  }

  /** Everything above the cursor, in order. */
  lemma SelectExact<T>(table: map<int, T>, after: int)
    ensures var rows := Select(table, after);
            && InOrder(rows)
            && (forall i :: 0 <= i < |rows| ==>
                  after < rows[i].sequence && rows[i].sequence in table && table[rows[i].sequence] == rows[i].value)
            && (forall k :: k in table && after < k ==> Contains(rows, k))
  {
    var keys := Above(table, after);
    SortedFacts(keys);
    var ks, rows := Sorted(keys), Select(table, after);
    forall k | k in table && after < k ensures Contains(rows, k) {
      assert k in keys;
      var i :| 0 <= i < |ks| && ks[i] == k;
      assert rows[i].sequence == k;
    }
  }

  function Limit<T>(rows: seq<T>, limit: nat): seq<T> { if |rows| <= limit then rows else rows[..limit] }

  /** ListRunEventsPage and ListSessionEventsPage: read one row more than asked for, and cut it off. */
  method ListEventsPage<T>(table: map<int, T>, after: int, limit: int) returns (out: Result<Page<T>>)
    ensures out.Err? <==> limit < 1
    ensures out.Ok? ==> IsPage(table, after, limit, out.value)
    ensures out.Ok? ==> out.value == PageOf(table, after, limit)
  {
    if limit < 1 { return Err(Invalid); }
    var rows := Limit(Select(table, after), limit + 1);
    var result: seq<Row<T>> := [];
    var i := 0;
    while i < |rows|
      invariant 0 <= i <= |rows| && result == rows[..i]
    {
      result := result + [rows[i]];
      i := i + 1;
    }
    var hasMore := |result| > limit;
    if hasMore { result := result[..limit]; }
    PageExact(table, after, limit);
    assert result == PageOf(table, after, limit).rows;
    return Ok(Page(result, hasMore));
  }

  function PageOf<T>(table: map<int, T>, after: int, limit: int): Page<T>
    requires limit >= 1
  {
    var rows := Select(table, after);
    Page(Limit(rows, limit), |rows| > limit)
  }

  lemma PageExact<T>(table: map<int, T>, after: int, limit: int)
    requires limit >= 1
    ensures IsPage(table, after, limit, PageOf(table, after, limit))
  {
    SelectExact(table, after);
    var rows, page := Select(table, after), PageOf(table, after, limit);
    var next := NextCursor(after, page);
    forall k | k in table && after < k <= next ensures Contains(page.rows, k) {
      assert Contains(rows, k);
      var i :| 0 <= i < |rows| && rows[i].sequence == k;
      assert i < |page.rows|;
      assert page.rows[i].sequence == k;
    }
    if page.hasMore {
      assert rows[limit].sequence in table && next < rows[limit].sequence;
    } else {
      forall k | k in table && after < k ensures k <= next { assert Contains(rows, k); }
    }
  }

  /** Two pages in a row are one longer range: nothing is skipped or repeated between them. */
  lemma RangesJoin<T>(table: map<int, T>, a: int, b: int, c: int, xs: seq<Row<T>>, ys: seq<Row<T>>)
    requires a <= b <= c && IsRange(table, a, b, xs) && IsRange(table, b, c, ys)
    ensures IsRange(table, a, c, xs + ys)
  {
    forall k | k in table && a < k <= c ensures Contains(xs + ys, k) {
      if k <= b {
        var i :| 0 <= i < |xs| && xs[i].sequence == k;
        assert (xs + ys)[i].sequence == k;
      } else {
        var i :| 0 <= i < |ys| && ys[i].sequence == k;
        assert (xs + ys)[|xs| + i].sequence == k;
      }
    }
  }
}
