/** Sums over the rows a selector picks: how they split, what a larger selection, an inserted row, a
    sweep or a cancellation makes of them, and when they are everything or nothing. All that bounds
    usage in windows comes down to these facts. */
module QuotaSums {
  import opened Basics
  import opened Quota

  lemma UsedHead(rows: seq<Row>, sel: Selector, m: Metric)
    requires rows != []
    ensures Used(rows, sel, m) ==
            (if Selects(sel, rows[0]) then MetricValue(rows[0].amounts, m) else 0.0) + Used(rows[1..], sel, m)
  {
    var rest := Select(rows[1..], sel);
    assert ([rows[0]] + rest)[1..] == rest;
  }

  /** Selecting more rows never lowers the sum. */
  lemma {:induction false} UsedMonotone(rows: seq<Row>, a: Selector, b: Selector, m: Metric)
    requires forall r :: r in rows && Selects(a, r) ==> Selects(b, r)
    ensures Used(rows, a, m) <= Used(rows, b, m)
  {
    if rows != [] {
      UsedHead(rows, a, m);
      UsedHead(rows, b, m);
      UsedMonotone(rows[1..], a, b, m);
    }
  }

  lemma {:induction false} UsedInsert(rows: seq<Row>, r: Row, sel: Selector, m: Metric)
    ensures Used(Insert(rows, r), sel, m) ==
            Used(rows, sel, m) + if Selects(sel, r) then MetricValue(r.amounts, m) else 0.0
  {
    var out := Insert(rows, r);
    UsedHead(out, sel, m);
    if rows == [] || r.createdAt < rows[0].createdAt {
      assert out[1..] == rows;
    } else {
      assert out[1..] == Insert(rows[1..], r);
      UsedHead(rows, sel, m);
      UsedInsert(rows[1..], r, sel, m);
    }
  }

  lemma {:induction false} UsedSweep(rows: seq<Row>, now: real, sel: Selector, m: Metric)
    ensures Used(Sweep(rows, now), sel, m) <= Used(rows, sel, m)
  {
    if rows != [] {
      UsedHead(rows, sel, m);
      UsedHead(Sweep(rows, now), sel, m);
      assert Sweep(rows, now)[1..] == Sweep(rows[1..], now);
      UsedSweep(rows[1..], now, sel, m);
    }
  }

  lemma {:induction false} UsedCancel(rows: seq<Row>, id: nat, sel: Selector, m: Metric)
    ensures Used(CancelRows(rows, id), sel, m) <= Used(rows, sel, m)
  {
    if rows != [] {
      UsedHead(rows, sel, m);
      UsedHead(CancelRows(rows, id), sel, m);
      assert CancelRows(rows, id)[1..] == CancelRows(rows[1..], id);
      UsedCancel(rows[1..], id, sel, m);
    }
  }

  lemma {:induction false} SelectedAll(rows: seq<Row>, sel: Selector)
    ensures forall r :: r in Select(rows, sel) <==> r in rows && Selects(sel, r)
  {
    if rows != [] {
      SelectedAll(rows[1..], sel);
    }
  }

  lemma {:induction false} SelectTwice(rows: seq<Row>, wide: Selector, narrow: Selector, m: Metric)
    requires forall r :: r in rows && Selects(narrow, r) ==> Selects(wide, r)
    ensures Used(Select(rows, wide), narrow, m) == Used(rows, narrow, m)
  {
    if rows != [] {
      SelectTwice(rows[1..], wide, narrow, m);
      UsedHead(rows, narrow, m);
      var out := Select(rows, wide);
      if Selects(wide, rows[0]) {
        assert out[1..] == Select(rows[1..], wide);
        UsedHead(out, narrow, m);
      }
    }
  }

  lemma {:induction false} UsedAtMost(rows: seq<Row>, sel: Selector, m: Metric)
    ensures Used(rows, sel, m) <= Total(rows, m)
  {
    if rows != [] {
      UsedHead(rows, sel, m);
      UsedAtMost(rows[1..], sel, m);
    }
  }

  lemma {:induction false} UsedAll(rows: seq<Row>, sel: Selector, m: Metric)
    requires forall r :: r in rows ==> Selects(sel, r)
    ensures Used(rows, sel, m) == Total(rows, m)
  {
    if rows != [] {
      UsedHead(rows, sel, m);
      UsedAll(rows[1..], sel, m);
    }
  }

  lemma {:induction false} UsedNone(rows: seq<Row>, sel: Selector, m: Metric)
    requires forall r :: r in rows ==> !Selects(sel, r)
    ensures Used(rows, sel, m) == 0.0
  {
    if rows != [] {
      UsedHead(rows, sel, m);
      UsedNone(rows[1..], sel, m);
    }
  }

  predicate Sorted(rows: seq<Row>) {
    forall i, j :: 0 <= i < j < |rows| ==> rows[i].createdAt <= rows[j].createdAt
  }

  lemma {:induction false} SelectSorted(rows: seq<Row>, sel: Selector)
    requires Sorted(rows)
    ensures Sorted(Select(rows, sel))
  {
    if rows != [] {
      SelectSorted(rows[1..], sel);
      SelectedAll(rows[1..], sel);
      var rest := Select(rows[1..], sel);
      forall i | 0 <= i < |rest| ensures rows[0].createdAt <= rest[i].createdAt {
        assert rest[i] in rows[1..];
        var j :| 1 <= j < |rows| && rows[j] == rest[i];
      }
    }
  }

  lemma {:induction false} UsedOthers(rows: seq<Row>, id: nat, a: Amounts, sel: Selector, m: Metric)
    requires forall r :: r in rows ==> r.id != id
    ensures Used(CompleteRows(rows, id, a), sel, m) == Used(rows, sel, m)
  {
    if rows != [] {
      var out := CompleteRows(rows, id, a);
      UsedHead(rows, sel, m);
      UsedHead(out, sel, m);
      assert out[1..] == CompleteRows(rows[1..], id, a);
      UsedOthers(rows[1..], id, a, sel, m);
    }
  }
}
