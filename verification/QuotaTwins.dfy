/** Two lists of the same rows, one of which the expiry sweep has touched: as long as reservations
    outlive a span, the rows of the span are alike in both, whatever is swept, inserted or settled. */
module QuotaTwins {
  import opened Basics
  import opened Quota
  import opened QuotaSums
  import opened QuotaSafety
  import opened QuotaRetry
  import opened QuotaBursts

  // ----- Spans that reservations outlive -----

  /** The row lies in the span, whatever its state. */
  predicate InSpan(sel: Selector, r: Row) { Selects(sel, r.(state := Reserved)) }

  /** Clock readings after the span. */
  predicate Past(sel: Selector, clock: real) {
    match sel
    case Interval(_, hi, _) => clock > hi
    case UtcDate(day, _) => clock >= ((day + 1) * DAY) as real
    case _ => true
  }

  /** A reservation of the span that lives this long is open as long as the span lasts. */
  predicate Outlives(life: real, sel: Selector) {
    match sel
    case Interval(lo, hi, _) => hi <= lo + life
    case UtcDate(_, _) => life >= DAY as real
    case _ => false
  }

  predicate Lived(rows: seq<Row>, sel: Selector, life: real) {
    forall r :: r in rows && InSpan(sel, r) ==> r.expiresAt >= r.createdAt + life
  }

  lemma OpenInSpan(sel: Selector, r: Row, life: real, now: real)
    requires Outlives(life, sel) && InSpan(sel, r) && r.expiresAt >= r.createdAt + life && !Past(sel, now)
    ensures r.expiresAt > now
  {
    if sel.UtcDate? {
      DayBounds(r.createdAt);
      assert DayStart(r.createdAt) == (sel.day * DAY) as real;
      assert ((sel.day + 1) * DAY) as real == (sel.day * DAY) as real + DAY as real;
    }
  }

  lemma PastIsOutside(sel: Selector, r: Row)
    requires Past(sel, r.createdAt) && (sel.Interval? || sel.UtcDate?)
    ensures !InSpan(sel, r)
  {
    if sel.UtcDate? {
      DayBounds(r.createdAt);
      assert ((sel.day + 1) * DAY) as real == (sel.day * DAY) as real + DAY as real;
    }
  }

  /** The same reservations in the same order, and equal in the span. */
  predicate Twin(a: Row, b: Row, sel: Selector) {
    && a.id == b.id && a.createdAt == b.createdAt && a.pool == b.pool
    && (InSpan(sel, a) ==> a == b)
  }

  predicate Twins(a: seq<Row>, b: seq<Row>, sel: Selector) {
    |a| == |b| && forall i :: 0 <= i < |a| ==> Twin(a[i], b[i], sel)
  }

  lemma {:induction false} TwinsUse(a: seq<Row>, b: seq<Row>, sel: Selector, m: Metric)
    requires Twins(a, b, sel)
    ensures Used(a, sel, m) == Used(b, sel, m)
  {
    if a != [] {
      UsedHead(a, sel, m);
      UsedHead(b, sel, m);
      assert Twin(a[0], b[0], sel);
      TwinsUse(a[1..], b[1..], sel, m);
    }
  }

  lemma {:induction false} TwinsSwept(a: seq<Row>, b: seq<Row>, sel: Selector, life: real, now: real)
    requires Twins(a, b, sel) && Lived(a, sel, life) && Outlives(life, sel) && !Past(sel, now)
    ensures Twins(Sweep(a, now), b, sel)
  {
    if a != [] {
      assert Twin(a[0], b[0], sel) && a[0] in a;
      TwinsSwept(a[1..], b[1..], sel, life, now);
      var out := Sweep(a, now);
      assert out[1..] == Sweep(a[1..], now);
      if InSpan(sel, a[0]) {
        OpenInSpan(sel, a[0], life, now);
      }
      TwinsHead(out, b, sel);
    }
  }

  lemma TwinsHead(a: seq<Row>, b: seq<Row>, sel: Selector)
    requires a != [] && b != [] && Twin(a[0], b[0], sel) && Twins(a[1..], b[1..], sel)
    ensures Twins(a, b, sel)
  {
    forall i | 0 <= i < |a| ensures Twin(a[i], b[i], sel) {
      if i > 0 {
        assert a[i] == a[1..][i - 1] && b[i] == b[1..][i - 1];
      }
    }
  }

  lemma {:induction false} TwinsInsert(a: seq<Row>, b: seq<Row>, sel: Selector, r: Row)
    requires Twins(a, b, sel)
    ensures Twins(Insert(a, r), Insert(b, r), sel)
  {
    if a != [] {
      assert Twin(a[0], b[0], sel);
      TwinsInsert(a[1..], b[1..], sel, r);
      if r.createdAt >= a[0].createdAt {
        assert Insert(a, r)[1..] == Insert(a[1..], r) && Insert(b, r)[1..] == Insert(b[1..], r);
      } else {
        assert Insert(a, r)[1..] == a && Insert(b, r)[1..] == b;
      }
      TwinsHead(Insert(a, r), Insert(b, r), sel);
    }
  }

  lemma {:induction false} TwinsSettled(a: seq<Row>, b: seq<Row>, sel: Selector, id: nat, x: Amounts)
    requires Twins(a, b, sel)
    ensures Twins(CompleteRows(a, id, x), CompleteRows(b, id, x), sel)
    ensures Twins(CancelRows(a, id), CancelRows(b, id), sel)
  {
    if a != [] {
      assert Twin(a[0], b[0], sel);
      TwinsSettled(a[1..], b[1..], sel, id, x);
      TwinsHead(CompleteRows(a, id, x), CompleteRows(b, id, x), sel);
      TwinsHead(CancelRows(a, id), CancelRows(b, id), sel);
    }
  }

  lemma {:induction false} InsertMembers(rows: seq<Row>, r: Row)
    ensures forall x :: x in Insert(rows, r) ==> x in rows || x == r
  {
    if rows != [] {
      InsertMembers(rows[1..], r);
    }
  }

  lemma LivedInPlace(a: seq<Row>, b: seq<Row>, sel: Selector, life: real)
    requires Lived(a, sel, life) && SameTimes(a, b) && forall i :: 0 <= i < |a| ==> a[i].pool == b[i].pool
    ensures Lived(b, sel, life)
  {
    forall r | r in b && InSpan(sel, r) ensures r.expiresAt >= r.createdAt + life {
      var i :| 0 <= i < |b| && b[i] == r;
      assert a[i] in a && InSpan(sel, a[i]);
    }
  }

  lemma {:induction false} SamePools(rows: seq<Row>, now: real, id: nat, x: Amounts)
    ensures |Sweep(rows, now)| == |CompleteRows(rows, id, x)| == |CancelRows(rows, id)| == |rows|
    ensures forall i :: 0 <= i < |rows| ==>
              && rows[i].pool == Sweep(rows, now)[i].pool == CompleteRows(rows, id, x)[i].pool
              && rows[i].pool == CancelRows(rows, id)[i].pool
  {
    if rows != [] {
      SamePools(rows[1..], now, id, x);
    }
  }
}
