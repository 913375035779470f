/** Bursts: runs of equal reservations at one time. How many of them a cap admits, what they use
    together, and how a limit compares with another one for requests like them; the exact conditions
    on midnight resets, sweeps and headers all turn on such runs. */
module QuotaBursts {
  import opened Basics
  import opened Quota
  import opened QuotaSums
  import opened QuotaSafety
  import opened QuotaRetry

  // ----- Equal requests -----

  /** Every reservation of the run asks for an amount of the metric in this range. */
  predicate AsksBetween(events: seq<Event>, m: Metric, least: real, most: real) {
    forall e :: e in events && e.Reserve? ==> least <= MetricValue(e.request.estimate, m) <= most
  }

  function AskFor(p: Profile, o: Options, e: Amounts, now: Quantity): Request { Request(p, o, "realtime", e, now) }

  function Repeat(q: Request, n: nat): seq<Event> {
    if n == 0 then [] else [Reserve(q)] + Repeat(q, n - 1)
  }

  lemma {:induction false} RepeatOnly(q: Request, n: nat)
    ensures forall e :: e in Repeat(q, n) ==> e == Reserve(q)
  {
    if n > 0 {
      RepeatOnly(q, n - 1);
    }
  }

  lemma {:induction false} RunAppend(s: Ledger, a: seq<Event>, b: seq<Event>)
    ensures Run(s, a + b) == Run(Run(s, a), b)
    decreases |a|
  {
    if a == [] {
      assert a + b == b;
    } else {
      assert (a + b)[1..] == a[1..] + b;
      RunAppend(Step(s, a[0]), a[1..], b);
    }
  }

  lemma RunRepeat(s: Ledger, q: Request, n: nat)
    requires n > 0
    ensures Run(s, Repeat(q, n)) == Run(Step(s, Reserve(q)), Repeat(q, n - 1))
  {
    assert Repeat(q, n)[1..] == Repeat(q, n - 1);
  }

  // ----- Sums of equal amounts -----

  function Times(n: nat, v: Quantity): Quantity {
    if n == 0 then 0.0 else Times(n - 1, v) + v
  }

  lemma {:induction false} TimesIs(n: nat, v: Quantity)
    ensures Times(n, v) == n as real * v
  {
    if n == 0 {
      assert 0.0 * v == 0.0;
    } else {
      TimesIs(n - 1, v);
      var k := (n - 1) as real;
      assert n as real == k + 1.0;
      assert (k + 1.0) * v == k * v + v;
    }
  }

  lemma {:induction false} TimesMonotone(a: nat, b: nat, v: Quantity)
    requires a <= b
    ensures Times(a, v) <= Times(b, v)
  {
    if a < b {
      TimesMonotone(a, b - 1, v);
    }
  }

  lemma {:induction false} TimesDouble(n: nat, v: Quantity)
    ensures Times(2 * n, v) == 2.0 * Times(n, v)
  {
    if n > 0 {
      TimesDouble(n - 1, v);
      assert Times(2 * n, v) == Times(2 * n - 1, v) + v;
      assert Times(2 * n - 1, v) == Times(2 * (n - 1), v) + v;
    }
  }

  /** The number of requests of size w that a cap v admits; twice as many exceed it. */
  lemma FloorTwice(v: real, w: Quantity) returns (n: nat)
    requires 0.0 < w <= v
    ensures n > 0 && Times(n, w) <= v < Times(2 * n, w) && v < Times(n + 1, w)
  {
    var floor := (v / w).Floor;
    QuotientBound(v, w, floor as real);
    QuotientBound(v, w, (floor + 1) as real);
    QuotientBound(v, w, 1.0);
    assert (floor + 1) as real == floor as real + 1.0;
    n := floor;
    TimesIs(n, w);
    TimesIs(n + 1, w);
    TimesMonotone(n + 1, 2 * n, w);
  }

  lemma QuotientBound(v: real, w: real, x: real)
    requires w > 0.0
    ensures x <= v / w <==> x * w <= v
  {
    var ratio := v / w;
    assert ratio * w == v;
    if x <= ratio {
      ProductMonotone(x, ratio, w);
    } else {
      ProductPositive(x - ratio, w);
      assert (x - ratio) * w == x * w - ratio * w;
    }
  }

  lemma Cancel(x: real, y: real, w: real)
    requires w > 0.0 && x * w <= y * w
    ensures x <= y
  {
    if x > y {
      ProductPositive(x - y, w);
    }
  }

  /** The amount is as wide for pieces of size v as u is for pieces of size w. */
  predicate AsWide(amount: real, v: real, u: real, w: real) { amount * w >= u * v }

  /** If n amounts w fit a cap, then n amounts v fit any room that is as wide. */
  lemma AsManyFit(cap: real, room: real, w: Quantity, v: Quantity, n: nat)
    requires w > 0.0 && AsWide(room, v, cap, w) && Times(n, w) <= cap
    ensures Times(n, v) <= room
  {
    TimesIs(n, w);
    TimesIs(n, v);
    WideProduct(cap, room, w, v, n as real);
  }

  lemma WideProduct(cap: real, room: real, w: real, v: real, k: real)
    requires w > 0.0 && v >= 0.0 && AsWide(room, v, cap, w) && k * w <= cap
    ensures k * v <= room
  {
    ProductMonotone(k * w, cap, v);
    assert (k * v) * w == (k * w) * v;
    Cancel(k * v, room, w);
  }

  lemma FullCapWide(p: Profile, k: Limit, l: Limit, v: real, w: real)
    requires AsWide(k.amount, v, l.amount, w)
    ensures AsWide(FullCap(k, p), v, FullCap(l, p), w)
  {
    WideScaled(k.amount, v, l.amount, w, SafetyFactor(p.margin));
  }

  lemma WideScaled(amount: real, v: real, u: real, w: real, f: real)
    requires AsWide(amount, v, u, w) && f >= 0.0
    ensures AsWide(amount * f, v, u * f, w)
  {
    ProductMonotone(u * v, amount * w, f);
    assert (u * v) * f == (u * f) * v && (amount * w) * f == (amount * f) * w;
  }

  /** A limit as wide as l admits as many equal requests as l does. */
  lemma LimitAsWide(p: Profile, k: Limit, l: Limit, v: Quantity, w: Quantity, n: nat)
    requires AsWide(k.amount, v, l.amount, w) && w > 0.0 && Times(n, w) <= FullCap(l, p)
    ensures Times(n, v) <= FullCap(k, p)
  {
    FullCapWide(p, k, l, v, w);
    AsManyFit(FullCap(l, p), FullCap(k, p), w, v, n);
  }

  // ----- Rows of equal reservations -----

  lemma {:induction false} UsedAppend(a: seq<Row>, b: seq<Row>, sel: Selector, m: Metric)
    ensures Used(a + b, sel, m) == Used(a, sel, m) + Used(b, sel, m)
  {
    if a == [] {
      assert a + b == b;
    } else {
      UsedHead(a + b, sel, m);
      UsedHead(a, sel, m);
      assert (a + b)[1..] == a[1..] + b;
      UsedAppend(a[1..], b, sel, m);
    }
  }

  predicate Equal(rows: seq<Row>, e: Amounts) {
    forall r :: r in rows ==> r.state.Reserved? && r.amounts == e
  }

  lemma {:induction false} TotalEqual(rows: seq<Row>, e: Amounts, m: Metric)
    requires Equal(rows, e)
    ensures Total(rows, m) == Times(|rows|, MetricValue(e, m))
  {
    if rows != [] {
      TotalEqual(rows[1..], e, m);
    }
  }

  /** Rows before the k-th that are not selected do not count. */
  lemma UsedFrom(rows: seq<Row>, e: Amounts, k: nat, sel: Selector, m: Metric)
    requires Equal(rows, e) && k <= |rows|
    requires forall i :: 0 <= i < k ==> !Selects(sel, rows[i])
    ensures Used(rows, sel, m) <= Times(|rows| - k, MetricValue(e, m))
  {
    var a, b := rows[..k], rows[k..];
    assert rows == a + b;
    UsedAppend(a, b, sel, m);
    forall r | r in a ensures !Selects(sel, r) {
      var i :| 0 <= i < k && a[i] == r;
      assert rows[i] == r;
    }
    UsedNone(a, sel, m);
    UsedAtMost(b, sel, m);
    TotalEqual(b, e, m);
  }

  lemma {:induction false} SweepNone(rows: seq<Row>, now: real)
    requires forall r :: r in rows ==> r.expiresAt > now
    ensures Sweep(rows, now) == rows
  {
    if rows != [] {
      SweepNone(rows[1..], now);
    }
  }

  lemma {:induction false} SweptCountNothing(rows: seq<Row>, now: real, sel: Selector, m: Metric)
    requires forall r :: r in rows ==> r.state.Reserved? && r.expiresAt <= now
    ensures Used(Sweep(rows, now), sel, m) == 0.0
  {
    if rows != [] {
      UsedHead(Sweep(rows, now), sel, m);
      assert Sweep(rows, now)[1..] == Sweep(rows[1..], now);
      SweptCountNothing(rows[1..], now, sel, m);
    }
  }

  lemma {:induction false} InsertLast(rows: seq<Row>, r: Row)
    requires forall x :: x in rows ==> x.createdAt <= r.createdAt
    ensures Insert(rows, r) == rows + [r]
  {
    if rows != [] {
      InsertLast(rows[1..], r);
      assert [rows[0]] + (rows[1..] + [r]) == rows + [r];
    }
  }

  lemma BareCap(k: Limit, q: Request)
    requires q.pool != BACKGROUND
    ensures Cap(k, q) == FullCap(k, q.profile)
  {
  }

  lemma FitsBelow(rows: seq<Row>, q: Request, k: Limit, n: nat)
    requires n > 0 && Times(n, MetricValue(q.estimate, k.metric)) <= Cap(k, q)
    requires Used(rows, Relevant(k, q.now), k.metric) <= Times(n - 1, MetricValue(q.estimate, k.metric))
    ensures Fits(rows, k, q)
  {
  }

  // ----- As many as fit at one instant -----

  /** How long a reservation of the profile stays open. */
  function LifeOf(p: Profile, o: Options): int { Lifetime(EffectiveLimits(p, o)) }

  /** Open reservations like q, made at its time. */
  predicate MadeNow(rows: seq<Row>, q: Request) {
    forall r :: r in rows ==>
      && r.state.Reserved? && r.amounts == q.estimate && r.createdAt == q.now
      && r.expiresAt == q.now + LifeOf(q.profile, q.options) as real
  }

  /** n requests like q fit every limit in force and every unexpired observation at once. */
  predicate RoomAtOnce(s: Ledger, q: Request, n: nat) {
    && (forall k :: k in ActiveLimits(s, q) ==> Times(n, MetricValue(q.estimate, k.metric)) <= Cap(k, q))
    && (forall o :: o in s.live ==> o.resetAt <= q.now || Times(n, MetricValue(q.estimate, o.metric)) <= o.remaining)
  }

  lemma FewNow(rows: seq<Row>, q: Request, n: nat, sel: Selector, m: Metric)
    requires MadeNow(rows, q) && |rows| < n
    ensures Used(rows, sel, m) <= Times(n - 1, MetricValue(q.estimate, m))
  {
    UsedAtMost(rows, sel, m);
    TotalEqual(rows, q.estimate, m);
    TimesMonotone(|rows|, n - 1, MetricValue(q.estimate, m));
  }

  lemma OneMoreNow(s: Ledger, q: Request, n: nat)
    requires MadeNow(s.rows, q) && |s.rows| < n && RoomAtOnce(s, q, n)
    ensures Grants(s, q)
    ensures Step(s, Reserve(q)) == Ledger(s.rows + [NewRow(s, q)], s.live, s.nextId + 1)
    ensures MadeNow(s.rows + [NewRow(s, q)], q)
  {
    SweepNone(s.rows, q.now);
    forall k | k in ActiveLimits(s, q) ensures Fits(s.rows, k, q) {
      FewNow(s.rows, q, n, Relevant(k, q.now), k.metric);
      FitsBelow(s.rows, q, k, n);
    }
    forall o | o in s.live ensures WithinObserved(s.rows, o, q) {
      FewNow(s.rows, q, n, Since(o.observedAt), o.metric);
    }
    GrantedIff(s, q);
    InsertLast(s.rows, NewRow(s, q));
  }

  /** Another j of the n that fit are all granted. */
  lemma {:induction false} FillNow(s: Ledger, q: Request, n: nat, j: nat)
    requires MadeNow(s.rows, q) && |s.rows| + j <= n && RoomAtOnce(s, q, n)
    ensures var t := Run(s, Repeat(q, j));
            MadeNow(t.rows, q) && |t.rows| == |s.rows| + j && t.live == s.live
    decreases j
  {
    if j > 0 {
      OneMoreNow(s, q, n);
      RunRepeat(s, q, j);
      FillNow(Step(s, Reserve(q)), q, n, j - 1);
    }
  }
}
