/** The retry time of a rejection is exact, and the expiry sweep never changes an answer. */
module QuotaRetry {
  import opened Basics
  import opened Quota
  import opened QuotaSums
  import opened QuotaSafety

  // ----- Days -----

  lemma DayBounds(t: real)
    ensures DayStart(t) <= t < DayStart(t) + DAY as real
  {
    var x := t / (DAY as real);
    assert x.Floor as real <= x < x.Floor as real + 1.0;
  }

  lemma DayStartMonotone(a: real, b: real)
    requires a <= b
    ensures DayStart(a) <= DayStart(b)
    ensures b < DayStart(a) + DAY as real <==> DayStart(b) == DayStart(a)
  {
    assert a / (DAY as real) <= b / (DAY as real);
    DayBounds(a);
    DayBounds(b);
    if DayOf(b) > DayOf(a) {
      assert DayOf(b) * DAY >= DayOf(a) * DAY + DAY;
    }
  }

  // ----- One limit -----

  /** While the oldest row is in the window all are; after that it no longer counts. */
  lemma OldestLeavesFirst(rows: seq<Row>, l: Limit, t: real)
    requires rows != [] && Sorted(rows) && l.policy.Rolling? && forall r :: r in rows ==> Live(r)
    ensures var sel, at := Relevant(l, t), rows[0].createdAt + l.window as real;
            && (t < at ==> Used(rows, sel, l.metric) == Total(rows, l.metric)
                           && Used(rows[1..], sel, l.metric) == Total(rows[1..], l.metric))
            && (t >= at ==> Used(rows, sel, l.metric) == Used(rows[1..], sel, l.metric))
  {
    var sel := Relevant(l, t);
    UsedHead(rows, sel, l.metric);
    if t < rows[0].createdAt + l.window as real {
      forall r | r in rows[1..] ensures Selects(sel, r) {
        LaterThanOldest(rows, r);
      }
      UsedAll(rows[1..], sel, l.metric);
    }
  }

  lemma LaterThanOldest(rows: seq<Row>, r: Row)
    requires rows != [] && Sorted(rows) && r in rows[1..]
    ensures rows[0].createdAt <= r.createdAt && r in rows
  {
    var j :| 1 <= j < |rows| && rows[j] == r;
  }

  /** Among live rows in creation order, the release time is the exact moment the request fits. */
  lemma {:induction false} ReleaseExact(rows: seq<Row>, l: Limit, candidate: real, cap: real, fallback: real, t: real)
    requires Sorted(rows) && forall r :: r in rows ==> Live(r)
    requires l.policy.Rolling? && candidate <= cap < Total(rows, l.metric) + candidate
    ensures Used(rows, Relevant(l, t), l.metric) + candidate <= cap <==>
            t >= ReleaseTime(rows, l.metric, Total(rows, l.metric), candidate, cap, l.window, fallback)
    decreases |rows|
  {
    var rest := rows[1..];
    var at := rows[0].createdAt + l.window as real;
    OldestLeavesFirst(rows, l, t);
    UsedAtMost(rest, Relevant(l, t), l.metric);
    if Total(rest, l.metric) + candidate > cap {
      ReleaseExact(rest, l, candidate, cap, at, t);
    }
  }

  /** With unchanged rows and headers, the latest reset among the exceeded headers is the exact
      moment from which none of them refuses the request. */
  lemma {:induction false} LiveRetryExact(rows: seq<Row>, live: seq<Observation>, q: Request, t: Quantity)
    requires t >= q.now
    ensures (forall o :: o in live ==> WithinObserved(rows, o, q.(now := t))) <==> LiveRetry(rows, live, q) <= t
    decreases |live|
  {
    if live != [] {
      var n := |live| - 1;
      assert live == live[..n] + [live[n]];
      LiveRetryExact(rows, live[..n], q, t);
      assert ObservationRetry(rows, live[n], q) <= t <==> WithinObserved(rows, live[n], q.(now := t));
    }
  }

  lemma RollingExact(rows: seq<Row>, l: Limit, v: real, cap: real, now: Quantity, t: real)
    requires Sorted(rows) && t >= now && 0.0 < v <= cap && l.policy.Rolling?
    ensures Used(rows, Relevant(l, t), l.metric) + v <= cap <==>
            t >= RollingRetry(Select(rows, Relevant(l, now)), l.metric, v, cap, l.window, now)
  {
    var relevant := Select(rows, Relevant(l, now));
    var total := Total(relevant, l.metric);
    UsedMonotone(rows, Relevant(l, t), Relevant(l, now), l.metric);
    SelectTwice(rows, Relevant(l, now), Relevant(l, t), l.metric);
    SelectedAll(rows, Relevant(l, now));
    SelectSorted(rows, Relevant(l, now));
    if total + v > cap {
      ReleaseExact(relevant, l, v, cap, now + l.window as real, t);
      ReleaseIsLater(relevant, l.metric, total, v, cap, l.window, now + l.window as real, now);
    }
  }

  lemma DailyExact(rows: seq<Row>, l: Limit, v: real, cap: real, now: Quantity, t: real)
    requires t >= now && 0.0 < v <= cap && l.policy.UtcDay?
    requires forall r :: r in rows ==> r.createdAt < DayStart(now) + DAY as real
    ensures Used(rows, Relevant(l, t), l.metric) + v <= cap <==>
            Used(rows, Relevant(l, now), l.metric) + v <= cap || t >= DayStart(now) + DAY as real
  {
    DayBounds(now);
    DayBounds(t);
    DayStartMonotone(now, t);
    UsedMonotone(rows, Relevant(l, t), Relevant(l, now), l.metric);
    if DayStart(t) == DayStart(now) {
      UsedMonotone(rows, Relevant(l, now), Relevant(l, t), l.metric);
    } else {
      DayStartMonotone(DayStart(now) + DAY as real, t);
      assert DayStart(DayStart(now) + DAY as real) == DayStart(now) + DAY as real by {
        NextDay(now);
      }
      UsedNone(rows, Relevant(l, t), l.metric);
    }
  }

  lemma NextDay(t: real)
    ensures DayStart(DayStart(t) + DAY as real) == DayStart(t) + DAY as real
  {
    var d := DayOf(t) + 1;
    assert ((d * DAY) as real) / (DAY as real) == d as real;
    assert (d as real).Floor == d;
  }

  lemma LimitExact(rows: seq<Row>, l: Limit, q: Request, t: Quantity)
    requires Sorted(rows) && t >= q.now
    requires MetricValue(q.estimate, l.metric) <= Max(0.0, Cap(l, q))
    requires l.policy.UtcDay? ==> forall r :: r in rows ==> r.createdAt < DayStart(q.now) + DAY as real
    ensures Fits(rows, l, q.(now := t)) <==> t >= LimitRetry(rows, l, q)
  {
    var v := MetricValue(q.estimate, l.metric);
    assert Cap(l, q.(now := t)) == Cap(l, q);
    if v > 0.0 {
      if l.policy.UtcDay? {
        DailyExact(rows, l, v, Cap(l, q), q.now, t);
      } else {
        RollingExact(rows, l, v, Cap(l, q), q.now, t);
      }
    }
  }

  lemma {:induction false} LimitsExact(rows: seq<Row>, limits: seq<Limit>, q: Request, t: Quantity)
    requires Sorted(rows) && t >= q.now
    requires forall l :: l in limits ==> MetricValue(q.estimate, l.metric) <= Max(0.0, Cap(l, q))
    requires forall l, r :: l in limits && l.policy.UtcDay? && r in rows ==> r.createdAt < DayStart(q.now) + DAY as real
    ensures (forall l :: l in limits ==> Fits(rows, l, q.(now := t))) <==> t >= LimitsRetry(rows, limits, q)
    decreases |limits|
  {
    if limits != [] {
      var n := |limits| - 1;
      assert limits == limits[..n] + [limits[n]];
      LimitsExact(rows, limits[..n], q, t);
      LimitExact(rows, limits[n], q, t);
    }
  }

  // ----- The sweep -----

  /** A reservation stays open at least as long as every limit remembers it. */
  predicate Covers(r: Row, limits: seq<Limit>) {
    forall l :: l in limits ==>
      && r.expiresAt >= r.createdAt + l.window as real
      && (l.policy.UtcDay? ==> r.expiresAt >= r.createdAt + DAY as real)
  }

  lemma ExpiredIsIrrelevant(r: Row, limits: seq<Limit>, l: Limit, now: real)
    requires Covers(r, limits) && l in limits && r.expiresAt <= now
    ensures !InWindow(l, now, r.createdAt)
  {
    DayBounds(now);
  }

  lemma {:induction false} SweepKeepsSelection(rows: seq<Row>, limits: seq<Limit>, l: Limit, now: real)
    requires l in limits && forall r :: r in rows ==> Covers(r, limits)
    ensures Select(Sweep(rows, now), Relevant(l, now)) == Select(rows, Relevant(l, now))
  {
    if rows != [] {
      SweepKeepsSelection(rows[1..], limits, l, now);
      var out := Sweep(rows, now);
      assert out[1..] == Sweep(rows[1..], now);
      if rows[0].expiresAt <= now {
        ExpiredIsIrrelevant(rows[0], limits, l, now);
      }
    }
  }

  lemma {:induction false} SweepKeepsRetry(rows: seq<Row>, limits: seq<Limit>, some: seq<Limit>, q: Request)
    requires forall r :: r in rows ==> Covers(r, limits)
    requires forall l :: l in some ==> l in limits
    ensures LimitsRetry(Sweep(rows, q.now), some, q) == LimitsRetry(rows, some, q)
    ensures forall l :: l in some ==> (Fits(Sweep(rows, q.now), l, q) <==> Fits(rows, l, q))
    decreases |some|
  {
    if some != [] {
      var n := |some| - 1;
      assert some == some[..n] + [some[n]];
      SweepKeepsRetry(rows, limits, some[..n], q);
      SweepKeepsSelection(rows, limits, some[n], q.now);
    }
  }

  // ----- Exactness -----

  /** Nothing is observed live, rows are in order and outlive their windows. */
  ghost predicate Tidy(s: Ledger, limits: seq<Limit>) {
    s.live == [] && Sorted(s.rows) && forall r :: r in s.rows ==> Covers(r, limits)
  }

  /** A limit per UTC day sees no row of a later day. */
  predicate NoLaterDay(s: Ledger, q: Request) {
    forall l, r :: l in ActiveLimits(s, q) && l.policy.UtcDay? && r in s.rows ==>
      r.createdAt < DayStart(q.now) + DAY as real
  }

  predicate FitsEveryCap(s: Ledger, q: Request) {
    forall l :: l in ActiveLimits(s, q) ==> MetricValue(q.estimate, l.metric) <= Max(0.0, Cap(l, q))
  }

  /** From the decision on, against unchanged rows, the request is refused before the
      computed time and granted from it on. */
  lemma RetryTimeExact(s: Ledger, q: Request, t: Quantity)
    requires Tidy(s, ActiveLimits(s, q)) && NoLaterDay(s, q) && FitsEveryCap(s, q)
    requires t >= q.now
    ensures Grants(s, q.(now := t)) <==> t >= RetryAt(s, q)
  {
    var later := q.(now := t);
    var limits := ActiveLimits(s, q);
    assert ActiveLimits(s, later) == limits;
    SweepKeepsRetry(s.rows, limits, limits, q);
    SweepKeepsRetry(s.rows, limits, limits, later);
    LimitsExact(s.rows, limits, q, t);
    GrantedIff(s, later);
  }

  /** A request over some cap is refused at every time. */
  lemma TooLargeNeverGranted(s: Ledger, q: Request)
    requires !FitsEveryCap(s, q)
    ensures !Grants(s, q)
  {
    var l :| l in ActiveLimits(s, q) && MetricValue(q.estimate, l.metric) > Max(0.0, Cap(l, q));
    GrantedIff(s, q);
    assert !Fits(Sweep(s.rows, q.now), l, q);
  }

  ghost predicate ExactFrom(s: Ledger, q: Request) {
    forall t: Quantity :: t >= q.now ==> (Grants(s, q.(now := t)) <==> t >= RetryAt(s, q))
  }

  /** The computed time is exact if and only if the request fits every cap by itself. */
  lemma RetryTimeExactIff(s: Ledger, q: Request)
    requires Tidy(s, ActiveLimits(s, q)) && NoLaterDay(s, q)
    ensures ExactFrom(s, q) <==> FitsEveryCap(s, q)
  {
    if FitsEveryCap(s, q) {
      forall t: Quantity | t >= q.now ensures Grants(s, q.(now := t)) <==> t >= RetryAt(s, q) {
        RetryTimeExact(s, q, t);
      }
    } else {
      TooLargeNeverGranted(s, q);
      var t: Quantity := RetryAt(s, q);
      var later := q.(now := t);
      assert ActiveLimits(s, later) == ActiveLimits(s, q);
      assert forall l :: Cap(l, later) == Cap(l, q);
      TooLargeNeverGranted(s, later);
    }
  }

  // ----- Reachable ledgers -----

  /** One profile and one set of options throughout, and no headers. */
  predicate Plain(events: seq<Event>, p: Profile, o: Options) {
    forall e :: e in events ==>
      && (e.Reserve? ==> e.request.profile == p && e.request.options == o)
      && (e.Complete? ==> e.headers == [])
  }

  /** Reservations live for a day if a limit counts by the day. */
  predicate WholeDays(limits: seq<Limit>, lifetime: int) {
    forall l :: l in limits && l.policy.UtcDay? ==> lifetime >= DAY
  }

  predicate LiveADay(p: Profile, o: Options) {
    WholeDays(EffectiveLimits(p, o), Lifetime(EffectiveLimits(p, o)))
  }

  lemma {:induction false} InsertTidy(rows: seq<Row>, r: Row)
    requires Sorted(rows)
    ensures Sorted(Insert(rows, r))
    ensures forall x :: x in Insert(rows, r) <==> x in rows || x == r
  {
    if rows != [] && r.createdAt >= rows[0].createdAt {
      InsertTidy(rows[1..], r);
      var rest := Insert(rows[1..], r);
      forall i | 0 <= i < |rest| ensures rows[0].createdAt <= rest[i].createdAt {
        assert rest[i] in rest;
        if rest[i] != r {
          var j :| 1 <= j < |rows| && rows[j] == rest[i];
        }
      }
    }
  }

  /** Sweeping, completing and cancelling change rows in place and never touch their times. */
  predicate SameTimes(a: seq<Row>, b: seq<Row>) {
    |a| == |b| && forall i :: 0 <= i < |a| ==>
      a[i].createdAt == b[i].createdAt && a[i].expiresAt == b[i].expiresAt && a[i].id == b[i].id
  }

  lemma {:induction false} InPlace(rows: seq<Row>, now: real, id: nat, a: Amounts)
    ensures SameTimes(rows, Sweep(rows, now))
    ensures SameTimes(rows, CompleteRows(rows, id, a))
    ensures SameTimes(rows, CancelRows(rows, id))
  {
    if rows != [] {
      InPlace(rows[1..], now, id, a);
    }
  }

  lemma SameTimesTidy(a: seq<Row>, b: seq<Row>, limits: seq<Limit>)
    requires SameTimes(a, b) && Sorted(a) && forall r :: r in a ==> Covers(r, limits)
    ensures Sorted(b) && forall r :: r in b ==> Covers(r, limits)
  {
    forall r | r in b ensures Covers(r, limits) {
      var i :| 0 <= i < |b| && b[i] == r;
      assert a[i] in a;
    }
  }

  lemma {:induction false} RunsStayTidy(s: Ledger, events: seq<Event>, p: Profile, o: Options, limits: seq<Limit>)
    requires Plain(events, p, o) && WholeDays(limits, Lifetime(EffectiveLimits(p, o))) && Tidy(s, limits)
    requires forall l :: l in limits ==> l in EffectiveLimits(p, o)
    ensures Tidy(Run(s, events), limits)
    decreases |events|
  {
    if events != [] {
      var e := events[0];
      assert e in events;
      match e {
        case Reserve(q) =>
          InPlace(s.rows, q.now, 0, q.estimate);
          SameTimesTidy(s.rows, Sweep(s.rows, q.now), limits);
          InsertTidy(Sweep(s.rows, q.now), NewRow(s, q));
        case Complete(id, a, _) =>
          InPlace(s.rows, 0.0, id, a);
          SameTimesTidy(s.rows, CompleteRows(s.rows, id, a), limits);
        case Cancel(id) =>
          InPlace(s.rows, 0.0, id, Amounts(0.0, 0.0, 0.0, 0.0));
          SameTimesTidy(s.rows, CancelRows(s.rows, id), limits);
        case Expire(now) =>
          InPlace(s.rows, now, 0, Amounts(0.0, 0.0, 0.0, 0.0));
          SameTimesTidy(s.rows, Sweep(s.rows, now), limits);
      }
      RunsStayTidy(Step(s, e), events[1..], p, o, limits);
    }
  }

  lemma {:induction false} MergedFromBase(base: seq<Limit>, limits: seq<Limit>)
    ensures forall l :: l in PutAll(base, limits) ==> l in base || l in limits
    decreases |limits|
  {
    if limits != [] {
      PutMembers(base, limits[0]);
      MergedFromBase(Put(base, limits[0]), limits[1..]);
    }
  }

  lemma {:induction false} PutMembers(limits: seq<Limit>, l: Limit)
    ensures forall k :: k in Put(limits, l) ==> k == l || k in limits
  {
    if limits != [] {
      PutMembers(limits[1..], l);
    }
  }

  /** In every ledger a plain run reaches, a rejection's time is exact for requests that
      fit every cap, provided that reservations live for a day when a limit counts by the day. */
  lemma ReachableRetryExact(events: seq<Event>, q: Request, t: Quantity)
    requires Plain(events, q.profile, q.options) && LiveADay(q.profile, q.options)
    requires var s := Run(EMPTY_LEDGER, events); NoLaterDay(s, q) && FitsEveryCap(s, q) && t >= q.now
    ensures var s := Run(EMPTY_LEDGER, events); Grants(s, q.(now := t)) <==> t >= RetryAt(s, q)
  {
    var s := Run(EMPTY_LEDGER, events);
    var base := EffectiveLimits(q.profile, q.options);
    MergedFromBase([], base);
    RunsStayTidy(EMPTY_LEDGER, events, q.profile, q.options, []);
    var limits := ActiveLimits(s, q);
    RunsStayTidy(EMPTY_LEDGER, events, q.profile, q.options, limits);
    RetryTimeExact(s, q, t);
  }

  // ----- A ledger that never sweeps -----

  function KeptRetryAt(s: Ledger, q: Request): real {
    Max(LimitsRetry(s.rows, ActiveLimits(s, q), q), LiveRetry(s.rows, s.live, q))
  }

  function KeptReserveStep(s: Ledger, q: Request): (Ledger, Outcome) {
    var retryAt := KeptRetryAt(s, q);
    if retryAt > q.now then (s, Rejected(retryAt))
    else
      var row := NewRow(s, q);
      (Ledger(Insert(s.rows, row), s.live, s.nextId + 1),
       Granted(Reservation(row.id, row.amounts, row.createdAt, row.expiresAt)))
  }

  function KeptStep(s: Ledger, e: Event): Ledger {
    match e
    case Reserve(q) => KeptReserveStep(s, q).0
    case Expire(_) => s
    case _ => Step(s, e)
  }

  function Answers(s: Ledger, events: seq<Event>): seq<Outcome>
    decreases |events|
  {
    if events == [] then []
    else
      (if events[0].Reserve? then [ReserveStep(s, events[0].request).1] else [])
      + Answers(Step(s, events[0]), events[1..])
  }

  function KeptAnswers(s: Ledger, events: seq<Event>): seq<Outcome>
    decreases |events|
  {
    if events == [] then []
    else
      (if events[0].Reserve? then [KeptReserveStep(s, events[0].request).1] else [])
      + KeptAnswers(KeptStep(s, events[0]), events[1..])
  }

  /** The clock readings of reservations and sweeps never go back. */
  predicate NonDecreasing(events: seq<Event>, clock: real)
    decreases |events|
  {
    events == [] ||
    match events[0]
    case Reserve(q) => q.now >= clock && NonDecreasing(events[1..], q.now)
    case Expire(now) => now >= clock && NonDecreasing(events[1..], now)
    case _ => NonDecreasing(events[1..], clock)
  }

  /** No limit can see the row any more. */
  predicate Stale(r: Row, limits: seq<Limit>, clock: real) {
    forall l :: l in limits ==>
      r.createdAt + l.window as real <= clock && (l.policy.UtcDay? ==> r.createdAt + DAY as real <= clock)
  }

  predicate Alike(a: Row, b: Row, limits: seq<Limit>, clock: real) {
    && a.id == b.id && a.createdAt == b.createdAt
    && Covers(a, limits)
    && (a == b || Stale(a, limits, clock))
  }

  predicate AllAlike(a: seq<Row>, b: seq<Row>, limits: seq<Limit>, clock: real) {
    |a| == |b| && forall i :: 0 <= i < |a| ==> Alike(a[i], b[i], limits, clock)
  }

  lemma {:induction false} AlikeSelection(a: seq<Row>, b: seq<Row>, limits: seq<Limit>, clock: real, now: real,
                                          l: Limit)
    requires AllAlike(a, b, limits, clock) && l in limits && clock <= now
    ensures Select(Sweep(a, now), Relevant(l, now)) == Select(b, Relevant(l, now))
  {
    if a != [] {
      assert AllAlike(a[1..], b[1..], limits, clock);
      AlikeSelection(a[1..], b[1..], limits, clock, now, l);
      var out := Sweep(a, now);
      assert out[1..] == Sweep(a[1..], now);
      assert Alike(a[0], b[0], limits, clock);
      DayBounds(now);
      if a[0].expiresAt <= now {
        ExpiredIsIrrelevant(a[0], limits, l, now);
      }
    }
  }

  lemma {:induction false} AlikeRetry(a: seq<Row>, b: seq<Row>, limits: seq<Limit>, some: seq<Limit>,
                                      clock: real, q: Request)
    requires AllAlike(a, b, limits, clock) && clock <= q.now && forall l :: l in some ==> l in limits
    ensures LimitsRetry(Sweep(a, q.now), some, q) == LimitsRetry(b, some, q)
    decreases |some|
  {
    if some != [] {
      var n := |some| - 1;
      AlikeRetry(a, b, limits, some[..n], clock, q);
      AlikeSelection(a, b, limits, clock, q.now, some[n]);
    }
  }

  lemma {:induction false} AlikeSweep(a: seq<Row>, b: seq<Row>, limits: seq<Limit>, clock: real, now: real)
    requires AllAlike(a, b, limits, clock) && clock <= now
    ensures AllAlike(Sweep(a, now), b, limits, now)
  {
    if a != [] {
      assert AllAlike(a[1..], b[1..], limits, clock);
      AlikeSweep(a[1..], b[1..], limits, clock, now);
      var out := Sweep(a, now);
      assert Alike(a[0], b[0], limits, clock);
      forall i | 0 <= i < |out| ensures Alike(out[i], b[i], limits, now) {
        if i > 0 {
          assert Alike(Sweep(a[1..], now)[i - 1], b[1..][i - 1], limits, now);
        }
      }
    }
  }

  lemma {:induction false} AlikeInsert(a: seq<Row>, b: seq<Row>, limits: seq<Limit>, clock: real, r: Row)
    requires AllAlike(a, b, limits, clock) && Covers(r, limits)
    ensures AllAlike(Insert(a, r), Insert(b, r), limits, clock)
  {
    if a != [] {
      assert Alike(a[0], b[0], limits, clock);
      assert AllAlike(a[1..], b[1..], limits, clock);
      AlikeInsert(a[1..], b[1..], limits, clock, r);
    }
  }

  lemma {:induction false} AlikeSettle(a: seq<Row>, b: seq<Row>, limits: seq<Limit>, clock: real, id: nat,
                                       amounts: Amounts)
    requires AllAlike(a, b, limits, clock)
    ensures AllAlike(CompleteRows(a, id, amounts), CompleteRows(b, id, amounts), limits, clock)
    ensures AllAlike(CancelRows(a, id), CancelRows(b, id), limits, clock)
  {
    if a != [] {
      assert Alike(a[0], b[0], limits, clock);
      assert AllAlike(a[1..], b[1..], limits, clock);
      AlikeSettle(a[1..], b[1..], limits, clock, id, amounts);
    }
  }

  lemma AlikeOlder(a: seq<Row>, b: seq<Row>, limits: seq<Limit>, clock: real, now: real)
    requires AllAlike(a, b, limits, clock) && clock <= now
    ensures AllAlike(a, b, limits, now)
  {
    forall i | 0 <= i < |a| ensures Alike(a[i], b[i], limits, now) {
      assert Alike(a[i], b[i], limits, clock);
    }
  }

  /** A reservation gets the same answer from both ledgers and leaves them alike. */
  lemma AlikeReserve(a: Ledger, b: Ledger, q: Request, clock: real)
    requires LiveADay(q.profile, q.options) && clock <= q.now
    requires a.live == b.live == [] && a.nextId == b.nextId
    requires AllAlike(a.rows, b.rows, EffectiveLimits(q.profile, q.options), clock)
    ensures var (s, x) := ReserveStep(a, q);
            var (t, y) := KeptReserveStep(b, q);
            && x == y && s.nextId == t.nextId && s.live == t.live == []
            && AllAlike(s.rows, t.rows, EffectiveLimits(q.profile, q.options), q.now)
  {
    var limits := EffectiveLimits(q.profile, q.options);
    MergedFromBase([], limits);
    AlikeRetry(a.rows, b.rows, limits, ActiveLimits(a, q), clock, q);
    assert RetryAt(a, q) == KeptRetryAt(b, q);
    AlikeSweep(a.rows, b.rows, limits, clock, q.now);
    AlikeInsert(Sweep(a.rows, q.now), b.rows, limits, q.now, NewRow(a, q));
    AlikeOlder(a.rows, b.rows, limits, clock, q.now);
  }

  lemma {:induction false} SameAnswers(a: Ledger, b: Ledger, events: seq<Event>, p: Profile, o: Options, clock: real)
    requires Plain(events, p, o) && NonDecreasing(events, clock) && LiveADay(p, o)
    requires a.live == b.live == [] && a.nextId == b.nextId
    requires AllAlike(a.rows, b.rows, EffectiveLimits(p, o), clock)
    ensures Answers(a, events) == KeptAnswers(b, events)
    decreases |events|
  {
    if events != [] {
      var e := events[0];
      var limits := EffectiveLimits(p, o);
      assert e in events;
      match e {
        case Reserve(q) =>
          AlikeReserve(a, b, q, clock);
          SameAnswers(Step(a, e), KeptStep(b, e), events[1..], p, o, q.now);
        case Complete(id, amounts, _) =>
          AlikeSettle(a.rows, b.rows, limits, clock, id, amounts);
          SameAnswers(Step(a, e), KeptStep(b, e), events[1..], p, o, clock);
        case Cancel(id) =>
          AlikeSettle(a.rows, b.rows, limits, clock, id, Amounts(0.0, 0.0, 0.0, 0.0));
          SameAnswers(Step(a, e), KeptStep(b, e), events[1..], p, o, clock);
        case Expire(now) =>
          AlikeSweep(a.rows, b.rows, limits, clock, now);
          SameAnswers(Step(a, e), KeptStep(b, e), events[1..], p, o, now);
      }
    }
  }

  /** With a clock that never goes back, every answer of a run, retry times included, is the
      one a ledger without any expiry sweep would give. */
  lemma SweepIsInvisible(events: seq<Event>, p: Profile, o: Options)
    requires Plain(events, p, o) && NonDecreasing(events, 0.0) && LiveADay(p, o)
    ensures Answers(EMPTY_LEDGER, events) == KeptAnswers(EMPTY_LEDGER, events)
  {
    SameAnswers(EMPTY_LEDGER, EMPTY_LEDGER, events, p, o, 0.0);
  }
}
