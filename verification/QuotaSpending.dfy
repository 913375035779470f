/** Runs after a header whose reset is further away than a reservation's lifetime: what remains is
    granted at one time, the expiry sweep releases it while the requests are in flight, and it is
    granted again. When the reset comes sooner nothing is forgotten before it, and when less remains
    than any request asks for nothing is granted. */
module QuotaSpending {
  import opened Basics
  import opened Quota
  import opened QuotaSums
  import opened QuotaSafety
  import opened QuotaRetry
  import opened QuotaLimits
  import opened QuotaCaps
  import opened QuotaBursts
  import opened QuotaTwins
  import opened QuotaGrants

  /** A run of one profile after the observation, which no newer header replaces. */
  predicate BudgetRun(events: seq<Event>, p: Profile, opt: Options, o: Observation, least: real, most: real) {
    && (forall e :: e in events && e.Reserve? ==> e.request.profile == p && e.request.options == opt)
    && LeavesObservation(events, o) && NonDecreasing(events, o.observedAt)
    && AsksBetween(events, o.metric, least, most)
  }

  /** In every such run everything granted after the observation and before its reset, and not
      cancelled by its caller, stays within the remaining amount, up to what completions added. */
  ghost predicate BudgetKept(p: Profile, opt: Options, o: Observation, least: real, most: real) {
    forall s: Ledger, events: seq<Event>, hi: real ::
      && o in s.live && (forall r :: r in s.rows ==> r.createdAt <= o.observedAt)
      && BudgetRun(events, p, opt, o, least, most) && hi < o.resetAt ==>
        Used(GrantsRun(s, s.rows, events), Interval(o.observedAt, hi, false), o.metric) <=
        o.remaining + GrantsRaised(s, s.rows, events, Interval(o.observedAt, hi, false), o.metric)
  }

  /** The limits in force while the observation is the only one. */
  function LimitsUnder(p: Profile, opt: Options, o: Observation): seq<Limit> {
    LimitsWithLiveState(EffectiveLimits(p, opt), [o], p.manual, o.observedAt)
  }

  /** The cap has room for as many requests like e as the observation leaves. */
  predicate RoomForRemaining(k: Limit, p: Profile, o: Observation, e: Amounts) {
    AsWide(FullCap(k, p), MetricValue(e, k.metric), o.remaining, MetricValue(e, o.metric))
  }

  /** What remains is what binds for requests like e: every limit in force has room for it. */
  predicate BindsObserved(p: Profile, opt: Options, o: Observation, e: Amounts) {
    forall k :: k in LimitsUnder(p, opt, o) ==> RoomForRemaining(k, p, o, e)
  }

  /** All that remains at one time, and once more when those reservations have expired. */
  function Spend(p: Profile, opt: Options, e: Amounts, first: Quantity, n: nat): seq<Event> {
    Repeat(AskFor(p, opt, e, first), n) + [Reserve(AskFor(p, opt, e, first + LifeOf(p, opt) as real))]
  }

  function Observed(o: Observation): Ledger { Ledger([], [o], 0) }

  // ----- Nothing is forgotten, or nothing is granted -----

  lemma {:induction false} ObservedAdmissions(s: Ledger, events: seq<Event>, o: Observation, hi: real)
    requires o in s.live && LeavesObservation(events, o) && hi < o.resetAt
    ensures AdmittedWithin(s, events, Interval(o.observedAt, hi, false), o.metric, o.remaining)
    decreases |events|
  {
    if events != [] {
      var sel := Interval(o.observedAt, hi, false);
      var e := events[0];
      assert e in events;
      if Admits(s, e, sel, o.metric) {
        var rows := Sweep(s.rows, e.request.now);
        GrantedIff(s, e.request);
        assert WithinObserved(rows, o, e.request);
        UsedMonotone(rows, sel, Since(o.observedAt), o.metric);
        UsedInsert(rows, NewRow(s, e.request), sel, o.metric);
      }
      if e.Complete? {
        ObserveAllKeeps(s.live, e.headers, o);
      }
      ObservedAdmissions(Step(s, e), events[1..], o, hi);
    }
  }

  lemma {:induction false} TwinsSelf(rows: seq<Row>, sel: Selector)
    ensures Twins(rows, rows, sel)
  {
  }

  /** Reservations outlive the observation: nothing is forgotten before the reset. */
  lemma BudgetOutlived(s: Ledger, events: seq<Event>, p: Profile, opt: Options, o: Observation, least: real, most: real,
                       hi: real)
    requires o in s.live && (forall r :: r in s.rows ==> r.createdAt <= o.observedAt) && hi < o.resetAt
    requires BudgetRun(events, p, opt, o, least, most) && o.resetAt <= o.observedAt + LifeOf(p, opt) as real
    ensures Used(GrantsRun(s, s.rows, events), Interval(o.observedAt, hi, false), o.metric) <=
            o.remaining + GrantsRaised(s, s.rows, events, Interval(o.observedAt, hi, false), o.metric)
  {
    var sel := Interval(o.observedAt, hi, false);
    UsedNone(s.rows, sel, o.metric);
    TwinsSelf(s.rows, sel);
    ObservedAdmissions(s, events, o, hi);
    GrantsCarried(s, s.rows, events, sel, o.metric, o.remaining, 0.0, LifeOf(p, opt) as real, o.observedAt);
  }

  lemma {:induction false} QuietGrants(s: Ledger, h: seq<Row>, events: seq<Event>, sel: Selector, m: Metric)
    requires NoAdmission(s, events, sel, m)
    ensures Used(GrantsRun(s, h, events), sel, m) <= Used(h, sel, m) + GrantsRaised(s, h, events, sel, m)
    decreases |events|
  {
    if events != [] {
      OtherGrantsStep(s, h, events[0], sel, m);
      QuietGrants(Step(s, events[0]), GrantsStep(s, h, events[0]), events[1..], sel, m);
    }
  }

  /** Less remains than any request asks for: nothing is granted before the reset. */
  lemma {:induction false} NothingRemains(s: Ledger, events: seq<Event>, o: Observation, least: real, most: real,
                                          hi: real)
    requires o in s.live && LeavesObservation(events, o) && AsksBetween(events, o.metric, least, most)
    requires hi < o.resetAt && o.remaining < least
    ensures NoAdmission(s, events, Interval(o.observedAt, hi, false), o.metric)
    decreases |events|
  {
    if events != [] {
      var e := events[0];
      assert e in events;
      if e.Reserve? && e.request.now <= hi {
        GrantedIff(s, e.request);
        assert !WithinObserved(Sweep(s.rows, e.request.now), o, e.request);
      }
      if e.Complete? {
        ObserveAllKeeps(s.live, e.headers, o);
      }
      NothingRemains(Step(s, e), events[1..], o, least, most, hi);
    }
  }

  // ----- Spending it twice -----

  lemma RemainingFits(k: Limit, p: Profile, o: Observation, e: Amounts, n: nat)
    requires RoomForRemaining(k, p, o, e) && MetricValue(e, o.metric) > 0.0
    requires Times(n, MetricValue(e, o.metric)) <= o.remaining
    ensures Times(n, MetricValue(e, k.metric)) <= FullCap(k, p)
  {
    AsManyFit(o.remaining, FullCap(k, p), MetricValue(e, o.metric), MetricValue(e, k.metric), n);
  }

  lemma MergeOne(limits: seq<Limit>, o: Observation, a: real, b: real)
    requires a < o.resetAt && b < o.resetAt
    ensures MergeLive(limits, [o], a) == MergeLive(limits, [o], b)
  {
    assert [o][1..] == [];
    var next := Put(limits, LiveLimit(Lookup(limits, o.metric, o.window), o));
    assert MergeLive(limits, [o], a) == MergeLive(next, [], a);
    assert MergeLive(limits, [o], b) == MergeLive(next, [], b);
  }

  lemma RemainingAtOnce(s: Ledger, p: Profile, opt: Options, o: Observation, e: Amounts, now: Quantity, n: nat)
    requires s.live == [o] && BindsObserved(p, opt, o, e) && MetricValue(e, o.metric) > 0.0
    requires o.observedAt <= now < o.resetAt && Times(n, MetricValue(e, o.metric)) <= o.remaining
    ensures RoomAtOnce(s, AskFor(p, opt, e, now), n)
  {
    var q := AskFor(p, opt, e, now);
    MergeOne(PutAll([], EffectiveLimits(p, opt)), o, now, o.observedAt);
    assert ActiveLimits(s, q) == LimitsUnder(p, opt, o);
    forall k | k in ActiveLimits(s, q) ensures Times(n, MetricValue(e, k.metric)) <= Cap(k, q) {
      BareCap(k, q);
      RemainingFits(k, p, o, e, n);
    }
  }

  /** While nothing expires the grants are the rows. */
  lemma {:induction false} FillGrants(s: Ledger, q: Request, n: nat, j: nat)
    requires MadeNow(s.rows, q) && |s.rows| + j <= n && RoomAtOnce(s, q, n)
    ensures GrantsRun(s, s.rows, Repeat(q, j)) == Run(s, Repeat(q, j)).rows
    decreases j
  {
    if j > 0 {
      OneMoreNow(s, q, n);
      InsertLast(s.rows, NewRow(s, q));
      assert Repeat(q, j)[1..] == Repeat(q, j - 1);
      FillGrants(Step(s, Reserve(q)), q, n, j - 1);
    }
  }

  lemma {:induction false} GrantsAppend(s: Ledger, h: seq<Row>, a: seq<Event>, b: seq<Event>)
    ensures GrantsRun(s, h, a + b) == GrantsRun(Run(s, a), GrantsRun(s, h, a), b)
    decreases |a|
  {
    if a == [] {
      assert a + b == b;
    } else {
      assert (a + b)[1..] == a[1..] + b;
      GrantsAppend(Step(s, a[0]), GrantsStep(s, h, a[0]), a[1..], b);
    }
  }

  /** After the expiry the rows are swept and one more request like them is granted. */
  lemma SweptAndGranted(s: Ledger, p: Profile, opt: Options, o: Observation, e: Amounts, first: Quantity)
    requires s.live == [o] && BindsObserved(p, opt, o, e) && 0.0 < MetricValue(e, o.metric) <= o.remaining
    requires MadeNow(s.rows, AskFor(p, opt, e, first)) && o.observedAt <= first
    requires first + LifeOf(p, opt) as real < o.resetAt
    ensures Grants(s, AskFor(p, opt, e, first + LifeOf(p, opt) as real))
  {
    var q := AskFor(p, opt, e, first + LifeOf(p, opt) as real);
    var rows := Sweep(s.rows, q.now);
    assert Times(1, MetricValue(e, o.metric)) == MetricValue(e, o.metric);
    RemainingAtOnce(s, p, opt, o, e, q.now, 1);
    forall k | k in ActiveLimits(s, q) ensures Fits(rows, k, q) {
      SweptCountNothing(s.rows, q.now, Relevant(k, q.now), k.metric);
      FitsBelow(rows, q, k, 1);
    }
    SweptCountNothing(s.rows, q.now, Since(o.observedAt), o.metric);
    GrantedIff(s, q);
  }

  /** The first n are granted together. */
  lemma FirstSpent(p: Profile, opt: Options, o: Observation, e: Amounts, first: Quantity, n: nat)
    requires BindsObserved(p, opt, o, e) && MetricValue(e, o.metric) > 0.0 && o.observedAt < first < o.resetAt
    requires Times(n, MetricValue(e, o.metric)) <= o.remaining
    ensures var q := AskFor(p, opt, e, first);
            var s := Run(Observed(o), Repeat(q, n));
            && MadeNow(s.rows, q) && |s.rows| == n && s.live == [o]
            && GrantsRun(Observed(o), [], Repeat(q, n)) == s.rows
  {
    var q := AskFor(p, opt, e, first);
    RemainingAtOnce(Observed(o), p, opt, o, e, first, n);
    FillNow(Observed(o), q, n, n);
    FillGrants(Observed(o), q, n, n);
  }

  /** The last one is granted when they have expired. */
  lemma SpentRows(p: Profile, opt: Options, o: Observation, e: Amounts, first: Quantity, n: nat)
    requires BindsObserved(p, opt, o, e) && 0.0 < MetricValue(e, o.metric) <= o.remaining
    requires Times(n, MetricValue(e, o.metric)) <= o.remaining && o.observedAt < first
    requires first + LifeOf(p, opt) as real < o.resetAt
    ensures var q1, q2 := AskFor(p, opt, e, first), AskFor(p, opt, e, first + LifeOf(p, opt) as real);
            var s := Run(Observed(o), Repeat(q1, n));
            && MadeNow(s.rows, q1) && |s.rows| == n
            && GrantsRun(Observed(o), [], Spend(p, opt, e, first, n)) == Insert(s.rows, NewRow(s, q2))
  {
    var q1, q2 := AskFor(p, opt, e, first), AskFor(p, opt, e, first + LifeOf(p, opt) as real);
    var s := Run(Observed(o), Repeat(q1, n));
    FirstSpent(p, opt, o, e, first, n);
    SweptAndGranted(s, p, opt, o, e, first);
    SpendGrants(p, opt, o, e, first, n);
    LastGrant(s, s.rows, q2);
  }

  lemma SpendGrants(p: Profile, opt: Options, o: Observation, e: Amounts, first: Quantity, n: nat)
    ensures var q1, q2 := AskFor(p, opt, e, first), AskFor(p, opt, e, first + LifeOf(p, opt) as real);
            GrantsRun(Observed(o), [], Spend(p, opt, e, first, n)) ==
            GrantsRun(Run(Observed(o), Repeat(q1, n)), GrantsRun(Observed(o), [], Repeat(q1, n)), [Reserve(q2)])
  {
    var q1, q2 := AskFor(p, opt, e, first), AskFor(p, opt, e, first + LifeOf(p, opt) as real);
    GrantsAppend(Observed(o), [], Repeat(q1, n), [Reserve(q2)]);
  }

  lemma SpentTwice(p: Profile, opt: Options, o: Observation, e: Amounts, first: Quantity, n: nat)
    requires BindsObserved(p, opt, o, e) && MetricValue(e, o.metric) > 0.0 && n > 0
    requires Times(n, MetricValue(e, o.metric)) <= o.remaining && o.observedAt < first
    requires first + LifeOf(p, opt) as real < o.resetAt
    ensures Used(GrantsRun(Observed(o), [], Spend(p, opt, e, first, n)),
                 Interval(o.observedAt, first + LifeOf(p, opt) as real, false), o.metric) ==
            Times(n + 1, MetricValue(e, o.metric))
  {
    var q1, q2 := AskFor(p, opt, e, first), AskFor(p, opt, e, first + LifeOf(p, opt) as real);
    TimesMonotone(1, n, MetricValue(e, o.metric));
    assert Times(1, MetricValue(e, o.metric)) == MetricValue(e, o.metric);
    SpentRows(p, opt, o, e, first, n);
    var s := Run(Observed(o), Repeat(q1, n));
    SpentUse(s.rows, q1, NewRow(s, q2), Interval(o.observedAt, q2.now, false), o.metric);
  }

  lemma SpentUse(rows: seq<Row>, q: Request, last: Row, sel: Selector, m: Metric)
    requires MadeNow(rows, q) && last.state.Reserved? && last.amounts == q.estimate && sel.Interval?
    requires sel.lo < q.now <= last.createdAt == sel.hi && !sel.backgroundOnly
    ensures Used(Insert(rows, last), sel, m) == Times(|rows| + 1, MetricValue(q.estimate, m))
  {
    UsedInsert(rows, last, sel, m);
    UsedAll(rows, sel, m);
    TotalEqual(rows, q.estimate, m);
  }

  lemma LastGrant(s: Ledger, h: seq<Row>, q: Request)
    requires Grants(s, q)
    ensures GrantsRun(s, h, [Reserve(q)]) == Insert(h, NewRow(s, q))
  {
    assert [Reserve(q)][1..] == [];
    assert GrantsRun(s, h, [Reserve(q)]) == GrantsRun(Step(s, Reserve(q)), Insert(h, NewRow(s, q)), []);
  }

  lemma {:induction false} NoCompletionNoGrantRaise(s: Ledger, h: seq<Row>, events: seq<Event>, sel: Selector,
                                                    m: Metric)
    requires forall e :: e in events ==> !e.Complete?
    ensures GrantsRaised(s, h, events, sel, m) == 0.0
    decreases |events|
  {
    if events != [] {
      assert events[0] in events;
      NoCompletionNoGrantRaise(Step(s, events[0]), GrantsStep(s, h, events[0]), events[1..], sel, m);
    }
  }

  lemma {:induction false} SpendInOrder(q: Request, n: nat, last: Request, clock: real)
    requires clock <= q.now <= last.now
    ensures NonDecreasing(Repeat(q, n) + [Reserve(last)], clock)
  {
    var events := Repeat(q, n) + [Reserve(last)];
    if n == 0 {
      assert events == [Reserve(last)];
    } else {
      assert events[1..] == Repeat(q, n - 1) + [Reserve(last)];
      SpendInOrder(q, n - 1, last, q.now);
    }
  }

  lemma SpendIsBudgetRun(p: Profile, opt: Options, o: Observation, e: Amounts, first: Quantity, n: nat, most: real)
    requires o.observedAt < first && MetricValue(e, o.metric) <= most
    ensures BudgetRun(Spend(p, opt, e, first, n), p, opt, o, MetricValue(e, o.metric), most)
    ensures forall x :: x in Spend(p, opt, e, first, n) ==> !x.Complete?
  {
    var q1, q2 := AskFor(p, opt, e, first), AskFor(p, opt, e, first + LifeOf(p, opt) as real);
    RepeatOnly(q1, n);
    SpendInOrder(q1, n, q2, o.observedAt);
  }

  lemma BudgetBroken(p: Profile, opt: Options, o: Observation, e: Amounts, most: real)
    requires BindsObserved(p, opt, o, e) && 0.0 < MetricValue(e, o.metric) <= most && o.observedAt >= 0.0
    requires MetricValue(e, o.metric) <= o.remaining && o.resetAt > o.observedAt + LifeOf(p, opt) as real
    ensures !BudgetKept(p, opt, o, MetricValue(e, o.metric), most)
  {
    var w := MetricValue(e, o.metric);
    var n := FloorTwice(o.remaining, w);
    var first: Quantity := (o.observedAt + (o.resetAt - LifeOf(p, opt) as real)) / 2.0;
    var hi := first + LifeOf(p, opt) as real;
    var events := Spend(p, opt, e, first, n);
    SpentTwice(p, opt, o, e, first, n);
    SpendIsBudgetRun(p, opt, o, e, first, n, most);
    NoCompletionNoGrantRaise(Observed(o), [], events, Interval(o.observedAt, hi, false), o.metric);
    NotKept(p, opt, o, w, most, Observed(o), events, hi);
  }

  lemma NotKept(p: Profile, opt: Options, o: Observation, least: real, most: real, s: Ledger, events: seq<Event>,
                hi: real)
    requires o in s.live && s.rows == [] && BudgetRun(events, p, opt, o, least, most) && hi < o.resetAt
    requires Used(GrantsRun(s, [], events), Interval(o.observedAt, hi, false), o.metric) >
             o.remaining + GrantsRaised(s, [], events, Interval(o.observedAt, hi, false), o.metric)
    ensures !BudgetKept(p, opt, o, least, most)
  {
  }
}
