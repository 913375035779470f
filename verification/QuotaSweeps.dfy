/** Exactly when the expiry sweep can be noticed: a limit that counts by the UTC day keeps
    counting rows that the sweep has already released when reservations live for less than a day. */
module QuotaSweeps {
  import opened Basics
  import opened Quota
  import opened QuotaSums
  import opened QuotaSafety
  import opened QuotaRetry
  import opened QuotaBursts

  /** l counts by the UTC day, and no limit in force is tighter for requests like e. */
  predicate Tightest(p: Profile, o: Options, l: Limit, e: Amounts) {
    && l in FixedLimits(p, o) && l.policy.UtcDay? && MetricValue(e, l.metric) > 0.0
    && forall k :: k in FixedLimits(p, o) ==> NoTighter(k, l, e)
  }

  /** The limit has room for as many requests as l admits. */
  predicate NoTighter(k: Limit, l: Limit, e: Amounts) {
    AsWide(k.amount, MetricValue(e, k.metric), l.amount, MetricValue(e, l.metric))
  }

  /** No answer of any run, with reservations asking for amounts in the range, shows the sweep. */
  ghost predicate SweepUnnoticed(p: Profile, o: Options, m: Metric, least: real, most: real) {
    forall events :: Plain(events, p, o) && NonDecreasing(events, 0.0) && AsksBetween(events, m, least, most) ==>
      Answers(EMPTY_LEDGER, events) == KeptAnswers(EMPTY_LEDGER, events)
  }

  /** In every ledger such runs reach, the retry time of every such request is exact. */
  ghost predicate RetryExactInRuns(p: Profile, o: Options, m: Metric, least: real, most: real) {
    forall events, q, t: Quantity ::
      && Plain(events + [Reserve(q)], p, o) && AsksBetween(events + [Reserve(q)], m, least, most) && t >= q.now
      && NoLaterDay(Run(EMPTY_LEDGER, events), q) && FitsEveryCap(Run(EMPTY_LEDGER, events), q) ==>
        (Grants(Run(EMPTY_LEDGER, events), q.(now := t)) <==> t >= RetryAt(Run(EMPTY_LEDGER, events), q))
  }

  /** For a profile whose tightest limit counts by the UTC day, and reservations that ask for at
      least an amount w of it: the expiry sweep shows in no answer, and every retry time of a
      request that fits the caps is exact, if and only if reservations live for a day, or the
      cap is below w. */
  lemma ShortDayIff(p: Profile, o: Options, l: Limit, e: Amounts, most: real)
    requires Tightest(p, o, l, e) && MetricValue(e, l.metric) <= most
    ensures var least := MetricValue(e, l.metric);
            var harmless := LifeOf(p, o) >= DAY || FullCap(l, p) < least;
            && (SweepUnnoticed(p, o, l.metric, least, most) <==> harmless)
            && (RetryExactInRuns(p, o, l.metric, least, most) <==> harmless)
  {
    var least := MetricValue(e, l.metric);
    if LifeOf(p, o) >= DAY || FullCap(l, p) < least {
      forall events | Plain(events, p, o) && NonDecreasing(events, 0.0) && AsksBetween(events, l.metric, least, most)
        ensures Answers(EMPTY_LEDGER, events) == KeptAnswers(EMPTY_LEDGER, events)
      {
        if LifeOf(p, o) >= DAY {
          SweepIsInvisible(events, p, o);
        } else {
          EmptyAnswersAlike(EMPTY_LEDGER, events, p, o, l, least, most);
        }
      }
      forall events, q, t: Quantity |
        && Plain(events + [Reserve(q)], p, o) && AsksBetween(events + [Reserve(q)], l.metric, least, most) && t >= q.now
        && NoLaterDay(Run(EMPTY_LEDGER, events), q) && FitsEveryCap(Run(EMPTY_LEDGER, events), q)
        ensures Grants(Run(EMPTY_LEDGER, events), q.(now := t)) <==> t >= RetryAt(Run(EMPTY_LEDGER, events), q)
      {
        ExactUnlessShort(p, o, l, least, most, events, q, t);
      }
    } else {
      SweepNoticed(p, o, l, e, most);
    }
  }

  function KeptRun(s: Ledger, events: seq<Event>): Ledger
    decreases |events|
  {
    if events == [] then s else KeptRun(KeptStep(s, events[0]), events[1..])
  }

  lemma {:induction false} AnswersAppend(s: Ledger, a: seq<Event>, b: seq<Event>)
    ensures Answers(s, a + b) == Answers(s, a) + Answers(Run(s, a), b)
    decreases |a|
  {
    if a == [] {
      assert a + b == b;
    } else {
      assert (a + b)[1..] == a[1..] + b;
      AnswersAppend(Step(s, a[0]), a[1..], b);
    }
  }

  lemma {:induction false} KeptAnswersAppend(s: Ledger, a: seq<Event>, b: seq<Event>)
    ensures KeptAnswers(s, a + b) == KeptAnswers(s, a) + KeptAnswers(KeptRun(s, a), b)
    decreases |a|
  {
    if a == [] {
      assert a + b == b;
    } else {
      assert (a + b)[1..] == a[1..] + b;
      KeptAnswersAppend(KeptStep(s, a[0]), a[1..], b);
    }
  }

  predicate SameBoth(s: Ledger, events: seq<Event>) {
    KeptRun(s, events) == Run(s, events) && KeptAnswers(s, events) == Answers(s, events)
  }

  lemma SameFromStep(s: Ledger, q: Request, n: nat)
    requires n > 0 && KeptReserveStep(s, q) == ReserveStep(s, q) && SameBoth(Step(s, Reserve(q)), Repeat(q, n - 1))
    ensures SameBoth(s, Repeat(q, n))
  {
    assert Repeat(q, n)[1..] == Repeat(q, n - 1);
  }

  /** While nothing expires the ledger that never sweeps does the same. */
  lemma {:induction false} FillKept(s: Ledger, q: Request, n: nat)
    requires MadeNow(s.rows, q)
    ensures SameBoth(s, Repeat(q, n)) && MadeNow(Run(s, Repeat(q, n)).rows, q)
    decreases n
  {
    if n > 0 {
      OneMoreKept(s, q);
      FillKept(Step(s, Reserve(q)), q, n - 1);
      SameFromStep(s, q, n);
      RunRepeat(s, q, n);
    }
  }

  lemma OneMoreKept(s: Ledger, q: Request)
    requires MadeNow(s.rows, q)
    ensures KeptReserveStep(s, q) == ReserveStep(s, q) && MadeNow(Step(s, Reserve(q)).rows, q)
  {
    SweepNone(s.rows, q.now);
    InsertLast(s.rows, NewRow(s, q));
  }

  lemma NoTighterFits(p: Profile, l: Limit, e: Amounts, n: nat, k: Limit)
    requires NoTighter(k, l, e) && MetricValue(e, l.metric) > 0.0 && Times(n, MetricValue(e, l.metric)) <= FullCap(l, p)
    ensures Times(n, MetricValue(e, k.metric)) <= FullCap(k, p)
  {
    LimitAsWide(p, k, l, MetricValue(e, k.metric), MetricValue(e, l.metric), n);
  }

  /** As many requests as l admits fit all limits at once. */
  lemma TightestDecides(s: Ledger, p: Profile, o: Options, l: Limit, e: Amounts, now: Quantity, n: nat)
    requires Tightest(p, o, l, e) && s.live == [] && Times(n, MetricValue(e, l.metric)) <= FullCap(l, p)
    ensures RoomAtOnce(s, AskFor(p, o, e, now), n)
  {
    var q := AskFor(p, o, e, now);
    assert ActiveLimits(s, q) == FixedLimits(p, o);
    forall k | k in ActiveLimits(s, q) ensures Times(n, MetricValue(e, k.metric)) <= Cap(k, q) {
      BareCap(k, q);
      NoTighterFits(p, l, e, n, k);
    }
  }

  /** Open reservations of a whole day's cap, made at time 0. */
  predicate DayTaken(s: Ledger, p: Profile, o: Options, l: Limit, e: Amounts) {
    && s.live == [] && MadeNow(s.rows, AskFor(p, o, e, 0.0))
    && Total(s.rows, l.metric) + MetricValue(e, l.metric) > FullCap(l, p)
  }

  /** A day's worth of requests at time 0, as many as the cap admits. */
  lemma FullDay(p: Profile, o: Options, l: Limit, e: Amounts) returns (s: Ledger, events: seq<Event>)
    requires Tightest(p, o, l, e) && MetricValue(e, l.metric) <= FullCap(l, p)
    ensures NonDecreasing(events, 0.0) && forall x :: x in events ==> x == Reserve(AskFor(p, o, e, 0.0))
    ensures s == Run(EMPTY_LEDGER, events) && SameBoth(EMPTY_LEDGER, events) && DayTaken(s, p, o, l, e)
  {
    var n := FloorTwice(FullCap(l, p), MetricValue(e, l.metric));
    var q := AskFor(p, o, e, 0.0);
    events := Repeat(q, n);
    s := Run(EMPTY_LEDGER, events);
    RepeatOnly(q, n);
    RepeatNonDecreasing(q, n);
    TightestDecides(EMPTY_LEDGER, p, o, l, e, 0.0, n);
    FillNow(EMPTY_LEDGER, q, n, n);
    FillKept(EMPTY_LEDGER, q, n);
    TotalEqual(s.rows, e, l.metric);
  }

  lemma {:induction false} RepeatNonDecreasing(q: Request, n: nat)
    ensures NonDecreasing(Repeat(q, n), q.now)
  {
    if n > 0 {
      assert Repeat(q, n)[1..] == Repeat(q, n - 1);
      RepeatNonDecreasing(q, n - 1);
    }
  }

  /** Against the unswept rows the day limit refuses at every time of the day. */
  lemma DayRefuses(s: Ledger, p: Profile, o: Options, l: Limit, e: Amounts, now: Quantity)
    requires Tightest(p, o, l, e) && DayTaken(s, p, o, l, e) && now < DAY as real
    ensures !Fits(s.rows, l, AskFor(p, o, e, now)) && !KeptReserveStep(s, AskFor(p, o, e, now)).1.Granted?
    ensures LimitRetry(s.rows, l, AskFor(p, o, e, now)) == DAY as real
  {
    var q := AskFor(p, o, e, now);
    BareCap(l, q);
    DayZero(now);
    UsedAll(s.rows, Relevant(l, now), l.metric);
    assert ActiveLimits(s, q) == FixedLimits(p, o);
    LimitsDecide(s.rows, ActiveLimits(s, q), q);
  }

  /** Once the reservations have expired, the same request is granted. */
  lemma ExpiryGrants(s: Ledger, p: Profile, o: Options, l: Limit, e: Amounts)
    requires Tightest(p, o, l, e) && DayTaken(s, p, o, l, e) && MetricValue(e, l.metric) <= FullCap(l, p)
    ensures Grants(s, AskFor(p, o, e, LifeOf(p, o) as real))
  {
    var q := AskFor(p, o, e, LifeOf(p, o) as real);
    var w := MetricValue(e, l.metric);
    assert Times(1, w) == w;
    TightestDecides(s, p, o, l, e, q.now, 1);
    forall k | k in ActiveLimits(s, q) ensures Fits(Sweep(s.rows, q.now), k, q) {
      SweptCountNothing(s.rows, q.now, Relevant(k, q.now), k.metric);
      FitsBelow(Sweep(s.rows, q.now), q, k, 1);
    }
    GrantedIff(s, q);
  }

  /** The retry time the day's last refusal names is the next midnight. */
  lemma EarlyRefused(s: Ledger, p: Profile, o: Options, l: Limit, e: Amounts)
    requires Tightest(p, o, l, e) && DayTaken(s, p, o, l, e)
    ensures RetryAt(s, AskFor(p, o, e, 0.0)) >= DAY as real
  {
    var q := AskFor(p, o, e, 0.0);
    SweepNone(s.rows, 0.0);
    DayRefuses(s, p, o, l, e, 0.0);
    assert ActiveLimits(s, q) == FixedLimits(p, o);
    LimitsRetryIsMax(s.rows, ActiveLimits(s, q), q);
  }

  lemma DayZero(t: real)
    requires 0.0 <= t < DAY as real
    ensures DayStart(t) == 0.0
  {
    assert 0.0 <= t / (DAY as real) < 1.0;
  }

  lemma RetryNotExact(s: Ledger, events: seq<Event>, p: Profile, o: Options, l: Limit, e: Amounts, most: real)
    requires Tightest(p, o, l, e) && LifeOf(p, o) < DAY && MetricValue(e, l.metric) <= FullCap(l, p)
    requires MetricValue(e, l.metric) <= most && s == Run(EMPTY_LEDGER, events) && DayTaken(s, p, o, l, e)
    requires forall x :: x in events ==> x == Reserve(AskFor(p, o, e, 0.0))
    ensures !RetryExactInRuns(p, o, l.metric, MetricValue(e, l.metric), most)
  {
    var early := AskFor(p, o, e, 0.0);
    var late: Quantity := LifeOf(p, o) as real;
    assert early.(now := late) == AskFor(p, o, e, late);
    ExpiryGrants(s, p, o, l, e);
    EarlyRefused(s, p, o, l, e);
    assert Plain(events + [Reserve(early)], p, o);
    assert AsksBetween(events + [Reserve(early)], l.metric, MetricValue(e, l.metric), most);
    assert NoLaterDay(s, early) by {
      DayZero(0.0);
    }
    assert Times(1, MetricValue(e, l.metric)) == MetricValue(e, l.metric);
    TightestDecides(s, p, o, l, e, 0.0, 1);
    forall k | k in ActiveLimits(s, early) ensures MetricValue(e, k.metric) <= Max(0.0, Cap(k, early)) {
      assert Times(1, MetricValue(e, k.metric)) == MetricValue(e, k.metric);
    }
  }

  lemma SweepNoticed(p: Profile, o: Options, l: Limit, e: Amounts, most: real)
    requires Tightest(p, o, l, e) && LifeOf(p, o) < DAY
    requires MetricValue(e, l.metric) <= FullCap(l, p) && MetricValue(e, l.metric) <= most
    ensures !SweepUnnoticed(p, o, l.metric, MetricValue(e, l.metric), most)
    ensures !RetryExactInRuns(p, o, l.metric, MetricValue(e, l.metric), most)
  {
    var s, events := FullDay(p, o, l, e);
    var q := AskFor(p, o, e, LifeOf(p, o) as real);
    ExpiryGrants(s, p, o, l, e);
    DayRefuses(s, p, o, l, e, q.now);
    LastAnswerDiffers(s, events, q);
    NonDecreasingAppend(events, q, 0.0);
    assert Plain(events + [Reserve(q)], p, o);
    assert AsksBetween(events + [Reserve(q)], l.metric, MetricValue(e, l.metric), most);
    RetryNotExact(s, events, p, o, l, e, most);
  }

  lemma {:induction false} NonDecreasingAppend(events: seq<Event>, q: Request, clock: real)
    requires NonDecreasing(events, clock) && clock <= q.now
    requires forall e :: e in events ==> (e.Reserve? ==> e.request.now <= q.now) && (e.Expire? ==> e.now <= q.now)
    ensures NonDecreasing(events + [Reserve(q)], clock)
    decreases |events|
  {
    if events == [] {
      assert events + [Reserve(q)] == [Reserve(q)];
    } else {
      assert events[0] in events;
      assert (events + [Reserve(q)])[1..] == events[1..] + [Reserve(q)];
      match events[0] {
        case Reserve(r) => NonDecreasingAppend(events[1..], q, r.now);
        case Expire(now) => NonDecreasingAppend(events[1..], q, now);
        case _ => NonDecreasingAppend(events[1..], q, clock);
      }
    }
  }

  lemma LastAnswerDiffers(s: Ledger, events: seq<Event>, q: Request)
    requires s == Run(EMPTY_LEDGER, events) == KeptRun(EMPTY_LEDGER, events)
    requires Answers(EMPTY_LEDGER, events) == KeptAnswers(EMPTY_LEDGER, events)
    requires Grants(s, q) && !KeptReserveStep(s, q).1.Granted?
    ensures Answers(EMPTY_LEDGER, events + [Reserve(q)]) != KeptAnswers(EMPTY_LEDGER, events + [Reserve(q)])
  {
    AnswersAppend(EMPTY_LEDGER, events, [Reserve(q)]);
    KeptAnswersAppend(EMPTY_LEDGER, events, [Reserve(q)]);
    var n := |Answers(EMPTY_LEDGER, events)|;
    assert [Reserve(q)][1..] == [];
    assert Answers(s, [Reserve(q)]) == [ReserveStep(s, q).1];
    assert KeptAnswers(s, [Reserve(q)]) == [KeptReserveStep(s, q).1];
    assert Answers(EMPTY_LEDGER, events + [Reserve(q)])[n] == ReserveStep(s, q).1;
    assert KeptAnswers(EMPTY_LEDGER, events + [Reserve(q)])[n] == KeptReserveStep(s, q).1;
  }

  lemma PartAtMost(full: real, part: real)
    requires 0.0 <= part <= 1.0
    ensures full * part <= Max(0.0, full)
  {
    if full >= 0.0 {
      assert full * (1.0 - part) >= 0.0;
    } else {
      assert -full * part >= 0.0;
    }
  }

  lemma CapAtMost(l: Limit, q: Request)
    ensures Cap(l, q) <= Max(0.0, FullCap(l, q.profile))
  {
    PartAtMost(FullCap(l, q.profile), 1.0 - ReserveFraction(q.options.reservePercent));
  }

  lemma TooLargeForDay(s: Ledger, q: Request, l: Limit)
    requires l in FixedLimits(q.profile, q.options) && s.live == [] && 0.0 < MetricValue(q.estimate, l.metric)
    requires FullCap(l, q.profile) < MetricValue(q.estimate, l.metric)
    ensures !FitsEveryCap(s, q) && !Grants(s, q)
  {
    assert ActiveLimits(s, q) == FixedLimits(q.profile, q.options);
    CapAtMost(l, q);
    TooLargeNeverGranted(s, q);
  }

  /** A cap below the smallest request keeps both ledgers empty. */
  lemma {:induction false} EmptyAnswersAlike(s: Ledger, events: seq<Event>, p: Profile, o: Options, l: Limit,
                                             least: real, most: real)
    requires s.rows == [] && s.live == [] && Plain(events, p, o) && l in FixedLimits(p, o)
    requires AsksBetween(events, l.metric, least, most) && 0.0 < least && FullCap(l, p) < least
    ensures Answers(s, events) == KeptAnswers(s, events) && Run(s, events).rows == [] && Run(s, events).live == []
    decreases |events|
  {
    if events != [] {
      var e := events[0];
      assert e in events;
      if e.Reserve? {
        TooLargeForDay(s, e.request, l);
        assert Sweep(s.rows, e.request.now) == s.rows;
      }
      EmptyAnswersAlike(Step(s, e), events[1..], p, o, l, least, most);
    }
  }

  lemma ExactUnlessShort(p: Profile, o: Options, l: Limit, least: real, most: real, events: seq<Event>, q: Request,
                         t: Quantity)
    requires l in FixedLimits(p, o) && least > 0.0 && (LifeOf(p, o) >= DAY || FullCap(l, p) < least)
    requires Plain(events + [Reserve(q)], p, o) && AsksBetween(events + [Reserve(q)], l.metric, least, most)
    requires t >= q.now
    requires NoLaterDay(Run(EMPTY_LEDGER, events), q) && FitsEveryCap(Run(EMPTY_LEDGER, events), q)
    ensures Grants(Run(EMPTY_LEDGER, events), q.(now := t)) <==> t >= RetryAt(Run(EMPTY_LEDGER, events), q)
  {
    var all := events + [Reserve(q)];
    assert all[|events|] == Reserve(q) && all[|events|] in all;
    assert Plain(events, p, o) && AsksBetween(events, l.metric, least, most) by {
      assert forall e :: e in events ==> e in all;
    }
    if LifeOf(p, o) >= DAY {
      ReachableRetryExact(events, q, t);
    } else {
      EmptyAnswersAlike(EMPTY_LEDGER, events, p, o, l, least, most);
      TooLargeForDay(Run(EMPTY_LEDGER, events), q, l);
      assert false;
    }
  }
}
