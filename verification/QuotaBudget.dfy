/** The remaining amount of a response header: exactly when it bounds everything granted until its
    reset. */
module QuotaBudget {
  import opened Basics
  import opened Quota
  import opened QuotaSums
  import opened QuotaSafety
  import opened QuotaRetry
  import opened QuotaLimits
  import opened QuotaCaps
  import opened QuotaBursts
  import opened QuotaGrants
  import opened QuotaSpending

  /** The remaining amount of a header that binds bounds everything granted until its reset if and
      only if the reset comes within a reservation's lifetime, or less remains than the smallest
      request asks for. */
  lemma ObservedBudgetIff(p: Profile, opt: Options, o: Observation, e: Amounts, most: real)
    requires BindsObserved(p, opt, o, e) && 0.0 < MetricValue(e, o.metric) <= most && o.observedAt >= 0.0
    ensures BudgetKept(p, opt, o, MetricValue(e, o.metric), most) <==>
            o.resetAt <= o.observedAt + LifeOf(p, opt) as real || o.remaining < MetricValue(e, o.metric)
  {
    var least := MetricValue(e, o.metric);
    if o.resetAt <= o.observedAt + LifeOf(p, opt) as real || o.remaining < least {
      forall s: Ledger, events: seq<Event>, hi: real |
        && o in s.live && (forall r :: r in s.rows ==> r.createdAt <= o.observedAt)
        && BudgetRun(events, p, opt, o, least, most) && hi < o.resetAt
        ensures Used(GrantsRun(s, s.rows, events), Interval(o.observedAt, hi, false), o.metric) <=
                o.remaining + GrantsRaised(s, s.rows, events, Interval(o.observedAt, hi, false), o.metric)
      {
        if o.remaining < least {
          NothingRemains(s, events, o, least, most, hi);
          QuietGrants(s, s.rows, events, Interval(o.observedAt, hi, false), o.metric);
          UsedNone(s.rows, Interval(o.observedAt, hi, false), o.metric);
        } else {
          BudgetOutlived(s, events, p, opt, o, least, most, hi);
        }
      }
    } else {
      BudgetBroken(p, opt, o, e, most);
    }
  }

  // ----- A concrete header -----

  /** A provider without known limits, ten requests a minute, after a response that says that one
      request remains until 1000 seconds later. */
  const UNKNOWN := Profile(false, false, [], 10.0, 0.0, 0.0)
  const TEN_A_MINUTE := Options(0.0, 10)
  const ONE_LEFT := Observation(Requests, 60, 10.0, 1.0, 1000.0, 0.0)
  const ONE_REQUEST := Amounts(1.0, 100.0, 256.0, 0.0)

  /** Two requests are granted and kept by their callers before the reset, where one remained. */
  lemma RemainingIsSpentTwice()
    ensures LifeOf(UNKNOWN, TEN_A_MINUTE) == 300
    ensures Spend(UNKNOWN, TEN_A_MINUTE, ONE_REQUEST, 1.0, 1) ==
            [Reserve(AskFor(UNKNOWN, TEN_A_MINUTE, ONE_REQUEST, 1.0)),
             Reserve(AskFor(UNKNOWN, TEN_A_MINUTE, ONE_REQUEST, 301.0))]
    ensures Used(GrantsRun(Observed(ONE_LEFT), [], Spend(UNKNOWN, TEN_A_MINUTE, ONE_REQUEST, 1.0, 1)),
                 Interval(0.0, 301.0, false), Requests) == 2.0
    ensures ONE_LEFT.remaining == 1.0 && ONE_LEFT.resetAt == 1000.0
  {
    var l := Limit(Requests, 10.0, 60, 0.0, Rolling);
    assert [l][1..] == [] && MaxWindow([l]) == 60;
    assert PutAll([], [l]) == PutAll([l], []) && [ONE_LEFT][1..] == [];
    assert LimitsUnder(UNKNOWN, TEN_A_MINUTE, ONE_LEFT) == [l];
    assert RoomForRemaining(l, UNKNOWN, ONE_LEFT, ONE_REQUEST);
    SpentTwice(UNKNOWN, TEN_A_MINUTE, ONE_LEFT, ONE_REQUEST, 1.0, 1);
    assert Times(2, 1.0) == Times(1, 1.0) + 1.0 && Times(1, 1.0) == 1.0;
    assert Repeat(AskFor(UNKNOWN, TEN_A_MINUTE, ONE_REQUEST, 1.0), 1) ==
           [Reserve(AskFor(UNKNOWN, TEN_A_MINUTE, ONE_REQUEST, 1.0))];
  }
}
