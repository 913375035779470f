/** Everything that was granted and not cancelled by its caller, swept or not: window safety and
    the user caps carry over to it when reservations outlive the span. */
module QuotaGrants {
  import opened Basics
  import opened Quota
  import opened QuotaSums
  import opened QuotaSafety
  import opened QuotaRetry
  import opened QuotaLimits
  import opened QuotaCaps
  import opened QuotaBursts
  import opened QuotaTwins

  // ----- The grants of a run -----

  /** The rows granted so far, after one more step: only their callers settle them. */
  function GrantsStep(s: Ledger, h: seq<Row>, e: Event): seq<Row> {
    match e
    case Reserve(q) => if Grants(s, q) then Insert(h, NewRow(s, q)) else h
    case Complete(id, a, _) => CompleteRows(h, id, a)
    case Cancel(id) => CancelRows(h, id)
    case Expire(_) => h
  }

  function GrantsRun(s: Ledger, h: seq<Row>, events: seq<Event>): seq<Row>
    decreases |events|
  {
    if events == [] then h else GrantsRun(Step(s, events[0]), GrantsStep(s, h, events[0]), events[1..])
  }

  /** The total by which completions raise the span's granted usage. */
  function GrantsRaised(s: Ledger, h: seq<Row>, events: seq<Event>, sel: Selector, m: Metric): Quantity
    decreases |events|
  {
    if events == [] then 0.0
    else
      (match events[0]
       case Complete(id, a, _) => RaiseBy(h, id, a, sel, m)
       case _ => 0.0) + GrantsRaised(Step(s, events[0]), GrantsStep(s, h, events[0]), events[1..], sel, m)
  }

  lemma {:induction false} GrantedRequestsAreNeverRaised(s: Ledger, h: seq<Row>, events: seq<Event>, sel: Selector)
    ensures GrantsRaised(s, h, events, sel, Requests) == 0.0
    decreases |events|
  {
    if events != [] {
      match events[0] {
        case Complete(id, a, _) => UsedComplete(h, id, a, sel, Requests);
        case _ =>
      }
      GrantedRequestsAreNeverRaised(Step(s, events[0]), GrantsStep(s, h, events[0]), events[1..], sel);
    }
  }

  // ----- Safety of what was granted -----

  /** Every reservation of the run lives at least this long. */
  predicate LivesFor(events: seq<Event>, life: real) {
    forall e :: e in events && e.Reserve? ==>
      Lifetime(EffectiveLimits(e.request.profile, e.request.options)) as real >= life
  }

  /** Each admission to the span leaves the ledger's usage of it within the bound. */
  predicate AdmittedWithin(s: Ledger, events: seq<Event>, sel: Selector, m: Metric, bound: real)
    decreases |events|
  {
    events != [] ==>
      && (Admits(s, events[0], sel, m) ==> Used(Step(s, events[0]).rows, sel, m) <= bound)
      && AdmittedWithin(Step(s, events[0]), events[1..], sel, m, bound)
  }

  /** The ledger and the grants agree on the span, or the span is over. */
  predicate Abreast(s: Ledger, h: seq<Row>, sel: Selector, life: real, clock: real) {
    Past(sel, clock) || (Twins(s.rows, h, sel) && Lived(s.rows, sel, life))
  }

  function ClockAfter(e: Event, clock: real): real {
    match e
    case Reserve(q) => q.now
    case Expire(now) => now
    case _ => clock
  }

  lemma StaysAbreast(s: Ledger, h: seq<Row>, e: Event, sel: Selector, life: real, clock: real)
    requires Abreast(s, h, sel, life, clock) && Outlives(life, sel) && clock <= ClockAfter(e, clock)
    requires e.Reserve? ==> Lifetime(EffectiveLimits(e.request.profile, e.request.options)) as real >= life
    ensures Abreast(Step(s, e), GrantsStep(s, h, e), sel, life, ClockAfter(e, clock))
  {
    if !Past(sel, ClockAfter(e, clock)) {
      match e {
        case Reserve(q) =>
          if Grants(s, q) {
            SweptAbreast(s, h, sel, life, q.now);
            TwinsInsert(Sweep(s.rows, q.now), h, sel, NewRow(s, q));
            InsertMembers(Sweep(s.rows, q.now), NewRow(s, q));
          }
        case Complete(id, a, _) =>
          TwinsSettled(s.rows, h, sel, id, a);
          InPlace(s.rows, 0.0, id, a);
          SamePools(s.rows, 0.0, id, a);
          LivedInPlace(s.rows, CompleteRows(s.rows, id, a), sel, life);
        case Cancel(id) =>
          var a := Amounts(0.0, 0.0, 0.0, 0.0);
          TwinsSettled(s.rows, h, sel, id, a);
          InPlace(s.rows, 0.0, id, a);
          SamePools(s.rows, 0.0, id, a);
          LivedInPlace(s.rows, CancelRows(s.rows, id), sel, life);
        case Expire(now) => SweptAbreast(s, h, sel, life, now);
      }
    }
  }

  lemma SweptAbreast(s: Ledger, h: seq<Row>, sel: Selector, life: real, now: real)
    requires Twins(s.rows, h, sel) && Lived(s.rows, sel, life) && Outlives(life, sel) && !Past(sel, now)
    ensures Twins(Sweep(s.rows, now), h, sel) && Lived(Sweep(s.rows, now), sel, life)
  {
    TwinsSwept(s.rows, h, sel, life, now);
    InPlace(s.rows, now, 0, Amounts(0.0, 0.0, 0.0, 0.0));
    SamePools(s.rows, now, 0, Amounts(0.0, 0.0, 0.0, 0.0));
    LivedInPlace(s.rows, Sweep(s.rows, now), sel, life);
  }

  /** Without an admission to the span only completions lift its granted usage. */
  lemma OtherGrantsStep(s: Ledger, h: seq<Row>, e: Event, sel: Selector, m: Metric)
    requires !Admits(s, e, sel, m)
    ensures Used(GrantsStep(s, h, e), sel, m) <=
            Used(h, sel, m) + if e.Complete? then RaiseBy(h, e.id, e.amounts, sel, m) else 0.0
  {
    match e
    case Reserve(q) =>
      if Grants(s, q) {
        UsedInsert(h, NewRow(s, q), sel, m);
      }
    case Complete(id, a, _) => UsedComplete(h, id, a, sel, m);
    case Cancel(id) => UsedCancel(h, id, sel, m);
    case Expire(_) =>
  }

  lemma AdmissionGrants(s: Ledger, h: seq<Row>, e: Event, sel: Selector, m: Metric, bound: real, life: real,
                        clock: real)
    requires Admits(s, e, sel, m) && Used(Step(s, e).rows, sel, m) <= bound && Outlives(life, sel)
    requires Abreast(Step(s, e), GrantsStep(s, h, e), sel, life, ClockAfter(e, clock))
    ensures Used(GrantsStep(s, h, e), sel, m) <= bound
  {
    var row := NewRow(s, e.request);
    assert InSpan(sel, row);
    if Past(sel, row.createdAt) {
      PastIsOutside(sel, row);
    }
    TwinsUse(Step(s, e).rows, GrantsStep(s, h, e), sel, m);
  }

  lemma {:induction false} GrantsCarried(s: Ledger, h: seq<Row>, events: seq<Event>, sel: Selector, m: Metric,
                                         bound: real, carried: Quantity, life: real, clock: real)
    requires NonDecreasing(events, clock) && LivesFor(events, life) && Outlives(life, sel)
    requires Abreast(s, h, sel, life, clock) && AdmittedWithin(s, events, sel, m, bound)
    requires Used(h, sel, m) <= bound + carried
    ensures Used(GrantsRun(s, h, events), sel, m) <= bound + carried + GrantsRaised(s, h, events, sel, m)
    decreases |events|
  {
    if events != [] {
      var e := events[0];
      assert e in events;
      var raise: Quantity := if e.Complete? then RaiseBy(h, e.id, e.amounts, sel, m) else 0.0;
      StaysAbreast(s, h, e, sel, life, clock);
      if Admits(s, e, sel, m) {
        AdmissionGrants(s, h, e, sel, m, bound, life, clock);
      } else {
        OtherGrantsStep(s, h, e, sel, m);
      }
      GrantsCarried(Step(s, e), GrantsStep(s, h, e), events[1..], sel, m, bound, carried + raise, life,
                    ClockAfter(e, clock));
    }
  }

  lemma {:induction false} GovernedIsWithin(s: Ledger, events: seq<Event>, sel: Selector, m: Metric, bound: real)
    requires AdmittedUnder(s, events, sel, m, bound)
    ensures AdmittedWithin(s, events, sel, m, bound)
    decreases |events|
  {
    if events != [] {
      var e := events[0];
      if Admits(s, e, sel, m) {
        var l :| l in ActiveLimits(s, e.request) && l.metric == m && Governs(l, sel) && Cap(l, e.request) <= bound;
        AdmissionBound(s, e.request, l, sel);
      }
      GovernedIsWithin(Step(s, e), events[1..], sel, m, bound);
    }
  }

  /** Window safety of grants. With a clock that never goes back and reservations that outlive the
      span, everything granted in it and not cancelled by its caller, swept or not, stays within
      the bound on the caps it was admitted under. */
  lemma GrantedWindowSafety(events: seq<Event>, sel: Selector, m: Metric, bound: real, life: real)
    requires NonDecreasing(events, 0.0) && LivesFor(events, life) && Outlives(life, sel)
    requires AdmittedUnder(EMPTY_LEDGER, events, sel, m, bound) && bound >= 0.0
    ensures var h := GrantsRun(EMPTY_LEDGER, [], events);
            && Used(h, sel, m) <= bound + GrantsRaised(EMPTY_LEDGER, [], events, sel, m)
            && (m == Requests ==> Used(h, sel, m) <= bound)
  {
    GovernedIsWithin(EMPTY_LEDGER, events, sel, m, bound);
    GrantsCarried(EMPTY_LEDGER, [], events, sel, m, bound, 0.0, life, 0.0);
    if m == Requests {
      GrantedRequestsAreNeverRaised(EMPTY_LEDGER, [], events, sel);
    }
  }

  lemma CappedLife(p: Profile, o: Options, base: seq<Limit>, c: Configured, l: Limit)
    requires l in ConfiguredLimits(c) && p.limits == ApplyUserCaps(base, ConfiguredLimits(c))
    ensures EffectiveLimits(p, o) == p.limits && Lifetime(p.limits) >= l.window
  {
    UserCapsApplied(base, c, l);
    LookupFinds(p.limits, l.metric, l.window);
  }

  /** User caps hold for grants: under any headers, with a clock that never goes back, everything
      granted in a window of the cap's reset policy and not cancelled by its caller stays within
      cap times (1 - margin); for a cap counted by the day, if reservations live for a day. */
  lemma GrantedUserCapsHold(events: seq<Event>, p: Profile, base: seq<Limit>, c: Configured, l: Limit, sel: Selector)
    requires l in ConfiguredLimits(c) && !p.manual && p.limits == ApplyUserCaps(base, ConfiguredLimits(c))
    requires UsesProfile(events, p) && NonDecreasing(events, 0.0)
    requires Governs(l.(policy := CappedPolicy(base, l.metric, l.window)), sel)
    requires sel.UtcDate? ==> Lifetime(p.limits) >= DAY
    ensures var h := GrantsRun(EMPTY_LEDGER, [], events);
            && Used(h, sel, l.metric) <= FullCap(l, p) + GrantsRaised(EMPTY_LEDGER, [], events, sel, l.metric)
            && (l.metric == Requests ==> Used(h, sel, Requests) <= FullCap(l, p))
  {
    var life := if sel.UtcDate? then DAY as real else l.window as real;
    forall e | e in events && e.Reserve?
      ensures Lifetime(EffectiveLimits(e.request.profile, e.request.options)) as real >= life
    {
      CappedLife(p, e.request.options, base, c, l);
    }
    CapsGovernRuns(EMPTY_LEDGER, events, p, base, c, l, sel);
    CapIsPositive(c, l, p);
    GrantedWindowSafety(events, sel, l.metric, FullCap(l, p), life);
  }
}
