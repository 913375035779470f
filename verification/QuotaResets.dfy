/** Limits that reset at midnight, and exactly when a user cap merged into one still bounds every
    rolling window. */
module QuotaResets {
  import opened Basics
  import opened Quota
  import opened QuotaSums
  import opened QuotaSafety
  import opened QuotaRetry
  import opened QuotaLimits
  import opened QuotaCaps
  import opened QuotaBursts
  import opened QuotaPaces

  /** Both sides are admitted, within a span of the cap's window. */
  lemma SidesAreTaken(p: Profile, o: Options, l: Limit, e: Amounts, c: Pace)
    requires Ready(p, o, l, e, c)
    ensures Used(Run(EMPTY_LEDGER, Groups(p, o, e, c, 0)).rows, Span(c), l.metric) ==
            Times(2 * Side(c), MetricValue(e, l.metric))
  {
    FillGroups(EMPTY_LEDGER, p, o, l, e, c, 0);
    StepsAdd(c.groups, c.groups, c.chunk);
    var s := Run(EMPTY_LEDGER, Groups(p, o, e, c, 0));
    assert BeforeGroup(s, e, c, 2 * c.groups, l.window);
    LaidInSpan(s.rows, e, c, l.window, l.metric);
  }

  // ----- Exactly when a user cap is a rolling cap -----

  predicate Merged(p: Profile, base: seq<Limit>, c: Configured) {
    !p.manual && p.limits == ApplyUserCaps(base, ConfiguredLimits(c))
  }

  lemma MergedIsReady(p: Profile, o: Options, base: seq<Limit>, c: Configured, l: Limit, e: Amounts, pace: Pace)
    requires l in ConfiguredLimits(c) && Merged(p, base, c) && CappedPolicy(base, l.metric, l.window).UtcDay?
    requires Binds(p, l, e, pace)
    ensures Ready(p, o, l, e, pace)
  {
    ConfiguredKeysUnique(c);
    UserCapsApplied(base, c, l);
    PutAllUnique([], base);
    CapAllUnique(PutAll([], base), ConfiguredLimits(c));
    PutAllUnique([], p.limits);
    MergedFromBase([], p.limits);
    LookupPutAll([], p.limits, l.metric, l.window);
    LookupFinds(p.limits, l.metric, l.window);
  }

  /** In every run of the profile whose reservations ask for amounts in the range, every span up
      to the cap's window holds at most the cap times (1 - margin), plus what completions added. */
  ghost predicate RollingCap(p: Profile, l: Limit, least: real, most: real) {
    forall events, lo, hi ::
      UsesProfile(events, p) && AsksBetween(events, l.metric, least, most) && hi - lo <= l.window as real ==>
        Used(Run(EMPTY_LEDGER, events).rows, Interval(lo, hi, false), l.metric) <=
        FullCap(l, p) + Raised(EMPTY_LEDGER, events, Interval(lo, hi, false), l.metric)
  }

  lemma TooLargeForCap(s: Ledger, q: Request, base: seq<Limit>, c: Configured, l: Limit)
    requires l in ConfiguredLimits(c) && Merged(q.profile, base, c)
    requires FullCap(l, q.profile) < MetricValue(q.estimate, l.metric)
    ensures !Grants(s, q)
  {
    CapIsPositive(c, l, q.profile);
    var active := CappedActiveLimit(s, q, base, c, l);
    assert MetricValue(q.estimate, active.metric) > Max(0.0, Cap(active, q));
    TooLargeNeverGranted(s, q);
  }

  /** A cap below the smallest request admits nothing in any run. */
  lemma {:induction false} NothingAdmitted(s: Ledger, events: seq<Event>, p: Profile, base: seq<Limit>, c: Configured,
                                           l: Limit, least: real, most: real, sel: Selector)
    requires l in ConfiguredLimits(c) && Merged(p, base, c) && UsesProfile(events, p)
    requires AsksBetween(events, l.metric, least, most) && FullCap(l, p) < least
    ensures NoAdmission(s, events, sel, l.metric)
    decreases |events|
  {
    if events != [] {
      assert events[0] in events;
      if events[0].Reserve? {
        TooLargeForCap(s, events[0].request, base, c, l);
      }
      NothingAdmitted(Step(s, events[0]), events[1..], p, base, c, l, least, most, sel);
    }
  }

  lemma TinyCapHolds(p: Profile, base: seq<Limit>, c: Configured, l: Limit, least: real, most: real,
                     events: seq<Event>, sel: Selector)
    requires l in ConfiguredLimits(c) && Merged(p, base, c) && FullCap(l, p) < least
    requires UsesProfile(events, p) && AsksBetween(events, l.metric, least, most)
    ensures Used(Run(EMPTY_LEDGER, events).rows, sel, l.metric) <=
            FullCap(l, p) + Raised(EMPTY_LEDGER, events, sel, l.metric)
  {
    NothingAdmitted(EMPTY_LEDGER, events, p, base, c, l, least, most, sel);
    QuietRun(EMPTY_LEDGER, events, sel, l.metric);
    CapIsPositive(c, l, p);
  }

  lemma RollingLimitHolds(p: Profile, base: seq<Limit>, c: Configured, l: Limit, events: seq<Event>, lo: real, hi: real)
    requires l in ConfiguredLimits(c) && Merged(p, base, c) && UsesProfile(events, p) && hi - lo <= l.window as real
    requires CappedPolicy(base, l.metric, l.window).Rolling?
    ensures Used(Run(EMPTY_LEDGER, events).rows, Interval(lo, hi, false), l.metric) <=
            FullCap(l, p) + Raised(EMPTY_LEDGER, events, Interval(lo, hi, false), l.metric)
  {
    UserCapsHold(events, p, base, c, l, Interval(lo, hi, false));
  }

  lemma {:induction false} NoCompletionNoRaise(s: Ledger, events: seq<Event>, sel: Selector, m: Metric)
    requires forall e :: e in events ==> !e.Complete?
    ensures Raised(s, events, sel, m) == 0.0
    decreases |events|
  {
    if events != [] {
      assert events[0] in events;
      NoCompletionNoRaise(Step(s, events[0]), events[1..], sel, m);
    }
  }

  lemma SidesExceed(p: Profile, base: seq<Limit>, c: Configured, l: Limit, e: Amounts, pace: Pace)
    returns (events: seq<Event>)
    requires l in ConfiguredLimits(c) && Merged(p, base, c) && CappedPolicy(base, l.metric, l.window).UtcDay?
    requires Binds(p, l, e, pace)
    ensures UsesProfile(events, p)
    ensures AsksBetween(events, l.metric, MetricValue(e, l.metric), MetricValue(e, l.metric))
    ensures Used(Run(EMPTY_LEDGER, events).rows, Span(pace), l.metric) >
            FullCap(l, p) + Raised(EMPTY_LEDGER, events, Span(pace), l.metric)
  {
    var o := Options(0.0, 1);
    events := Groups(p, o, e, pace, 0);
    GroupsShape(p, o, e, pace, 0);
    MergedIsReady(p, o, base, c, l, e, pace);
    SidesAreTaken(p, o, l, e, pace);
    NoCompletionNoRaise(EMPTY_LEDGER, events, Span(pace), l.metric);
  }

  lemma RollingCapBroken(p: Profile, l: Limit, least: real, most: real, events: seq<Event>, lo: real, hi: real)
    requires UsesProfile(events, p) && least <= most && AsksBetween(events, l.metric, least, least)
    requires hi - lo <= l.window as real
    requires Used(Run(EMPTY_LEDGER, events).rows, Interval(lo, hi, false), l.metric) >
             FullCap(l, p) + Raised(EMPTY_LEDGER, events, Interval(lo, hi, false), l.metric)
    ensures !RollingCap(p, l, least, most)
  {
    assert AsksBetween(events, l.metric, least, most);
  }

  /** A user cap that binds bounds every rolling window of every run, whatever the headers, if
      and only if the registry does not give its limit a midnight reset, or the cap is below the
      smallest request so that nothing is ever admitted. */
  lemma RollingCapIff(p: Profile, base: seq<Limit>, c: Configured, l: Limit, e: Amounts, most: real, pace: Pace)
    requires l in ConfiguredLimits(c) && Merged(p, base, c) && 0.0 < MetricValue(e, l.metric) <= most
    requires FullCap(l, p) < MetricValue(e, l.metric) || Binds(p, l, e, pace)
    ensures RollingCap(p, l, MetricValue(e, l.metric), most) <==>
            CappedPolicy(base, l.metric, l.window).Rolling? || FullCap(l, p) < MetricValue(e, l.metric)
  {
    var least := MetricValue(e, l.metric);
    if CappedPolicy(base, l.metric, l.window).Rolling? || FullCap(l, p) < least {
      forall events, lo, hi |
        UsesProfile(events, p) && AsksBetween(events, l.metric, least, most) && hi - lo <= l.window as real
        ensures Used(Run(EMPTY_LEDGER, events).rows, Interval(lo, hi, false), l.metric) <=
                FullCap(l, p) + Raised(EMPTY_LEDGER, events, Interval(lo, hi, false), l.metric)
      {
        if CappedPolicy(base, l.metric, l.window).Rolling? {
          RollingLimitHolds(p, base, c, l, events, lo, hi);
        } else {
          TinyCapHolds(p, base, c, l, least, most, events, Interval(lo, hi, false));
        }
      }
    } else {
      var events := SidesExceed(p, base, c, l, e, pace);
      AtBounds(pace, l.window, 0);
      RollingCapBroken(p, l, least, most, events, At(pace, 0) - 1.0,
                       At(pace, 2 * pace.groups) - pace.step as real);
    }
  }

  /** In every run whose reservations are of one request each, every span up to the cap's
      window holds at most the cap times (1 - margin) requests. */
  ghost predicate RollingRequestCap(p: Profile, l: Limit) {
    forall events, lo, hi ::
      UsesProfile(events, p) && AsksBetween(events, Requests, 1.0, 1.0) && hi - lo <= l.window as real ==>
        Used(Run(EMPTY_LEDGER, events).rows, Interval(lo, hi, false), Requests) <= FullCap(l, p)
  }

  /** For request caps, whose usage no completion changes and whose reservations are of one
      request each, the bound is plain. */
  lemma RequestCapIff(p: Profile, base: seq<Limit>, c: Configured, l: Limit, e: Amounts, pace: Pace)
    requires l in ConfiguredLimits(c) && Merged(p, base, c) && l.metric == Requests && e.requests == 1.0
    requires FullCap(l, p) < 1.0 || Binds(p, l, e, pace)
    ensures RollingRequestCap(p, l) <==> CappedPolicy(base, Requests, l.window).Rolling? || FullCap(l, p) < 1.0
  {
    RollingCapIff(p, base, c, l, e, 1.0, pace);
    forall events, lo, hi
      ensures Raised(EMPTY_LEDGER, events, Interval(lo, hi, false), Requests) == 0.0
    {
      RequestsAreNeverRaised(EMPTY_LEDGER, events, Interval(lo, hi, false));
    }
  }

  /** When all other limits have room for twice the cap, it binds at once: all requests of a side
      together, ten seconds from midnight to midnight. */
  lemma AtOnceBinds(p: Profile, c: Configured, l: Limit, e: Amounts) returns (pace: Pace)
    requires l in ConfiguredLimits(c) && 0.0 < MetricValue(e, l.metric) <= FullCap(l, p)
    requires forall k :: k in p.limits ==>
               if SameKey(k, l.metric, l.window) then k.amount >= l.amount else TwiceRoom(k, l, e)
    ensures Binds(p, l, e, pace) && pace.step == 10 && pace.groups == 1
  {
    var n := FloorTwice(FullCap(l, p), MetricValue(e, l.metric));
    pace := Pace(10, n, 1);
    assert Steps(1, n) == Steps(0, n) + n && Steps(1, 10) == Steps(0, 10) + 10 && Steps(2, 10) == Steps(1, 10) + 10;
    ConfiguredWindows(c, l);
  }

  // ----- Concrete profiles -----

  /** A registry limit of 10000 units a day that resets at midnight, with its prices, under a
      user cap of the same amount and the default margin. */
  predicate DailyUnits(p: Profile, c: Configured, base: seq<Limit>) {
    && base == [Limit(Units, 10000.0, 86400, 0.0, UtcDay)]
    && c == Configured(0.0, 0.0, 0.0, 0.0, 0.0, 0.0, 0.0, 0.0, 10000.0)
    && p == Profile(false, false, ApplyUserCaps(base, ConfiguredLimits(c)), 10.0, 4625.0, 30475.0)
  }

  const UNITS_CAP := Limit(Units, 10000.0, 86400, 0.0, Rolling)

  /** One request of 1000 input and 1000 output tokens at those prices. */
  const TYPICAL := Amounts(1.0, 1000.0, 1000.0, 35.1)

  lemma {:induction false} KeptMembers(limits: seq<Limit>)
    ensures forall l :: l in KeepPositive(limits) <==> l in limits && l.amount > 0.0
  {
    if limits != [] {
      KeptMembers(limits[1..]);
    }
  }

  lemma OnlyUnitsCap(c: Configured, k: Limit)
    requires c == Configured(0.0, 0.0, 0.0, 0.0, 0.0, 0.0, 0.0, 0.0, 10000.0)
    ensures k in ConfiguredLimits(c) <==> k == UNITS_CAP
  {
    KeptMembers(Fields(c));
    if k == UNITS_CAP {
      assert Fields(c)[8] == k;
    }
  }

  const ALL_AT_ONCE := Pace(10, 256, 1)

  lemma DailyUnitsLimits(p: Profile, c: Configured, base: seq<Limit>)
    requires DailyUnits(p, c, base)
    ensures UNITS_CAP in ConfiguredLimits(c) && CappedPolicy(base, Units, 86400).UtcDay?
    ensures forall k :: k in p.limits ==> SameKey(k, Units, 86400) && k.amount == 10000.0
  {
    var user := ConfiguredLimits(c);
    forall k ensures k in user <==> k == UNITS_CAP {
      OnlyUnitsCap(c, k);
    }
    assert base[1..] == [] && PutAll([], base) == PutAll(base, []);
    CapAllSame(base, user);
  }

  lemma {:induction false} CapAllSame(combined: seq<Limit>, user: seq<Limit>)
    requires forall k :: k in user ==> k == UNITS_CAP
    requires forall k :: k in combined ==> SameKey(k, Units, 86400) && k.amount == 10000.0
    ensures forall k :: k in CapAll(combined, user) ==> SameKey(k, Units, 86400) && k.amount == 10000.0
    decreases |user|
  {
    if user != [] {
      assert user[0] in user && forall k :: k in user[1..] ==> k in user;
      var next := CapLimit(Lookup(combined, Units, 86400), user[0]);
      LookupFinds(combined, Units, 86400);
      PutMembers(combined, next);
      CapAllSame(Put(combined, next), user[1..]);
    }
  }

  lemma DailyUnitsFit(n: nat, w: Quantity)
    requires n == 256 && w == 35.1
    ensures Times(n, w) <= 9000.0 < Times(2 * n, w) == 17971.2
  {
    TimesIs(n, w);
    TimesIs(2 * n, w);
  }

  lemma DailyUnitsBind(p: Profile, c: Configured, base: seq<Limit>)
    requires DailyUnits(p, c, base)
    ensures Binds(p, UNITS_CAP, TYPICAL, ALL_AT_ONCE) && FullCap(UNITS_CAP, p) == 9000.0
    ensures Times(2 * Side(ALL_AT_ONCE), TYPICAL.units) == 17971.2
  {
    DailyUnitsLimits(p, c, base);
    DailyUnitsFit(Side(ALL_AT_ONCE), TYPICAL.units);
  }

  /** Within eleven seconds around midnight the profile admits almost twice its capped day. */
  lemma DailyCapIsNotRolling(p: Profile, c: Configured, base: seq<Limit>, o: Options)
    requires DailyUnits(p, c, base)
    ensures TYPICAL.units == UnitsFor(TYPICAL.input, TYPICAL.output, p) && FullCap(UNITS_CAP, p) == 9000.0
    ensures Span(ALL_AT_ONCE) == Interval(86389.0, 86400.0, false)
    ensures Used(Run(EMPTY_LEDGER, Groups(p, o, TYPICAL, ALL_AT_ONCE, 0)).rows, Span(ALL_AT_ONCE), Units) == 17971.2
  {
    DailyUnitsLimits(p, c, base);
    DailyUnitsBind(p, c, base);
    MergedIsReady(p, o, base, c, UNITS_CAP, TYPICAL, ALL_AT_ONCE);
    SidesAreTaken(p, o, UNITS_CAP, TYPICAL, ALL_AT_ONCE);
  }

  /** The usual pair of caps, 10 requests a minute and 1000 a day, over a registry limit of 1000
      requests a day that resets at midnight. */
  predicate MinuteAndDay(p: Profile, c: Configured, base: seq<Limit>) {
    && base == [Limit(Requests, 1000.0, 86400, 0.0, UtcDay)]
    && c == Configured(10.0, 0.0, 1000.0, 0.0, 0.0, 0.0, 0.0, 0.0, 0.0)
    && p == Profile(false, false, ApplyUserCaps(base, ConfiguredLimits(c)), 10.0, 0.0, 0.0)
  }

  const DAY_CAP := Limit(Requests, 1000.0, 86400, 0.0, Rolling)
  const MINUTE_CAP := Limit(Requests, 10.0, 60, 0.0, Rolling)

  /** One full minute's allowance after another, for a hundred minutes on each side. */
  const EVERY_MINUTE := Pace(60, 9, 100)

  predicate OneOfTheTwo(k: Limit) {
    k.metric == Requests && ((k.window == 86400 && k.amount == 1000.0)
                             || (k.window == 60 && k.amount == 10.0 && k.policy.Rolling?))
  }

  lemma {:induction false} CapAllTwo(combined: seq<Limit>, user: seq<Limit>)
    requires forall k :: k in user ==> k == DAY_CAP || k == MINUTE_CAP
    requires forall k :: k in combined ==> OneOfTheTwo(k)
    ensures forall k :: k in CapAll(combined, user) ==> OneOfTheTwo(k)
    decreases |user|
  {
    if user != [] {
      assert user[0] in user && forall k :: k in user[1..] ==> k in user;
      var next := CapLimit(Lookup(combined, user[0].metric, user[0].window), user[0]);
      LookupFinds(combined, user[0].metric, user[0].window);
      PutMembers(combined, next);
      CapAllTwo(Put(combined, next), user[1..]);
    }
  }

  lemma MinuteAndDayUser(c: Configured, k: Limit)
    requires c == Configured(10.0, 0.0, 1000.0, 0.0, 0.0, 0.0, 0.0, 0.0, 0.0) && k in ConfiguredLimits(c)
    ensures k == DAY_CAP || k == MINUTE_CAP
  {
    KeptMembers(Fields(c));
    var i :| 0 <= i < 9 && Fields(c)[i] == k;
    assert i == 0 || i == 2;
  }

  lemma DayCapIsConfigured(c: Configured)
    requires c.requestsPerDay == 1000.0
    ensures DAY_CAP in ConfiguredLimits(c)
  {
    KeptMembers(Fields(c));
    assert Fields(c)[2] == DAY_CAP;
  }

  lemma MinuteAndDayFit(c: Pace, w: Quantity)
    requires c == EVERY_MINUTE && w == 1.0
    ensures Times(Side(c), w) <= 900.0 < Times(2 * Side(c), w) == 1800.0 && Times(c.chunk, w) == 9.0
    ensures WellPaced(c, 86400)
  {
    StepsIs(c.groups, c.chunk);
    StepsIs(c.groups, c.step);
    StepsIs(2 * c.groups, c.step);
    TimesIs(Side(c), w);
    TimesIs(2 * Side(c), w);
    TimesIs(c.chunk, w);
  }

  lemma MinuteAndDayBind(p: Profile, c: Configured, base: seq<Limit>, e: Amounts, pace: Pace)
    requires MinuteAndDay(p, c, base) && e.requests == 1.0 && pace == EVERY_MINUTE
    ensures DAY_CAP in ConfiguredLimits(c) && CappedPolicy(base, Requests, 86400).UtcDay?
    ensures Binds(p, DAY_CAP, e, pace)
  {
    var user := ConfiguredLimits(c);
    DayCapIsConfigured(c);
    forall k | k in user ensures k == DAY_CAP || k == MINUTE_CAP {
      MinuteAndDayUser(c, k);
    }
    assert base[1..] == [] && PutAll([], base) == PutAll(base, []);
    CapAllTwo(base, user);
    MinuteAndDayFit(pace, e.requests);
    forall k | k in p.limits ensures PacedRoom(k, DAY_CAP, e, p, pace) {
      assert OneOfTheTwo(k);
    }
  }

  /** Within three hours and twenty minutes around midnight, 1800 of 1000 requests a day. */
  lemma PacedCapIsNotRolling(p: Profile, c: Configured, base: seq<Limit>, o: Options, e: Amounts, pace: Pace)
    requires MinuteAndDay(p, c, base) && e.requests == 1.0 && pace == EVERY_MINUTE
    ensures Used(Run(EMPTY_LEDGER, Groups(p, o, e, pace, 0)).rows, Span(pace), Requests) == 1800.0
    ensures !RollingRequestCap(p, DAY_CAP)
  {
    MinuteAndDayBind(p, c, base, e, pace);
    MinuteAndDayFit(pace, e.requests);
    MergedIsReady(p, o, base, c, DAY_CAP, e, pace);
    SidesAreTaken(p, o, DAY_CAP, e, pace);
    RequestCapIff(p, base, c, DAY_CAP, e, pace);
  }
}
