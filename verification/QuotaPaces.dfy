/** A run of equal requests around midnight: as many as a limit with a midnight reset admits, in
    groups on each side, paced so that the other limits of the profile admit them too. Every group
    is admitted when it is due, until both sides are full. */
module QuotaPaces {
  import opened Basics
  import opened Quota
  import opened QuotaSums
  import opened QuotaSafety
  import opened QuotaRetry
  import opened QuotaLimits
  import opened QuotaCaps
  import opened QuotaBursts

  // ----- Pacing a run around midnight -----

  /** `groups` groups of `chunk` requests on each side of midnight, `step` seconds apart. */
  datatype Pace = Pace(step: Window, chunk: nat, groups: nat)

  /** n times d, counted up. */
  function Steps(n: nat, d: nat): nat {
    if n == 0 then 0 else Steps(n - 1, d) + d
  }

  lemma {:induction false} StepsIs(n: nat, d: nat)
    ensures Steps(n, d) == n * d
  {
    if n > 0 {
      StepsIs(n - 1, d);
      assert n * d == (n - 1) * d + d;
    }
  }

  lemma {:induction false} StepsGrow(m: nat, n: nat, d: nat)
    requires m < n
    ensures Steps(m, d) + d <= Steps(n, d)
  {
    if m < n - 1 {
      StepsGrow(m, n - 1, d);
    }
  }

  lemma {:induction false} StepsAdd(m: nat, n: nat, d: nat)
    ensures Steps(m + n, d) == Steps(m, d) + Steps(n, d)
  {
    if n > 0 {
      StepsAdd(m, n - 1, d);
    }
  }

  /** The requests on one side. */
  function Side(c: Pace): nat { Steps(c.groups, c.chunk) }

  /** Group g comes g steps after the first, and group `groups` at midnight. */
  function At(c: Pace, g: nat): real { (DAY - Steps(c.groups, c.step) + Steps(g, c.step)) as real }

  /** The run starts after time 0 and lies within a span of the window. */
  predicate WellPaced(c: Pace, window: Window) {
    c.chunk > 0 && c.groups > 0 && Steps(c.groups, c.step) <= DAY && Steps(2 * c.groups, c.step) - c.step + 1 <= window
  }

  lemma AtBounds(c: Pace, window: Window, g: nat)
    requires WellPaced(c, window) && g < 2 * c.groups
    ensures 0.0 <= At(c, 0) <= At(c, g) <= At(c, 2 * c.groups - 1)
    ensures At(c, 2 * c.groups - 1) - At(c, 0) <= window as real - 1.0
    ensures At(c, g) < DAY as real <==> g < c.groups
  {
    if g > 0 {
      StepsGrow(0, g, c.step);
    }
    if g < 2 * c.groups - 1 {
      StepsGrow(g, 2 * c.groups - 1, c.step);
    }
    if g < c.groups {
      StepsGrow(g, c.groups, c.step);
    } else if g > c.groups {
      StepsGrow(c.groups, g, c.step);
    }
  }

  function AskAt(p: Profile, o: Options, e: Amounts, c: Pace, g: nat): Request {
    AskFor(p, o, e, Max(0.0, At(c, g)))
  }

  /** The run from its g-th group on. */
  function Groups(p: Profile, o: Options, e: Amounts, c: Pace, g: nat): seq<Event>
    decreases 2 * c.groups - g
  {
    if g >= 2 * c.groups then []
    else Repeat(AskAt(p, o, e, c, g), c.chunk) + Groups(p, o, e, c, g + 1)
  }

  lemma {:induction false} GroupsShape(p: Profile, o: Options, e: Amounts, c: Pace, g: nat)
    ensures forall x :: x in Groups(p, o, e, c, g) ==>
              x.Reserve? && x.request.profile == p && x.request.options == o && x.request.estimate == e
    decreases 2 * c.groups - g
  {
    if g < 2 * c.groups {
      RepeatOnly(AskAt(p, o, e, c, g), c.chunk);
      GroupsShape(p, o, e, c, g + 1);
    }
  }

  // ----- What the limits of the profile admit -----

  /** The limit is no lower than l under l's key; elsewhere it has room for twice as many requests
      as l admits, or rolls within a step of the pace and has room for a group. */
  predicate PacedRoom(k: Limit, l: Limit, e: Amounts, p: Profile, c: Pace) {
    if SameKey(k, l.metric, l.window) then k.amount >= l.amount
    else TwiceRoom(k, l, e) || GroupRoom(k, e, p, c)
  }

  predicate TwiceRoom(k: Limit, l: Limit, e: Amounts) {
    AsWide(k.amount, MetricValue(e, k.metric), 2.0 * l.amount, MetricValue(e, l.metric))
  }

  predicate GroupRoom(k: Limit, e: Amounts, p: Profile, c: Pace) {
    k.policy.Rolling? && k.window <= c.step && Times(c.chunk, MetricValue(e, k.metric)) <= FullCap(k, p)
  }

  /** The cap is what binds for requests like e at this pace: one side fits it, both do not, and
      every other limit of the profile admits the run. */
  predicate Binds(p: Profile, l: Limit, e: Amounts, c: Pace) {
    && WellPaced(c, l.window) && MetricValue(e, l.metric) > 0.0
    && Times(Side(c), MetricValue(e, l.metric)) <= FullCap(l, p) < Times(2 * Side(c), MetricValue(e, l.metric))
    && forall k :: k in p.limits ==> PacedRoom(k, l, e, p, c)
  }

  /** The merged limits: l's key is held at exactly its amount and resets at midnight. */
  predicate Ready(p: Profile, o: Options, l: Limit, e: Amounts, c: Pace) {
    && Binds(p, l, e, c) && p.limits != [] && UniqueKeys(FixedLimits(p, o))
    && (forall k :: k in FixedLimits(p, o) ==> k in p.limits)
    && Lifetime(EffectiveLimits(p, o)) >= l.window
    && Held(FixedLimits(p, o), l.metric, l.window, l.amount, UtcDay)
  }

  lemma OwnAt(p: Profile, o: Options, l: Limit, e: Amounts, c: Pace, k: Limit)
    requires Ready(p, o, l, e, c) && k in FixedLimits(p, o)
    ensures PacedRoom(k, l, e, p, c)
    ensures SameKey(k, l.metric, l.window) ==> k.amount == l.amount && k.policy.UtcDay?
  {
    LookupUnique(FixedLimits(p, o), k);
  }

  lemma TwiceAsWide(p: Profile, k: Limit, l: Limit, v: Quantity, w: Quantity, n: nat)
    requires AsWide(k.amount, v, 2.0 * l.amount, w) && w > 0.0 && Times(n, w) <= FullCap(l, p)
    ensures Times(2 * n, v) <= FullCap(k, p)
  {
    var double := l.(amount := 2.0 * l.amount);
    TimesDouble(n, w);
    assert FullCap(double, p) == 2.0 * FullCap(l, p);
    LimitAsWide(p, k, double, v, w, 2 * n);
  }

  lemma TwiceFits(p: Profile, l: Limit, e: Amounts, n: nat, k: Limit)
    requires TwiceRoom(k, l, e) && Times(n, MetricValue(e, l.metric)) <= FullCap(l, p) && MetricValue(e, l.metric) > 0.0
    ensures Times(2 * n, MetricValue(e, k.metric)) <= FullCap(k, p)
  {
    TwiceAsWide(p, k, l, MetricValue(e, k.metric), MetricValue(e, l.metric), n);
  }

  // ----- Admitting the run -----

  /** Open rows in the order made; those before the i-th are a step older than now, and the first
      side's were made before midnight. */
  predicate Laid(rows: seq<Row>, e: Amounts, c: Pace, i: nat, now: real, window: Window) {
    Equal(rows, e) && forall k :: 0 <= k < |rows| ==>
      && At(c, 0) <= rows[k].createdAt <= now && rows[k].expiresAt >= rows[k].createdAt + window as real
      && (k < i ==> rows[k].createdAt + c.step as real <= now)
      && (k < Side(c) ==> rows[k].createdAt < DAY as real)
  }

  lemma LaidIsOpen(rows: seq<Row>, e: Amounts, c: Pace, i: nat, now: real, window: Window)
    requires Laid(rows, e, c, i, now, window) && now - At(c, 0) < window as real
    ensures Sweep(rows, now) == rows && forall r :: r in rows ==> r.createdAt <= now
  {
    forall r | r in rows ensures r.expiresAt > now && r.createdAt <= now {
      var k :| 0 <= k < |rows| && rows[k] == r;
    }
    SweepNone(rows, now);
  }

  /** One more request is due: a group is not complete, and neither is its side. */
  predicate Due(n: nat, c: Pace, i: nat, now: real) {
    i <= n < i + c.chunk && n < 2 * Side(c) && (now < DAY as real <==> n < Side(c))
  }

  lemma TodayCounts(rows: seq<Row>, e: Amounts, c: Pace, i: nat, now: real, window: Window, k: Limit)
    requires Laid(rows, e, c, i, now, window) && Due(|rows|, c, i, now) && k.policy.UtcDay?
    ensures Used(rows, Relevant(k, now), k.metric) <= Times(Side(c) - 1, MetricValue(e, k.metric))
  {
    var v := MetricValue(e, k.metric);
    if now < DAY as real {
      UsedFrom(rows, e, 0, Relevant(k, now), k.metric);
      TimesMonotone(|rows|, Side(c) - 1, v);
    } else {
      MidnightPassed(now);
      UsedFrom(rows, e, Side(c), Relevant(k, now), k.metric);
      TimesMonotone(|rows| - Side(c), Side(c) - 1, v);
    }
  }

  lemma MidnightPassed(now: real)
    requires now >= DAY as real
    ensures DayStart(now) >= DAY as real
  {
    assert DayStart(DAY as real) == DAY as real;
    DayStartMonotone(DAY as real, now);
  }

  lemma GroupCounts(rows: seq<Row>, e: Amounts, c: Pace, i: nat, now: real, window: Window, k: Limit)
    requires Laid(rows, e, c, i, now, window) && Due(|rows|, c, i, now) && k.policy.Rolling? && k.window <= c.step
    ensures Used(rows, Relevant(k, now), k.metric) <= Times(c.chunk - 1, MetricValue(e, k.metric))
  {
    UsedFrom(rows, e, i, Relevant(k, now), k.metric);
    TimesMonotone(|rows| - i, c.chunk - 1, MetricValue(e, k.metric));
  }

  lemma AllCount(rows: seq<Row>, e: Amounts, n: nat, sel: Selector, m: Metric)
    requires Equal(rows, e) && |rows| < n
    ensures Used(rows, sel, m) <= Times(n - 1, MetricValue(e, m))
  {
    UsedFrom(rows, e, 0, sel, m);
    TimesMonotone(|rows|, n - 1, MetricValue(e, m));
  }

  /** How many of the run a limit admits together, by the kind of room it leaves. */
  lemma RoomKinds(p: Profile, l: Limit, e: Amounts, c: Pace, k: Limit) returns (n: nat)
    requires PacedRoom(k, l, e, p, c) && MetricValue(e, l.metric) > 0.0
    requires SameKey(k, l.metric, l.window) ==> k.amount == l.amount && k.policy.UtcDay?
    requires Times(Side(c), MetricValue(e, l.metric)) <= FullCap(l, p)
    ensures Times(n, MetricValue(e, k.metric)) <= FullCap(k, p)
    ensures (n == Side(c) && k.policy.UtcDay?) || n == 2 * Side(c)
            || (n == c.chunk && k.policy.Rolling? && k.window <= c.step)
  {
    if SameKey(k, l.metric, l.window) {
      n := Side(c);
    } else if TwiceRoom(k, l, e) {
      n := 2 * Side(c);
      TwiceFits(p, l, e, Side(c), k);
    } else {
      n := c.chunk;
    }
  }

  lemma FewCount(rows: seq<Row>, e: Amounts, c: Pace, i: nat, now: real, window: Window, k: Limit, n: nat)
    requires Laid(rows, e, c, i, now, window) && Due(|rows|, c, i, now)
    requires (n == Side(c) && k.policy.UtcDay?) || n == 2 * Side(c)
             || (n == c.chunk && k.policy.Rolling? && k.window <= c.step)
    ensures n > 0 && Used(rows, Relevant(k, now), k.metric) <= Times(n - 1, MetricValue(e, k.metric))
  {
    if n == 2 * Side(c) {
      AllCount(rows, e, n, Relevant(k, now), k.metric);
    } else if k.policy.UtcDay? {
      TodayCounts(rows, e, c, i, now, window, k);
    } else {
      GroupCounts(rows, e, c, i, now, window, k);
    }
  }

  lemma PacedFits(rows: seq<Row>, q: Request, l: Limit, c: Pace, i: nat, k: Limit)
    requires Laid(rows, q.estimate, c, i, q.now, l.window) && Due(|rows|, c, i, q.now) && q.pool != BACKGROUND
    requires PacedRoom(k, l, q.estimate, q.profile, c) && MetricValue(q.estimate, l.metric) > 0.0
    requires SameKey(k, l.metric, l.window) ==> k.amount == l.amount && k.policy.UtcDay?
    requires Times(Side(c), MetricValue(q.estimate, l.metric)) <= FullCap(l, q.profile)
    ensures Fits(rows, k, q)
  {
    BareCap(k, q);
    var n := RoomKinds(q.profile, l, q.estimate, c, k);
    FewCount(rows, q.estimate, c, i, q.now, l.window, k, n);
    FitsBelow(rows, q, k, n);
  }

  lemma OneMore(s: Ledger, q: Request, l: Limit, c: Pace, i: nat)
    requires Ready(q.profile, q.options, l, q.estimate, c) && q.pool != BACKGROUND && s.live == []
    requires Laid(s.rows, q.estimate, c, i, q.now, l.window) && Due(|s.rows|, c, i, q.now)
    requires At(c, 0) <= q.now && q.now - At(c, 0) < l.window as real
    ensures Grants(s, q) && Step(s, Reserve(q)) == Ledger(s.rows + [NewRow(s, q)], [], s.nextId + 1)
  {
    LaidIsOpen(s.rows, q.estimate, c, i, q.now, l.window);
    assert ActiveLimits(s, q) == FixedLimits(q.profile, q.options);
    forall k | k in ActiveLimits(s, q) ensures Fits(s.rows, k, q) {
      OwnAt(q.profile, q.options, l, q.estimate, c, k);
      PacedFits(s.rows, q, l, c, i, k);
    }
    GrantedIff(s, q);
    InsertLast(s.rows, NewRow(s, q));
  }

  lemma OneMoreLaid(s: Ledger, q: Request, l: Limit, c: Pace, i: nat)
    requires Laid(s.rows, q.estimate, c, i, q.now, l.window) && Due(|s.rows|, c, i, q.now) && At(c, 0) <= q.now
    requires Lifetime(EffectiveLimits(q.profile, q.options)) >= l.window
    ensures Laid(s.rows + [NewRow(s, q)], q.estimate, c, i, q.now, l.window)
  {
    var rows := s.rows + [NewRow(s, q)];
    forall r | r in rows ensures r.state.Reserved? && r.amounts == q.estimate {
      assert r in s.rows || r == NewRow(s, q);
    }
  }

  /** A group that starts on one side ends on it. */
  lemma GroupIsDue(c: Pace, window: Window, g: nat, n: nat)
    requires WellPaced(c, window) && g < 2 * c.groups && Steps(g, c.chunk) <= n < Steps(g, c.chunk) + c.chunk
    ensures Due(n, c, Steps(g, c.chunk), At(c, g))
  {
    AtBounds(c, window, g);
    StepsAdd(c.groups, c.groups, c.chunk);
    StepsGrow(g, 2 * c.groups, c.chunk);
    if g < c.groups {
      StepsGrow(g, c.groups, c.chunk);
    } else if g > c.groups {
      StepsGrow(c.groups, g, c.chunk);
    }
  }

  lemma LaidLater(rows: seq<Row>, e: Amounts, c: Pace, i: nat, now: real, later: real, window: Window)
    requires Laid(rows, e, c, i, now, window) && now + c.step as real <= later
    ensures Laid(rows, e, c, |rows|, later, window)
  {
  }

  /** The rows of the run so far, up to somewhere in group g. */
  predicate InGroup(s: Ledger, e: Amounts, c: Pace, g: nat, window: Window) {
    && s.live == [] && g < 2 * c.groups && Steps(g, c.chunk) <= |s.rows| <= Steps(g + 1, c.chunk)
    && Laid(s.rows, e, c, Steps(g, c.chunk), At(c, g), window)
  }

  lemma NextInGroup(s: Ledger, q: Request, l: Limit, c: Pace, g: nat)
    requires Ready(q.profile, q.options, l, q.estimate, c) && q.pool != BACKGROUND && q.now == At(c, g)
    requires InGroup(s, q.estimate, c, g, l.window) && |s.rows| < Steps(g + 1, c.chunk)
    ensures var t := Step(s, Reserve(q));
            InGroup(t, q.estimate, c, g, l.window) && |t.rows| == |s.rows| + 1
  {
    AtBounds(c, l.window, g);
    GroupIsDue(c, l.window, g, |s.rows|);
    OneMore(s, q, l, c, Steps(g, c.chunk));
    OneMoreLaid(s, q, l, c, Steps(g, c.chunk));
  }

  /** The rest of a group is granted. */
  lemma {:induction false} FillGroup(s: Ledger, q: Request, l: Limit, c: Pace, g: nat, j: nat)
    requires Ready(q.profile, q.options, l, q.estimate, c) && q.pool != BACKGROUND && q.now == At(c, g)
    requires InGroup(s, q.estimate, c, g, l.window) && |s.rows| + j == Steps(g + 1, c.chunk)
    ensures var t := Run(s, Repeat(q, j));
            InGroup(t, q.estimate, c, g, l.window) && |t.rows| == Steps(g + 1, c.chunk)
    decreases j
  {
    if j > 0 {
      NextInGroup(s, q, l, c, g);
      RunRepeat(s, q, j);
      FillGroup(Step(s, Reserve(q)), q, l, c, g, j - 1);
    }
  }

  /** Whole groups are done: the rows before group g. */
  predicate BeforeGroup(s: Ledger, e: Amounts, c: Pace, g: nat, window: Window) {
    s.live == [] && |s.rows| == Steps(g, c.chunk) && Laid(s.rows, e, c, |s.rows|, At(c, g), window)
  }

  lemma GroupIsTaken(s: Ledger, p: Profile, o: Options, l: Limit, e: Amounts, c: Pace, g: nat)
    requires Ready(p, o, l, e, c) && g < 2 * c.groups && BeforeGroup(s, e, c, g, l.window)
    ensures BeforeGroup(Run(s, Repeat(AskAt(p, o, e, c, g), c.chunk)), e, c, g + 1, l.window)
  {
    var q := AskAt(p, o, e, c, g);
    AtBounds(c, l.window, g);
    FillGroup(s, q, l, c, g, c.chunk);
    LaidLater(Run(s, Repeat(q, c.chunk)).rows, e, c, Steps(g, c.chunk), At(c, g), At(c, g + 1), l.window);
  }

  lemma GroupsFrom(s: Ledger, p: Profile, o: Options, e: Amounts, c: Pace, g: nat)
    requires g < 2 * c.groups
    ensures Run(s, Groups(p, o, e, c, g)) ==
            Run(Run(s, Repeat(AskAt(p, o, e, c, g), c.chunk)), Groups(p, o, e, c, g + 1))
  {
    RunAppend(s, Repeat(AskAt(p, o, e, c, g), c.chunk), Groups(p, o, e, c, g + 1));
  }

  lemma {:induction false} FillGroups(s: Ledger, p: Profile, o: Options, l: Limit, e: Amounts, c: Pace, g: nat)
    requires Ready(p, o, l, e, c) && g <= 2 * c.groups && BeforeGroup(s, e, c, g, l.window)
    ensures BeforeGroup(Run(s, Groups(p, o, e, c, g)), e, c, 2 * c.groups, l.window)
    decreases 2 * c.groups - g
  {
    if g < 2 * c.groups {
      GroupIsTaken(s, p, o, l, e, c, g);
      GroupsFrom(s, p, o, e, c, g);
      FillGroups(Run(s, Repeat(AskAt(p, o, e, c, g), c.chunk)), p, o, l, e, c, g + 1);
    }
  }

  function Span(c: Pace): Selector { Interval(At(c, 0) - 1.0, At(c, 2 * c.groups) - c.step as real, false) }

  lemma LaidInSpan(rows: seq<Row>, e: Amounts, c: Pace, window: Window, m: Metric)
    requires Laid(rows, e, c, |rows|, At(c, 2 * c.groups), window)
    ensures Used(rows, Span(c), m) == Times(|rows|, MetricValue(e, m))
  {
    forall r | r in rows ensures Selects(Span(c), r) {
      var k :| 0 <= k < |rows| && rows[k] == r;
    }
    UsedAll(rows, Span(c), m);
    TotalEqual(rows, e, m);
  }
}
