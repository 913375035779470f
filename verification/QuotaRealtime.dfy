/** The realtime reserve: background work never takes the reserved share of a window, so
    realtime requests that stay inside the share are always granted. */
module QuotaRealtime {
  import opened Basics
  import opened Quota
  import opened QuotaSums
  import opened QuotaSafety
  import opened QuotaRetry

  function BackgroundShare(l: Limit, p: Profile, o: Options): real {
    FullCap(l, p) * (1.0 - ReserveFraction(o.reservePercent))
  }

  function RealtimeShare(l: Limit, p: Profile, o: Options): real {
    FullCap(l, p) * ReserveFraction(o.reservePercent)
  }

  lemma SharesAddUp(l: Limit, p: Profile, o: Options)
    ensures BackgroundShare(l, p, o) + RealtimeShare(l, p, o) == FullCap(l, p)
    ensures l.amount >= 0.0 ==> BackgroundShare(l, p, o) >= 0.0
  {
    var full, f := FullCap(l, p), ReserveFraction(o.reservePercent);
    assert full * (1.0 - f) + full * f == full;
    if l.amount >= 0.0 {
      assert full >= 0.0;
    }
  }

  predicate BackgroundSpan(sel: Selector) {
    (sel.Interval? && sel.backgroundOnly) || (sel.UtcDate? && sel.backgroundOnly)
  }

  lemma {:induction false} SharesGovern(s: Ledger, events: seq<Event>, p: Profile, o: Options, l: Limit, sel: Selector)
    requires s.live == [] && Plain(events, p, o) && l in FixedLimits(p, o)
    requires Governs(l, sel) && BackgroundSpan(sel)
    ensures AdmittedUnder(s, events, sel, l.metric, BackgroundShare(l, p, o))
    decreases |events|
  {
    if events != [] {
      var e := events[0];
      assert e in events;
      if Admits(s, e, sel, l.metric) {
        assert ActiveLimits(s, e.request) == FixedLimits(p, o);
        assert Cap(l, e.request) == BackgroundShare(l, p, o);
        assert GovernedAt(s, e.request, sel, l.metric, BackgroundShare(l, p, o));
      }
      SharesGovern(Step(s, e), events[1..], p, o, l, sel);
    }
  }

  /** In every reachable ledger the background rows of a window hold at most the background
      share, up to what completions added over their estimates. */
  lemma BackgroundStaysInShare(events: seq<Event>, p: Profile, o: Options, l: Limit, sel: Selector)
    requires Plain(events, p, o) && l in FixedLimits(p, o) && l.amount >= 0.0
    requires Governs(l, sel) && BackgroundSpan(sel)
    ensures var share := BackgroundShare(l, p, o);
            var used := Used(Run(EMPTY_LEDGER, events).rows, sel, l.metric);
            && used <= share + Raised(EMPTY_LEDGER, events, sel, l.metric)
            && (l.metric == Requests ==> used <= share)
  {
    SharesGovern(EMPTY_LEDGER, events, p, o, l, sel);
    SharesAddUp(l, p, o);
    WindowSafetyOverRuns(EMPTY_LEDGER, events, sel, l.metric, BackgroundShare(l, p, o));
  }

  /** The background rows a limit looks at when it decides at `now`. */
  function WindowAt(l: Limit, now: real): Selector {
    match l.policy
    case Rolling => Interval(now - l.window as real, now, true)
    case UtcDay => UtcDate(DayOf(now), true)
  }

  lemma {:induction false} WindowSplits(rows: seq<Row>, l: Limit, now: real, m: Metric)
    requires forall r :: r in rows ==> r.createdAt <= now
    ensures Used(rows, Relevant(l, now), m) <= Used(rows, WindowAt(l, now), m) + Used(rows, Foreground(l, now), m)
  {
    if rows != [] {
      UsedHead(rows, Relevant(l, now), m);
      UsedHead(rows, WindowAt(l, now), m);
      UsedHead(rows, Foreground(l, now), m);
      if l.policy.UtcDay? && InWindow(l, now, rows[0].createdAt) {
        DayStartMonotone(rows[0].createdAt, now);
        DayBounds(rows[0].createdAt);
        DayStartMonotone(DayStart(now), rows[0].createdAt);
        SameDay(rows[0].createdAt, now);
      }
      WindowSplits(rows[1..], l, now, m);
    }
  }

  lemma SameDay(a: real, b: real)
    requires DayStart(b) <= a <= b
    ensures DayOf(a) == DayOf(b)
  {
    DayBounds(b);
    assert a / (DAY as real) <= b / (DAY as real);
    assert (DayOf(b) * DAY) as real / (DAY as real) == DayOf(b) as real;
    assert a / (DAY as real) >= DayOf(b) as real;
  }

  /** What a limit still has to leave for the realtime request: its own window usage, the
      request, and background completions above their estimates fit the realtime share. */
  predicate InsideReserve(events: seq<Event>, l: Limit, q: Request) {
    var v := MetricValue(q.estimate, l.metric);
    v == 0.0 ||
    Used(Run(EMPTY_LEDGER, events).rows, Foreground(l, q.now), l.metric) + v
    + Raised(EMPTY_LEDGER, events, WindowAt(l, q.now), l.metric) <= RealtimeShare(l, q.profile, q.options)
  }

  lemma ReserveLeavesRoom(events: seq<Event>, q: Request, l: Limit)
    requires Plain(events, q.profile, q.options) && q.pool != BACKGROUND
    requires forall r :: r in Run(EMPTY_LEDGER, events).rows ==> r.createdAt <= q.now
    requires l in FixedLimits(q.profile, q.options) && l.amount >= 0.0 && InsideReserve(events, l, q)
    ensures Fits(Sweep(Run(EMPTY_LEDGER, events).rows, q.now), l, q)
  {
    var s := Run(EMPTY_LEDGER, events);
    var sel := WindowAt(l, q.now);
    assert Governs(l, sel);
    BackgroundStaysInShare(events, q.profile, q.options, l, sel);
    SharesAddUp(l, q.profile, q.options);
    WindowSplits(s.rows, l, q.now, l.metric);
    UsedSweep(s.rows, q.now, Relevant(l, q.now), l.metric);
    assert Cap(l, q) == FullCap(l, q.profile);
  }

  /** A realtime request inside the reserve is granted in every reachable ledger, whatever
      the background pool did before. */
  lemma RealtimeNeverStarved(events: seq<Event>, q: Request)
    requires Plain(events, q.profile, q.options) && q.pool != BACKGROUND
    requires forall r :: r in Run(EMPTY_LEDGER, events).rows ==> r.createdAt <= q.now
    requires forall l :: l in FixedLimits(q.profile, q.options) ==> l.amount >= 0.0 && InsideReserve(events, l, q)
    ensures Grants(Run(EMPTY_LEDGER, events), q)
  {
    var s := Run(EMPTY_LEDGER, events);
    RunsStayTidy(EMPTY_LEDGER, events, q.profile, q.options, []);
    assert ActiveLimits(s, q) == FixedLimits(q.profile, q.options);
    forall l | l in ActiveLimits(s, q) ensures Fits(Sweep(s.rows, q.now), l, q) {
      ReserveLeavesRoom(events, q, l);
    }
    GrantedIff(s, q);
  }
}
