/** Window safety: over every run of the ledger, with any clock readings and any live
    headers, the usage inside a window stays under the cap of the last admission in it. */
module QuotaSafety {
  import opened Basics
  import opened Quota
  import opened QuotaSums

  // ----- Completions -----

  /** By how much a completion lifts the selected usage above what was reserved. */
  function RaiseBy(rows: seq<Row>, id: nat, a: Amounts, sel: Selector, m: Metric): Quantity {
    if rows == [] then 0.0
    else
      var r := rows[0];
      var rest := RaiseBy(rows[1..], id, a, sel, m);
      if r.id == id && r.state.Reserved? && Selects(sel, r) then
        rest + Max(0.0, MetricValue(a.(requests := r.amounts.requests), m) - MetricValue(r.amounts, m))
      else rest
  }

  lemma {:induction false} UsedComplete(rows: seq<Row>, id: nat, a: Amounts, sel: Selector, m: Metric)
    ensures Used(CompleteRows(rows, id, a), sel, m) <= Used(rows, sel, m) + RaiseBy(rows, id, a, sel, m)
    ensures m == Requests ==> RaiseBy(rows, id, a, sel, m) == 0.0
  {
    if rows != [] {
      var out := CompleteRows(rows, id, a);
      UsedHead(rows, sel, m);
      UsedHead(out, sel, m);
      assert out[1..] == CompleteRows(rows[1..], id, a);
      UsedComplete(rows[1..], id, a, sel, m);
    }
  }

  /** A completion replaces what its open row had reserved by what was reported: wherever the row
      counts, usage moves by exactly the difference, and everywhere else it stays. */
  lemma {:induction false} CompletedUsage(rows: seq<Row>, i: nat, a: Amounts, sel: Selector, m: Metric)
    requires i < |rows| && rows[i].state.Reserved?
    requires forall j :: 0 <= j < |rows| && j != i ==> rows[j].id != rows[i].id
    ensures var reserved, reported := rows[i].amounts, Amounts(rows[i].amounts.requests, a.input, a.output, a.units);
            Used(CompleteRows(rows, rows[i].id, a), sel, m) as real ==
            Used(rows, sel, m) as real
            + if Selects(sel, rows[i]) then MetricValue(reported, m) - MetricValue(reserved, m) else 0.0
  {
    var out := CompleteRows(rows, rows[i].id, a);
    UsedHead(rows, sel, m);
    UsedHead(out, sel, m);
    assert out[1..] == CompleteRows(rows[1..], rows[i].id, a);
    if i == 0 {
      UsedOthers(rows[1..], rows[0].id, a, sel, m);
    } else {
      CompletedUsage(rows[1..], i - 1, a, sel, m);
    }
  }

  // ----- What usage adds up -----

  function AddUp(rows: seq<Row>): Amounts {
    if rows == [] then Amounts(0.0, 0.0, 0.0, 0.0)
    else
      var head, rest := rows[0].amounts, AddUp(rows[1..]);
      Amounts(head.requests + rest.requests, head.input + rest.input, head.output + rest.output,
              head.units + rest.units)
  }

  /** Usage of a metric is what the counted rows add up to in its own field. */
  lemma {:induction false} UsageAddsUp(rows: seq<Row>)
    ensures var sum := AddUp(rows);
            && Total(rows, Requests) == sum.requests && Total(rows, Units) == sum.units
            && Total(rows, InputTokens) == sum.input && Total(rows, OutputTokens) == sum.output
            && Total(rows, TotalTokens) == sum.input + sum.output && Total(rows, UnknownMetric) == 0.0
  {
    if rows != [] {
      UsageAddsUp(rows[1..]);
    }
  }

  /** A header counts what came after it, and a rolling limit what came after its window began. */
  lemma {:induction false} CountedSpans(rows: seq<Row>, l: Limit, a: real, b: real, m: Metric)
    requires a <= b
    ensures Used(rows, Since(a), m) == Used(rows, Interval(a, b, false), m) + Used(rows, Since(b), m)
    ensures l.policy.Rolling? ==> Used(rows, Relevant(l, b), m) == Used(rows, Since(b - l.window as real), m)
  {
    if rows != [] {
      UsedHead(rows, Since(a), m);
      UsedHead(rows, Since(b), m);
      UsedHead(rows, Interval(a, b, false), m);
      UsedHead(rows, Relevant(l, b), m);
      UsedHead(rows, Since(b - l.window as real), m);
      CountedSpans(rows[1..], l, a, b, m);
    }
  }

  // ----- One admission -----

  /** The limit is enforced over every span the selector can describe: a rolling window
      at least as long as the interval, or the UTC day itself. */
  predicate Governs(l: Limit, sel: Selector) {
    match sel
    case Interval(lo, hi, _) => l.policy.Rolling? && hi - lo <= l.window as real
    case UtcDate(_, _) => l.policy.UtcDay?
    case _ => false
  }

  lemma SpanIsRelevant(l: Limit, sel: Selector, admitted: Row, r: Row)
    requires Governs(l, sel) && Selects(sel, admitted) && Selects(sel, r)
    ensures Selects(Relevant(l, admitted.createdAt), r)
  {
    if sel.UtcDate? {
      var x := r.createdAt / (DAY as real);
      assert x >= x.Floor as real;
      assert r.createdAt >= (x.Floor * DAY) as real;
    }
  }

  lemma ReleaseIsLater(rows: seq<Row>, m: Metric, reduced: real, candidate: real, cap: real, w: Window,
                       fallback: real, bound: real)
    requires fallback > bound
    requires forall r :: r in rows ==> r.createdAt + w as real > bound
    ensures ReleaseTime(rows, m, reduced, candidate, cap, w, fallback) > bound
    decreases |rows|
  {
    if rows != [] {
      var left := reduced - MetricValue(rows[0].amounts, m);
      ReleaseIsLater(rows[1..], m, left, candidate, cap, w, rows[0].createdAt + w as real, bound);
    }
  }

  predicate Fits(rows: seq<Row>, l: Limit, q: Request) {
    var v := MetricValue(q.estimate, l.metric);
    v == 0.0 || Used(rows, Relevant(l, q.now), l.metric) + v <= Cap(l, q)
  }

  predicate WithinObserved(rows: seq<Row>, o: Observation, q: Request) {
    o.resetAt <= q.now ||
    MetricValue(q.estimate, o.metric) + Used(rows, Since(o.observedAt), o.metric) <= o.remaining
  }

  lemma LimitDecides(rows: seq<Row>, l: Limit, q: Request)
    ensures LimitRetry(rows, l, q) <= q.now <==> Fits(rows, l, q)
  {
    var v := MetricValue(q.estimate, l.metric);
    var relevant := Select(rows, Relevant(l, q.now));
    SelectedAll(rows, Relevant(l, q.now));
    if v > 0.0 {
      if l.policy.UtcDay? {
        var x := q.now / (DAY as real);
        assert x < x.Floor as real + 1.0;
      } else {
        ReleaseIsLater(relevant, l.metric, Total(relevant, l.metric), v, Cap(l, q), l.window,
                       q.now + l.window as real, q.now);
      }
    }
  }

  lemma {:induction false} LimitsDecide(rows: seq<Row>, limits: seq<Limit>, q: Request)
    ensures LimitsRetry(rows, limits, q) <= q.now <==> forall l :: l in limits ==> Fits(rows, l, q)
    decreases |limits|
  {
    if limits != [] {
      var n := |limits| - 1;
      assert limits == limits[..n] + [limits[n]];
      LimitsDecide(rows, limits[..n], q);
      LimitDecides(rows, limits[n], q);
    }
  }

  lemma {:induction false} ObservationsDecide(rows: seq<Row>, live: seq<Observation>, q: Request)
    ensures LiveRetry(rows, live, q) <= q.now <==> forall o :: o in live ==> WithinObserved(rows, o, q)
    decreases |live|
  {
    if live != [] {
      var n := |live| - 1;
      assert live == live[..n] + [live[n]];
      ObservationsDecide(rows, live[..n], q);
      assert ObservationRetry(rows, live[n], q) <= q.now <==> WithinObserved(rows, live[n], q);
    }
  }

  /** A reservation is granted exactly when every limit in force and every unexpired
      observation has room for it among the rows that survive the sweep. */
  lemma GrantedIff(s: Ledger, q: Request)
    ensures Grants(s, q) <==>
            && (forall l :: l in ActiveLimits(s, q) ==> Fits(Sweep(s.rows, q.now), l, q))
            && (forall o :: o in s.live ==> WithinObserved(Sweep(s.rows, q.now), o, q))
    ensures Grants(s, q) <==> ReserveStep(s, q).1.Granted?
  {
    LimitsDecide(Sweep(s.rows, q.now), ActiveLimits(s, q), q);
    ObservationsDecide(Sweep(s.rows, q.now), s.live, q);
  }

  lemma {:induction false} LimitsRetryIsMax(rows: seq<Row>, limits: seq<Limit>, q: Request)
    ensures forall l :: l in limits ==> LimitRetry(rows, l, q) <= LimitsRetry(rows, limits, q)
    ensures LimitsRetry(rows, limits, q) >= 0.0
    ensures LimitsRetry(rows, limits, q) == 0.0
            || exists l :: l in limits && LimitRetry(rows, l, q) == LimitsRetry(rows, limits, q)
    decreases |limits|
  {
    if limits != [] {
      var n := |limits| - 1;
      assert limits == limits[..n] + [limits[n]];
      LimitsRetryIsMax(rows, limits[..n], q);
    }
  }

  /** The order, and repetitions, of the limits do not matter to the retry time. */
  lemma OrderOfLimitsIsIrrelevant(rows: seq<Row>, a: seq<Limit>, b: seq<Limit>, q: Request)
    requires forall l :: l in a <==> l in b
    ensures LimitsRetry(rows, a, q) == LimitsRetry(rows, b, q)
  {
    LimitsRetryIsMax(rows, a, q);
    LimitsRetryIsMax(rows, b, q);
  }

  /** Right after an admission, the whole span is under the cap of every limit that governs it. */
  lemma AdmissionBound(s: Ledger, q: Request, l: Limit, sel: Selector)
    requires Grants(s, q) && l in ActiveLimits(s, q) && Governs(l, sel) && Selects(sel, NewRow(s, q))
    requires MetricValue(q.estimate, l.metric) > 0.0
    ensures Used(ReserveStep(s, q).0.rows, sel, l.metric) <= Cap(l, q)
  {
    var rows := Sweep(s.rows, q.now);
    GrantedIff(s, q);
    assert Fits(rows, l, q);
    forall r | r in rows && Selects(sel, r) ensures Selects(Relevant(l, q.now), r) {
      SpanIsRelevant(l, sel, NewRow(s, q), r);
    }
    UsedMonotone(rows, sel, Relevant(l, q.now), l.metric);
    UsedInsert(rows, NewRow(s, q), sel, l.metric);
  }

  // ----- Whole runs -----

  /** The event is an admission that adds usage of m to the span. */
  predicate Admits(s: Ledger, e: Event, sel: Selector, m: Metric) {
    e.Reserve? && Grants(s, e.request) && Selects(sel, NewRow(s, e.request)) &&
    MetricValue(e.request.estimate, m) > 0.0
  }

  predicate NoAdmission(s: Ledger, events: seq<Event>, sel: Selector, m: Metric)
    decreases |events|
  {
    events == [] || (!Admits(s, events[0], sel, m) && NoAdmission(Step(s, events[0]), events[1..], sel, m))
  }

  /** The total by which completions raise the span's usage during a run. */
  function Raised(s: Ledger, events: seq<Event>, sel: Selector, m: Metric): Quantity
    decreases |events|
  {
    if events == [] then 0.0
    else
      (match events[0]
       case Complete(id, a, _) => RaiseBy(s.rows, id, a, sel, m)
       case _ => 0.0) + Raised(Step(s, events[0]), events[1..], sel, m)
  }

  /** Between admissions, only completions can lift the usage of a span. */
  lemma OtherStep(s: Ledger, e: Event, sel: Selector, m: Metric)
    requires !Admits(s, e, sel, m)
    ensures Used(Step(s, e).rows, sel, m) <=
            Used(s.rows, sel, m) + if e.Complete? then RaiseBy(s.rows, e.id, e.amounts, sel, m) else 0.0
  {
    match e
    case Reserve(q) =>
      if Grants(s, q) {
        UsedSweep(s.rows, q.now, sel, m);
        UsedInsert(Sweep(s.rows, q.now), NewRow(s, q), sel, m);
      }
    case Complete(id, a, headers) => UsedComplete(s.rows, id, a, sel, m);
    case Cancel(id) => UsedCancel(s.rows, id, sel, m);
    case Expire(now) => UsedSweep(s.rows, now, sel, m);
  }

  lemma {:induction false} QuietRun(s: Ledger, events: seq<Event>, sel: Selector, m: Metric)
    requires NoAdmission(s, events, sel, m)
    ensures Used(Run(s, events).rows, sel, m) <= Used(s.rows, sel, m) + Raised(s, events, sel, m)
    decreases |events|
  {
    if events != [] {
      OtherStep(s, events[0], sel, m);
      QuietRun(Step(s, events[0]), events[1..], sel, m);
    }
  }

  /** Window safety. From any ledger, once q is the last admission of the metric in a span,
      the span holds at most the cap then in force plus what completions added since. */
  lemma WindowSafety(s: Ledger, q: Request, l: Limit, later: seq<Event>, sel: Selector)
    requires Admits(s, Reserve(q), sel, l.metric) && l in ActiveLimits(s, q) && Governs(l, sel)
    requires NoAdmission(Step(s, Reserve(q)), later, sel, l.metric)
    ensures Used(Run(s, [Reserve(q)] + later).rows, sel, l.metric) <=
            Cap(l, q) + Raised(Step(s, Reserve(q)), later, sel, l.metric)
  {
    var events := [Reserve(q)] + later;
    assert events[1..] == later;
    AdmissionBound(s, q, l, sel);
    QuietRun(Step(s, Reserve(q)), later, sel, l.metric);
  }

  lemma {:induction false} RequestsAreNeverRaised(s: Ledger, events: seq<Event>, sel: Selector)
    ensures Raised(s, events, sel, Requests) == 0.0
    decreases |events|
  {
    if events != [] {
      match events[0] {
        case Complete(id, a, _) => UsedComplete(s.rows, id, a, sel, Requests);
        case _ =>
      }
      RequestsAreNeverRaised(Step(s, events[0]), events[1..], sel);
    }
  }

  ghost predicate GovernedAt(s: Ledger, q: Request, sel: Selector, m: Metric, bound: real) {
    exists l :: l in ActiveLimits(s, q) && l.metric == m && Governs(l, sel) && Cap(l, q) <= bound
  }

  /** Every admission to the span happens under a governing limit whose cap is at most bound. */
  ghost predicate AdmittedUnder(s: Ledger, events: seq<Event>, sel: Selector, m: Metric, bound: real)
    decreases |events|
  {
    events != [] ==>
      && (Admits(s, events[0], sel, m) ==> GovernedAt(s, events[0].request, sel, m, bound))
      && AdmittedUnder(Step(s, events[0]), events[1..], sel, m, bound)
  }

  /** A bound on every cap in force is a bound on the span over the whole run. */
  lemma {:induction false} WindowSafetyOverRuns(s: Ledger, events: seq<Event>, sel: Selector, m: Metric, bound: real)
    requires AdmittedUnder(s, events, sel, m, bound) && Used(s.rows, sel, m) <= bound
    ensures Used(Run(s, events).rows, sel, m) <= bound + Raised(s, events, sel, m)
    ensures m == Requests ==> Used(Run(s, events).rows, sel, m) <= bound
    decreases |events|
  {
    WindowSafetyCarried(s, events, sel, m, bound, 0.0);
    if m == Requests {
      RequestsAreNeverRaised(s, events, sel);
    }
  }

  lemma {:induction false} WindowSafetyCarried(s: Ledger, events: seq<Event>, sel: Selector, m: Metric, bound: real,
                                               carried: Quantity)
    requires AdmittedUnder(s, events, sel, m, bound) && Used(s.rows, sel, m) <= bound + carried
    ensures Used(Run(s, events).rows, sel, m) <= bound + carried + Raised(s, events, sel, m)
    decreases |events|
  {
    if events != [] {
      var e := events[0];
      var raise: Quantity := if e.Complete? then RaiseBy(s.rows, e.id, e.amounts, sel, m) else 0.0;
      if Admits(s, e, sel, m) {
        var l :| l in ActiveLimits(s, e.request) && l.metric == m && Governs(l, sel) && Cap(l, e.request) <= bound;
        AdmissionBound(s, e.request, l, sel);
      } else {
        OtherStep(s, e, sel, m);
      }
      WindowSafetyCarried(Step(s, e), events[1..], sel, m, bound, carried + raise);
    }
  }
}
