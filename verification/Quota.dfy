/** The quota ledger of one provider scope: rows, limits, live headers, and the transactions that
    admit, complete and cancel reservations. Amounts and times are reals. */
module Quota {
  import opened Basics

  // ----- Data -----

  type Quantity = r: real | r >= 0.0

  type Window = n: int | n > 0 witness 1

  datatype Metric = Requests | InputTokens | OutputTokens | TotalTokens | Units | UnknownMetric

  datatype Amounts = Amounts(requests: Quantity, input: Quantity, output: Quantity, units: Quantity)

  datatype RowState = Reserved | Completed | Cancelled

  datatype Row = Row(id: nat, pool: string, state: RowState, amounts: Amounts, createdAt: real, expiresAt: real)

  datatype ResetPolicy = Rolling | UtcDay

  datatype Limit = Limit(metric: Metric, amount: real, window: Window, userCap: real, policy: ResetPolicy)

  /** What one response header said about a (metric, window): the limit, what remains, and when it resets. */
  datatype Observation = Observation(metric: Metric, window: Window, limit: real, remaining: Quantity,
                                     resetAt: real, observedAt: real)

  /** `manual` is the profile source "user", for which live limits are not merged in. */
  datatype Profile = Profile(manual: bool, local: bool, limits: seq<Limit>, margin: real,
                             inputUnits: Quantity, outputUnits: Quantity)

  datatype Options = Options(reservePercent: real, unknownRequestsPerMinute: int)

  datatype Request = Request(profile: Profile, options: Options, pool: string, estimate: Amounts, now: Quantity)

  datatype Reservation = Reservation(id: nat, estimate: Amounts, createdAt: real, expiresAt: real)

  datatype Outcome = Granted(reservation: Reservation) | Rejected(retryAt: real)

  /** Token usage a provider reported; nothing in it is trusted to be non-negative. */
  datatype Usage = Usage(input: real, output: real, units: real)

  /** Rows are kept in the order of the admission query: by creation time, ties in admission order. */
  datatype Ledger = Ledger(rows: seq<Row>, live: seq<Observation>, nextId: nat)

  const EMPTY_LEDGER := Ledger([], [], 0)

  const BACKGROUND := "background"

  const DAY := 86400

  // ----- Amounts and caps -----

  function MetricValue(a: Amounts, m: Metric): (v: Quantity) {
    match m
    case Requests => a.requests
    case InputTokens => a.input
    case OutputTokens => a.output
    case TotalTokens => a.input + a.output
    case Units => a.units
    case UnknownMetric => 0.0
  }

  function SafetyFactor(margin: real): (f: real)
    ensures 0.5 <= f <= 1.0
  {
    1.0 - Min(50.0, Max(0.0, margin)) / 100.0
  }

  function ReserveFraction(percent: real): (f: real)
    ensures 0.0 <= f <= 0.9
  {
    Min(90.0, Max(0.0, percent)) / 100.0
  }

  /** What the safety margin leaves of a limit. */
  function FullCap(l: Limit, p: Profile): real { l.amount * SafetyFactor(p.margin) }

  /** The part of a limit that a pool may use: the safety margin comes off for everyone,
      the realtime reserve only for the background pool. */
  function Cap(l: Limit, q: Request): real {
    var full := FullCap(l, q.profile);
    if q.pool == BACKGROUND then full * (1.0 - ReserveFraction(q.options.reservePercent)) else full
  }

  function DayOf(t: real): int { (t / (DAY as real)).Floor }

  function DayStart(t: real): real { (DayOf(t) * DAY) as real }

  // ----- Which rows count -----

  /** A first-order description of the row sets that usage is summed over. */
  datatype Selector =
    | Relevant(limit: Limit, now: real)
    | Foreground(limit: Limit, now: real)
    | Since(instant: real)
    | Interval(lo: real, hi: real, backgroundOnly: bool)
    | UtcDate(day: int, backgroundOnly: bool)

  predicate Live(r: Row) { r.state != Cancelled }

  predicate InWindow(l: Limit, now: real, t: real) {
    match l.policy
    case UtcDay => t >= DayStart(now)
    case Rolling => t > now - l.window as real
  }

  predicate Selects(sel: Selector, r: Row) {
    Live(r) &&
    match sel
    case Relevant(l, now) => InWindow(l, now, r.createdAt)
    case Foreground(l, now) => InWindow(l, now, r.createdAt) && r.pool != BACKGROUND
    case Since(instant) => r.createdAt > instant
    case Interval(lo, hi, bg) => lo < r.createdAt <= hi && (bg ==> r.pool == BACKGROUND)
    case UtcDate(day, bg) => DayOf(r.createdAt) == day && (bg ==> r.pool == BACKGROUND)
  }

  function Select(rows: seq<Row>, sel: Selector): seq<Row> {
    if rows == [] then []
    else if Selects(sel, rows[0]) then [rows[0]] + Select(rows[1..], sel)
    else Select(rows[1..], sel)
  }

  function Total(rows: seq<Row>, m: Metric): Quantity {
    if rows == [] then 0.0 else MetricValue(rows[0].amounts, m) + Total(rows[1..], m)
  }

  function Used(rows: seq<Row>, sel: Selector, m: Metric): Quantity {
    Total(Select(rows, sel), m)
  }

  // ----- Limits in force -----

  function EffectiveLimits(p: Profile, o: Options): seq<Limit> {
    if p.limits != [] || p.local || p.manual then p.limits
    else [Limit(Requests, Max(1.0, o.unknownRequestsPerMinute as real), 60, 0.0, Rolling)]
  }

  predicate SameKey(a: Limit, m: Metric, w: Window) { a.metric == m && a.window == w }

  /** Assignment into an insertion-ordered dictionary keyed by (metric, window). */
  function Put(limits: seq<Limit>, l: Limit): seq<Limit> {
    if limits == [] then [l]
    else if SameKey(limits[0], l.metric, l.window) then [l] + limits[1..]
    else [limits[0]] + Put(limits[1..], l)
  }

  function Lookup(limits: seq<Limit>, m: Metric, w: Window): Option<Limit> {
    if limits == [] then None
    else if SameKey(limits[0], m, w) then Some(limits[0])
    else Lookup(limits[1..], m, w)
  }

  function PutAll(base: seq<Limit>, limits: seq<Limit>): seq<Limit>
    decreases |limits|
  {
    if limits == [] then base else PutAll(Put(base, limits[0]), limits[1..])
  }

  /** The limit a live observation puts in place of the configured one. */
  function LiveLimit(existing: Option<Limit>, o: Observation): Limit {
    match existing
    case None => Limit(o.metric, o.limit, o.window, 0.0, Rolling)
    case Some(l) =>
      Limit(o.metric, if l.userCap > 0.0 then Min(o.limit, l.userCap) else o.limit, o.window, l.userCap, l.policy)
  }

  function MergeLive(limits: seq<Limit>, live: seq<Observation>, now: real): seq<Limit>
    decreases |live|
  {
    if live == [] then limits
    else
      var o := live[0];
      MergeLive(if o.resetAt > now then Put(limits, LiveLimit(Lookup(limits, o.metric, o.window), o)) else limits,
                live[1..], now)
  }

  function LimitsWithLiveState(limits: seq<Limit>, live: seq<Observation>, manual: bool, now: real): seq<Limit> {
    if manual then limits else MergeLive(PutAll([], limits), live, now)
  }

  /** The limits every decision of a run without headers is made under. */
  function FixedLimits(p: Profile, o: Options): seq<Limit> {
    LimitsWithLiveState(EffectiveLimits(p, o), [], p.manual, 0.0)
  }

  function ActiveLimits(s: Ledger, q: Request): seq<Limit> {
    LimitsWithLiveState(EffectiveLimits(q.profile, q.options), s.live, q.profile.manual, q.now)
  }

  // ----- Retry times -----

  /** The creation time plus window of the first row whose leaving makes room. */
  function ReleaseTime(rows: seq<Row>, m: Metric, reduced: real, candidate: real, cap: real, window: Window,
                       fallback: real): real
    decreases |rows|
  {
    if rows == [] then fallback
    else
      var left := reduced - MetricValue(rows[0].amounts, m);
      var at := rows[0].createdAt + window as real;
      if left + candidate <= cap then at else ReleaseTime(rows[1..], m, left, candidate, cap, window, at)
  }

  function RollingRetry(rows: seq<Row>, m: Metric, candidate: real, cap: real, window: Window, now: real): real {
    var current := Total(rows, m);
    if candidate > cap then now + window as real
    else if current + candidate <= cap then 0.0
    else Max(now, ReleaseTime(rows, m, current, candidate, cap, window, now + window as real))
  }

  function LimitRetry(rows: seq<Row>, l: Limit, q: Request): real {
    var candidate := MetricValue(q.estimate, l.metric);
    if candidate <= 0.0 then 0.0
    else if l.policy.UtcDay? then
      if Used(rows, Relevant(l, q.now), l.metric) + candidate > Cap(l, q) then DayStart(q.now) + DAY as real else 0.0
    else
      RollingRetry(Select(rows, Relevant(l, q.now)), l.metric, candidate, Cap(l, q), l.window, q.now)
  }

  function LimitsRetry(rows: seq<Row>, limits: seq<Limit>, q: Request): real
    decreases |limits|
  {
    if limits == [] then 0.0
    else
      var n := |limits| - 1;
      Max(LimitsRetry(rows, limits[..n], q), LimitRetry(rows, limits[n], q))
  }

  function ObservationRetry(rows: seq<Row>, o: Observation, q: Request): real {
    if o.resetAt > q.now && MetricValue(q.estimate, o.metric) + Used(rows, Since(o.observedAt), o.metric) > o.remaining
    then o.resetAt else 0.0
  }

  function LiveRetry(rows: seq<Row>, live: seq<Observation>, q: Request): real
    decreases |live|
  {
    if live == [] then 0.0
    else
      var n := |live| - 1;
      Max(LiveRetry(rows, live[..n], q), ObservationRetry(rows, live[n], q))
  }

  // ----- Steps -----

  function SweepRow(r: Row, now: real): Row {
    if r.state.Reserved? && r.expiresAt <= now then r.(state := Cancelled) else r
  }

  function Sweep(rows: seq<Row>, now: real): seq<Row> {
    if rows == [] then [] else [SweepRow(rows[0], now)] + Sweep(rows[1..], now)
  }

  function Insert(rows: seq<Row>, r: Row): seq<Row> {
    if rows == [] || r.createdAt < rows[0].createdAt then [r] + rows else [rows[0]] + Insert(rows[1..], r)
  }

  function MaxWindow(limits: seq<Limit>): (longest: int)
    ensures forall l :: l in limits ==> l.window <= longest
  {
    if limits == [] then 0
    else
      var rest := MaxWindow(limits[1..]);
      if limits[0].window >= rest then limits[0].window else rest
  }

  /** How long a reservation stays open: the longest configured window, at least 300 seconds. */
  function Lifetime(limits: seq<Limit>): int {
    var longest := if limits == [] then 300 else MaxWindow(limits);
    if longest >= 300 then longest else 300
  }

  function NewRow(s: Ledger, q: Request): Row {
    Row(s.nextId, q.pool, Reserved, q.estimate, q.now,
        q.now + Lifetime(EffectiveLimits(q.profile, q.options)) as real)
  }

  function RetryAt(s: Ledger, q: Request): real {
    var rows := Sweep(s.rows, q.now);
    Max(LimitsRetry(rows, ActiveLimits(s, q), q), LiveRetry(rows, s.live, q))
  }

  /** A rejection leaves the transaction by an exception, so its sweep is rolled back with it. */
  function ReserveStep(s: Ledger, q: Request): (Ledger, Outcome) {
    var retryAt := RetryAt(s, q);
    if retryAt > q.now then (s, Rejected(retryAt))
    else
      var row := NewRow(s, q);
      (Ledger(Insert(Sweep(s.rows, q.now), row), s.live, s.nextId + 1),
       Granted(Reservation(row.id, row.amounts, row.createdAt, row.expiresAt)))
  }

  predicate Grants(s: Ledger, q: Request) { RetryAt(s, q) <= q.now }

  function UnitsFor(input: Quantity, output: Quantity, p: Profile): Quantity {
    (input * p.inputUnits + output * p.outputUnits) / 1000000.0
  }

  /** What a completion stores: no report keeps the estimate, and an empty token report keeps its tokens. */
  function NormalizedUsage(usage: Option<Usage>, estimate: Amounts, profile: Option<Profile>): (a: Amounts)
    ensures a.requests == estimate.requests
    ensures usage.None? ==> a == estimate
    ensures usage.Some? && usage.value.input <= 0.0 && usage.value.output <= 0.0 ==>
              a.input == estimate.input && a.output == estimate.output
    ensures usage.Some? && (usage.value.input > 0.0 || usage.value.output > 0.0) ==>
              a.input == Max(0.0, usage.value.input) && a.output == Max(0.0, usage.value.output)
    ensures usage.Some? && usage.value.units > 0.0 ==> a.units == usage.value.units
    ensures usage.Some? && usage.value.units <= 0.0 ==>
              a.units == if profile.Some? then UnitsFor(a.input, a.output, profile.value) else 0.0
  {
    match usage
    case None => estimate
    case Some(u) =>
      var silent := Max(0.0, u.input) == 0.0 && Max(0.0, u.output) == 0.0;
      var input: Quantity := if silent then estimate.input else Max(0.0, u.input);
      var output: Quantity := if silent then estimate.output else Max(0.0, u.output);
      var reported: Quantity := Max(0.0, u.units);
      var units: Quantity :=
        if reported == 0.0 && profile.Some? then UnitsFor(input, output, profile.value) else reported;
      Amounts(estimate.requests, input, output, units)
  }

  function CompleteRow(r: Row, id: nat, a: Amounts): Row {
    if r.id == id && r.state.Reserved? then r.(state := Completed, amounts := a.(requests := r.amounts.requests)) else r
  }

  function CompleteRows(rows: seq<Row>, id: nat, a: Amounts): seq<Row> {
    if rows == [] then [] else [CompleteRow(rows[0], id, a)] + CompleteRows(rows[1..], id, a)
  }

  function CancelRow(r: Row, id: nat): Row {
    if r.id == id && r.state.Reserved? then r.(state := Cancelled) else r
  }

  function CancelRows(rows: seq<Row>, id: nat): seq<Row> {
    if rows == [] then [] else [CancelRow(rows[0], id)] + CancelRows(rows[1..], id)
  }

  /** Upsert of an observation under its (metric, window) key. */
  function Observe(live: seq<Observation>, o: Observation): seq<Observation> {
    if live == [] then [o]
    else if live[0].metric == o.metric && live[0].window == o.window then [o] + live[1..]
    else [live[0]] + Observe(live[1..], o)
  }

  function ObserveAll(live: seq<Observation>, headers: seq<Observation>): seq<Observation>
    decreases |headers|
  {
    if headers == [] then live else ObserveAll(Observe(live, headers[0]), headers[1..])
  }

  /** The headers are stored whether or not the row was still reserved. */
  function CompleteStep(s: Ledger, id: nat, a: Amounts, headers: seq<Observation>): Ledger {
    s.(rows := CompleteRows(s.rows, id, a), live := ObserveAll(s.live, headers))
  }

  function CancelStep(s: Ledger, id: nat): Ledger {
    s.(rows := CancelRows(s.rows, id))
  }

  // ----- Runs -----

  datatype Event =
    | Reserve(request: Request)
    | Complete(id: nat, amounts: Amounts, headers: seq<Observation>)
    | Cancel(id: nat)
    | Expire(now: Quantity)                              // an admission of another scope sweeps this one too

  function Step(s: Ledger, e: Event): Ledger {
    match e
    case Reserve(q) => ReserveStep(s, q).0
    case Complete(id, a, headers) => CompleteStep(s, id, a, headers)
    case Cancel(id) => CancelStep(s, id)
    case Expire(now) => s.(rows := Sweep(s.rows, now))
  }

  function Run(s: Ledger, events: seq<Event>): Ledger
    decreases |events|
  {
    if events == [] then s else Run(Step(s, events[0]), events[1..])
  }
}
