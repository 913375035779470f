/** User caps and the remaining amount of a live header, each as a bound that holds over
    whole runs of the ledger. */
module QuotaCaps {
  import opened Basics
  import opened Quota
  import opened QuotaSums
  import opened QuotaSafety
  import opened QuotaLimits

  // ----- User caps -----

  datatype Configured = Configured(
    requestsPerMinute: real, requestsPerHour: real, requestsPerDay: real,
    inputPerMinute: real, outputPerMinute: real,
    tokensPerMinute: real, tokensPerHour: real, tokensPerDay: real,
    unitsPerDay: real)

  function Fields(c: Configured): seq<Limit> {
    [Limit(Requests, c.requestsPerMinute, 60, 0.0, Rolling),
     Limit(Requests, c.requestsPerHour, 3600, 0.0, Rolling),
     Limit(Requests, c.requestsPerDay, 86400, 0.0, Rolling),
     Limit(InputTokens, c.inputPerMinute, 60, 0.0, Rolling),
     Limit(OutputTokens, c.outputPerMinute, 60, 0.0, Rolling),
     Limit(TotalTokens, c.tokensPerMinute, 60, 0.0, Rolling),
     Limit(TotalTokens, c.tokensPerHour, 3600, 0.0, Rolling),
     Limit(TotalTokens, c.tokensPerDay, 86400, 0.0, Rolling),
     Limit(Units, c.unitsPerDay, 86400, 0.0, Rolling)]
  }

  function KeepPositive(limits: seq<Limit>): seq<Limit> {
    if limits == [] then []
    else (if limits[0].amount > 0.0 then [limits[0]] else []) + KeepPositive(limits[1..])
  }

  function ConfiguredLimits(c: Configured): seq<Limit> { KeepPositive(Fields(c)) }

  function CapLimit(existing: Option<Limit>, user: Limit): Limit {
    match existing
    case None => user.(userCap := user.amount)
    case Some(l) => l.(amount := Min(l.amount, user.amount), userCap := user.amount)
  }

  function CapAll(combined: seq<Limit>, user: seq<Limit>): seq<Limit>
    decreases |user|
  {
    if user == [] then combined
    else CapAll(Put(combined, CapLimit(Lookup(combined, user[0].metric, user[0].window), user[0])), user[1..])
  }

  function ApplyUserCaps(base: seq<Limit>, user: seq<Limit>): seq<Limit> {
    CapAll(PutAll([], base), user)
  }

  /** The entry of (m, w) is held at or under the user cap u, with the given reset policy. */
  predicate Held(limits: seq<Limit>, m: Metric, w: Window, u: real, policy: ResetPolicy) {
    var found := Lookup(limits, m, w);
    found.Some? && found.value.userCap == u && found.value.amount <= u && found.value.policy == policy
  }

  /** The policy a capped limit ends up with: the registry's, or rolling when the registry has none. */
  function CappedPolicy(base: seq<Limit>, m: Metric, w: Window): ResetPolicy {
    var found := Lookup(PutAll([], base), m, w);
    if found.Some? then found.value.policy else Rolling
  }

  lemma {:induction false} CapAllHolds(combined: seq<Limit>, user: seq<Limit>, l: Limit, policy: ResetPolicy)
    requires UniqueKeys(user)
    requires forall k :: k in user ==> k.policy.Rolling?
    requires l in user ==>
               (var e := Lookup(combined, l.metric, l.window); (if e.Some? then e.value.policy else Rolling) == policy)
    requires l in user || (Held(combined, l.metric, l.window, l.amount, policy)
                           && forall k :: k in user ==> !SameKey(k, l.metric, l.window))
    ensures Held(CapAll(combined, user), l.metric, l.window, l.amount, policy)
    decreases |user|
  {
    if user != [] {
      var u := user[0];
      var next := CapLimit(Lookup(combined, u.metric, u.window), u);
      LookupFinds(combined, u.metric, u.window);
      LookupPut(combined, next, l.metric, l.window);
      forall k | k in user[1..] ensures !SameKey(k, u.metric, u.window) {
        var j :| 1 <= j < |user| && user[j] == k;
        assert !SameKey(user[0], user[j].metric, user[j].window);
      }
      assert u in user;
      if l in user && l != u {
        assert l in user[1..] && !SameKey(l, u.metric, u.window);
      }
      CapAllHolds(Put(combined, next), user[1..], l, policy);
    }
  }

  lemma {:induction false} KeepPositiveUnique(limits: seq<Limit>)
    requires UniqueKeys(limits)
    ensures UniqueKeys(KeepPositive(limits))
    ensures forall l :: l in KeepPositive(limits) <==> l in limits && l.amount > 0.0
  {
    if limits != [] {
      KeepPositiveUnique(limits[1..]);
      var rest := KeepPositive(limits[1..]);
      forall i | 0 <= i < |rest| ensures !SameKey(limits[0], rest[i].metric, rest[i].window) {
        assert rest[i] in rest;
        var j :| 1 <= j < |limits| && limits[j] == rest[i];
        assert !SameKey(limits[0], limits[j].metric, limits[j].window);
      }
    }
  }

  lemma ConfiguredKeysUnique(c: Configured)
    ensures UniqueKeys(ConfiguredLimits(c))
    ensures forall l :: l in ConfiguredLimits(c) ==> l.amount > 0.0 && l.policy.Rolling?
  {
    KeepPositiveUnique(Fields(c));
  }

  /** Every configured cap is the amount its limit is held under after the merge with the registry. */
  lemma UserCapsApplied(base: seq<Limit>, c: Configured, l: Limit)
    requires l in ConfiguredLimits(c)
    ensures Held(ApplyUserCaps(base, ConfiguredLimits(c)), l.metric, l.window, l.amount,
                 CappedPolicy(base, l.metric, l.window))
  {
    ConfiguredKeysUnique(c);
    CapAllHolds(PutAll([], base), ConfiguredLimits(c), l, CappedPolicy(base, l.metric, l.window));
  }

  /** The setting that caps a metric over a window; zero is no cap. */
  function CapOf(c: Configured, m: Metric, w: Window): real {
    match m
    case Requests =>
      if w == 60 then c.requestsPerMinute else if w == 3600 then c.requestsPerHour
      else if w == 86400 then c.requestsPerDay else 0.0
    case InputTokens => if w == 60 then c.inputPerMinute else 0.0
    case OutputTokens => if w == 60 then c.outputPerMinute else 0.0
    case TotalTokens =>
      if w == 60 then c.tokensPerMinute else if w == 3600 then c.tokensPerHour
      else if w == 86400 then c.tokensPerDay else 0.0
    case Units => if w == 86400 then c.unitsPerDay else 0.0
    case UnknownMetric => 0.0
  }

  predicate MeansCap(l: Limit, c: Configured) {
    l == Limit(l.metric, CapOf(c, l.metric, l.window), l.window, 0.0, Rolling)
  }

  lemma FieldsMeanCaps(c: Configured)
    ensures forall l :: l in Fields(c) ==> MeansCap(l, c)
  {
    forall i | 0 <= i < |Fields(c)| ensures MeansCap(Fields(c)[i], c) {
    }
  }

  lemma CapsAreFields(c: Configured, l: Limit)
    requires MeansCap(l, c) && l.amount > 0.0
    ensures l in Fields(c)
  {
    var f := Fields(c);
    assert f[0] in f && f[1] in f && f[2] in f && f[3] in f && f[4] in f && f[5] in f && f[6] in f && f[7] in f;
    assert f[8] in f;
  }

  lemma SettingsAreCaps(c: Configured, m: Metric, w: Window)
    ensures Lookup(ConfiguredLimits(c), m, w) ==
            if CapOf(c, m, w) > 0.0 then Some(Limit(m, CapOf(c, m, w), w, 0.0, Rolling)) else None
  {
    var caps := ConfiguredLimits(c);
    var l := Limit(m, CapOf(c, m, w), w, 0.0, Rolling);
    FieldsMeanCaps(c);
    KeepPositiveUnique(Fields(c));
    LookupFinds(caps, m, w);
    if l.amount > 0.0 {
      CapsAreFields(c, l);
      LookupUnique(caps, l);
    }
  }

  lemma {:induction false} CapAllAt(combined: seq<Limit>, user: seq<Limit>, m: Metric, w: Window)
    requires UniqueKeys(user)
    ensures Lookup(CapAll(combined, user), m, w) ==
            var cap, known := Lookup(user, m, w), Lookup(combined, m, w);
            if cap.None? then known else Some(CapLimit(known, cap.value))
    decreases |user|
  {
    if user != [] {
      var u := user[0];
      var next := CapLimit(Lookup(combined, u.metric, u.window), u);
      LookupFinds(combined, u.metric, u.window);
      LookupPut(combined, next, m, w);
      LookupFinds(user[1..], m, w);
      CapAllAt(Put(combined, next), user[1..], m, w);
    }
  }

  /** The merge of user settings with the registry, key by key: where a setting caps a metric, the
      smaller amount is in force under that cap, with the registry's reset policy; elsewhere the
      registry's limit is. */
  lemma UserCapsMerged(base: seq<Limit>, c: Configured, m: Metric, w: Window)
    requires UniqueKeys(base)
    ensures var cap, known := CapOf(c, m, w), Lookup(base, m, w);
            var merged := Lookup(ApplyUserCaps(base, ConfiguredLimits(c)), m, w);
            && (cap <= 0.0 ==> merged == known)
            && (cap > 0.0 && known.None? ==> merged == Some(Limit(m, cap, w, cap, Rolling)))
            && (cap > 0.0 && known.Some? ==>
                  && merged.Some? && merged.value.userCap == cap && merged.value.policy == known.value.policy
                  && merged.value.amount <= cap && merged.value.amount <= known.value.amount
                  && (merged.value.amount == cap || merged.value.amount == known.value.amount))
  {
    SettingsAreCaps(c, m, w);
    ConfiguredKeysUnique(c);
    LookupPutAll([], base, m, w);
    CapAllAt(PutAll([], base), ConfiguredLimits(c), m, w);
  }

  lemma {:induction false} MergeKeepsCaps(limits: seq<Limit>, live: seq<Observation>, now: real,
                                          m: Metric, w: Window, u: real, policy: ResetPolicy)
    requires u > 0.0 && Held(limits, m, w, u, policy)
    ensures Held(MergeLive(limits, live, now), m, w, u, policy)
    decreases |live|
  {
    if live != [] {
      var o := live[0];
      if o.resetAt > now {
        var next := LiveLimit(Lookup(limits, o.metric, o.window), o);
        LookupPut(limits, next, m, w);
        MergeKeepsCaps(Put(limits, next), live[1..], now, m, w, u, policy);
      } else {
        MergeKeepsCaps(limits, live[1..], now, m, w, u, policy);
      }
    }
  }

  lemma {:induction false} CapAllUnique(combined: seq<Limit>, user: seq<Limit>)
    requires UniqueKeys(combined)
    ensures UniqueKeys(CapAll(combined, user))
    decreases |user|
  {
    if user != [] {
      var next := CapLimit(Lookup(combined, user[0].metric, user[0].window), user[0]);
      PutKeepsUnique(combined, next);
      CapAllUnique(Put(combined, next), user[1..]);
    }
  }

  lemma CapUnderUserCap(l: Limit, q: Request, u: real)
    requires l.amount <= u && u > 0.0
    ensures Cap(l, q) <= u * SafetyFactor(q.profile.margin)
  {
    var f := SafetyFactor(q.profile.margin);
    ProductMonotone(l.amount, u, f);
    ProductMonotone(0.0, u, f);
    if q.pool == BACKGROUND {
      var g := 1.0 - ReserveFraction(q.options.reservePercent);
      ProductMonotone(l.amount * f, u * f, g);
      assert (u * f) * (1.0 - g) >= 0.0;
    }
  }

  /** Every reservation of the run is made with this profile. */
  predicate UsesProfile(events: seq<Event>, p: Profile) {
    forall e :: e in events && e.Reserve? ==> e.request.profile == p
  }

  lemma CappedActiveLimit(s: Ledger, q: Request, base: seq<Limit>, c: Configured, l: Limit) returns (active: Limit)
    requires l in ConfiguredLimits(c) && !q.profile.manual
    requires q.profile.limits == ApplyUserCaps(base, ConfiguredLimits(c))
    ensures active in ActiveLimits(s, q) && SameKey(active, l.metric, l.window)
    ensures active.policy == CappedPolicy(base, l.metric, l.window)
    ensures Cap(active, q) <= FullCap(l, q.profile)
  {
    var user := ConfiguredLimits(c);
    var limits := ApplyUserCaps(base, user);
    var policy := CappedPolicy(base, l.metric, l.window);
    ConfiguredKeysUnique(c);
    UserCapsApplied(base, c, l);
    PutAllUnique([], base);
    CapAllUnique(PutAll([], base), user);
    LookupPutAll([], limits, l.metric, l.window);
    MergeKeepsCaps(PutAll([], limits), s.live, q.now, l.metric, l.window, l.amount, policy);
    var merged := MergeLive(PutAll([], limits), s.live, q.now);
    LookupFinds(merged, l.metric, l.window);
    active := Lookup(merged, l.metric, l.window).value;
    CapUnderUserCap(active, q, l.amount);
  }

  lemma {:induction false} CapsGovernRuns(s: Ledger, events: seq<Event>, p: Profile, base: seq<Limit>, c: Configured,
                                          l: Limit, sel: Selector)
    requires l in ConfiguredLimits(c) && !p.manual && p.limits == ApplyUserCaps(base, ConfiguredLimits(c))
    requires UsesProfile(events, p)
    requires Governs(l.(policy := CappedPolicy(base, l.metric, l.window)), sel)
    ensures AdmittedUnder(s, events, sel, l.metric, FullCap(l, p))
    decreases |events|
  {
    if events != [] {
      if events[0].Reserve? {
        assert events[0] in events;
        var active := CappedActiveLimit(s, events[0].request, base, c, l);
        assert GovernedAt(s, events[0].request, sel, l.metric, FullCap(l, p));
      }
      assert UsesProfile(events[1..], p);
      CapsGovernRuns(Step(s, events[0]), events[1..], p, base, c, l, sel);
    }
  }

  lemma CapIsPositive(c: Configured, l: Limit, p: Profile)
    requires l in ConfiguredLimits(c)
    ensures FullCap(l, p) > 0.0
  {
    ConfiguredKeysUnique(c);
    ProductPositive(l.amount, SafetyFactor(p.margin));
  }

  /** User caps hold under any stream of response headers: in every window the cap's reset
      policy defines, usage stays within cap times (1 - margin), up to what completions add
      over their estimates, and exactly for requests. */
  lemma UserCapsHold(events: seq<Event>, p: Profile, base: seq<Limit>, c: Configured, l: Limit, sel: Selector)
    requires l in ConfiguredLimits(c) && !p.manual && p.limits == ApplyUserCaps(base, ConfiguredLimits(c))
    requires UsesProfile(events, p)
    requires Governs(l.(policy := CappedPolicy(base, l.metric, l.window)), sel)
    ensures var bound := FullCap(l, p);
            var rows := Run(EMPTY_LEDGER, events).rows;
            && Used(rows, sel, l.metric) <= bound + Raised(EMPTY_LEDGER, events, sel, l.metric)
            && (l.metric == Requests ==> Used(rows, sel, Requests) <= bound)
  {
    var bound := FullCap(l, p);
    CapsGovernRuns(EMPTY_LEDGER, events, p, base, c, l, sel);
    CapIsPositive(c, l, p);
    WindowSafetyOverRuns(EMPTY_LEDGER, events, sel, l.metric, bound);
  }

  lemma {:induction false} KeptWindows(limits: seq<Limit>)
    requires forall k :: k in limits ==> k.window >= 60
    ensures forall k :: k in KeepPositive(limits) ==> k.window >= 60
  {
    if limits != [] {
      KeptWindows(limits[1..]);
    }
  }

  lemma ConfiguredWindows(c: Configured, l: Limit)
    requires l in ConfiguredLimits(c)
    ensures l.window >= 60
  {
    KeptWindows(Fields(c));
  }

  // ----- Live observations -----

  /** No completion in the run stores a header under the observation's key. */
  predicate LeavesObservation(events: seq<Event>, o: Observation) {
    forall e :: e in events && e.Complete? ==>
      forall h :: h in e.headers ==> h.metric != o.metric || h.window != o.window
  }

  lemma {:induction false} ObservedBudgetCarried(s: Ledger, events: seq<Event>, o: Observation, hi: real,
                                                 carried: Quantity)
    requires o in s.live && LeavesObservation(events, o) && hi < o.resetAt
    requires Used(s.rows, Interval(o.observedAt, hi, false), o.metric) <= o.remaining + carried
    ensures Used(Run(s, events).rows, Interval(o.observedAt, hi, false), o.metric) <=
            o.remaining + carried + Raised(s, events, Interval(o.observedAt, hi, false), o.metric)
    decreases |events|
  {
    if events != [] {
      var sel := Interval(o.observedAt, hi, false);
      var e := events[0];
      assert e in events;
      var raise: Quantity := if e.Complete? then RaiseBy(s.rows, e.id, e.amounts, sel, o.metric) else 0.0;
      if Admits(s, e, sel, o.metric) {
        var rows := Sweep(s.rows, e.request.now);
        GrantedIff(s, e.request);
        assert WithinObserved(rows, o, e.request);
        UsedMonotone(rows, sel, Since(o.observedAt), o.metric);
        UsedInsert(rows, NewRow(s, e.request), sel, o.metric);
      } else {
        OtherStep(s, e, sel, o.metric);
      }
      if e.Complete? {
        ObserveAllKeeps(s.live, e.headers, o);
      }
      ObservedBudgetCarried(Step(s, e), events[1..], o, hi, carried + raise);
    }
  }

  /** Until its reset or a newer header, the rows made after an observation that are still live
      stay within the remaining amount it reported (plus completions above their estimates). What
      an expiry sweep has released meanwhile is not among them. */
  lemma ObservedBudget(s: Ledger, events: seq<Event>, o: Observation, hi: real)
    requires o in s.live && LeavesObservation(events, o) && hi < o.resetAt
    requires forall r :: r in s.rows ==> r.createdAt <= o.observedAt
    ensures var sel := Interval(o.observedAt, hi, false);
            var used := Used(Run(s, events).rows, sel, o.metric);
            && used <= o.remaining + Raised(s, events, sel, o.metric)
            && (o.metric == Requests ==> used <= o.remaining)
  {
    var sel := Interval(o.observedAt, hi, false);
    UsedMonotone(s.rows, sel, Since(o.observedAt), o.metric);
    UsedNone(s.rows, sel, o.metric);
    ObservedBudgetCarried(s, events, o, hi, 0.0);
    if o.metric == Requests {
      RequestsAreNeverRaised(s, events, sel);
    }
  }
}
