/** The limits a reservation is decided under: the configured ones, overlaid by what unexpired
    response headers said, and the rate of a provider without known limits. */
module QuotaLimits {
  import opened Basics
  import opened Quota
  import opened QuotaSums
  import opened QuotaSafety

  // ----- Dictionaries of limits -----

  predicate UniqueKeys(limits: seq<Limit>) {
    forall i, j :: 0 <= i < j < |limits| ==> !SameKey(limits[i], limits[j].metric, limits[j].window)
  }

  lemma {:induction false} LookupPut(limits: seq<Limit>, l: Limit, m: Metric, w: Window)
    ensures Lookup(Put(limits, l), m, w) == if SameKey(l, m, w) then Some(l) else Lookup(limits, m, w)
  {
    if limits != [] {
      var out := Put(limits, l);
      if SameKey(limits[0], l.metric, l.window) {
        assert out[1..] == limits[1..];
      } else {
        assert out[1..] == Put(limits[1..], l);
        LookupPut(limits[1..], l, m, w);
      }
    }
  }

  lemma {:induction false} LookupFinds(limits: seq<Limit>, m: Metric, w: Window)
    ensures var found := Lookup(limits, m, w);
            if found.Some? then found.value in limits && SameKey(found.value, m, w)
            else forall l :: l in limits ==> !SameKey(l, m, w)
  {
    if limits != [] {
      LookupFinds(limits[1..], m, w);
    }
  }

  lemma {:induction false} LookupUnique(limits: seq<Limit>, l: Limit)
    requires UniqueKeys(limits) && l in limits
    ensures Lookup(limits, l.metric, l.window) == Some(l)
  {
    if limits[0] != l {
      var i :| 0 <= i < |limits| && limits[i] == l;
      LookupUnique(limits[1..], l);
    }
  }

  lemma {:induction false} LookupPutAll(base: seq<Limit>, limits: seq<Limit>, m: Metric, w: Window)
    requires UniqueKeys(limits)
    ensures Lookup(PutAll(base, limits), m, w) ==
            if Lookup(limits, m, w).Some? then Lookup(limits, m, w) else Lookup(base, m, w)
    decreases |limits|
  {
    if limits != [] {
      LookupPut(base, limits[0], m, w);
      LookupPutAll(Put(base, limits[0]), limits[1..], m, w);
      LookupFinds(limits[1..], m, w);
    }
  }

  lemma {:induction false} PutKeepsUnique(limits: seq<Limit>, l: Limit)
    requires UniqueKeys(limits)
    ensures UniqueKeys(Put(limits, l))
    ensures forall k :: k in Put(limits, l) ==> k == l || k in limits
  {
    if limits != [] && !SameKey(limits[0], l.metric, l.window) {
      PutKeepsUnique(limits[1..], l);
      var out := Put(limits[1..], l);
      forall i | 0 <= i < |out| ensures !SameKey(limits[0], out[i].metric, out[i].window) {
        assert out[i] in out;
        if out[i] != l {
          var j :| 0 <= j < |limits[1..]| && limits[1..][j] == out[i];
          assert !SameKey(limits[0], limits[j + 1].metric, limits[j + 1].window);
        }
      }
    }
  }

  lemma {:induction false} PutAllUnique(base: seq<Limit>, limits: seq<Limit>)
    requires UniqueKeys(base)
    ensures UniqueKeys(PutAll(base, limits))
    decreases |limits|
  {
    if limits != [] {
      PutKeepsUnique(base, limits[0]);
      PutAllUnique(Put(base, limits[0]), limits[1..]);
    }
  }

  // ----- Headers over configured limits -----

  predicate UniqueHeaders(live: seq<Observation>) {
    forall i, j :: 0 <= i < j < |live| ==> live[i].metric != live[j].metric || live[i].window != live[j].window
  }

  predicate Speaks(o: Observation, m: Metric, w: Window, now: real) {
    o.metric == m && o.window == w && o.resetAt > now
  }

  /** The header's amount is in force, under the user cap of the configured limit if it has one;
      cap and reset policy are the configured ones. */
  predicate Overlays(l: Limit, o: Observation, configured: Option<Limit>) {
    l.metric == o.metric && l.window == o.window &&
    match configured
    case None => l.amount == o.limit && l.userCap == 0.0 && l.policy == Rolling
    case Some(c) =>
      && l.userCap == c.userCap && l.policy == c.policy
      && (c.userCap <= 0.0 || o.limit <= c.userCap ==> l.amount == o.limit)
      && (0.0 < c.userCap < o.limit ==> l.amount == c.userCap)
  }

  /** Key by key, what is in force: an unexpired header over the configured entry, otherwise the
      configured entry itself. A manual profile ignores headers. */
  ghost predicate InForce(combined: seq<Limit>, limits: seq<Limit>, live: seq<Observation>, manual: bool, now: real) {
    && UniqueKeys(combined)
    && forall m, w ::
         var found, configured := Lookup(combined, m, w), Lookup(limits, m, w);
         && (manual || (forall o :: o in live ==> !Speaks(o, m, w, now)) ==> found == configured)
         && (forall o :: !manual && o in live && Speaks(o, m, w, now) ==>
               found.Some? && Overlays(found.value, o, configured))
  }

  lemma {:induction false} SilentHeaders(limits: seq<Limit>, live: seq<Observation>, now: real, m: Metric, w: Window)
    requires forall o :: o in live ==> !Speaks(o, m, w, now)
    ensures Lookup(MergeLive(limits, live, now), m, w) == Lookup(limits, m, w)
    decreases |live|
  {
    if live != [] {
      var o := live[0];
      assert !Speaks(o, m, w, now);
      LookupPut(limits, LiveLimit(Lookup(limits, o.metric, o.window), o), m, w);
      SilentHeaders(if o.resetAt > now then Put(limits, LiveLimit(Lookup(limits, o.metric, o.window), o)) else limits,
                    live[1..], now, m, w);
    }
  }

  lemma {:induction false} SpeakingHeader(limits: seq<Limit>, live: seq<Observation>, now: real, o: Observation)
    requires UniqueHeaders(live) && o in live && o.resetAt > now
    ensures var found := Lookup(MergeLive(limits, live, now), o.metric, o.window);
            found.Some? && Overlays(found.value, o, Lookup(limits, o.metric, o.window))
    decreases |live|
  {
    var head := live[0];
    var next := Put(limits, LiveLimit(Lookup(limits, head.metric, head.window), head));
    LookupPut(limits, LiveLimit(Lookup(limits, head.metric, head.window), head), o.metric, o.window);
    if o == head {
      forall x | x in live[1..] ensures !Speaks(x, o.metric, o.window, now) {
        var j :| 1 <= j < |live| && live[j] == x;
      }
      SilentHeaders(next, live[1..], now, o.metric, o.window);
    } else {
      var j :| 1 <= j < |live| && live[j] == o;
      assert live[1..][j - 1] == o;
      SpeakingHeader(if head.resetAt > now then next else limits, live[1..], now, o);
    }
  }

  lemma {:induction false} MergeLiveUnique(limits: seq<Limit>, live: seq<Observation>, now: real)
    requires UniqueKeys(limits)
    ensures UniqueKeys(MergeLive(limits, live, now))
    decreases |live|
  {
    if live != [] {
      var o := live[0];
      PutKeepsUnique(limits, LiveLimit(Lookup(limits, o.metric, o.window), o));
      MergeLiveUnique(if o.resetAt > now then Put(limits, LiveLimit(Lookup(limits, o.metric, o.window), o)) else limits,
                      live[1..], now);
    }
  }

  /** The merge puts in force what the headers and the configured limits say. */
  lemma MergedInForce(limits: seq<Limit>, live: seq<Observation>, manual: bool, now: real)
    requires UniqueKeys(limits) && UniqueHeaders(live)
    ensures InForce(LimitsWithLiveState(limits, live, manual, now), limits, live, manual, now)
  {
    if !manual {
      var base := PutAll([], limits);
      PutAllUnique([], limits);
      MergeLiveUnique(base, live, now);
      forall m, w
        ensures var found, configured := Lookup(MergeLive(base, live, now), m, w), Lookup(limits, m, w);
                && ((forall o :: o in live ==> !Speaks(o, m, w, now)) ==> found == configured)
                && (forall o :: o in live && Speaks(o, m, w, now) ==>
                      found.Some? && Overlays(found.value, o, configured))
      {
        LookupPutAll([], limits, m, w);
        if o :| o in live && Speaks(o, m, w, now) {
          forall x | x in live && Speaks(x, m, w, now) ensures x == o {
            var i, j :| 0 <= i < |live| && live[i] == x && 0 <= j < |live| && live[j] == o;
          }
          SpeakingHeader(base, live, now, o);
        } else {
          SilentHeaders(base, live, now, m, w);
        }
      }
    }
  }

  lemma SameEntry(a: seq<Limit>, b: seq<Limit>, limits: seq<Limit>, live: seq<Observation>, manual: bool, now: real,
                  l: Limit)
    requires InForce(a, limits, live, manual, now) && InForce(b, limits, live, manual, now) && l in a
    ensures l in b
  {
    LookupUnique(a, l);
    LookupFinds(b, l.metric, l.window);
    if !manual {
      if o :| o in live && Speaks(o, l.metric, l.window, now) {
        assert Overlays(Lookup(b, l.metric, l.window).value, o, Lookup(limits, l.metric, l.window));
      }
    }
  }

  // ----- Headers stored by completions -----

  lemma {:induction false} ObserveKeeps(live: seq<Observation>, h: Observation, o: Observation)
    requires o in live && (h.metric != o.metric || h.window != o.window)
    ensures o in Observe(live, h)
  {
    if live[0] != o {
      var i :| 1 <= i < |live| && live[i] == o;
      assert o in live[1..];
      if !(live[0].metric == h.metric && live[0].window == h.window) {
        ObserveKeeps(live[1..], h, o);
      }
    }
  }

  lemma {:induction false} ObserveAllKeeps(live: seq<Observation>, headers: seq<Observation>, o: Observation)
    requires o in live && forall h :: h in headers ==> h.metric != o.metric || h.window != o.window
    ensures o in ObserveAll(live, headers)
    decreases |headers|
  {
    if headers != [] {
      ObserveKeeps(live, headers[0], o);
      ObserveAllKeeps(Observe(live, headers[0]), headers[1..], o);
    }
  }

  predicate OtherKey(headers: seq<Observation>, o: Observation) {
    forall h :: h in headers ==> h.metric != o.metric || h.window != o.window
  }

  /** The last header of the list under its key. */
  predicate LastOfKey(headers: seq<Observation>, o: Observation) {
    headers != [] && (LastOfKey(headers[1..], o) || (headers[0] == o && OtherKey(headers[1..], o)))
  }

  lemma {:induction false} ObserveOne(live: seq<Observation>, h: Observation)
    ensures h in Observe(live, h)
    ensures forall o :: o in Observe(live, h) ==> o == h || o in live
    ensures UniqueHeaders(live) ==> UniqueHeaders(Observe(live, h))
    ensures UniqueHeaders(live) ==>
              forall o :: o in Observe(live, h) && o != h ==> o.metric != h.metric || o.window != h.window
  {
    if live != [] {
      ObserveOne(live[1..], h);
      var out := Observe(live[1..], h);
      if UniqueHeaders(live) && !(live[0].metric == h.metric && live[0].window == h.window) {
        forall i | 0 <= i < |out| ensures out[i].metric != live[0].metric || out[i].window != live[0].window {
          assert out[i] in out;
          if out[i] != h {
            var j :| 1 <= j < |live| && live[j] == out[i];
          }
        }
      }
    }
  }

  lemma {:induction false} LastHeadersStay(live: seq<Observation>, headers: seq<Observation>)
    ensures forall o :: LastOfKey(headers, o) ==> o in ObserveAll(live, headers)
    decreases |headers|
  {
    if headers != [] {
      var h, rest := headers[0], headers[1..];
      ObserveOne(live, h);
      LastHeadersStay(Observe(live, h), rest);
      if OtherKey(rest, h) {
        ObserveAllKeeps(Observe(live, h), rest, h);
      }
    }
  }

  /** After a completion the table holds its headers, the last one under each key, and whatever it
      held under other keys. */
  lemma {:induction false} HeadersAreStored(live: seq<Observation>, headers: seq<Observation>)
    requires UniqueHeaders(live)
    ensures UniqueHeaders(ObserveAll(live, headers))
    ensures forall o :: o in ObserveAll(live, headers) <==>
              LastOfKey(headers, o) || (o in live && OtherKey(headers, o))
    decreases |headers|
  {
    if headers != [] {
      var h, rest := headers[0], headers[1..];
      assert forall o :: OtherKey(headers, o) <==> OtherKey([h], o) && OtherKey(rest, o);
      ObserveOne(live, h);
      HeadersAreStored(Observe(live, h), rest);
      forall o | o in live && OtherKey([h], o) ensures o in Observe(live, h) {
        ObserveKeeps(live, h, o);
      }
    }
  }

  /** The header table of every run holds at most one header per key. */
  lemma {:induction false} RunHeadersUnique(s: Ledger, events: seq<Event>)
    requires UniqueHeaders(s.live)
    ensures UniqueHeaders(Run(s, events).live)
    decreases |events|
  {
    if events != [] {
      var e := events[0];
      if e.Complete? {
        HeadersAreStored(s.live, e.headers);
      }
      RunHeadersUnique(Step(s, e), events[1..]);
    }
  }

  /** In every reachable ledger a reservation is granted exactly when each limit in force, header
      amounts over configured ones, and each unexpired header has room for it. */
  lemma GrantedUnderHeaders(events: seq<Event>, q: Request, combined: seq<Limit>)
    requires UniqueKeys(EffectiveLimits(q.profile, q.options))
    requires InForce(combined, EffectiveLimits(q.profile, q.options), Run(EMPTY_LEDGER, events).live,
                     q.profile.manual, q.now)
    ensures var s := Run(EMPTY_LEDGER, events);
            Grants(s, q) <==>
            && (forall l :: l in combined ==> Fits(Sweep(s.rows, q.now), l, q))
            && (forall o :: o in s.live ==> WithinObserved(Sweep(s.rows, q.now), o, q))
  {
    var s := Run(EMPTY_LEDGER, events);
    var limits := EffectiveLimits(q.profile, q.options);
    RunHeadersUnique(EMPTY_LEDGER, events);
    MergedInForce(limits, s.live, q.profile.manual, q.now);
    forall l ensures l in combined <==> l in ActiveLimits(s, q) {
      if l in combined {
        SameEntry(combined, ActiveLimits(s, q), limits, s.live, q.profile.manual, q.now, l);
      }
      if l in ActiveLimits(s, q) {
        SameEntry(ActiveLimits(s, q), combined, limits, s.live, q.profile.manual, q.now, l);
      }
    }
    GrantedIff(s, q);
  }

  // ----- Caps in percent, and providers without limits -----

  function Percent(x: real, most: real): real { if x < 0.0 then 0.0 else if x > most then most else x }

  /** The safety margin takes up to half of a limit from everyone, the realtime reserve up to nine
      tenths of the rest from the background pool. */
  lemma CapInPercent(l: Limit, q: Request)
    ensures q.pool != "background" ==> 100.0 * Cap(l, q) == l.amount * (100.0 - Percent(q.profile.margin, 50.0))
    ensures q.pool == "background" ==>
              10000.0 * Cap(l, q) ==
              l.amount * (100.0 - Percent(q.profile.margin, 50.0)) * (100.0 - Percent(q.options.reservePercent, 90.0))
  {
    var full := FullCap(l, q.profile);
    var kept := 100.0 - Percent(q.profile.margin, 50.0);
    assert SafetyFactor(q.profile.margin) == kept / 100.0;
    assert full == l.amount * (kept / 100.0);
    assert 100.0 * full == l.amount * kept;
    var share := 100.0 - Percent(q.options.reservePercent, 90.0);
    assert 1.0 - ReserveFraction(q.options.reservePercent) == share / 100.0;
    assert 100.0 * (full * (share / 100.0)) == full * share;
  }

  lemma {:induction false} LongestIsOne(limits: seq<Limit>)
    requires limits != []
    ensures exists l :: l in limits && l.window == MaxWindow(limits)
  {
    if MaxWindow(limits) == limits[0].window {
      assert limits[0] in limits;
    } else {
      assert MaxWindow(limits[1..]) == MaxWindow(limits) > limits[0].window > 0;
      LongestIsOne(limits[1..]);
    }
  }

  /** A reservation lives for five minutes, or for the longest window if that is longer. */
  lemma LifetimeIsLongest(limits: seq<Limit>)
    ensures Lifetime(limits) >= 300 && forall l :: l in limits ==> Lifetime(limits) >= l.window
    ensures Lifetime(limits) == 300 || exists l :: l in limits && l.window == Lifetime(limits)
  {
    if limits != [] {
      LongestIsOne(limits);
    }
  }

  /** Without headers, a provider that is neither local nor configured, and has no known limits,
      gets a conservative rate of requests a minute; a local or manual one without limits, none. */
  lemma UnknownProviderRate(s: Ledger, q: Request)
    requires q.profile.limits == [] && s.live == []
    ensures Grants(s, q) <==>
            || q.profile.local || q.profile.manual || q.estimate.requests == 0.0
            || Used(Sweep(s.rows, q.now), Since(q.now - 60.0), Requests) + q.estimate.requests <=
               Cap(Limit(Requests, if q.options.unknownRequestsPerMinute >= 1
                                   then q.options.unknownRequestsPerMinute as real else 1.0, 60, 0.0, Rolling), q)
  {
    var limits := EffectiveLimits(q.profile, q.options);
    var rows := Sweep(s.rows, q.now);
    GrantedIff(s, q);
    if limits == [] {
      assert ActiveLimits(s, q) == [];
    } else {
      var rate := q.options.unknownRequestsPerMinute;
      var l := Limit(Requests, if rate >= 1 then rate as real else 1.0, 60, 0.0, Rolling);
      assert limits == [l] && limits[1..] == [];
      assert PutAll([], limits) == PutAll([l], []) == [l];
      assert ActiveLimits(s, q) == [l];
      CountedSpans(rows, l, q.now, q.now, Requests);
      assert l in ActiveLimits(s, q) && forall k :: k in ActiveLimits(s, q) ==> k == l;
      assert Grants(s, q) <==> Fits(rows, l, q);
    }
  }
}
