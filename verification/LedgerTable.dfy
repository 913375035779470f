/** The ledger as the program keeps it: tables of reservations and of live headers, updated in
    place by transactions, and the loops over rows and limits that decide. */
module LedgerTable {
  import opened Basics
  import opened Quota
  import opened QuotaSums
  import opened QuotaSafety
  import opened QuotaLimits
  import opened LedgerRows

  method RetryAtForLimit(rows: seq<Row>, m: Metric, candidate: real, cap: real, window: Window, now: real)
    returns (retryAt: real)
    ensures retryAt == RollingRetry(rows, m, candidate, cap, window, now)
    ensures candidate > cap ==> retryAt == now + window as real
  {
    var current := Total(rows, m);
    if candidate > cap {
      return now + window as real;
    }
    if current + candidate <= cap {
      return 0.0;
    }
    var reduced: real := current;
    retryAt := now + window as real;
    var i := 0;
    while i < |rows|
      invariant 0 <= i <= |rows|
      invariant ReleaseTime(rows, m, current, candidate, cap, window, now + window as real) ==
                ReleaseTime(rows[i..], m, reduced, candidate, cap, window, retryAt)
    {
      assert rows[i..][1..] == rows[i + 1..];
      reduced := reduced - MetricValue(rows[i].amounts, m);
      retryAt := rows[i].createdAt + window as real;
      if reduced + candidate <= cap {
        return Max(now, retryAt);
      }
      i := i + 1;
    }
    retryAt := Max(now, retryAt);
  }

  method LimitRetryAt(rows: seq<Row>, limits: seq<Limit>, q: Request) returns (retryAt: real)
    ensures retryAt == LimitsRetry(rows, limits, q)
  {
    retryAt := 0.0;
    for i := 0 to |limits|
      invariant retryAt == LimitsRetry(rows, limits[..i], q) && retryAt >= 0.0
    {
      var l := limits[i];
      assert limits[..i + 1][..i] == limits[..i];
      var candidate := MetricValue(q.estimate, l.metric);
      if candidate <= 0.0 {
        continue;
      }
      var relevant := Select(rows, Relevant(l, q.now));
      if l.policy.UtcDay? {
        if Total(relevant, l.metric) + candidate > Cap(l, q) {
          retryAt := Max(retryAt, DayStart(q.now) + DAY as real);
        }
      } else {
        var selected := RetryAtForLimit(relevant, l.metric, candidate, Cap(l, q), l.window, q.now);
        retryAt := Max(retryAt, selected);
      }
    }
    assert limits[..|limits|] == limits;
  }

  method LiveLimitRetryAt(rows: seq<Row>, live: seq<Observation>, q: Request) returns (retryAt: real)
    ensures retryAt == LiveRetry(rows, live, q)
  {
    retryAt := 0.0;
    for i := 0 to |live|
      invariant retryAt == LiveRetry(rows, live[..i], q) && retryAt >= 0.0
    {
      var o := live[i];
      assert live[..i + 1][..i] == live[..i];
      var wanted := MetricValue(q.estimate, o.metric) + Used(rows, Since(o.observedAt), o.metric);
      if o.resetAt > q.now && wanted > o.remaining {
        retryAt := Max(retryAt, o.resetAt);
      }
    }
    assert live[..|live|] == live;
  }

  method CombineLimits(limits: seq<Limit>, live: seq<Observation>, manual: bool, now: real)
    returns (combined: seq<Limit>)
    ensures combined == LimitsWithLiveState(limits, live, manual, now)
    ensures UniqueKeys(limits) && UniqueHeaders(live) ==> InForce(combined, limits, live, manual, now)
  {
    if UniqueKeys(limits) && UniqueHeaders(live) {
      MergedInForce(limits, live, manual, now);
    }
    if manual {
      return limits;
    }
    combined := PutAll([], limits);
    for i := 0 to |live|
      invariant MergeLive(PutAll([], limits), live, now) == MergeLive(combined, live[i..], now)
    {
      assert live[i..][1..] == live[i + 1..];
      var o := live[i];
      if o.resetAt > now {
        combined := Put(combined, LiveLimit(Lookup(combined, o.metric, o.window), o));
      }
    }
  }

  /** A grant adds exactly the reserved row to the rows that survive the sweep. */
  lemma GrantInserts(s: Ledger, q: Request)
    requires Grants(s, q)
    ensures var expiresAt := q.now + Lifetime(EffectiveLimits(q.profile, q.options)) as real;
            var (t, o) := ReserveStep(s, q);
            && o == Granted(Reservation(s.nextId, q.estimate, q.now, expiresAt))
            && t.nextId == s.nextId + 1 && t.live == s.live
            && multiset(t.rows) == multiset(Sweep(s.rows, q.now))
                                   + multiset{Row(s.nextId, q.pool, Reserved, q.estimate, q.now, expiresAt)}
  {
    var row := NewRow(s, q);
    InsertAdds(Sweep(s.rows, q.now), row);
    assert ReserveStep(s, q).0.rows == Insert(Sweep(s.rows, q.now), row);
  }

  class QuotaLedger {
    var rows: seq<Row>
    var live: seq<Observation>
    var nextId: nat

    ghost function State(): Ledger
      reads this
    {
      Ledger(rows, live, nextId)
    }

    constructor ()
      ensures State() == EMPTY_LEDGER
    {
      rows, live, nextId := [], [], 0;
    }

    /** One immediate transaction: sweep, decide, insert; a rejection rolls the sweep back. */
    method Reserve(q: Request) returns (o: Outcome)
      modifies this
      ensures (State(), o) == ReserveStep(old(State()), q)
      ensures o.Rejected? ==> State() == old(State()) && o.retryAt > q.now
    {
      var limits := EffectiveLimits(q.profile, q.options);
      var expiresAt := q.now + Lifetime(limits) as real;
      var swept := Sweep(rows, q.now);
      var active := CombineLimits(limits, live, q.profile.manual, q.now);
      var retryAt := LimitRetryAt(swept, active, q);
      var liveRetryAt := LiveLimitRetryAt(swept, live, q);
      retryAt := Max(retryAt, liveRetryAt);
      assert retryAt == RetryAt(State(), q);
      if retryAt > q.now {
        return Rejected(retryAt);
      }
      assert NewRow(State(), q) == Row(nextId, q.pool, Reserved, q.estimate, q.now, expiresAt);
      rows := Insert(swept, Row(nextId, q.pool, Reserved, q.estimate, q.now, expiresAt));
      o := Granted(Reservation(nextId, q.estimate, q.now, expiresAt));
      nextId := nextId + 1;
    }

    method Complete(r: Reservation, usage: Option<Usage>, profile: Option<Profile>, headers: seq<Observation>)
      modifies this
      ensures State() == CompleteStep(old(State()), r.id, NormalizedUsage(usage, r.estimate, profile),
                                      if profile.Some? then headers else [])
      ensures |rows| == |old(rows)| && nextId == old(nextId) && (profile.None? ==> live == old(live))
      ensures forall i :: 0 <= i < |rows| ==>
                && (old(rows)[i].id != r.id || !old(rows)[i].state.Reserved? ==> rows[i] == old(rows)[i])
                && (old(rows)[i].id == r.id && old(rows)[i].state.Reserved? ==>
                      var u := NormalizedUsage(usage, r.estimate, profile);
                      rows[i] == old(rows)[i].(state := Completed,
                                               amounts := Amounts(old(rows)[i].amounts.requests, u.input, u.output,
                                                                  u.units)))
      ensures profile.Some? && UniqueHeaders(old(live)) ==>
                forall o :: o in live <==>
                  LastOfKey(headers, o) || (o in old(live) && OtherKey(headers, o))
    {
      EachSettled(rows, 0.0, r.id, NormalizedUsage(usage, r.estimate, profile));
      rows := CompleteRows(rows, r.id, NormalizedUsage(usage, r.estimate, profile));
      if profile.Some? {
        if UniqueHeaders(live) {
          HeadersAreStored(live, headers);
        }
        for i := 0 to |headers|
          invariant rows == CompleteRows(old(rows), r.id, NormalizedUsage(usage, r.estimate, profile))
          invariant nextId == old(nextId)
          invariant ObserveAll(old(live), headers) == ObserveAll(live, headers[i..])
        {
          assert headers[i..][1..] == headers[i + 1..];
          live := Observe(live, headers[i]);
        }
      }
    }

    /** The sweep of an admission in another scope, whose update covers every scope's rows. */
    method Expire(now: Quantity)
      modifies this
      ensures State() == Step(old(State()), Event.Expire(now))
      ensures |rows| == |old(rows)| && live == old(live) && nextId == old(nextId)
      ensures forall i :: 0 <= i < |rows| ==>
                rows[i] == if old(rows)[i].state.Reserved? && old(rows)[i].expiresAt <= now
                           then old(rows)[i].(state := Cancelled) else old(rows)[i]
    {
      EachSettled(rows, now, 0, Amounts(0.0, 0.0, 0.0, 0.0));
      rows := Sweep(rows, now);
    }

    method Cancel(r: Reservation)
      modifies this
      ensures State() == CancelStep(old(State()), r.id)
      ensures |rows| == |old(rows)| && live == old(live) && nextId == old(nextId)
      ensures forall i :: 0 <= i < |rows| ==>
                rows[i] == if old(rows)[i].id == r.id && old(rows)[i].state.Reserved?
                           then old(rows)[i].(state := Cancelled) else old(rows)[i]
    {
      EachSettled(rows, 0.0, r.id, r.estimate);
      rows := CancelRows(rows, r.id);
    }
  }
}
