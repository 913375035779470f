/** Request pacing of one provider: slots are granted by a shared state whose interval doubles on
    failures and halves on successes. */
module Pacing {
  import opened Basics

  datatype Rate = Rate(nextAt: real, adaptive: real, limits: nat)

  const FRESH := Rate(0.0, 0.0, 0)

  datatype Event =
    | Ask(now: real)                                     // one pass of the waiting loop
    | Fail(now: real, delay: real, limited: bool)
    | Succeed

  predicate Free(s: Rate, now: real) { s.nextAt <= now }

  function Grant(s: Rate, now: real, base: real): Rate {
    s.(nextAt := now + Max(Max(0.0, base), s.adaptive))
  }

  function NextInterval(adaptive: real, base: real): real {
    var configured := Max(0.0, base);
    Min(60.0, Max(configured, if adaptive != 0.0 then adaptive * 2.0 else Max(1.0, configured)))
  }

  function Backoff(s: Rate, now: real, delay: real, base: real, limited: bool): Rate {
    var interval := NextInterval(s.adaptive, base);
    Rate(Max(s.nextAt, now + Max(delay, interval)), interval, if limited then s.limits + 1 else s.limits)
  }

  function Relax(s: Rate, base: real): Rate {
    s.(adaptive := Max(Max(0.0, base), s.adaptive / 2.0), limits := 0)
  }

  function Step(s: Rate, e: Event, base: real): Rate {
    match e
    case Ask(now) => if Free(s, now) then Grant(s, now, base) else s
    case Fail(now, delay, limited) => Backoff(s, now, delay, base, limited)
    case Succeed => Relax(s, base)
  }

  function Run(s: Rate, events: seq<Event>, base: real): Rate
    decreases |events|
  {
    if events == [] then s else Run(Step(s, events[0], base), events[1..], base)
  }

  /** The times at which slots are granted during a run. */
  function Grants(s: Rate, events: seq<Event>, base: real): seq<real>
    decreases |events|
  {
    if events == [] then []
    else
      (if events[0].Ask? && Free(s, events[0].now) then [events[0].now] else [])
      + Grants(Step(s, events[0], base), events[1..], base)
  }

  // ----- The mutable state -----

  class RateState {
    var nextAt: real
    var adaptive: real
    var limits: nat

    ghost function State(): Rate
      reads this
    {
      Rate(nextAt, adaptive, limits)
    }

    constructor ()
      ensures State() == FRESH
    {
      nextAt, adaptive, limits := 0.0, 0.0, 0;
    }

    /** A positive delay means that the caller sleeps that long and asks again. */
    method TakeSlot(now: real, base: real) returns (delay: real)
      modifies this
      ensures State() == Step(old(State()), Ask(now), base)
      ensures delay == Max(0.0, old(nextAt) - now)
      ensures delay <= 0.0 <==> Free(old(State()), now)
    {
      delay := Max(0.0, nextAt - now);
      if delay <= 0.0 {
        nextAt := now + Max(Max(0.0, base), adaptive);
      }
    }

    method IncreaseBackoff(now: real, delay: real, base: real, limited: bool)
      modifies this
      ensures State() == Step(old(State()), Fail(now, delay, limited), base)
      ensures nextAt >= old(nextAt) && nextAt >= now + delay && nextAt >= now + adaptive
      ensures nextAt == old(nextAt) || nextAt == now + delay || nextAt == now + adaptive
      ensures old(adaptive) > 0.0 && 2.0 * old(adaptive) <= 60.0 ==> adaptive >= 2.0 * old(adaptive)
      ensures Max(0.0, base) <= 60.0 ==> Max(0.0, base) <= adaptive <= 60.0
      ensures limits == old(limits) + if limited then 1 else 0
    {
      var configured := Max(0.0, base);
      var doubled := if adaptive != 0.0 then adaptive * 2.0 else Max(1.0, configured);
      adaptive := Min(60.0, Max(configured, doubled));
      nextAt := Max(nextAt, now + Max(delay, adaptive));
      if limited {
        limits := limits + 1;
      }
    }

    method RegisterSuccess(base: real)
      modifies this
      ensures State() == Step(old(State()), Succeed, base)
    {
      adaptive := Max(Max(0.0, base), adaptive / 2.0);
      limits := 0;
    }
  }

  // ----- Spacing -----

  /** The next admissible time never moves back, so nothing is granted before it. */
  lemma {:induction false} NoGrantBefore(s: Rate, events: seq<Event>, base: real)
    ensures Run(s, events, base).nextAt >= s.nextAt
    ensures forall g :: g in Grants(s, events, base) ==> g >= s.nextAt
    decreases |events|
  {
    if events != [] {
      NoGrantBefore(Step(s, events[0], base), events[1..], base);
    }
  }

  predicate Spaced(g: seq<real>, gap: real) {
    forall i, j :: 0 <= i < j < |g| ==> g[j] >= g[i] + gap
  }

  /** In any interleaving of requests, failures and successes, and with any clock readings,
      slots are at least the configured interval apart. */
  lemma {:induction false} GrantsAreSpaced(s: Rate, events: seq<Event>, base: real)
    ensures Spaced(Grants(s, events, base), Max(0.0, base))
    decreases |events|
  {
    if events != [] {
      var next := Step(s, events[0], base);
      var rest := Grants(next, events[1..], base);
      var all := Grants(s, events, base);
      GrantsAreSpaced(next, events[1..], base);
      NoGrantBefore(next, events[1..], base);
      if events[0].Ask? && Free(s, events[0].now) {
        assert all == [events[0].now] + rest;
        forall i, j | 0 <= i < j < |all| ensures all[j] >= all[i] + Max(0.0, base) {
          assert all[j] == rest[j - 1] && rest[j - 1] in rest;
          if i > 0 {
            assert all[i] == rest[i - 1];
          }
        }
      }
    }
  }

  /** No slot is granted until a registered failure's delay, and the doubled interval, are over. */
  lemma DelayIsRespected(s: Rate, failure: Event, later: seq<Event>, base: real)
    requires failure.Fail?
    ensures forall g :: g in Grants(s, [failure] + later, base) ==>
              g >= failure.now + failure.delay && g >= failure.now + NextInterval(s.adaptive, base)
  {
    var events := [failure] + later;
    assert events[1..] == later;
    NoGrantBefore(Step(s, failure, base), later, base);
  }

  lemma {:induction false} NothingMoves(s: Rate, events: seq<Event>, base: real)
    requires Grants(s, events, base) == [] && forall e :: e in events ==> !e.Fail?
    ensures Run(s, events, base).nextAt == s.nextAt
    decreases |events|
  {
    if events != [] {
      assert events[0] in events;
      NothingMoves(Step(s, events[0], base), events[1..], base);
    }
  }

  /** How long the next request waits, exactly: until the configured and the adaptive interval
      after the last slot are over, and after a failure also until its delay is. */
  lemma NextSlotExact(s: Rate, last: Event, later: seq<Event>, base: real, t: real)
    requires last.Fail? || (last.Ask? && Free(s, last.now))
    requires Grants(Step(s, last, base), later, base) == [] && forall e :: e in later ==> !e.Fail?
    ensures var next := Run(s, [last] + later, base);
            Free(next, t) <==>
            && (last.Ask? ==> t >= last.now && t >= last.now + base && t >= last.now + s.adaptive)
            && (last.Fail? ==> t >= s.nextAt && t >= last.now + last.delay
                               && t >= last.now + Step(s, last, base).adaptive)
  {
    assert ([last] + later)[1..] == later;
    NothingMoves(Step(s, last, base), later, base);
  }

  function GrantsUpTo(g: seq<real>, from: real, length: real): nat {
    if g == [] then 0 else (if from <= g[0] <= from + length then 1 else 0) + GrantsUpTo(g[1..], from, length)
  }

  /** The i-th element opens a stretch of n slots that ends before the span does. */
  predicate Opens(g: seq<real>, i: int, from: real, length: real, gap: real, n: int) {
    0 <= i < |g| && from <= g[i] && g[i] + (n - 1) as real * gap <= from + length
  }

  /** One slot earlier by at least a gap makes the stretch one longer. */
  lemma StretchGrows(first: real, second: real, end: real, gap: real, n: int)
    requires second >= first + gap && second + (n - 2) as real * gap <= end
    ensures first + (n - 1) as real * gap <= end
  {
    assert (n - 1) as real == (n - 2) as real + 1.0;
    assert (n - 1) as real * gap == (n - 2) as real * gap + gap;
  }

  lemma {:induction false} SpacedCount(g: seq<real>, from: real, length: real, gap: real) returns (i: int)
    requires gap > 0.0 && Spaced(g, gap)
    ensures GrantsUpTo(g, from, length) > 0 ==> Opens(g, i, from, length, gap, GrantsUpTo(g, from, length))
  {
    i := 0;
    if g != [] {
      var n := GrantsUpTo(g, from, length);
      var rest := g[1..];
      assert Spaced(rest, gap);
      var k := SpacedCount(rest, from, length, gap);
      if from <= g[0] <= from + length {
        if n > 1 {
          assert rest[k] == g[k + 1] >= g[0] + gap;
          StretchGrows(g[0], rest[k], from + length, gap, n);
        } else {
          assert 0 as real * gap == 0.0;
        }
      } else if n > 0 {
        i := k + 1;
        assert g[i] == rest[k];
      }
    }
  }

  lemma FloorBound(n: int, length: real, gap: real)
    requires gap > 0.0 && n as real * gap <= length
    ensures n <= (length / gap).Floor
  {
    var product := n as real * gap;
    assert product / gap == n as real;
    assert product / gap <= length / gap;
  }

  lemma StretchFits(g: seq<real>, from: real, length: real, gap: real)
    requires gap > 0.0 && Spaced(g, gap) && GrantsUpTo(g, from, length) > 0
    ensures (GrantsUpTo(g, from, length) - 1) as real * gap <= length
  {
    var i := SpacedCount(g, from, length, gap);
    assert Opens(g, i, from, length, gap, GrantsUpTo(g, from, length));
  }

  /** A span of length L holds at most floor(L / interval) + 1 slots. */
  lemma SlotsPerSpan(events: seq<Event>, base: real, from: real, length: real)
    requires base > 0.0 && length >= 0.0
    ensures GrantsUpTo(Grants(FRESH, events, base), from, length) <= (length / base).Floor + 1
  {
    var g := Grants(FRESH, events, base);
    var n := GrantsUpTo(g, from, length);
    if n > 0 {
      GrantsAreSpaced(FRESH, events, base);
      StretchFits(g, from, length, base);
      FloorBound(n - 1, length, base);
    } else {
      assert length / base >= 0.0;
    }
  }

  // ----- The adaptive interval -----

  /** A run of failures raises the interval geometrically up to a minute. */
  function Doubled(k: nat, base: real): real {
    if k == 0 then Max(1.0, base) else 2.0 * Doubled(k - 1, base)
  }

  lemma {:induction false} FailuresDouble(events: seq<Event>, base: real)
    requires |events| > 0 && forall e :: e in events ==> e.Fail?
    ensures Run(FRESH, events, base).adaptive == Min(60.0, Doubled(|events| - 1, base))
  {
    var n := |events| - 1;
    RunSplits(FRESH, events[..n], events[n], base);
    assert events[..n] + [events[n]] == events;
    assert events[n] in events;
    if n == 0 {
      assert events[..n] == [];
    } else {
      FailuresDouble(events[..n], base);
      DoubledPositive(n - 1, base);
    }
  }

  function Halved(x: real, k: nat): real { if k == 0 then x else Halved(x, k - 1) / 2.0 }

  /** A run of successes lowers the interval geometrically down to the configured one, forgets the
      rate limits and leaves the next slot where it was. */
  lemma {:induction false} SuccessesHalve(s: Rate, events: seq<Event>, base: real)
    requires |events| > 0 && forall e :: e in events ==> e.Succeed?
    ensures Run(s, events, base) == Rate(s.nextAt, Max(Max(0.0, base), Halved(s.adaptive, |events|)), 0)
  {
    var n := |events| - 1;
    RunSplits(s, events[..n], events[n], base);
    assert events[..n] + [events[n]] == events;
    assert events[n] in events;
    if n == 0 {
      assert events[..n] == [];
      assert Halved(s.adaptive, 1) == Halved(s.adaptive, 0) / 2.0;
    } else {
      SuccessesHalve(s, events[..n], base);
    }
  }

  lemma {:induction false} DoubledPositive(k: nat, base: real)
    ensures Doubled(k, base) >= Max(1.0, base)
  {
    if k > 0 {
      DoubledPositive(k - 1, base);
    }
  }

  lemma {:induction false} RunSplits(s: Rate, events: seq<Event>, last: Event, base: real)
    ensures Run(s, events + [last], base) == Step(Run(s, events, base), last, base)
    decreases |events|
  {
    if events == [] {
      assert events + [last] == [last];
    } else {
      assert (events + [last])[1..] == events[1..] + [last];
      RunSplits(Step(s, events[0], base), events[1..], last, base);
    }
  }
}
