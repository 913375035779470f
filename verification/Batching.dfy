/** Splitting a provider's domains into requests: the greedy split is correct, each batch is
    the longest prefix that fits, and no other contiguous split needs fewer requests. */
module Batching {
  import opened Basics

  type Domain = string

  function Flatten<T>(parts: seq<seq<T>>): seq<T> {
    if parts == [] then [] else parts[0] + Flatten(parts[1..])
  }

  // ----- The context estimate -----

  /** The provider and profile figures that decide whether a request fits its context. */
  datatype Sizing = Sizing(contextTokens: int, margin: real, maxOutput: int, outputPerDomain: real)

  function Ceil(x: real): int { -((-x).Floor) }

  function InputTokens(promptLength: nat): int { MaxInt(1, Ceil(promptLength as real / 3.5)) }

  /** A fifth is added to the expected output, within the provider's bounds. */
  function ClampOutput(z: Sizing, expected: real): int {
    MaxInt(256, MinInt(MaxInt(1, z.maxOutput), Ceil(expected * 1.2)))
  }

  function OutputTokens(z: Sizing, count: nat): int {
    ClampOutput(z, z.outputPerDomain * MaxInt(1, count) as real)
  }

  function UsableContext(z: Sizing): int {
    var margin := if z.margin < 0.0 then 0.0 else if z.margin > 50.0 then 50.0 else z.margin;
    (z.contextTokens as real * (1.0 - margin / 100.0)).Floor
  }

  predicate FitsContext(z: Sizing, promptLength: nat, count: nat) {
    z.contextTokens <= 0 || InputTokens(promptLength) + OutputTokens(z, count) <= UsableContext(z)
  }

  /** Whether one request for these domains fits; the prompt length is the serialized size. */
  function FitTest(z: Sizing, promptLength: seq<Domain> -> nat): seq<Domain> -> bool {
    batch => FitsContext(z, promptLength(batch), |batch|)
  }

  lemma CeilBounds(x: real)
    ensures x <= Ceil(x) as real < x + 1.0
  {
  }

  /** The tokens a request is expected to take: its prompt at 3.5 characters each, and a fifth more
      than the usual output, within the provider's maximum and never less than 256. */
  function ExpectedInput(promptLength: nat): real { Max(1.0, promptLength as real / 3.5) }

  function ExpectedOutput(z: Sizing, count: nat): real {
    var domains := if count > 0 then count else 1;
    Max(256.0, Min(z.outputPerDomain * domains as real * 1.2, Max(1.0, z.maxOutput as real)))
  }

  /** What the context leaves after the margin. */
  function Usable(z: Sizing): real {
    z.contextTokens as real * (100.0 - Max(0.0, Min(z.margin, 50.0))) / 100.0
  }

  lemma OutputBounds(z: Sizing, count: nat)
    ensures ExpectedOutput(z, count) <= OutputTokens(z, count) as real < ExpectedOutput(z, count) + 1.0
  {
    CeilBounds(z.outputPerDomain * MaxInt(1, count) as real * 1.2);
  }

  lemma UsableBounds(z: Sizing)
    ensures Usable(z) - 1.0 < UsableContext(z) as real <= Usable(z)
  {
    var margin := if z.margin < 0.0 then 0.0 else if z.margin > 50.0 then 50.0 else z.margin;
    assert z.contextTokens as real * (1.0 - margin / 100.0) == Usable(z);
  }

  /** A request that fits takes no more than the usable context, one that would leave three tokens to
      spare fits, and without a known context everything does. */
  lemma FitsWithinContext(z: Sizing, promptLength: nat, count: nat)
    ensures z.contextTokens <= 0 ==> FitsContext(z, promptLength, count)
    ensures z.contextTokens > 0 && FitsContext(z, promptLength, count) ==>
              ExpectedInput(promptLength) + ExpectedOutput(z, count) <= Usable(z)
    ensures ExpectedInput(promptLength) + ExpectedOutput(z, count) + 3.0 <= Usable(z) ==>
              FitsContext(z, promptLength, count)
  {
    CeilBounds(promptLength as real / 3.5);
    OutputBounds(z, count);
    UsableBounds(z);
  }

  // ----- The greedy split -----

  /** The largest size up to `size` whose prefix fits, or 0. */
  function LongestFit(remaining: seq<Domain>, size: nat, fits: seq<Domain> -> bool): (n: nat)
    requires size <= |remaining|
    ensures n <= size
    ensures n > 0 ==> fits(remaining[..n])
    ensures forall k :: n < k <= size ==> !fits(remaining[..k])
  {
    if size == 0 || fits(remaining[..size]) then size else LongestFit(remaining, size - 1, fits)
  }

  function First(maximum: nat, remaining: seq<Domain>): nat {
    if maximum <= |remaining| then maximum else |remaining|
  }

  /** None is the error raised when not even the first remaining domain fits. */
  function Greedy(remaining: seq<Domain>, maximum: nat, fits: seq<Domain> -> bool): Option<seq<seq<Domain>>>
    decreases |remaining|
  {
    if remaining == [] then Some([])
    else
      var size := LongestFit(remaining, First(maximum, remaining), fits);
      if size == 0 then None
      else
        var rest := Greedy(remaining[size..], maximum, fits);
        if rest.None? then None else Some([remaining[..size]] + rest.value)
  }

  method ProviderBatches(domains: seq<Domain>, maximum: nat, fits: seq<Domain> -> bool)
    returns (result: Option<seq<seq<Domain>>>)
    ensures result == Greedy(domains, maximum, fits)
  {
    var remaining := domains;
    var batches: seq<seq<Domain>> := [];
    ghost var whole := Greedy(domains, maximum, fits);
    assert whole.Some? ==> batches + whole.value == whole.value;
    while remaining != []
      invariant Greedy(domains, maximum, fits) ==
                (var rest := Greedy(remaining, maximum, fits);
                 if rest.None? then None else Some(batches + rest.value))
      decreases |remaining|
    {
      var size := First(maximum, remaining);
      while size > 0 && !fits(remaining[..size])
        invariant 0 <= size <= First(maximum, remaining)
        invariant LongestFit(remaining, First(maximum, remaining), fits) == LongestFit(remaining, size, fits)
      {
        size := size - 1;
      }
      if size == 0 {
        return None;
      }
      ghost var rest := Greedy(remaining[size..], maximum, fits);
      assert rest.Some? ==> batches + ([remaining[..size]] + rest.value) == batches + [remaining[..size]] + rest.value;
      batches := batches + [remaining[..size]];
      remaining := remaining[size..];
    }
    assert batches + [] == batches;
    result := Some(batches);
  }

  // ----- Correctness -----

  /** A contiguous split into non-empty requests that each respect the size limit and fit. */
  predicate IsSplit(domains: seq<Domain>, batches: seq<seq<Domain>>, maximum: nat, fits: seq<Domain> -> bool) {
    Flatten(batches) == domains &&
    forall i :: 0 <= i < |batches| ==> 0 < |batches[i]| <= maximum && fits(batches[i])
  }

  lemma {:induction false} GreedyIsSplit(domains: seq<Domain>, maximum: nat, fits: seq<Domain> -> bool)
    requires Greedy(domains, maximum, fits).Some?
    ensures IsSplit(domains, Greedy(domains, maximum, fits).value, maximum, fits)
    decreases |domains|
  {
    if domains != [] {
      var size := LongestFit(domains, First(maximum, domains), fits);
      GreedyIsSplit(domains[size..], maximum, fits);
      var rest := Greedy(domains[size..], maximum, fits).value;
      var all := [domains[..size]] + rest;
      assert all[1..] == rest;
      assert domains == domains[..size] + domains[size..];
    }
  }

  // ----- Optimality -----

  /** Dropping leading domains from a request that fits leaves one that fits. */
  ghost predicate SuffixClosed(fits: seq<Domain> -> bool) {
    forall batch, k {:trigger fits(batch[k..])} :: 0 <= k < |batch| && fits(batch) ==> fits(batch[k..])
  }

  /** Greedy stays ahead: started anywhere inside another split, it needs no more requests. */
  lemma {:induction false} GreedyStaysAhead(domains: seq<Domain>, k: nat, other: seq<seq<Domain>>, maximum: nat,
                                            fits: seq<Domain> -> bool)
    requires k <= |domains| && IsSplit(domains, other, maximum, fits) && SuffixClosed(fits)
    ensures var greedy := Greedy(domains[k..], maximum, fits);
            greedy.Some? && |greedy.value| <= |other|
    decreases |other|
  {
    if k < |domains| {
      var head, rest := other[0], other[1..];
      var n := |head|;
      var tail := domains[n..];
      assert domains[..n] == head;
      assert Flatten(rest) == tail;
      assert IsSplit(tail, rest, maximum, fits);
      if k >= n {
        assert tail[k - n..] == domains[k..];
        GreedyStaysAhead(tail, k - n, rest, maximum, fits);
      } else {
        var remaining := domains[k..];
        assert remaining[..n - k] == head[k..];
        assert fits(head[k..]);
        var size := LongestFit(remaining, First(maximum, remaining), fits);
        assert size >= n - k;
        assert remaining[size..] == tail[k + size - n..];
        GreedyStaysAhead(tail, k + size - n, rest, maximum, fits);
      }
    }
  }

  /** When any split exists, the greedy one exists and uses the fewest requests. */
  lemma GreedyIsOptimal(domains: seq<Domain>, other: seq<seq<Domain>>, maximum: nat, fits: seq<Domain> -> bool)
    requires IsSplit(domains, other, maximum, fits) && SuffixClosed(fits)
    ensures var greedy := Greedy(domains, maximum, fits);
            greedy.Some? && IsSplit(domains, greedy.value, maximum, fits) && |greedy.value| <= |other|
  {
    assert domains[0..] == domains;
    GreedyStaysAhead(domains, 0, other, maximum, fits);
    GreedyIsSplit(domains, maximum, fits);
  }

  // ----- The estimate is suffix closed -----

  lemma CeilMonotone(a: real, b: real)
    requires a <= b
    ensures Ceil(a) <= Ceil(b)
  {
    assert -b <= -a;
  }

  lemma InputMonotone(shorter: nat, longer: nat)
    requires shorter <= longer
    ensures InputTokens(shorter) <= InputTokens(longer)
  {
    CeilMonotone(shorter as real / 3.5, longer as real / 3.5);
  }

  lemma ClampMonotone(z: Sizing, x: real, y: real)
    requires x <= y
    ensures ClampOutput(z, x) <= ClampOutput(z, y)
  {
    CeilMonotone(x * 1.2, y * 1.2);
  }

  lemma ScaledMonotone(z: Sizing, a: real, b: real)
    requires a <= b && z.outputPerDomain >= 0.0
    ensures ClampOutput(z, z.outputPerDomain * a) <= ClampOutput(z, z.outputPerDomain * b)
  {
    ProductMonotone(a, b, z.outputPerDomain);
    ClampMonotone(z, z.outputPerDomain * a, z.outputPerDomain * b);
  }

  lemma OutputMonotone(z: Sizing, fewer: nat, more: nat)
    requires fewer <= more && z.outputPerDomain >= 0.0
    ensures OutputTokens(z, fewer) <= OutputTokens(z, more)
  {
    ScaledMonotone(z, MaxInt(1, fewer) as real, MaxInt(1, more) as real);
  }

  lemma SmallerFits(z: Sizing, longer: nat, shorter: nat, more: nat, fewer: nat)
    requires FitsContext(z, longer, more) && shorter <= longer && fewer <= more && z.outputPerDomain >= 0.0
    ensures FitsContext(z, shorter, fewer)
  {
    InputMonotone(shorter, longer);
    OutputMonotone(z, fewer, more);
  }

  /** Under the real estimate, a prompt that does not grow when leading domains are dropped
      makes the fit test suffix closed, so the greedy split is optimal for it. */
  lemma EstimateIsSuffixClosed(z: Sizing, promptLength: seq<Domain> -> nat)
    requires z.outputPerDomain >= 0.0
    requires forall batch: seq<Domain>, k {:trigger promptLength(batch[k..])} ::
               0 <= k < |batch| ==> promptLength(batch[k..]) <= promptLength(batch)
    ensures SuffixClosed(FitTest(z, promptLength))
  {
    var fits := FitTest(z, promptLength);
    forall batch: seq<Domain>, k {:trigger fits(batch[k..])} | 0 <= k < |batch| && fits(batch)
      ensures fits(batch[k..])
    {
      SmallerFits(z, promptLength(batch), promptLength(batch[k..]), |batch|, |batch[k..]|);
    }
  }

  // ----- Without suffix closure -----

  /** The length of a prompt that repeats its first domain and names no other. */
  function FirstDomainPrompt(batch: seq<Domain>): nat {
    if batch == [] then 0 else 2000 * |batch[0]|
  }

  const SMALL_CONTEXT := Sizing(4000, 0.0, 300, 100.0)

  const SHORT_AND_LONG: seq<Domain> := ["a", "b", "ccccccc"]

  lemma FirstDomainFits(batch: seq<Domain>)
    requires 0 < |batch| <= 2
    ensures FitTest(SMALL_CONTEXT, FirstDomainPrompt)(batch) <==> |batch[0]| <= 6
  {
    var length := 2000 * |batch[0]|;
    assert OutputTokens(SMALL_CONTEXT, |batch|) == 256;
    assert UsableContext(SMALL_CONTEXT) == 4000;
    var prompt: seq<Domain> -> nat := FirstDomainPrompt;
    assert prompt(batch) == length;
    assert FitTest(SMALL_CONTEXT, prompt)(batch) <==> FitsContext(SMALL_CONTEXT, prompt(batch), |batch|);
    assert FitsContext(SMALL_CONTEXT, length, |batch|) <==> InputTokens(length) <= 3744;
    if |batch[0]| <= 6 {
      InputMonotone(length, 12000);
      CeilMonotone(12000.0 / 3.5, 3429.0);
      assert Ceil(3429.0) == 3429 && InputTokens(12000) <= 3429;
    } else {
      InputMonotone(14000, length);
      assert 14000.0 / 3.5 == 4000.0 && Ceil(4000.0) == 4000;
    }
  }

  /** A user template may make the prompt longer when a leading domain is dropped. Then the greedy
      split, which fills the first request, can fail although another split fits. */
  lemma GreedyCanFail()
    ensures var fits := FitTest(SMALL_CONTEXT, FirstDomainPrompt);
            && !SuffixClosed(fits) && Greedy(SHORT_AND_LONG, 2, fits).None?
            && IsSplit(SHORT_AND_LONG, [["a"], ["b", "ccccccc"]], 2, fits)
  {
    var fits := FitTest(SMALL_CONTEXT, FirstDomainPrompt);
    var d := SHORT_AND_LONG;
    assert d[..2] == ["a", "b"] && d[2..] == ["ccccccc"] && d[2..][..1] == ["ccccccc"];
    FirstDomainFits(["a", "b"]);
    FirstDomainFits(["ccccccc"]);
    FirstDomainFits(["a"]);
    FirstDomainFits(["b", "ccccccc"]);
    assert LongestFit(d, 2, fits) == 2;
    assert LongestFit(d[2..], 1, fits) == LongestFit(d[2..], 0, fits) == 0;
    assert Greedy(d[2..], 2, fits).None?;
    var other: seq<seq<Domain>> := [["a"], ["b", "ccccccc"]];
    assert other[1..] == [["b", "ccccccc"]] && other[1..][1..] == [];
    assert Flatten(other) == ["a"] + (["b", "ccccccc"] + []);
    assert ["b", "ccccccc"][1..] == ["ccccccc"] && fits(["b", "ccccccc"]) && !fits(["b", "ccccccc"][1..]);
  }
}
