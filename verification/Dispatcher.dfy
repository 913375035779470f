/** Provider execution and pool dispatch: the halving loop on quota errors, the fallback over
    providers, and the distribution by weighted hash, with what each conserves. */
module Dispatcher {
  import opened Basics
  import opened Batching
  import opened Analysis

  // ----- Provider calls -----

  datatype Fault = QuotaFault(retryAt: real) | TransientFault | PermanentFault

  /** A fault another provider may be tried after. */
  predicate Eligible(f: Fault) { !f.PermanentFault? }

  datatype Call =
    | Reply(results: seq<Classification>, usage: Usage)
    | Failed(fault: Fault)
    | Cancelled

  /** The k-th provider call of one execution, for a batch. */
  type Provider = (nat, seq<Domain>) -> Call

  /** Replies obey the parser's contract. */
  ghost predicate Honest(p: Provider) {
    forall k: nat, batch {:trigger p(k, batch)} :: p(k, batch).Reply? ==> Domains(p(k, batch).results) == batch
  }

  // ----- The halving loop -----

  datatype End = Finished | Stopped(fault: Fault, failed: seq<Domain>) | Interrupted

  datatype Progress = Progress(results: seq<Classification>, usage: Usage, calls: nat, end: End)

  /** Calls still possible: a batch of n domains takes at most 2n - 1. */
  function Potential(batches: seq<seq<Domain>>): int {
    if batches == [] then 0 else 2 * |batches[0]| - 1 + Potential(batches[1..])
  }

  predicate NonEmpty(batches: seq<seq<Domain>>) {
    forall i :: 0 <= i < |batches| ==> batches[i] != []
  }

  function Halve(batch: seq<Domain>): seq<seq<Domain>> {
    var midpoint := MaxInt(1, |batch| / 2);
    if midpoint <= |batch| then [batch[..midpoint], batch[midpoint..]] else [batch]
  }

  lemma HalveFacts(batch: seq<Domain>, rest: seq<seq<Domain>>)
    requires |batch| > 1
    ensures NonEmpty(Halve(batch)) && Flatten(Halve(batch) + rest) == batch + Flatten(rest)
    ensures |Halve(batch)| == 2 && |Halve(batch)[0]| <= |Halve(batch)[1]| <= |Halve(batch)[0]| + 1
    ensures Potential(Halve(batch) + rest) == 2 * |batch| - 2 + Potential(rest)
    ensures NonEmpty(rest) ==> NonEmpty(Halve(batch) + rest)
  {
    var m := |batch| / 2;
    var all := Halve(batch) + rest;
    assert all[1..] == [batch[m..]] + rest;
    assert all[1..][1..] == rest;
    assert batch == batch[..m] + batch[m..];
    assert Flatten(all) == batch[..m] + (batch[m..] + Flatten(rest));
  }

  lemma {:induction false} PotentialNonNegative(batches: seq<seq<Domain>>)
    requires NonEmpty(batches)
    ensures Potential(batches) >= |batches|
  {
    if batches != [] {
      PotentialNonNegative(batches[1..]);
    }
  }

  lemma {:induction false} PotentialTotal(batches: seq<seq<Domain>>)
    ensures Potential(batches) == 2 * |Flatten(batches)| - |batches|
  {
    if batches != [] {
      PotentialTotal(batches[1..]);
    }
  }

  ghost function Drive(batches: seq<seq<Domain>>, p: Provider, done: Progress): Progress
    requires NonEmpty(batches)
    decreases Potential(batches), |batches|
  {
    PotentialNonNegative(batches);
    if batches == [] then done.(end := Finished)
    else
      var batch, rest := batches[0], batches[1..];
      PotentialNonNegative(rest);
      var next := done.(calls := done.calls + 1);
      match p(done.calls, batch)
      case Reply(results, usage) =>
        Drive(rest, p, Progress(done.results + results, AddUsage(done.usage, usage), done.calls + 1, done.end))
      case Failed(fault) =>
        if fault.QuotaFault? && |batch| > 1 then
          HalveFacts(batch, rest);
          Drive(Halve(batch) + rest, p, next)
        else next.(end := Stopped(fault, Flatten(batches)))
      case Cancelled => next.(end := Interrupted)
  }

  const START := Progress([], NO_USAGE, 0, Finished)

  method DriveBatches(initial: seq<seq<Domain>>, p: Provider) returns (out: Progress)
    requires NonEmpty(initial)
    ensures out == Drive(initial, p, START)
  {
    var batches := initial;
    var index := 0;
    out := START;
    assert batches[0..] == batches;
    while index < |batches|
      invariant 0 <= index <= |batches| && NonEmpty(batches)
      invariant Drive(initial, p, START) == Drive(batches[index..], p, out)
      decreases Potential(batches[index..])
    {
      var batch := batches[index];
      ghost var rest := batches[index + 1..];
      assert batches[index..][1..] == rest;
      PotentialNonNegative(rest);
      var call := p(out.calls, batch);
      match call {
        case Reply(results, usage) =>
          out := Progress(out.results + results, AddUsage(out.usage, usage), out.calls + 1, out.end);
          index := index + 1;
        case Failed(fault) =>
          if fault.QuotaFault? && |batch| > 1 {
            HalveFacts(batch, rest);
            batches := batches[..index] + Halve(batch) + batches[index + 1..];
            assert batches[index..] == Halve(batch) + rest;
            out := out.(calls := out.calls + 1);
          } else {
            return out.(calls := out.calls + 1, end := Stopped(fault, Flatten(batches[index..])));
          }
        case Cancelled =>
          return out.(calls := out.calls + 1, end := Interrupted);
      }
    }
    assert batches[index..] == [];
    out := out.(end := Finished);
  }

  /** What the loop has classified, followed by what it reports as failed, is what it was given. */
  predicate Conserves(given: seq<Domain>, before: seq<Classification>, out: Progress) {
    match out.end
    case Finished => Domains(out.results) == Domains(before) + given
    case Stopped(_, failed) => Domains(out.results) + failed == Domains(before) + given && failed != []
    case Interrupted => Domains(out.results) <= Domains(before) + given
  }

  lemma {:induction false} DriveConserves(batches: seq<seq<Domain>>, p: Provider, done: Progress)
    requires NonEmpty(batches) && Honest(p)
    ensures var out := Drive(batches, p, done);
            && Conserves(Flatten(batches), done.results, out)
            && done.calls <= out.calls <= done.calls + Potential(batches)
    decreases Potential(batches), |batches|
  {
    PotentialNonNegative(batches);
    if batches == [] {
      assert Domains(done.results) + [] == Domains(done.results);
    } else {
      var batch, rest := batches[0], batches[1..];
      PotentialNonNegative(rest);
      match p(done.calls, batch) {
        case Reply(results, usage) =>
          var next := Progress(done.results + results, AddUsage(done.usage, usage), done.calls + 1, done.end);
          DriveConserves(rest, p, next);
          DomainsAppend(done.results, results);
          assert Domains(next.results) + Flatten(rest) == Domains(done.results) + Flatten(batches);
        case Failed(fault) =>
          if fault.QuotaFault? && |batch| > 1 {
            HalveFacts(batch, rest);
            DriveConserves(Halve(batch) + rest, p, done.(calls := done.calls + 1));
          }
        case Cancelled =>
      }
    }
  }

  /** The replies the loop received, in order. */
  ghost function Replies(batches: seq<seq<Domain>>, p: Provider, calls: nat): seq<Call>
    requires NonEmpty(batches)
    decreases Potential(batches), |batches|
  {
    PotentialNonNegative(batches);
    if batches == [] then []
    else
      var batch, rest := batches[0], batches[1..];
      PotentialNonNegative(rest);
      var call := p(calls, batch);
      match call
      case Reply(_, _) => [call] + Replies(rest, p, calls + 1)
      case Failed(fault) =>
        if fault.QuotaFault? && |batch| > 1 then
          HalveFacts(batch, rest);
          Replies(Halve(batch) + rest, p, calls + 1)
        else []
      case Cancelled => []
  }

  ghost function SumUsage(replies: seq<Call>): Usage
    requires forall i :: 0 <= i < |replies| ==> replies[i].Reply?
  {
    if replies == [] then NO_USAGE else AddUsage(replies[0].usage, SumUsage(replies[1..]))
  }

  lemma UsageAssociates(a: Usage, b: Usage, c: Usage)
    ensures AddUsage(AddUsage(a, b), c) == AddUsage(a, AddUsage(b, c))
    ensures AddUsage(a, b) == AddUsage(b, a) && AddUsage(a, NO_USAGE) == a
  {
  }

  /** The reported usage is the sum over exactly the replies received. */
  lemma {:induction false} UsageIsTotal(batches: seq<seq<Domain>>, p: Provider, done: Progress)
    requires NonEmpty(batches)
    ensures var replies := Replies(batches, p, done.calls);
            && (forall i :: 0 <= i < |replies| ==> replies[i].Reply?)
            && Drive(batches, p, done).usage == AddUsage(done.usage, SumUsage(replies))
    decreases Potential(batches), |batches|
  {
    PotentialNonNegative(batches);
    if batches != [] {
      var batch, rest := batches[0], batches[1..];
      PotentialNonNegative(rest);
      match p(done.calls, batch) {
        case Reply(results, usage) =>
          var next := Progress(done.results + results, AddUsage(done.usage, usage), done.calls + 1, done.end);
          UsageIsTotal(rest, p, next);
          var replies := Replies(rest, p, done.calls + 1);
          assert Replies(batches, p, done.calls) == [p(done.calls, batch)] + replies;
          assert ([p(done.calls, batch)] + replies)[1..] == replies;
          UsageAssociates(done.usage, usage, SumUsage(replies));
        case Failed(fault) =>
          if fault.QuotaFault? && |batch| > 1 {
            HalveFacts(batch, rest);
            UsageIsTotal(Halve(batch) + rest, p, done.(calls := done.calls + 1));
          }
        case Cancelled =>
      }
    }
  }

  // ----- The calls of a run -----

  /** One call of a run, by the positions it asks about. */
  datatype Asked = Asked(start: nat, size: nat)

  function Part(all: seq<Domain>, x: Asked): seq<Domain>
    requires x.start + x.size <= |all|
  {
    all[x.start..x.start + x.size]
  }

  /** The calls move over the domains without gaps: after a reply the next call starts where this one
      ended; after a quota error on more than one domain the first half is asked again; and any other
      error or a cancellation ends the run there, with everything from that call on failed. */
  ghost predicate Moves(all: seq<Domain>, at: nat, p: Provider, n: nat, calls: seq<Asked>, end: End)
    decreases |calls|
  {
    if calls == [] then at == |all| && end == Finished
    else
      var x, rest := calls[0], calls[1..];
      x.start == at && 0 < x.size <= |all| - at &&
      match p(n, Part(all, x))
      case Reply(_, _) => Moves(all, at + x.size, p, n + 1, rest, end)
      case Failed(fault) =>
        if fault.QuotaFault? && x.size > 1 then
          rest != [] && rest[0].size == x.size / 2 && Moves(all, at, p, n + 1, rest, end)
        else rest == [] && end == Stopped(fault, all[at..])
      case Cancelled => rest == [] && end == Interrupted
  }

  /** What the replies of the calls classified, in order. */
  ghost function Gathered(all: seq<Domain>, p: Provider, n: nat, calls: seq<Asked>): seq<Classification>
    requires forall x :: x in calls ==> x.start + x.size <= |all|
    decreases |calls|
  {
    if calls == [] then []
    else
      var call := p(n, Part(all, calls[0]));
      (if call.Reply? then call.results else []) + Gathered(all, p, n + 1, calls[1..])
  }

  /** The run did exactly these calls. */
  ghost predicate RanAs(all: seq<Domain>, at: nat, p: Provider, before: Progress, calls: seq<Asked>, out: Progress) {
    && (forall x :: x in calls ==> x.start + x.size <= |all|)
    && Moves(all, at, p, before.calls, calls, out.end)
    && out.calls == before.calls + |calls|
    && out.results == before.results + Gathered(all, p, before.calls, calls)
  }

  lemma CalledFirst(all: seq<Domain>, x: Asked, p: Provider, before: Progress, next: Progress, calls: seq<Asked>,
                    out: Progress)
    requires x.start + x.size <= |all| && x.size > 0 && next.calls == before.calls + 1
    requires match p(before.calls, Part(all, x))
             case Reply(results, _) =>
               next.results == before.results + results && RanAs(all, x.start + x.size, p, next, calls, out)
             case Failed(fault) =>
               && fault.QuotaFault? && x.size > 1 && next.results == before.results
               && RanAs(all, x.start, p, next, calls, out) && calls != [] && calls[0].size == x.size / 2
             case Cancelled => false
    ensures RanAs(all, x.start, p, before, [x] + calls, out)
  {
    assert ([x] + calls)[1..] == calls;
  }

  /** The halving loop, call by call, for any provider. */
  lemma {:induction false} DriveMoves(all: seq<Domain>, at: nat, batches: seq<seq<Domain>>, p: Provider,
                                      before: Progress)
    returns (calls: seq<Asked>)
    requires NonEmpty(batches) && at <= |all| && all[at..] == Flatten(batches)
    ensures RanAs(all, at, p, before, calls, Drive(batches, p, before))
    ensures batches != [] ==> calls != [] && calls[0].size == |batches[0]|
    decreases Potential(batches), |batches|
  {
    PotentialNonNegative(batches);
    calls := [];
    if batches != [] {
      var batch, rest := batches[0], batches[1..];
      PotentialNonNegative(rest);
      var x := Asked(at, |batch|);
      assert Part(all, x) == all[at..][..|batch|] == batch;
      match p(before.calls, batch) {
        case Reply(results, usage) =>
          var next := Progress(before.results + results, AddUsage(before.usage, usage), before.calls + 1, before.end);
          assert all[at + |batch|..] == all[at..][|batch|..] == Flatten(rest);
          var later := DriveMoves(all, at + |batch|, rest, p, next);
          CalledFirst(all, x, p, before, next, later, Drive(rest, p, next));
          calls := [x] + later;
        case Failed(fault) =>
          if fault.QuotaFault? && |batch| > 1 {
            var next := before.(calls := before.calls + 1);
            HalveFacts(batch, rest);
            var later := DriveMoves(all, at, Halve(batch) + rest, p, next);
            CalledFirst(all, x, p, before, next, later, Drive(Halve(batch) + rest, p, next));
            calls := [x] + later;
          } else {
            calls := [x];
            assert calls[1..] == [];
          }
        case Cancelled =>
          calls := [x];
          assert calls[1..] == [];
      }
    }
  }

  // ----- One provider's execution -----

  datatype Execution =
    | Whole(results: seq<Classification>, usage: Usage)
    | Partial(results: seq<Classification>, usage: Usage, failed: seq<Domain>, fault: Fault)
    | Raised(fault: Fault)
    | Aborted

  function Conclude(out: Progress): Execution {
    match out.end
    case Finished => Whole(out.results, out.usage)
    case Stopped(fault, failed) =>
      if out.results != [] then Partial(out.results, out.usage, failed, fault) else Raised(fault)
    case Interrupted => Aborted
  }

  /** A finished run is whole; a stopped one is partial with what it classified, left and failed on,
      or raises its error if it classified nothing. */
  predicate Concludes(out: Progress, e: Execution) {
    match e
    case Whole(results, usage) => out.end == Finished && results == out.results && usage == out.usage
    case Partial(results, usage, failed, fault) =>
      out.end == Stopped(fault, failed) && results == out.results != [] && usage == out.usage
    case Raised(fault) => out.end.Stopped? && out.end.fault == fault && out.results == []
    case Aborted => out.end == Interrupted
  }

  method ExecuteProvider(domains: seq<Domain>, maximum: nat, fits: seq<Domain> -> bool, p: Provider)
    returns (e: Execution, calls: nat)
    requires domains != [] && Honest(p)
    ensures Accounts(domains, e)
    ensures calls <= 2 * |domains| - 1
    ensures Greedy(domains, maximum, fits).None? ==> calls == 0 && e == Raised(PermanentFault)
    ensures Greedy(domains, maximum, fits).Some? ==>
              NonEmpty(Greedy(domains, maximum, fits).value)
              && Concludes(Drive(Greedy(domains, maximum, fits).value, p, START), e)
  {
    var split := ProviderBatches(domains, maximum, fits);
    if split.None? {
      return Raised(PermanentFault), 0;
    }
    GreedyIsSplit(domains, maximum, fits);
    var out := DriveBatches(split.value, p);
    DriveConserves(split.value, p, START);
    PotentialTotal(split.value);
    assert |split.value| > 0;
    assert Domains([]) + domains == domains;
    assert Domains(out.results) == [] <==> out.results == [];
    e, calls := Conclude(out), out.calls;
  }

  /** A whole result covers the input in order; a partial one splits it; an error covers nothing. */
  predicate Accounts(given: seq<Domain>, e: Execution) {
    match e
    case Whole(results, _) => Domains(results) == given
    case Partial(results, _, failed, _) => Domains(results) + failed == given && results != [] && failed != []
    case Raised(_) => true
    case Aborted => true
  }

  // ----- Fallback -----

  /** What a candidate's execution yields for the domains it is handed. */
  type Candidates = (nat, seq<Domain>) -> Execution

  ghost predicate Accountable(run: Candidates) {
    forall k: nat, given {:trigger run(k, given)} :: Accounts(given, run(k, given))
  }

  /** One provider's accepted results, with its position in the try order. */
  datatype ProviderResult = ProviderResult(candidate: nat, results: seq<Classification>)

  datatype Dispatch =
    | Returned(results: seq<ProviderResult>, remaining: seq<Domain>)
    | Threw(fault: Fault)
    | Withdrawn

  function Classified(results: seq<ProviderResult>): seq<Domain> {
    if results == [] then [] else Domains(results[0].results) + Classified(results[1..])
  }

  function Fallback(run: Candidates, k: nat, count: nat, remaining: seq<Domain>, results: seq<ProviderResult>): Dispatch
    decreases count - k
  {
    if k >= count || remaining == [] then Returned(results, remaining)
    else
      match run(k, remaining)
      case Whole(cs, _) => Fallback(run, k + 1, count, [], results + [ProviderResult(k, cs)])
      case Partial(cs, _, failed, fault) =>
        var more := results + [ProviderResult(k, cs)];
        if Eligible(fault) then Fallback(run, k + 1, count, failed, more) else Returned(more, failed)
      case Raised(fault) =>
        if Eligible(fault) then Fallback(run, k + 1, count, remaining, results) else Threw(fault)
      case Aborted => Withdrawn
  }

  method DispatchFallback(run: Candidates, count: nat, domains: seq<Domain>) returns (d: Dispatch)
    ensures d == Fallback(run, 0, count, domains, [])
  {
    var remaining := domains;
    var results: seq<ProviderResult> := [];
    for k := 0 to count
      invariant Fallback(run, 0, count, domains, []) == Fallback(run, k, count, remaining, results)
    {
      if remaining == [] {
        break;
      }
      var e := run(k, remaining);
      match e {
        case Whole(cs, _) =>
          results := results + [ProviderResult(k, cs)];
          remaining := [];
        case Partial(cs, _, failed, fault) =>
          results := results + [ProviderResult(k, cs)];
          remaining := failed;
          if !Eligible(fault) {
            return Returned(results, remaining);
          }
        case Raised(fault) =>
          if !Eligible(fault) {
            return Threw(fault);
          }
        case Aborted =>
          return Withdrawn;
      }
    }
    d := Returned(results, remaining);
  }

  lemma {:induction false} ClassifiedAppend(a: seq<ProviderResult>, r: ProviderResult)
    ensures Classified(a + [r]) == Classified(a) + Domains(r.results)
  {
    if a == [] {
      assert a + [r] == [r];
      assert Classified([r]) == Domains(r.results) + [];
    } else {
      assert (a + [r])[1..] == a[1..] + [r];
      ClassifiedAppend(a[1..], r);
    }
  }

  predicate InTryOrder(results: seq<ProviderResult>, bound: nat) {
    (forall i :: 0 <= i < |results| ==> results[i].candidate < bound) &&
    (forall i, j :: 0 <= i < j < |results| ==> results[i].candidate < results[j].candidate)
  }

  /** Providers contribute at most once each, in the order they were tried. */
  lemma {:induction false} FallbackInTryOrder(run: Candidates, k: nat, count: nat, remaining: seq<Domain>,
                                              results: seq<ProviderResult>)
    requires InTryOrder(results, k)
    ensures var d := Fallback(run, k, count, remaining, results);
            d.Returned? ==> InTryOrder(d.results, MaxInt(k, count))
    decreases count - k
  {
    if k < count && remaining != [] {
      match run(k, remaining) {
        case Whole(cs, _) => FallbackInTryOrder(run, k + 1, count, [], results + [ProviderResult(k, cs)]);
        case Partial(cs, _, failed, fault) =>
          if Eligible(fault) {
            FallbackInTryOrder(run, k + 1, count, failed, results + [ProviderResult(k, cs)]);
          }
        case Raised(fault) =>
          if Eligible(fault) {
            FallbackInTryOrder(run, k + 1, count, remaining, results);
          }
        case Aborted =>
      }
    }
  }

  // ----- The tries of a fallback -----

  /** What the execution leaves for the next candidate. */
  predicate Leaves(e: Execution, given: seq<Domain>, next: seq<Domain>) {
    match e
    case Whole(_, _) => next == []
    case Partial(_, _, failed, _) => next == failed
    case _ => next == given
  }

  /** A fault after which another provider is tried. */
  predicate Recovers(e: Execution) { (e.Partial? || e.Raised?) && !e.fault.PermanentFault? }

  /** What the tries contribute to the results. */
  function Adds(k: nat, e: Execution): seq<ProviderResult> {
    if e.Whole? || e.Partial? then [ProviderResult(k, e.results)] else []
  }

  function Contributed(run: Candidates, k: nat, lefts: seq<seq<Domain>>): seq<ProviderResult>
    decreases |lefts|
  {
    if lefts == [] then [] else Adds(k, run(k, lefts[0])) + Contributed(run, k + 1, lefts[1..])
  }

  /** The candidates from k on were tried one after the other, each on what the one before left. */
  ghost predicate TriedAs(run: Candidates, k: nat, lefts: seq<seq<Domain>>, last: seq<Domain>)
    decreases |lefts|
  {
    if lefts == [] then true
    else if |lefts| == 1 then lefts[0] != [] && Leaves(run(k, lefts[0]), lefts[0], last)
    else
      && lefts[0] != [] && Recovers(run(k, lefts[0])) && Leaves(run(k, lefts[0]), lefts[0], lefts[1])
      && TriedAs(run, k + 1, lefts[1..], last)
  }

  /** How the fallback ended: with nothing left, with no candidate left, with an error that is not
      one to fall back on after some results, with such an error and none, or cancelled. */
  ghost predicate EndedAs(run: Candidates, k: nat, count: nat, lefts: seq<seq<Domain>>, last: seq<Domain>,
                          before: seq<ProviderResult>, d: Dispatch)
  {
    var n := |lefts|;
    match d
    case Returned(results, remaining) =>
      && results == before + Contributed(run, k, lefts) && remaining == last
      && (last == [] || k + n >= count
          || (n > 0 && var e := run(k + n - 1, lefts[n - 1]); e.Partial? && e.fault.PermanentFault?))
    case Threw(fault) => n > 0 && run(k + n - 1, lefts[n - 1]) == Raised(fault) && fault.PermanentFault?
    case Withdrawn => n > 0 && run(k + n - 1, lefts[n - 1]) == Aborted
  }

  lemma TriedFirst(run: Candidates, k: nat, remaining: seq<Domain>, later: seq<seq<Domain>>, last: seq<Domain>)
    requires remaining != [] && TriedAs(run, k + 1, later, last)
    requires Leaves(run(k, remaining), remaining, if later == [] then last else later[0])
    requires later == [] || Recovers(run(k, remaining))
    ensures TriedAs(run, k, [remaining] + later, last)
    ensures Contributed(run, k, [remaining] + later) == Adds(k, run(k, remaining)) + Contributed(run, k + 1, later)
  {
    assert ([remaining] + later)[1..] == later;
  }

  lemma EndedLater(run: Candidates, k: nat, count: nat, remaining: seq<Domain>, later: seq<seq<Domain>>,
                   last: seq<Domain>, before: seq<ProviderResult>, d: Dispatch)
    requires EndedAs(run, k + 1, count, later, last, before + Adds(k, run(k, remaining)), d)
    requires Contributed(run, k, [remaining] + later) == Adds(k, run(k, remaining)) + Contributed(run, k + 1, later)
    ensures EndedAs(run, k, count, [remaining] + later, last, before, d)
  {
    var lefts := [remaining] + later;
    assert later != [] ==> lefts[|lefts| - 1] == later[|later| - 1];
    AppendAssociates(before, Adds(k, run(k, remaining)), Contributed(run, k + 1, later));
  }

  lemma EndedHere(run: Candidates, k: nat, count: nat, remaining: seq<Domain>, before: seq<ProviderResult>)
    requires k < count && remaining != [] && !Recovers(run(k, remaining))
    ensures var e := run(k, remaining);
            var last := if e.Whole? then [] else if e.Partial? then e.failed else remaining;
            EndedAs(run, k, count, [remaining], last, before, Fallback(run, k, count, remaining, before))
  {
    var e := run(k, remaining);
    assert [remaining][1..] == [];
    assert Contributed(run, k, [remaining]) == Adds(k, e) + [];
    assert Adds(k, e) + [] == Adds(k, e) && before + [] == before;
  }

  /** The fallback, try by try: what each candidate was given, in which order, and why it ended. */
  lemma {:induction false} FallbackTries(run: Candidates, k: nat, count: nat, remaining: seq<Domain>,
                                         results: seq<ProviderResult>)
    returns (lefts: seq<seq<Domain>>, last: seq<Domain>)
    ensures (if lefts == [] then last else lefts[0]) == remaining && (lefts == [] || k + |lefts| <= count)
    ensures TriedAs(run, k, lefts, last)
    ensures EndedAs(run, k, count, lefts, last, results, Fallback(run, k, count, remaining, results))
    decreases count - k
  {
    lefts, last := [], remaining;
    if k >= count || remaining == [] {
      assert results + [] == results;
    } else {
      var e := run(k, remaining);
      var d := Fallback(run, k, count, remaining, results);
      last := if e.Whole? then [] else if e.Partial? then e.failed else remaining;
      lefts := [remaining];
      if Recovers(e) {
        assert results + [] == results;
        var later: seq<seq<Domain>>;
        later, last := FallbackTries(run, k + 1, count, last, results + Adds(k, e));
        TriedFirst(run, k, remaining, later, last);
        EndedLater(run, k, count, remaining, later, last, results, d);
        lefts := [remaining] + later;
      } else {
        EndedHere(run, k, count, remaining, results);
      }
    }
  }

  /** Whenever fallback returns, the domains of its results in try order followed by the
      remaining ones are the input. An error that escapes is never one another provider could
      have been tried after. */
  lemma {:induction false} FallbackPartitions(run: Candidates, k: nat, count: nat, remaining: seq<Domain>,
                                              results: seq<ProviderResult>)
    requires Accountable(run)
    ensures var d := Fallback(run, k, count, remaining, results);
            && (d.Returned? ==> Classified(d.results) + d.remaining == Classified(results) + remaining)
            && (d.Threw? ==> d.fault.PermanentFault?)
    decreases count - k
  {
    if k < count && remaining != [] {
      assert Accounts(remaining, run(k, remaining));
      match run(k, remaining) {
        case Whole(cs, _) =>
          ClassifiedAppend(results, ProviderResult(k, cs));
          FallbackPartitions(run, k + 1, count, [], results + [ProviderResult(k, cs)]);
          assert Classified(results) + Domains(cs) + [] == Classified(results) + remaining;
        case Partial(cs, _, failed, fault) =>
          var more := results + [ProviderResult(k, cs)];
          ClassifiedAppend(results, ProviderResult(k, cs));
          assert Classified(more) + failed == Classified(results) + remaining;
          if Eligible(fault) {
            FallbackPartitions(run, k + 1, count, failed, more);
          }
        case Raised(fault) =>
          if Eligible(fault) {
            FallbackPartitions(run, k + 1, count, remaining, results);
          }
        case Aborted =>
      }
    }
  }

  lemma DistinctParts(whole: seq<Domain>, a: seq<Domain>, b: seq<Domain>)
    requires Distinct(whole) && whole == a + b
    ensures Distinct(a) && Distinct(b)
    ensures forall x :: x in a ==> x !in b
    ensures forall x :: x in whole <==> x in a || x in b
  {
    assert forall i :: 0 <= i < |a| ==> whole[i] == a[i];
    assert forall j :: 0 <= j < |b| ==> whole[|a| + j] == b[j];
  }

  /** No domain is classified twice, and none that was classified is left over. */
  lemma NothingClassifiedTwice(run: Candidates, count: nat, domains: seq<Domain>)
    requires Accountable(run) && Distinct(domains)
    ensures var d := Fallback(run, 0, count, domains, []);
            d.Returned? ==> Distinct(Classified(d.results)) && Distinct(d.remaining)
                            && (forall x :: x in domains <==> x in Classified(d.results) || x in d.remaining)
                            && (forall x :: x in Classified(d.results) ==> x !in d.remaining)
  {
    FallbackPartitions(run, 0, count, domains, []);
    var d := Fallback(run, 0, count, domains, []);
    assert Classified([]) + domains == domains;
    if d.Returned? {
      DistinctParts(domains, Classified(d.results), d.remaining);
    }
  }

  // ----- Distribution -----

  datatype Member = Member(id: string, weight: int)

  /** One slot per unit of weight, at least one per member. */
  function Slots(members: seq<Member>): seq<string> {
    if members == [] then []
    else seq(MaxInt(1, members[0].weight), _ => members[0].id) + Slots(members[1..])
  }

  lemma {:induction false} SlotsExist(members: seq<Member>)
    ensures |Slots(members)| >= |members|
    ensures forall id :: id in Slots(members) <==> exists i :: 0 <= i < |members| && members[i].id == id
  {
    if members != [] {
      var head := seq(MaxInt(1, members[0].weight), _ => members[0].id);
      SlotsExist(members[1..]);
      assert head[0] == members[0].id;
      forall id | id in Slots(members) ensures exists i :: 0 <= i < |members| && members[i].id == id {
        if id !in head {
          var i :| 0 <= i < |members[1..]| && members[1..][i].id == id;
          assert members[i + 1].id == id;
        }
      }
      forall i | 0 <= i < |members| ensures members[i].id in Slots(members) {
        if i > 0 {
          assert members[1..][i - 1].id in Slots(members[1..]);
        } else {
          assert head[0] in Slots(members);
        }
      }
    }
  }

  /** The provider a domain's hash selects. */
  function Pick(members: seq<Member>, hash: Domain -> nat, d: Domain): string
    requires members != []
  {
    SlotsExist(members);
    var slots := Slots(members);
    slots[hash(d) % |slots|]
  }

  /** The weights of the first i members, each at least one. */
  function WeightBefore(members: seq<Member>, i: nat): nat
    requires i <= |members|
  {
    if i == 0 then 0 else WeightBefore(members, i - 1) + MaxInt(1, members[i - 1].weight)
  }

  predicate Owns(members: seq<Member>, i: nat, k: int) {
    i < |members| && WeightBefore(members, i) <= k < WeightBefore(members, i + 1)
  }

  lemma {:induction false} WeightOfTail(members: seq<Member>, i: nat)
    requires 0 < i <= |members|
    ensures WeightBefore(members, i) == MaxInt(1, members[0].weight) + WeightBefore(members[1..], i - 1)
  {
    if i > 1 {
      WeightOfTail(members, i - 1);
    }
  }

  lemma {:induction false} SlotOwner(members: seq<Member>, k: nat) returns (i: nat)
    requires k < |Slots(members)|
    ensures Owns(members, i, k) && Slots(members)[k] == members[i].id
  {
    var first := MaxInt(1, members[0].weight);
    WeightOfTail(members, 1);
    if k < first {
      i := 0;
    } else {
      var j := SlotOwner(members[1..], k - first);
      i := j + 1;
      WeightOfTail(members, j + 1);
      WeightOfTail(members, j + 2);
    }
  }

  lemma {:induction false} SlotCount(members: seq<Member>)
    ensures |Slots(members)| == WeightBefore(members, |members|)
  {
    if members != [] {
      SlotCount(members[1..]);
      WeightOfTail(members, |members|);
    }
  }

  lemma {:induction false} WeightsGrow(members: seq<Member>, i: nat, j: nat)
    requires i <= j <= |members|
    ensures WeightBefore(members, i) <= WeightBefore(members, j)
  {
    if i < j {
      WeightsGrow(members, i, j - 1);
    }
  }

  /** Among members with different ids, a member gets exactly the hash values, modulo the total
      weight, of its own stretch, which is as long as its weight. */
  lemma PickIff(members: seq<Member>, hash: Domain -> nat, d: Domain, i: nat)
    requires i < |members| && forall j :: 0 <= j < |members| && j != i ==> members[j].id != members[i].id
    ensures WeightBefore(members, |members|) > 0
    ensures Pick(members, hash, d) == members[i].id <==>
            Owns(members, i, hash(d) % WeightBefore(members, |members|))
  {
    SlotsExist(members);
    SlotCount(members);
    var k := hash(d) % |Slots(members)|;
    var j := SlotOwner(members, k);
    if Owns(members, i, k) && i != j {
      WeightsGrow(members, if i < j then i + 1 else j + 1, if i < j then j else i);
    }
  }

  function AssignedTo(domains: seq<Domain>, pick: Domain -> string, id: string): seq<Domain> {
    if domains == [] then []
    else if pick(domains[0]) == id then [domains[0]] + AssignedTo(domains[1..], pick, id)
    else AssignedTo(domains[1..], pick, id)
  }

  lemma {:induction false} AssignedAppend(a: seq<Domain>, d: Domain, pick: Domain -> string, id: string)
    ensures AssignedTo(a + [d], pick, id) == AssignedTo(a, pick, id) + if pick(d) == id then [d] else []
  {
    if a == [] {
      assert a + [d] == [d];
      assert AssignedTo([d][1..], pick, id) == [];
    } else {
      var rest := a[1..];
      var last := if pick(d) == id then [d] else [];
      assert (a + [d])[1..] == rest + [d];
      AssignedAppend(rest, d, pick, id);
      AppendAssociates([a[0]], AssignedTo(rest, pick, id), last);
    }
  }

  lemma AppendAssociates<T>(a: seq<T>, b: seq<T>, c: seq<T>)
    ensures a + (b + c) == a + b + c
  {
  }

  function Given(assignments: map<string, seq<Domain>>, id: string): seq<Domain> {
    if id in assignments then assignments[id] else []
  }

  ghost predicate Assigned(assignments: map<string, seq<Domain>>, done: seq<Domain>, pick: Domain -> string) {
    forall id :: Given(assignments, id) == AssignedTo(done, pick, id)
  }

  lemma AssignedStep(assignments: map<string, seq<Domain>>, done: seq<Domain>, d: Domain, pick: Domain -> string)
    requires Assigned(assignments, done, pick)
    ensures Assigned(assignments[pick(d) := Given(assignments, pick(d)) + [d]], done + [d], pick)
  {
    var next := assignments[pick(d) := Given(assignments, pick(d)) + [d]];
    forall id ensures Given(next, id) == AssignedTo(done + [d], pick, id) {
      AssignedAppend(done, d, pick, id);
      assert Given(assignments, id) == AssignedTo(done, pick, id);
    }
  }

  /** The dictionary's keys, in the order of first use. */
  ghost predicate KeyOrder(order: seq<string>, assignments: map<string, seq<Domain>>) {
    && Distinct(order) && (forall id :: id in order <==> id in assignments)
    && forall id :: id in assignments ==> assignments[id] != []
  }

  lemma KeyOrderStep(order: seq<string>, assignments: map<string, seq<Domain>>, id: string, given: seq<Domain>)
    requires KeyOrder(order, assignments) && given != []
    ensures KeyOrder(if id in assignments then order else order + [id], assignments[id := given])
  {
    if id !in assignments {
      forall i, j | 0 <= i < j < |order + [id]| ensures (order + [id])[i] != (order + [id])[j] {
        assert order[i] in order;
      }
    }
  }

  predicate Covers(assignments: map<string, seq<Domain>>, done: seq<Domain>, pick: Domain -> string) {
    forall d :: d in done ==> pick(d) in assignments
  }

  lemma {:induction false} AssignedContains(domains: seq<Domain>, pick: Domain -> string, d: Domain)
    requires d in domains
    ensures d in AssignedTo(domains, pick, pick(d))
  {
    if domains[0] != d {
      AssignedContains(domains[1..], pick, d);
    }
  }

  lemma AssignedCovers(assignments: map<string, seq<Domain>>, domains: seq<Domain>, pick: Domain -> string)
    requires Assigned(assignments, domains, pick)
    ensures Covers(assignments, domains, pick)
  {
    forall d | d in domains ensures pick(d) in assignments {
      AssignedContains(domains, pick, d);
      assert Given(assignments, pick(d)) == AssignedTo(domains, pick, pick(d));
    }
  }

  /** Append to the list of the domain's provider, creating it on first use. */
  method AssignNext(assignments: map<string, seq<Domain>>, order: seq<string>, d: Domain, pick: Domain -> string,
                    ghost done: seq<Domain>)
    returns (next: map<string, seq<Domain>>, nextOrder: seq<string>)
    requires KeyOrder(order, assignments) && Assigned(assignments, done, pick)
    ensures KeyOrder(nextOrder, next) && Assigned(next, done + [d], pick)
  {
    var id := pick(d);
    var given := Given(assignments, id) + [d];
    KeyOrderStep(order, assignments, id, given);
    AssignedStep(assignments, done, d, pick);
    next := assignments[id := given];
    nextOrder := if id in assignments then order else order + [id];
  }

  method Assign(domains: seq<Domain>, pick: Domain -> string)
    returns (assignments: map<string, seq<Domain>>, order: seq<string>)
    ensures KeyOrder(order, assignments) && Covers(assignments, domains, pick)
    ensures Assigned(assignments, domains, pick)
  {
    assignments, order := map[], [];
    for n := 0 to |domains|
      invariant KeyOrder(order, assignments) && Assigned(assignments, domains[..n], pick)
    {
      assignments, order := AssignNext(assignments, order, domains[n], pick, domains[..n]);
      assert domains[..n + 1] == domains[..n] + [domains[n]];
    }
    assert domains[..|domains|] == domains;
    AssignedCovers(assignments, domains, pick);
  }

  function Results(e: Execution): seq<Domain> {
    match e
    case Whole(cs, _) => Domains(cs)
    case Partial(cs, _, _, _) => Domains(cs)
    case _ => []
  }

  function Lost(e: Execution, given: seq<Domain>): seq<Domain> {
    match e
    case Whole(_, _) => []
    case Partial(_, _, failed, _) => failed
    case _ => given
  }

  /** What the distribution returns; a cancelled call cancels all of it. */
  datatype Distribution = Collected(ok: seq<Domain>, lost: seq<Domain>) | Revoked

  function Joined(ok: seq<Domain>, lost: seq<Domain>, rest: Distribution): Distribution {
    match rest
    case Collected(a, b) => Collected(ok + a, lost + b)
    case Revoked => Revoked
  }

  /** Everything the providers of the list report. */
  function Reported(order: seq<string>, domains: seq<Domain>, pick: Domain -> string,
                    run: (string, seq<Domain>) -> Execution): Distribution
  {
    if order == [] then Collected([], [])
    else
      var given := AssignedTo(domains, pick, order[0]);
      var e := run(order[0], given);
      if e.Aborted? then Revoked
      else Joined(Results(e), Lost(e, given), Reported(order[1..], domains, pick, run))
  }

  /** The provider's call on its share is cancelled. */
  predicate CancelledAt(id: string, domains: seq<Domain>, pick: Domain -> string,
                        run: (string, seq<Domain>) -> Execution)
  {
    run(id, AssignedTo(domains, pick, id)).Aborted?
  }

  function KeepPicked(domains: seq<Domain>, pick: Domain -> string, order: seq<string>): seq<Domain> {
    if domains == [] then []
    else (if pick(domains[0]) in order then [domains[0]] else []) + KeepPicked(domains[1..], pick, order)
  }

  lemma {:induction false} PickedSplits(domains: seq<Domain>, pick: Domain -> string, id: string, rest: seq<string>)
    requires id !in rest
    ensures multiset(KeepPicked(domains, pick, [id] + rest)) ==
            multiset(AssignedTo(domains, pick, id)) + multiset(KeepPicked(domains, pick, rest))
  {
    if domains != [] {
      PickedSplits(domains[1..], pick, id, rest);
      var d := domains[0];
      assert d == domains[0] && (pick(d) in [id] + rest <==> pick(d) == id || pick(d) in rest);
    }
  }

  lemma {:induction false} KeepAll(domains: seq<Domain>, pick: Domain -> string, order: seq<string>)
    requires forall d :: d in domains ==> pick(d) in order
    ensures KeepPicked(domains, pick, order) == domains
  {
    if domains != [] {
      assert domains == [domains[0]] + domains[1..];
      KeepAll(domains[1..], pick, order);
    }
  }

  lemma {:induction false} ReportedAccounts(order: seq<string>, domains: seq<Domain>, pick: Domain -> string,
                                            run: (string, seq<Domain>) -> Execution)
    requires Distinct(order)
    requires forall id, given {:trigger run(id, given)} :: Accounts(given, run(id, given))
    ensures match Reported(order, domains, pick, run)
            case Collected(ok, lost) =>
              && multiset(ok) + multiset(lost) == multiset(KeepPicked(domains, pick, order))
              && forall id :: id in order ==> !CancelledAt(id, domains, pick, run)
            case Revoked => exists id :: id in order && CancelledAt(id, domains, pick, run)
  {
    if order == [] {
      KeepNone(domains, pick);
    } else {
      var id, rest := order[0], order[1..];
      assert order == [id] + rest;
      var given := AssignedTo(domains, pick, id);
      var e := run(id, given);
      assert Accounts(given, e);
      ReportedAccounts(rest, domains, pick, run);
      PickedSplits(domains, pick, id, rest);
      if e.Aborted? {
        assert id in order && CancelledAt(id, domains, pick, run);
      } else {
        assert Results(e) + Lost(e, given) == given;
      }
    }
  }

  lemma {:induction false} AssignedOnly(domains: seq<Domain>, pick: Domain -> string, id: string)
    ensures forall d :: d in AssignedTo(domains, pick, id) <==> d in domains && pick(d) == id
  {
    if domains != [] {
      AssignedOnly(domains[1..], pick, id);
    }
  }

  /** The execution classified the domain. */
  predicate Classifies(e: Execution, d: Domain) { (e.Whole? || e.Partial?) && d in Domains(e.results) }

  /** The execution ended with an error that covers the domain. */
  predicate Misses(e: Execution, d: Domain) { e.Raised? || (e.Partial? && d in e.failed) }

  /** Each domain is reported by its own provider: under what was classified if that execution
      classified it, under what was lost if its error covers it. */
  lemma {:induction false} ReportedByPick(order: seq<string>, domains: seq<Domain>, pick: Domain -> string,
                                          run: (string, seq<Domain>) -> Execution, d: Domain)
    requires Distinct(order)
    requires forall id, given {:trigger run(id, given)} :: Accounts(given, run(id, given))
    ensures var e := run(pick(d), AssignedTo(domains, pick, pick(d)));
            match Reported(order, domains, pick, run)
            case Collected(ok, lost) =>
              && (d in ok <==> d in domains && pick(d) in order && Classifies(e, d))
              && (d in lost <==> d in domains && pick(d) in order && Misses(e, d))
            case Revoked => true
  {
    if order != [] {
      var id, rest := order[0], order[1..];
      assert order == [id] + rest;
      var given := AssignedTo(domains, pick, id);
      AssignedOnly(domains, pick, id);
      ReportedByPick(rest, domains, pick, run, d);
      PartsOfGiven(given, run(id, given), d);
    }
  }

  lemma PartsOfGiven(given: seq<Domain>, e: Execution, d: Domain)
    requires Accounts(given, e)
    ensures d in Results(e) <==> Classifies(e, d)
    ensures !e.Aborted? ==> (d in Lost(e, given) <==> d in given && Misses(e, d))
    ensures Classifies(e, d) ==> d in given
  {
    if e.Partial? {
      assert d in given <==> d in Domains(e.results) + e.failed;
    }
  }

  lemma {:induction false} KeepNone(domains: seq<Domain>, pick: Domain -> string)
    ensures KeepPicked(domains, pick, []) == []
  {
    if domains != [] {
      KeepNone(domains[1..], pick);
    }
  }

  /** Distribution accounts for every domain exactly once: unless a call is cancelled, the results
      of all providers together with what their failures cover are the input as a multiset. */
  lemma DistributePartitions(order: seq<string>, domains: seq<Domain>, members: seq<Member>, hash: Domain -> nat,
                             run: (string, seq<Domain>) -> Execution)
    requires members != [] && Distinct(order)
    requires forall d :: d in domains ==> Pick(members, hash, d) in order
    requires forall id, given {:trigger run(id, given)} :: Accounts(given, run(id, given))
    ensures var pick := d => Pick(members, hash, d);
            match Reported(order, domains, pick, run)
            case Collected(ok, lost) =>
              && multiset(ok) + multiset(lost) == multiset(domains)
              && forall id :: id in order ==> !CancelledAt(id, domains, pick, run)
            case Revoked => exists id :: id in order && CancelledAt(id, domains, pick, run)
  {
    var pick := d => Pick(members, hash, d);
    ReportedAccounts(order, domains, pick, run);
    KeepAll(domains, pick, order);
  }

  /** The whole distribution: assign every domain, run each provider on its share, and collect
      what was classified and what was lost. */
  method DispatchDistribute(members: seq<Member>, domains: seq<Domain>, hash: Domain -> nat,
                            run: (string, seq<Domain>) -> Execution) returns (r: Distribution)
    requires members != []
    requires forall id, given {:trigger run(id, given)} :: Accounts(given, run(id, given))
    ensures r.Collected? ==>
              && multiset(r.ok) + multiset(r.lost) == multiset(domains)
              && forall d :: d in domains ==>
                   var id := Pick(members, hash, d);
                   var e := run(id, AssignedTo(domains, x => Pick(members, hash, x), id));
                   (d in r.ok <==> Classifies(e, d)) && (d in r.lost <==> Misses(e, d))
    ensures r.Revoked? <==>
            exists d :: d in domains && CancelledAt(Pick(members, hash, d), domains, x => Pick(members, hash, x), run)
  {
    var pick := d => Pick(members, hash, d);
    var assignments, order := Assign(domains, pick);
    r := CollectReports(assignments, order, domains, pick, run);
    DistributePartitions(order, domains, members, hash, run);
    forall d | d in domains && r.Collected?
      ensures var e := run(pick(d), AssignedTo(domains, pick, pick(d)));
              (d in r.ok <==> Classifies(e, d)) && (d in r.lost <==> Misses(e, d))
    {
      ReportedByPick(order, domains, pick, run, d);
    }
    if r.Revoked? {
      var id :| id in order && CancelledAt(id, domains, pick, run);
      var d := PickedBy(domains, pick, id);
    }
  }

  lemma {:induction false} PickedBy(domains: seq<Domain>, pick: Domain -> string, id: string) returns (d: Domain)
    requires AssignedTo(domains, pick, id) != []
    ensures d in domains && pick(d) == id
  {
    if pick(domains[0]) == id {
      d := domains[0];
    } else {
      d := PickedBy(domains[1..], pick, id);
    }
  }

  method CollectReports(assignments: map<string, seq<Domain>>, order: seq<string>, domains: seq<Domain>,
                        pick: Domain -> string, run: (string, seq<Domain>) -> Execution) returns (r: Distribution)
    requires KeyOrder(order, assignments) && Assigned(assignments, domains, pick)
    ensures r == Reported(order, domains, pick, run)
  {
    var ok, lost := [], [];
    ghost var whole := Reported(order, domains, pick, run);
    assert whole.Collected? ==> [] + whole.ok == whole.ok && [] + whole.lost == whole.lost;
    for i := 0 to |order|
      invariant whole == Joined(ok, lost, Reported(order[i..], domains, pick, run))
    {
      var id := order[i];
      var given := assignments[id];
      assert order[i..][1..] == order[i + 1..];
      assert given == Given(assignments, id) == AssignedTo(domains, pick, id);
      var e := run(id, given);
      if e.Aborted? {
        return Revoked;
      }
      JoinedTwice(ok, lost, Results(e), Lost(e, given), Reported(order[i + 1..], domains, pick, run));
      ok, lost := ok + Results(e), lost + Lost(e, given);
    }
    assert ok + [] == ok && lost + [] == lost;
    r := Collected(ok, lost);
  }

  lemma JoinedTwice(ok: seq<Domain>, lost: seq<Domain>, more: seq<Domain>, gone: seq<Domain>, rest: Distribution)
    ensures Joined(ok, lost, Joined(more, gone, rest)) == Joined(ok + more, lost + gone, rest)
  {
    if rest.Collected? {
      AppendAssociates(ok, more, rest.ok);
      AppendAssociates(lost, gone, rest.lost);
    }
  }
}
