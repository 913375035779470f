/** Classifications, and the contract of one provider call: which responses are accepted, and in
    which order their results come back. */
module Analysis {
  import opened Basics
  import opened Batching

  datatype Policy = Allow | Deny | ManualReview | UnknownPolicy

  datatype ServiceRole = Core | Shared | OptionalRole | UnknownRole

  datatype Classification = Classification(
    domain: Domain, policy: Policy, category: string, tags: seq<string>, service: string, role: ServiceRole,
    security: int, breakage: int, confidence: real, needsReview: bool, reviewReason: string)

  function Domains(cs: seq<Classification>): seq<Domain> {
    if cs == [] then [] else [cs[0].domain] + Domains(cs[1..])
  }

  lemma {:induction false} DomainsAppend(a: seq<Classification>, b: seq<Classification>)
    ensures Domains(a + b) == Domains(a) + Domains(b)
  {
    if a == [] {
      assert a + b == b;
    } else {
      assert (a + b)[1..] == a[1..] + b;
      DomainsAppend(a[1..], b);
    }
  }

  lemma {:induction false} DomainsAt(cs: seq<Classification>)
    ensures |Domains(cs)| == |cs| && forall i :: 0 <= i < |cs| ==> Domains(cs)[i] == cs[i].domain
  {
    if cs != [] {
      DomainsAt(cs[1..]);
    }
  }

  predicate Distinct<T(==)>(s: seq<T>) {
    forall i, j :: 0 <= i < j < |s| ==> s[i] != s[j]
  }

  // ----- Parsing a batch response -----

  /** One entry of the response's result list; an object may leave its domain blank. */
  datatype Item = NotAnObject | Object(domain: Domain, fields: Classification)

  datatype ParseResult =
    | Parsed(classifications: seq<Classification>)
    | NotObjectError
    | UnexpectedDomain(domain: Domain)
    | DuplicateDomain(domain: Domain)
    | OmittedDomains(domains: seq<Domain>)

  /** A blank domain is taken for the expected one when only one is expected. */
  function Claimed(expected: seq<Domain>, item: Item): Domain
    requires item.Object?
  {
    if |expected| == 1 && item.domain == "" then expected[0] else item.domain
  }

  predicate Claims(expected: seq<Domain>, item: Item, d: Domain) {
    item.Object? && Claimed(expected, item) == d
  }

  /** One result per expected domain, and nothing else. */
  ghost predicate Complete(expected: seq<Domain>, items: seq<Item>) {
    && (forall i :: 0 <= i < |items| ==> items[i].Object? && Claimed(expected, items[i]) in expected)
    && (forall i, j, d :: 0 <= i < j < |items| && Claims(expected, items[i], d) ==> !Claims(expected, items[j], d))
    && (forall d :: d in expected ==> exists i :: 0 <= i < |items| && Claims(expected, items[i], d))
  }

  ghost predicate FromItem(expected: seq<Domain>, items: seq<Item>, d: Domain, c: Classification) {
    exists i :: 0 <= i < |items| && Claims(expected, items[i], d) && c == items[i].fields.(domain := d)
  }

  /** The k-th classification is the one some item gave for the k-th expected domain. */
  ghost predicate Ordered(expected: seq<Domain>, items: seq<Item>, cs: seq<Classification>) {
    |cs| == |expected| && forall k :: 0 <= k < |expected| ==> FromItem(expected, items, expected[k], cs[k])
  }

  function InOrder(expected: seq<Domain>, parsed: map<Domain, Classification>): (cs: seq<Classification>)
    requires forall d :: d in expected ==> d in parsed
    ensures |cs| == |expected| && forall k :: 0 <= k < |cs| ==> cs[k] == parsed[expected[k]]
  {
    seq(|expected|, k requires 0 <= k < |expected| => parsed[expected[k]])
  }

  /** The first n items are parsed, each under its own domain. */
  ghost predicate Indexed(expected: seq<Domain>, items: seq<Item>, n: nat, parsed: map<Domain, Classification>,
                          at: map<Domain, nat>)
    requires n <= |items|
  {
    && parsed.Keys == at.Keys
    && (forall i :: 0 <= i < n ==> items[i].Object? && Claimed(expected, items[i]) in expected
                                   && Claimed(expected, items[i]) in at && at[Claimed(expected, items[i])] == i)
    && (forall d :: d in at ==> at[d] < n && Claims(expected, items[at[d]], d)
                                && parsed[d] == items[at[d]].fields.(domain := d))
  }

  lemma IndexedStep(expected: seq<Domain>, items: seq<Item>, n: nat, parsed: map<Domain, Classification>,
                    at: map<Domain, nat>, d: Domain)
    requires n < |items| && Indexed(expected, items, n, parsed, at)
    requires d in expected && d !in parsed && Claims(expected, items[n], d)
    ensures Indexed(expected, items, n + 1, parsed[d := items[n].fields.(domain := d)], at[d := n])
  {
  }

  lemma StrangerIsIncomplete(expected: seq<Domain>, items: seq<Item>, n: nat)
    requires n < |items| && (items[n].NotAnObject? || Claimed(expected, items[n]) !in expected)
    ensures !Complete(expected, items)
  {
  }

  lemma AtMostOnce(expected: seq<Domain>, items: seq<Item>, parsed: map<Domain, Classification>, at: map<Domain, nat>,
                   i: nat, j: nat, d: Domain)
    requires Indexed(expected, items, |items|, parsed, at) && i < |items| && j < |items|
    requires Claims(expected, items[i], d) && Claims(expected, items[j], d)
    ensures i == j
  {
    assert at[Claimed(expected, items[i])] == i;
  }

  lemma IndexedIsComplete(expected: seq<Domain>, items: seq<Item>, parsed: map<Domain, Classification>,
                          at: map<Domain, nat>)
    requires Indexed(expected, items, |items|, parsed, at) && forall d :: d in expected ==> d in parsed
    ensures Complete(expected, items)
  {
    forall i, j, d | 0 <= i < j < |items| && Claims(expected, items[i], d) ensures !Claims(expected, items[j], d) {
      if Claims(expected, items[j], d) {
        AtMostOnce(expected, items, parsed, at, i, j, d);
      }
    }
    forall d | d in expected ensures exists i :: 0 <= i < |items| && Claims(expected, items[i], d) {
      assert Claims(expected, items[at[d]], d);
    }
  }

  lemma IndexedIsOrdered(expected: seq<Domain>, items: seq<Item>, parsed: map<Domain, Classification>,
                         at: map<Domain, nat>)
    requires Indexed(expected, items, |items|, parsed, at) && forall d :: d in expected ==> d in parsed
    ensures Ordered(expected, items, InOrder(expected, parsed))
  {
    var cs := InOrder(expected, parsed);
    forall k | 0 <= k < |expected| ensures FromItem(expected, items, expected[k], cs[k]) {
      assert expected[k] in expected;
      assert Claims(expected, items[at[expected[k]]], expected[k]);
    }
  }

  lemma OmissionIsIncomplete(expected: seq<Domain>, items: seq<Item>, parsed: map<Domain, Classification>,
                             at: map<Domain, nat>, d: Domain)
    requires Indexed(expected, items, |items|, parsed, at) && d in expected && d !in parsed
    ensures !Complete(expected, items)
  {
    forall i | 0 <= i < |items| ensures !Claims(expected, items[i], d) {
      assert Claimed(expected, items[i]) in at;
    }
  }

  lemma DuplicateIsIncomplete(expected: seq<Domain>, items: seq<Item>, i: nat, j: nat)
    requires i < j < |items| && items[i].Object? && items[j].Object?
    requires Claimed(expected, items[i]) == Claimed(expected, items[j])
    ensures !Complete(expected, items)
  {
    var d := Claimed(expected, items[j]);
    assert Claims(expected, items[i], d) && Claims(expected, items[j], d);
  }

  /** What a refusal says is true of the response. */
  ghost predicate TrueOf(expected: seq<Domain>, items: seq<Item>, r: ParseResult) {
    match r
    case Parsed(_) => Complete(expected, items)
    case NotObjectError => exists i :: 0 <= i < |items| && items[i].NotAnObject?
    case UnexpectedDomain(d) => d !in expected && exists i :: 0 <= i < |items| && Claims(expected, items[i], d)
    case DuplicateDomain(d) =>
      exists i, j :: 0 <= i < j < |items| && Claims(expected, items[i], d) && Claims(expected, items[j], d)
    case OmittedDomains(ds) =>
      ds != [] && forall d :: d in ds <==>
                   d in expected && forall i :: 0 <= i < |items| ==> !Claims(expected, items[i], d)
  }

  /** An item without a domain is accepted for the only expected one, and otherwise never. */
  lemma BlankDomains(expected: seq<Domain>, items: seq<Item>, i: nat, d: Domain, fields: Classification)
    requires i < |items| && items[i].Object? && items[i].domain == "" && "" !in expected
    ensures Complete(expected, items) ==> |expected| == 1
    ensures Complete([d], [Object("", fields)])
  {
    assert Claims([d], [Object("", fields)][0], d);
  }

  /** The loop over the response: the first item that cannot be accepted ends it. */
  method ParseItems(items: seq<Item>, expected: seq<Domain>)
    returns (failure: Option<ParseResult>, parsed: map<Domain, Classification>, ghost at: map<Domain, nat>)
    ensures failure.Some? ==> !Complete(expected, items) && !failure.value.Parsed?
    ensures failure.Some? ==> TrueOf(expected, items, failure.value)
    ensures failure.None? ==> Indexed(expected, items, |items|, parsed, at)
  {
    parsed, at := map[], map[];
    for n := 0 to |items|
      invariant Indexed(expected, items, n, parsed, at)
    {
      if items[n].NotAnObject? {
        StrangerIsIncomplete(expected, items, n);
        return Some(NotObjectError), parsed, at;
      }
      var domain := Claimed(expected, items[n]);
      assert Claims(expected, items[n], domain);
      if domain !in expected {
        StrangerIsIncomplete(expected, items, n);
        return Some(UnexpectedDomain(domain)), parsed, at;
      }
      if domain in parsed {
        DuplicateIsIncomplete(expected, items, at[domain], n);
        return Some(DuplicateDomain(domain)), parsed, at;
      }
      IndexedStep(expected, items, n, parsed, at, domain);
      parsed, at := parsed[domain := items[n].fields.(domain := domain)], at[domain := n];
    }
    failure := None;
  }

  method ParseBatch(items: seq<Item>, expected: seq<Domain>) returns (r: ParseResult)
    ensures r.Parsed? <==> Complete(expected, items)
    ensures TrueOf(expected, items, r)
    ensures r.Parsed? ==> Ordered(expected, items, r.classifications) && Domains(r.classifications) == expected
  {
    var failure, parsed, at := ParseItems(items, expected);
    if failure.Some? {
      return failure.value;
    }
    var missing := Missing(expected, parsed);
    if missing != [] {
      assert missing[0] in missing;
      OmissionIsIncomplete(expected, items, parsed, at, missing[0]);
      OmittedAreMissing(expected, items, parsed, at, missing);
      return OmittedDomains(missing);
    }
    IndexedIsComplete(expected, items, parsed, at);
    IndexedIsOrdered(expected, items, parsed, at);
    r := Parsed(InOrder(expected, parsed));
    DomainsOf(expected, parsed);
  }

  lemma OmittedAreMissing(expected: seq<Domain>, items: seq<Item>, parsed: map<Domain, Classification>,
                          at: map<Domain, nat>, missing: seq<Domain>)
    requires Indexed(expected, items, |items|, parsed, at) && missing != []
    requires forall d :: d in missing <==> d in expected && d !in parsed
    ensures TrueOf(expected, items, OmittedDomains(missing))
  {
    forall d | d in expected
      ensures d in parsed <==> exists i :: 0 <= i < |items| && Claims(expected, items[i], d)
    {
      if d in parsed {
        assert Claims(expected, items[at[d]], d);
      }
      if i :| 0 <= i < |items| && Claims(expected, items[i], d) {
        assert Claimed(expected, items[i]) in at;
      }
    }
  }

  lemma DomainsOf(expected: seq<Domain>, parsed: map<Domain, Classification>)
    requires forall d :: d in expected ==> d in parsed
    requires forall d :: d in expected ==> parsed[d].domain == d
    ensures Domains(InOrder(expected, parsed)) == expected
  {
    DomainsAt(InOrder(expected, parsed));
  }

  function Missing(expected: seq<Domain>, parsed: map<Domain, Classification>): (missing: seq<Domain>)
    ensures forall d :: d in missing <==> d in expected && d !in parsed
  {
    if expected == [] then []
    else (if expected[0] in parsed then [] else [expected[0]]) + Missing(expected[1..], parsed)
  }

  // ----- Usage -----

  datatype Usage = Usage(input: int, output: int, total: int, units: real)

  const NO_USAGE := Usage(0, 0, 0, 0.0)

  function AddUsage(a: Usage, b: Usage): Usage {
    Usage(a.input + b.input, a.output + b.output, a.total + b.total, a.units + b.units)
  }
}
