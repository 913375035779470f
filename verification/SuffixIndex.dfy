/** The catalog index: looking a domain up by its label suffixes finds exactly what a linear
    scan of the list would, and the cached index is always the one a rebuild would give. */
module SuffixIndex {
  import opened Basics

  /** A domain name as its labels; a name has at least one. */
  type Labels = seq<string>

  /** A list entry: the domain of an accepted rule and its line number, counted from 1. */
  datatype Item = Item(domain: Labels, line: nat)

  type Index = map<Labels, seq<Item>>

  // ----- Building -----

  /** The entries of the first n lines that list the domain; None is a line without a rule. */
  function LinesOf(lines: seq<Option<Labels>>, n: nat, d: Labels): seq<Item>
    requires n <= |lines|
  {
    if n == 0 then []
    else LinesOf(lines, n - 1, d) + if lines[n - 1] == Some(d) then [Item(d, n)] else []
  }

  function Entries(index: Index, d: Labels): seq<Item> { if d in index then index[d] else [] }

  ghost predicate IndexOf(index: Index, lines: seq<Option<Labels>>, n: nat)
    requires n <= |lines|
  {
    forall d :: Entries(index, d) == LinesOf(lines, n, d)
  }

  function AddEntry(index: Index, line: Option<Labels>, number: nat): Index {
    if line.None? then index else index[line.value := Entries(index, line.value) + [Item(line.value, number)]]
  }

  lemma AddEntryStep(index: Index, lines: seq<Option<Labels>>, n: nat)
    requires n < |lines| && IndexOf(index, lines, n)
    ensures IndexOf(AddEntry(index, lines[n], n + 1), lines, n + 1)
  {
    var m := n + 1;
    var added := AddEntry(index, lines[n], m);
    forall d ensures Entries(added, d) == LinesOf(lines, m, d) {
      assert Entries(index, d) == LinesOf(lines, n, d);
    }
  }

  method Build(lines: seq<Option<Labels>>) returns (index: Index)
    ensures IndexOf(index, lines, |lines|)
  {
    index := map[];
    for n := 0 to |lines|
      invariant IndexOf(index, lines, n)
    {
      AddEntryStep(index, lines, n);
      if lines[n].Some? {
        var d := lines[n].value;
        index := index[d := Entries(index, d) + [Item(d, n + 1)]];
      }
    }
  }

  // ----- Looking up -----

  /** The suffix positions tried: suffixes of at most six labels, down to two. */
  function FirstPosition(n: nat): nat { if n <= 6 then 0 else n - 6 }

  /** What the linear scan would list: per suffix, longest first, its lines in order. */
  function Scan(query: Labels, lines: seq<Option<Labels>>, position: nat): seq<Item>
    decreases |query| - position
  {
    if position + 1 >= |query| then []
    else LinesOf(lines, |lines|, query[position..]) + Scan(query, lines, position + 1)
  }

  /** Append the items that are not listed yet. */
  function AddNew(output: seq<Item>, items: seq<Item>): seq<Item>
    decreases |items|
  {
    if items == [] then output
    else AddNew(if items[0] in output then output else output + [items[0]], items[1..])
  }

  /** What the program's lookup lists, reading the index only. */
  function Lookup(query: Labels, index: Index, position: nat, output: seq<Item>): seq<Item>
    decreases |query| - position
  {
    if position + 1 >= |query| then output
    else Lookup(query, index, position + 1, AddNew(output, Entries(index, query[position..])))
  }

  method LookupSuffixes(query: Labels, index: Index) returns (output: seq<Item>)
    ensures output == Lookup(query, index, FirstPosition(|query|), [])
  {
    output := [];
    var seen: set<Item> := {};
    var position := FirstPosition(|query|);
    while position + 1 < |query|
      invariant Lookup(query, index, FirstPosition(|query|), []) == Lookup(query, index, position, output)
      invariant forall x :: x in seen <==> x in output
      decreases |query| - position
    {
      var items := Entries(index, query[position..]);
      ghost var before := output;
      for i := 0 to |items|
        invariant AddNew(before, items) == AddNew(output, items[i..])
        invariant forall x :: x in seen <==> x in output
      {
        assert items[i..][1..] == items[i + 1..];
        if items[i] !in seen {
          seen := seen + {items[i]};
          output := output + [items[i]];
        }
      }
      position := position + 1;
    }
  }

  /** The items are new to the output and differ from each other. */
  predicate Fresh(items: seq<Item>, output: seq<Item>) {
    (forall x :: x in items ==> x !in output) && (forall i, j :: 0 <= i < j < |items| ==> items[i] != items[j])
  }

  lemma {:induction false} AddNewDistinct(output: seq<Item>, items: seq<Item>)
    requires Fresh(items, output)
    ensures AddNew(output, items) == output + items
    decreases |items|
  {
    if items != [] {
      assert items[0] in items;
      forall x | x in items[1..] ensures x !in output + [items[0]] {
        var j :| 1 <= j < |items| && items[j] == x;
      }
      AddNewDistinct(output + [items[0]], items[1..]);
      assert output + [items[0]] + items[1..] == output + items;
    } else {
      assert output + [] == output;
    }
  }

  lemma FreshLines(lines: seq<Option<Labels>>, suffix: Labels, output: seq<Item>)
    requires forall x :: x in output ==> |x.domain| > |suffix|
    ensures Fresh(LinesOf(lines, |lines|, suffix), output)
    ensures forall x :: x in LinesOf(lines, |lines|, suffix) ==> x.domain == suffix
  {
    LinesFacts(lines, |lines|, suffix);
  }

  lemma LookupStep(index: Index, lines: seq<Option<Labels>>, suffix: Labels, output: seq<Item>)
    requires IndexOf(index, lines, |lines|)
    requires forall x :: x in output ==> |x.domain| > |suffix|
    ensures AddNew(output, Entries(index, suffix)) == output + LinesOf(lines, |lines|, suffix)
    ensures forall x :: x in output + LinesOf(lines, |lines|, suffix) ==> |x.domain| >= |suffix|
  {
    var items := LinesOf(lines, |lines|, suffix);
    assert Entries(index, suffix) == items;
    FreshLines(lines, suffix, output);
    AddNewDistinct(output, items);
  }

  /** Over the index of a list, nothing is ever found twice, and the lookup is the scan. */
  lemma {:induction false} LookupScans(query: Labels, index: Index, lines: seq<Option<Labels>>, position: nat,
                                       output: seq<Item>)
    requires IndexOf(index, lines, |lines|)
    requires forall x :: x in output ==> |x.domain| > |query| - position
    ensures Lookup(query, index, position, output) == output + Scan(query, lines, position)
    decreases |query| - position
  {
    if position + 1 >= |query| {
      assert output + [] == output;
    } else {
      var items := LinesOf(lines, |lines|, query[position..]);
      LookupStep(index, lines, query[position..], output);
      LookupScans(query, index, lines, position + 1, output + items);
      Associates(output, items, Scan(query, lines, position + 1));
    }
  }

  lemma Associates(a: seq<Item>, b: seq<Item>, c: seq<Item>)
    ensures a + b + c == a + (b + c)
  {
  }

  // ----- What the scan lists -----

  lemma {:induction false} LinesFacts(lines: seq<Option<Labels>>, n: nat, d: Labels)
    requires n <= |lines|
    ensures var items := LinesOf(lines, n, d);
            && (forall x :: x in items <==> x.domain == d && 1 <= x.line <= n && lines[x.line - 1] == Some(d))
            && (forall i, j :: 0 <= i < j < |items| ==> items[i].line < items[j].line)
  {
    if n > 0 {
      LinesFacts(lines, n - 1, d);
      var before, items := LinesOf(lines, n - 1, d), LinesOf(lines, n, d);
      forall i, j | 0 <= i < j < |items| ensures items[i].line < items[j].line {
        assert items[i] in before;
        if j < |before| {
          assert items[j] == before[j] && items[i] == before[i];
        }
      }
    }
  }

  /** The labels are the last labels of the query. */
  predicate IsSuffix(d: Labels, query: Labels) {
    |d| <= |query| && d == query[|query| - |d|..]
  }

  /** Longest suffix first, then line order. */
  predicate Precedes(a: Item, b: Item) {
    |a.domain| > |b.domain| || (|a.domain| == |b.domain| && a.line < b.line)
  }

  lemma {:induction false} ScanFrom(query: Labels, lines: seq<Option<Labels>>, position: nat)
    ensures var items := Scan(query, lines, position);
            && (forall x :: x in items <==>
                  && IsSuffix(x.domain, query) && 2 <= |x.domain| <= |query| - position
                  && 1 <= x.line <= |lines| && lines[x.line - 1] == Some(x.domain))
            && (forall i, j :: 0 <= i < j < |items| ==> Precedes(items[i], items[j]))
    decreases |query| - position
  {
    if position + 1 < |query| {
      var suffix := query[position..];
      var here, rest := LinesOf(lines, |lines|, suffix), Scan(query, lines, position + 1);
      LinesFacts(lines, |lines|, suffix);
      ScanFrom(query, lines, position + 1);
      var items := Scan(query, lines, position);
      forall x ensures x in items <==>
          && IsSuffix(x.domain, query) && 2 <= |x.domain| <= |query| - position
          && 1 <= x.line <= |lines| && lines[x.line - 1] == Some(x.domain)
      {
        assert x in items <==> x in here || x in rest;
        if IsSuffix(x.domain, query) && |x.domain| == |query| - position {
          assert x.domain == suffix;
        }
      }
      forall i, j | 0 <= i < j < |items| ensures Precedes(items[i], items[j]) {
        if j < |here| {
          assert items[i] == here[i] && items[j] == here[j];
          assert here[i] in here && here[j] in here;
        } else if i < |here| {
          assert here[i] in here && rest[j - |here|] in rest;
        } else {
          assert items[i] == rest[i - |here|] && items[j] == rest[j - |here|];
        }
      }
    }
  }

  /** The lookup agrees with a linear scan: over the index of a list, it lists exactly the
      lines whose domain is a label suffix of the query with two to six labels, longest first
      and then in line order, so none is repeated. */
  lemma LookupIsLinearScan(query: Labels, index: Index, lines: seq<Option<Labels>>)
    requires IndexOf(index, lines, |lines|)
    ensures var items := Lookup(query, index, FirstPosition(|query|), []);
            && (forall x :: x in items <==>
                  && IsSuffix(x.domain, query) && 2 <= |x.domain| <= 6
                  && 1 <= x.line <= |lines| && lines[x.line - 1] == Some(x.domain))
            && (forall i, j :: 0 <= i < j < |items| ==> Precedes(items[i], items[j]) && items[i] != items[j])
  {
    LookupScans(query, index, lines, FirstPosition(|query|), []);
    ScanFrom(query, lines, FirstPosition(|query|));
    var items := Scan(query, lines, FirstPosition(|query|));
    assert [] + items == items;
  }

  // ----- The cache -----

  /** One payload and its index are kept per catalog. */
  class IndexCache<Payload(==), Built> {
    var entries: map<string, (Payload, Built)>
    const builder: (string, Payload) -> Built

    ghost predicate Valid()
      reads this
    {
      forall prefix :: prefix in entries ==> entries[prefix].1 == builder(prefix, entries[prefix].0)
    }

    constructor (build: (string, Payload) -> Built)
      ensures Valid() && builder == build && entries == map[]
    {
      builder := build;
      entries := map[];
    }

    /** For any sequence of calls, the answer is what building afresh would give. */
    method Cached(prefix: string, payload: Payload) returns (built: Built)
      requires Valid()
      modifies this
      ensures Valid() && built == builder(prefix, payload)
      ensures prefix in entries && entries[prefix] == (payload, built)
      ensures forall p :: p != prefix ==>
                (p in entries <==> p in old(entries)) && (p in entries ==> entries[p] == old(entries)[p])
    {
      if prefix in entries && entries[prefix].0 == payload {
        return entries[prefix].1;
      }
      built := builder(prefix, payload);
      entries := entries[prefix := (payload, built)];
    }
  }
}
