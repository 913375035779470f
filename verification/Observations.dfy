/** Hourly aggregation of query rows: whatever the batches and their order, the table is the
    group-by of every row seen, and the domain counts are the sums of its buckets. */
module Observations {
  import opened Basics

  type Domain = string

  /** A query row with its normalized domain (blank rows are skipped) and resolved time. */
  datatype Row = Row(domain: Domain, client: string, queryType: string, status: string, time: int)

  datatype Key = Key(domain: Domain, client: string, queryType: string, status: string, bucket: int)

  datatype Bucket = Bucket(count: nat, first: int, last: int)

  function KeyOf(r: Row): Key { Key(r.domain, r.client, r.queryType, r.status, r.time - r.time % 3600) }

  function Single(r: Row): Bucket { Bucket(1, r.time, r.time) }

  function Combine(a: Option<Bucket>, b: Option<Bucket>): Option<Bucket> {
    match (a, b)
    case (None, _) => b
    case (_, None) => a
    case (Some(x), Some(y)) => Some(Bucket(x.count + y.count, MinInt(x.first, y.first), MaxInt(x.last, y.last)))
  }

  // ----- The raw log -----

  /** Count, earliest and latest time of the rows with the key. */
  function Aggregate(rows: seq<Row>, k: Key): Option<Bucket> {
    if rows == [] then None
    else Combine(if rows[0].domain != "" && KeyOf(rows[0]) == k then Some(Single(rows[0])) else None,
                 Aggregate(rows[1..], k))
  }

  function RowsOf(rows: seq<Row>, d: Domain): nat {
    if rows == [] then 0 else (if d != "" && rows[0].domain == d then 1 else 0) + RowsOf(rows[1..], d)
  }

  function Counted(rows: seq<Row>): nat {
    if rows == [] then 0 else (if rows[0].domain != "" then 1 else 0) + Counted(rows[1..])
  }

  lemma {:induction false} AggregateAppend(a: seq<Row>, b: seq<Row>, k: Key)
    ensures Aggregate(a + b, k) == Combine(Aggregate(a, k), Aggregate(b, k))
  {
    if a == [] {
      assert a + b == b;
    } else {
      assert (a + b)[1..] == a[1..] + b;
      AggregateAppend(a[1..], b, k);
    }
  }

  lemma {:induction false} RowsAppend(a: seq<Row>, b: seq<Row>, d: Domain)
    ensures RowsOf(a + b, d) == RowsOf(a, d) + RowsOf(b, d)
  {
    if a == [] {
      assert a + b == b;
    } else {
      assert (a + b)[1..] == a[1..] + b;
      RowsAppend(a[1..], b, d);
    }
  }

  lemma RemoveSame(a: seq<Row>, b: seq<Row>, i: nat)
    requires a != [] && i < |b| && a[0] == b[i] && multiset(a) == multiset(b)
    ensures multiset(a[1..]) == multiset(b[..i] + b[i + 1..])
  {
    assert a == [a[0]] + a[1..];
    assert b == b[..i] + [b[i]] + b[i + 1..];
    assert multiset(a[1..]) == multiset(a) - multiset{a[0]};
    assert multiset(b[..i] + b[i + 1..]) == multiset(b) - multiset{b[i]};
  }

  lemma AggregateOut(b: seq<Row>, i: nat, k: Key)
    requires i < |b|
    ensures Aggregate(b, k) == Combine(Aggregate([b[i]], k), Aggregate(b[..i] + b[i + 1..], k))
  {
    assert b == b[..i] + ([b[i]] + b[i + 1..]);
    AggregateAppend(b[..i], [b[i]] + b[i + 1..], k);
    AggregateAppend([b[i]], b[i + 1..], k);
    AggregateAppend(b[..i], b[i + 1..], k);
  }

  /** The order of the rows does not matter. */
  lemma {:induction false} AggregateIgnoresOrder(a: seq<Row>, b: seq<Row>, k: Key)
    requires multiset(a) == multiset(b)
    ensures Aggregate(a, k) == Aggregate(b, k)
  {
    assert |a| == |multiset(a)| && |b| == |multiset(b)|;
    if a != [] {
      assert a[0] in multiset(b);
      var i :| 0 <= i < |b| && b[i] == a[0];
      RemoveSame(a, b, i);
      AggregateIgnoresOrder(a[1..], b[..i] + b[i + 1..], k);
      AggregateOut(a, 0, k);
      AggregateOut(b, i, k);
      assert a[..0] + a[1..] == a[1..];
    }
  }

  function Named(rows: seq<Row>): seq<Row> {
    if rows == [] then [] else (if rows[0].domain == "" then [] else [rows[0]]) + Named(rows[1..])
  }

  /** Rows without a domain are recorded nowhere, and every other row is. */
  lemma {:induction false} BlankRowsAreSkipped(rows: seq<Row>, k: Key, d: Domain)
    ensures Counted(rows) == |Named(rows)| && forall r :: r in Named(rows) <==> r in rows && r.domain != ""
    ensures Aggregate(rows, k) == Aggregate(Named(rows), k) && RowsOf(rows, d) == RowsOf(Named(rows), d)
  {
    if rows != [] {
      BlankRowsAreSkipped(rows[1..], k, d);
      var rest := Named(rows[1..]);
      if rows[0].domain != "" {
        assert ([rows[0]] + rest)[1..] == rest;
      } else {
        assert [] + rest == rest;
      }
    }
  }

  predicate InBucket(r: Row, k: Key) {
    && r.domain == k.domain && r.domain != "" && r.client == k.client && r.queryType == k.queryType
    && r.status == k.status && k.bucket <= r.time < k.bucket + 3600
  }

  function RowsIn(rows: seq<Row>, k: Key): nat {
    if rows == [] then 0 else (if InBucket(rows[0], k) then 1 else 0) + RowsIn(rows[1..], k)
  }

  /** A bucket counts the rows of its domain, client, type, status and hour, and holds the earliest and
      the latest time among them; hours start at multiples of 3600. */
  lemma {:induction false} AggregateMeans(rows: seq<Row>, k: Key)
    ensures k.bucket % 3600 != 0 ==> Aggregate(rows, k).None?
    ensures k.bucket % 3600 == 0 ==>
              match Aggregate(rows, k)
              case None => forall r :: r in rows ==> !InBucket(r, k)
              case Some(b) =>
                && b.count == RowsIn(rows, k)
                && (forall r :: r in rows && InBucket(r, k) ==> b.first <= r.time <= b.last)
                && (exists r :: r in rows && InBucket(r, k) && r.time == b.first)
                && (exists r :: r in rows && InBucket(r, k) && r.time == b.last)
  {
    if rows != [] {
      AggregateMeans(rows[1..], k);
      if Aggregate(rows[1..], k).None? && k.bucket % 3600 == 0 {
        NoRowsIn(rows[1..], k);
      }
      var r := rows[0];
      assert k.bucket % 3600 == 0 ==> (InBucket(r, k) <==> r.domain != "" && KeyOf(r) == k);
      assert r in rows && forall x :: x in rows[1..] ==> x in rows;
    }
  }

  lemma {:induction false} NoRowsIn(rows: seq<Row>, k: Key)
    requires forall r :: r in rows ==> !InBucket(r, k)
    ensures RowsIn(rows, k) == 0
  {
    if rows != [] {
      NoRowsIn(rows[1..], k);
    }
  }

  /** Each bucket's times lie in order inside its hour. */
  lemma {:induction false} TimesInHour(rows: seq<Row>, k: Key)
    ensures Aggregate(rows, k).Some? ==>
              var b := Aggregate(rows, k).value;
              b.count > 0 && k.bucket <= b.first <= b.last < k.bucket + 3600 && k.bucket % 3600 == 0
  {
    if rows != [] {
      TimesInHour(rows[1..], k);
    }
  }

  // ----- The tables -----

  type Buckets = map<Key, Bucket>

  function Get(m: Buckets, k: Key): Option<Bucket> { if k in m then Some(m[k]) else None }

  function CountOf(m: map<Domain, nat>, d: Domain): nat { if d in m then m[d] else 0 }

  datatype Tables = Tables(buckets: Buckets, queryCounts: map<Domain, nat>)

  class ObservationTable {
    var buckets: Buckets
    var queryCounts: map<Domain, nat>

    ghost function State(): Tables
      reads this
    {
      Tables(buckets, queryCounts)
    }

    constructor ()
      ensures State() == Tables(map[], map[])
    {
      buckets, queryCounts := map[], map[];
    }

    /** Group the batch first, then upsert one table row per group. */
    method Record(rows: seq<Row>) returns (recorded: nat)
      modifies this
      ensures Recorded(old(State()), State(), rows)
      ensures recorded == Counted(rows)
    {
      var grouped: Buckets, order: seq<Key>;
      grouped, order, recorded := Group(rows);
      ghost var before := State();
      Upsert(grouped, order);
      UpsertWhole(before, grouped, order, rows);
    }

    method Upsert(grouped: Buckets, order: seq<Key>)
      requires forall k :: k in order ==> k in grouped
      modifies this
      ensures State() == UpsertAll(old(State()), grouped, order)
    {
      for i := 0 to |order|
        invariant UpsertAll(old(State()), grouped, order) == UpsertAll(State(), grouped, order[i..])
      {
        assert order[i..][1..] == order[i + 1..];
        var k := order[i];
        var b := grouped[k];
        queryCounts := queryCounts[k.domain := CountOf(queryCounts, k.domain) + b.count];
        buckets := buckets[k := if k in buckets then Merge(buckets[k], b) else b];
      }
    }
  }

  function KeysOf(order: seq<Key>): set<Key> { set k | k in order }

  lemma UpsertWhole(before: Tables, grouped: Buckets, order: seq<Key>, rows: seq<Row>)
    requires (forall i, j :: 0 <= i < j < |order| ==> order[i] != order[j]) && forall k :: k in order <==> k in grouped
    requires forall k :: Get(grouped, k) == Aggregate(rows, k)
    ensures Recorded(before, UpsertAll(before, grouped, order), rows)
  {
    assert order[..0] == [] && order[0..] == order;
    assert KeysOf(order[..0]) == {};
    UpsertAllDone(before, before, grouped, order, 0);
    UpsertDone(before, UpsertAll(before, grouped, order), grouped, rows);
  }

  function UpsertAll(t: Tables, grouped: Buckets, order: seq<Key>): Tables
    requires forall k :: k in order ==> k in grouped
    decreases |order|
  {
    if order == [] then t else UpsertAll(UpsertOne(t, order[0], grouped[order[0]]), grouped, order[1..])
  }

  lemma KeysOfNext(order: seq<Key>, n: nat)
    requires n < |order| && forall i, j :: 0 <= i < j < |order| ==> order[i] != order[j]
    ensures KeysOf(order[..n + 1]) == KeysOf(order[..n]) + {order[n]} && order[n] !in KeysOf(order[..n])
  {
    assert order[..n + 1] == order[..n] + [order[n]];
  }

  lemma {:induction false} UpsertAllDone(before: Tables, t: Tables, grouped: Buckets, order: seq<Key>, n: nat)
    requires n <= |order| && (forall i, j :: 0 <= i < j < |order| ==> order[i] != order[j])
    requires forall k :: k in order <==> k in grouped
    requires Upserted(before, t, grouped, KeysOf(order[..n]))
    ensures Upserted(before, UpsertAll(t, grouped, order[n..]), grouped, grouped.Keys)
    decreases |order| - n
  {
    if n == |order| {
      assert order[..n] == order;
      assert KeysOf(order[..n]) == grouped.Keys;
    } else {
      var k := order[n];
      var done := KeysOf(order[..n]);
      assert k in order;
      UpsertStep(before, t, grouped, done, k);
      KeysOfNext(order, n);
      assert order[n..][1..] == order[n + 1..];
      UpsertAllDone(before, UpsertOne(t, k, grouped[k]), grouped, order, n + 1);
    }
  }

  lemma UpsertDone(before: Tables, t: Tables, grouped: Buckets, rows: seq<Row>)
    requires Upserted(before, t, grouped, grouped.Keys)
    requires forall k :: Get(grouped, k) == Aggregate(rows, k)
    ensures Recorded(before, t, rows)
  {
    forall d ensures CountOf(t.queryCounts, d) == CountOf(before.queryCounts, d) + RowsOf(rows, d) {
      SumIsRows(rows, grouped, d);
    }
    forall k ensures Get(t.buckets, k) == Combine(Get(before.buckets, k), Aggregate(rows, k)) {
      assert Get(grouped, k) == Aggregate(rows, k);
    }
  }

  function Merge(a: Bucket, b: Bucket): Bucket {
    Bucket(a.count + b.count, MinInt(a.first, b.first), MaxInt(a.last, b.last))
  }

  function UpsertOne(t: Tables, k: Key, b: Bucket): Tables {
    Tables(t.buckets[k := if k in t.buckets then Merge(t.buckets[k], b) else b],
           t.queryCounts[k.domain := CountOf(t.queryCounts, k.domain) + b.count])
  }

  /** The groups in `done` have been added to the tables. */
  ghost predicate Upserted(before: Tables, t: Tables, grouped: Buckets, done: set<Key>) {
    && (forall k :: Get(t.buckets, k) ==
          if k in done then Combine(Get(before.buckets, k), Get(grouped, k)) else Get(before.buckets, k))
    && (forall d :: CountOf(t.queryCounts, d) == CountOf(before.queryCounts, d) + SumOver(grouped, done, d))
  }

  lemma UpsertStep(before: Tables, t: Tables, grouped: Buckets, done: set<Key>, k: Key)
    requires Upserted(before, t, grouped, done) && k in grouped && k !in done
    ensures Upserted(before, UpsertOne(t, k, grouped[k]), grouped, done + {k})
  {
    var u := UpsertOne(t, k, grouped[k]);
    forall d ensures CountOf(u.queryCounts, d) == CountOf(before.queryCounts, d) + SumOver(grouped, done + {k}, d) {
      SumOverAdd(grouped, done, k, d);
      assert CountOf(t.queryCounts, d) == CountOf(before.queryCounts, d) + SumOver(grouped, done, d);
    }
    forall x
      ensures Get(u.buckets, x) ==
              if x in done + {k} then Combine(Get(before.buckets, x), Get(grouped, x)) else Get(before.buckets, x)
    {
      assert Get(t.buckets, x) ==
             if x in done then Combine(Get(before.buckets, x), Get(grouped, x)) else Get(before.buckets, x);
    }
  }

  /** Group the batch, keeping the keys in the order of first appearance. */
  method Group(rows: seq<Row>) returns (grouped: Buckets, order: seq<Key>, recorded: nat)
    ensures forall k :: Get(grouped, k) == Aggregate(rows, k)
    ensures (forall i, j :: 0 <= i < j < |order| ==> order[i] != order[j]) && forall k :: k in order <==> k in grouped
    ensures recorded == Counted(rows)
  {
    grouped, order, recorded := map[], [], 0;
    for i := 0 to |rows|
      invariant forall k :: Get(grouped, k) == Aggregate(rows[..i], k)
      invariant forall i, j :: 0 <= i < j < |order| ==> order[i] != order[j]
      invariant forall k :: k in order <==> k in grouped
      invariant recorded + Counted(rows[i..]) == Counted(rows)
    {
      assert rows[i..][1..] == rows[i + 1..];
      var r := rows[i];
      ghost var before := grouped;
      assert rows[..i + 1] == rows[..i] + [r];
      if r.domain != "" {
        var k := KeyOf(r);
        recorded := recorded + 1;
        if k !in grouped {
          order := order + [k];
        }
        var previous := if k in grouped then grouped[k] else Bucket(0, r.time, r.time);
        grouped := grouped[k :=
          Bucket(previous.count + 1, MinInt(previous.first, r.time), MaxInt(previous.last, r.time))];
      }
      forall k ensures Get(grouped, k) == Aggregate(rows[..i + 1], k) {
        AggregateAppend(rows[..i], [r], k);
        assert [r][1..] == [];
        assert Get(before, k) == Aggregate(rows[..i], k);
      }
    }
    assert rows[..|rows|] == rows;
  }

  /** What one recording call does to the tables. */
  ghost predicate Recorded(s: Tables, t: Tables, rows: seq<Row>) {
    && (forall k :: Get(t.buckets, k) == Combine(Get(s.buckets, k), Aggregate(rows, k)))
    && (forall d :: CountOf(t.queryCounts, d) == CountOf(s.queryCounts, d) + RowsOf(rows, d))
  }

  // ----- Sums over buckets -----

  /** The counts of the given keys that belong to the domain. */
  ghost function SumOver(m: Buckets, keys: set<Key>, d: Domain): nat
    decreases |keys|
  {
    if keys == {} then 0
    else
      var k :| k in keys;
      (if k.domain == d && k in m then m[k].count else 0) + SumOver(m, keys - {k}, d)
  }

  lemma {:induction false} SumOverAdd(m: Buckets, keys: set<Key>, k: Key, d: Domain)
    requires k !in keys
    ensures SumOver(m, keys + {k}, d) == SumOver(m, keys, d) + if k.domain == d && k in m then m[k].count else 0
    decreases |keys|
  {
    var all := keys + {k};
    var x :| x in all && SumOver(m, all, d) ==
                         (if x.domain == d && x in m then m[x].count else 0) + SumOver(m, all - {x}, d);
    if x == k {
      assert all - {x} == keys;
    } else {
      var rest := keys - {x};
      assert all - {x} == rest + {k};
      SumOverAdd(m, rest, k, d);
      assert rest + {x} == keys;
      SumOverAdd(m, rest, x, d);
    }
  }

  lemma {:induction false} SumOverSame(a: Buckets, b: Buckets, keys: set<Key>, d: Domain)
    requires forall k :: k in keys ==> Get(a, k) == Get(b, k)
    ensures SumOver(a, keys, d) == SumOver(b, keys, d)
    decreases |keys|
  {
    if keys != {} {
      var k :| k in keys && SumOver(a, keys, d) ==
                            (if k.domain == d && k in a then a[k].count else 0) + SumOver(a, keys - {k}, d);
      SumOverSame(a, b, keys - {k}, d);
      assert keys - {k} + {k} == keys;
      SumOverAdd(b, keys - {k}, k, d);
      assert Get(a, k) == Get(b, k);
    }
  }

  /** A group-by's buckets of a domain add up to the domain's rows. */
  lemma {:induction false} SumIsRows(rows: seq<Row>, m: Buckets, d: Domain)
    requires forall k :: Get(m, k) == Aggregate(rows, k)
    ensures SumOver(m, m.Keys, d) == RowsOf(rows, d)
  {
    if rows == [] {
      forall k ensures k !in m {
        assert Get(m, k) == Aggregate(rows, k);
      }
    } else {
      var r, rest := rows[0], rows[1..];
      var k := KeyOf(r);
      var smaller := Aggregate(rest, k);
      var older: Buckets := if r.domain == "" then m else if smaller.Some? then m[k := smaller.value] else m - {k};
      forall x ensures Get(older, x) == Aggregate(rest, x) {
        assert Get(m, x) == Aggregate(rows, x);
      }
      SumIsRows(rest, older, d);
      if r.domain != "" {
        assert Get(m, k) == Aggregate(rows, k);
        var others := m.Keys - {k};
        assert m.Keys == others + {k};
        SumOverAdd(m, others, k, d);
        SumOverSame(m, older, others, d);
        if smaller.Some? {
          assert older.Keys == others + {k};
          SumOverAdd(older, others, k, d);
        } else {
          assert older.Keys == others;
        }
      }
    }
  }

  // ----- Whole histories -----

  function Flatten(batches: seq<seq<Row>>): seq<Row> {
    if batches == [] then []
    else
      var n := |batches| - 1;
      Flatten(batches[..n]) + batches[n]
  }

  /** The states before and after each recording call of a history that starts empty. */
  ghost predicate History(states: seq<Tables>, batches: seq<seq<Row>>) {
    && |states| == |batches| + 1 && states[0] == Tables(map[], map[])
    && forall i :: 0 <= i < |batches| ==> Recorded(states[i], states[i + 1], batches[i])
  }

  lemma {:induction false} HistoryAggregates(states: seq<Tables>, batches: seq<seq<Row>>)
    requires History(states, batches)
    ensures var t := states[|batches|];
            && (forall k :: Get(t.buckets, k) == Aggregate(Flatten(batches), k))
            && (forall d :: CountOf(t.queryCounts, d) == RowsOf(Flatten(batches), d))
    decreases |batches|
  {
    if batches != [] {
      var n := |batches| - 1;
      HistoryAggregates(states[..n + 1], batches[..n]);
      var t := states[n + 1];
      assert Recorded(states[n], t, batches[n]);
      forall k ensures Get(t.buckets, k) == Aggregate(Flatten(batches), k) {
        AggregateAppend(Flatten(batches[..n]), batches[n], k);
        assert Get(states[..n + 1][n].buckets, k) == Aggregate(Flatten(batches[..n]), k);
      }
      forall d ensures CountOf(t.queryCounts, d) == RowsOf(Flatten(batches), d) {
        RowsAppend(Flatten(batches[..n]), batches[n], d);
        assert CountOf(states[..n + 1][n].queryCounts, d) == RowsOf(Flatten(batches[..n]), d);
      }
    }
  }

  /** After any sequence of recording calls the table is the group-by of all rows seen, each
      domain's query count is the sum of its buckets, and every bucket keeps to its hour. */
  lemma TableIsGroupBy(states: seq<Tables>, batches: seq<seq<Row>>, all: seq<Row>)
    requires History(states, batches) && multiset(all) == multiset(Flatten(batches))
    ensures var t := states[|batches|];
            && (forall k :: Get(t.buckets, k) == Aggregate(all, k))
            && (forall d :: CountOf(t.queryCounts, d) == SumOver(t.buckets, t.buckets.Keys, d))
            && (forall k :: k in t.buckets ==>
                  k.bucket <= t.buckets[k].first <= t.buckets[k].last < k.bucket + 3600)
  {
    HistoryAggregates(states, batches);
    var t := states[|batches|];
    forall k ensures Get(t.buckets, k) == Aggregate(all, k) {
      AggregateIgnoresOrder(all, Flatten(batches), k);
    }
    forall d ensures CountOf(t.queryCounts, d) == SumOver(t.buckets, t.buckets.Keys, d) {
      SumIsRows(Flatten(batches), t.buckets, d);
    }
    forall k | k in t.buckets ensures k.bucket <= t.buckets[k].first <= t.buckets[k].last < k.bucket + 3600 {
      assert Get(t.buckets, k) == Aggregate(all, k);
      TimesInHour(all, k);
    }
  }
}
