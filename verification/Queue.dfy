/** The durable analysis queue: one row per domain, and the domain locks. Each operation is
    one transaction on the two tables. Domain names are already normalized. */
module Queue {
  import opened Basics

  type Domain = string

  datatype PoolId = Realtime | Background

  datatype RowState = Queued | Processing | Failed

  datatype Row = Row(state: RowState, attempts: nat, createdAt: int, updatedAt: int, priority: nat, source: string,
                     pool: PoolId, availableAt: int)

  datatype Tables = Tables(rows: map<Domain, Row>, locks: set<Domain>)

  const EMPTY_TABLES := Tables(map[], {})

  // ----- Enqueue -----

  /** What an enqueue call asks for, with its pool resolved. */
  datatype Ask = Ask(now: int, priority: nat, source: string, pool: PoolId)

  datatype Outcome = Inserted | Requeued | Pending | SkippedLocked

  function OutcomeOf(t: Tables, d: Domain): Outcome {
    if d in t.locks then SkippedLocked
    else if d !in t.rows then Inserted
    else match t.rows[d].state
      case Processing => Pending
      case Queued => Pending
      case Failed => Requeued
  }

  /** The right-hand sides of an update see the old row. */
  function Enqueued(t: Tables, d: Domain, a: Ask): Option<Row> {
    if d in t.locks then None
    else if d !in t.rows then Some(Row(Queued, 0, a.now, a.now, a.priority, a.source, a.pool, 0))
    else
      var r := t.rows[d];
      match r.state
      case Processing => None
      case Queued =>
        Some(r.(priority := MaxInt(r.priority, a.priority),
                source := if a.priority >= r.priority && a.source != "" then a.source else r.source,
                pool := if a.priority >= r.priority then a.pool else r.pool,
                availableAt := 0))
      case Failed =>
        Some(r.(state := Queued, attempts := 0, updatedAt := a.now, priority := MaxInt(r.priority, a.priority),
                source := if a.source != "" then a.source else r.source, pool := a.pool, availableAt := 0))
  }

  function EnqueueOne(t: Tables, d: Domain, a: Ask): Tables {
    var row := Enqueued(t, d, a);
    if row.Some? then t.(rows := t.rows[d := row.value]) else t
  }

  datatype Counts = Counts(requested: nat, queued: nat, requeued: nat, pending: nat, locked: nat, filtered: nat)

  function Count(c: Counts, o: Outcome): Counts {
    match o
    case Inserted => c.(queued := c.queued + 1)
    case Requeued => c.(requeued := c.requeued + 1)
    case Pending => c.(pending := c.pending + 1)
    case SkippedLocked => c.(locked := c.locked + 1)
  }

  function EnqueueAll(t: Tables, ds: seq<Domain>, a: Ask, c: Counts): (Tables, Counts)
    decreases |ds|
  {
    if ds == [] then (t, c)
    else EnqueueAll(EnqueueOne(t, ds[0], a), ds[1..], a, Count(c, OutcomeOf(t, ds[0])))
  }

  /** The distinct non-blank names, in the order of first appearance. */
  function Unique(ds: seq<Domain>): (u: seq<Domain>)
    ensures forall d :: d in u <==> d in ds && d != ""
    ensures forall i, j :: 0 <= i < j < |u| ==> u[i] != u[j]
  {
    if ds == [] then []
    else
      var n := |ds| - 1;
      var u := Unique(ds[..n]);
      if ds[n] == "" || ds[n] in u then u else u + [ds[n]]
  }

  function Without(ds: seq<Domain>, excluded: Domain -> bool): (kept: seq<Domain>)
    ensures |kept| <= |ds|
  {
    if ds == [] then []
    else (if excluded(ds[0]) then [] else [ds[0]]) + Without(ds[1..], excluded)
  }

  function Enqueue(t: Tables, ds: seq<Domain>, a: Ask, excluded: Domain -> bool): (Tables, Counts) {
    var unique := Unique(ds);
    var kept := Without(unique, excluded);
    EnqueueAll(t, kept, a, Counts(|unique|, 0, 0, 0, 0, |unique| - |kept|))
  }

  // ----- Claim order -----

  /** Byte order of names. */
  predicate Less(a: Domain, b: Domain) {
    b != [] && (a == [] || a[0] < b[0] || (a[0] == b[0] && Less(a[1..], b[1..])))
  }

  /** Higher priority first, then older, then by name. */
  predicate Before(rows: map<Domain, Row>, a: Domain, b: Domain)
    requires a in rows && b in rows
  {
    var x, y := rows[a], rows[b];
    x.priority > y.priority ||
    (x.priority == y.priority && (x.createdAt < y.createdAt || (x.createdAt == y.createdAt && Less(a, b))))
  }

  predicate Available(rows: map<Domain, Row>, d: Domain, pool: Option<PoolId>, now: int) {
    d in rows && rows[d].state.Queued? && rows[d].availableAt <= now && (pool.Some? ==> rows[d].pool == pool.value)
  }

  /** The first `limit` available rows in claim order. */
  ghost predicate IsClaim(rows: map<Domain, Row>, pool: Option<PoolId>, now: int, limit: nat, sel: seq<Domain>) {
    && |sel| <= limit
    && (forall i :: 0 <= i < |sel| ==> Available(rows, sel[i], pool, now))
    && (forall i, j :: 0 <= i < j < |sel| ==> Before(rows, sel[i], sel[j]))
    && (forall d :: Available(rows, d, pool, now) && d !in sel ==>
          |sel| == limit && forall i :: 0 <= i < |sel| ==> Before(rows, sel[i], d))
  }

  function MarkProcessing(rows: map<Domain, Row>, sel: seq<Domain>, now: int): map<Domain, Row> {
    map d | d in rows ::
      if d in sel then rows[d].(state := Processing, attempts := rows[d].attempts + 1, updatedAt := now)
      else rows[d]
  }

  // ----- Settling -----

  function Ack(t: Tables, d: Domain): Tables { t.(rows := t.rows - {d}) }

  function Fail(t: Tables, d: Domain, now: int, maxAttempts: nat): Tables {
    if d !in t.rows then t
    else
      var r := t.rows[d];
      t.(rows := t.rows[d := r.(state := if r.attempts >= maxAttempts then Failed else Queued, updatedAt := now,
                                availableAt := 0)])
  }

  /** retryAt is already truncated to whole seconds. */
  function Defer(t: Tables, d: Domain, now: int, retryAt: int): Tables {
    if d !in t.rows then t
    else
      var r := t.rows[d];
      t.(rows := t.rows[d := r.(state := Queued, attempts := MaxInt(0, r.attempts - 1), updatedAt := now,
                                availableAt := MaxInt(now + 1, retryAt))])
  }

  function RequeueProcessing(t: Tables, pool: Option<PoolId>, now: int): Tables {
    t.(rows := map d | d in t.rows ::
         var r := t.rows[d];
         if r.state.Processing? && (pool.Some? ==> r.pool == pool.value)
         then r.(state := Queued, updatedAt := now, availableAt := 0) else r)
  }

  function SetLock(t: Tables, d: Domain): Tables { Tables(t.rows - {d}, t.locks + {d}) }

  function RemoveLock(t: Tables, d: Domain): Tables { t.(locks := t.locks - {d}) }

  // ----- The order is strict and total -----

  lemma {:induction false} LessTrichotomy(a: Domain, b: Domain)
    ensures Less(a, b) || a == b || Less(b, a)
    ensures !(Less(a, b) && Less(b, a)) && !Less(a, a)
  {
    if a != [] && b != [] && a[0] == b[0] {
      LessTrichotomy(a[1..], b[1..]);
      if a[1..] == b[1..] {
        assert a == [a[0]] + a[1..] && b == [b[0]] + b[1..];
      }
    }
    LessIrreflexive(a);
  }

  /** Names are ordered at their first difference, a proper prefix first. */
  lemma {:induction false} FirstDifference(a: Domain, b: Domain) returns (k: nat)
    ensures k <= |a| && k <= |b| && a[..k] == b[..k] && (k < |a| && k < |b| ==> a[k] != b[k])
    ensures Less(a, b) <==> k < |b| && (k == |a| || a[k] < b[k])
  {
    k := 0;
    if a != [] && b != [] && a[0] == b[0] {
      var n := FirstDifference(a[1..], b[1..]);
      k := n + 1;
      assert a[..k] == [a[0]] + a[1..][..n] && b[..k] == [b[0]] + b[1..][..n];
    }
  }

  lemma {:induction false} LessIrreflexive(a: Domain)
    ensures !Less(a, a)
  {
    if a != [] {
      LessIrreflexive(a[1..]);
    }
  }

  lemma {:induction false} LessTransitive(a: Domain, b: Domain, c: Domain)
    requires Less(a, b) && Less(b, c)
    ensures Less(a, c)
  {
    if a != [] && a[0] == b[0] == c[0] {
      LessTransitive(a[1..], b[1..], c[1..]);
    }
  }

  lemma BeforeTotal(rows: map<Domain, Row>, a: Domain, b: Domain)
    requires a in rows && b in rows
    ensures Before(rows, a, b) || a == b || Before(rows, b, a)
    ensures !(Before(rows, a, b) && Before(rows, b, a))
  {
    LessTrichotomy(a, b);
  }

  lemma BeforeTransitive(rows: map<Domain, Row>, a: Domain, b: Domain, c: Domain)
    requires a in rows && b in rows && c in rows && Before(rows, a, b) && Before(rows, b, c)
    ensures Before(rows, a, c)
  {
    if Less(a, b) && Less(b, c) {
      LessTransitive(a, b, c);
    }
  }

  /** After a common prefix, the next choice of a cannot come strictly before that of b. */
  lemma SameAt(rows: map<Domain, Row>, pool: Option<PoolId>, now: int, limit: nat,
               a: seq<Domain>, b: seq<Domain>, n: nat)
    requires IsClaim(rows, pool, now, limit, a) && IsClaim(rows, pool, now, limit, b)
    requires n < |a| && n < |b| && a[..n] == b[..n]
    ensures !Before(rows, a[n], b[n])
  {
    if Before(rows, a[n], b[n]) {
      BeforeTotal(rows, a[n], b[n]);
      if a[n] in b {
        var j :| 0 <= j < |b| && b[j] == a[n];
        if j < n {
          assert a[..n][j] == b[..n][j];
          BeforeTotal(rows, a[j], a[n]);
        }
      }
    }
  }

  lemma {:induction false} ClaimPrefix(rows: map<Domain, Row>, pool: Option<PoolId>, now: int, limit: nat,
                                       a: seq<Domain>, b: seq<Domain>, n: nat)
    requires IsClaim(rows, pool, now, limit, a) && IsClaim(rows, pool, now, limit, b)
    requires n <= |a| && n <= |b|
    ensures a[..n] == b[..n]
  {
    if n > 0 {
      ClaimPrefix(rows, pool, now, limit, a, b, n - 1);
      SameAt(rows, pool, now, limit, a, b, n - 1);
      SameAt(rows, pool, now, limit, b, a, n - 1);
      BeforeTotal(rows, a[n - 1], b[n - 1]);
      assert a[..n] == a[..n - 1] + [a[n - 1]] && b[..n] == b[..n - 1] + [b[n - 1]];
    }
  }

  lemma ClaimNotShorter(rows: map<Domain, Row>, pool: Option<PoolId>, now: int, limit: nat,
                        a: seq<Domain>, b: seq<Domain>)
    requires IsClaim(rows, pool, now, limit, a) && IsClaim(rows, pool, now, limit, b)
    requires |a| <= |b| && a == b[..|a|]
    ensures |a| == |b|
  {
    if |a| < |b| {
      assert Available(rows, b[|a|], pool, now);
      forall i | 0 <= i < |a| ensures a[i] != b[|a|] {
        assert a[i] == b[i];
        BeforeTotal(rows, b[i], b[|a|]);
      }
    }
  }

  /** The claim is determined: only one selection holds the first rows in order. */
  lemma ClaimIsUnique(rows: map<Domain, Row>, pool: Option<PoolId>, now: int, limit: nat,
                      a: seq<Domain>, b: seq<Domain>)
    requires IsClaim(rows, pool, now, limit, a) && IsClaim(rows, pool, now, limit, b)
    ensures a == b
  {
    var n := if |a| <= |b| then |a| else |b|;
    ClaimPrefix(rows, pool, now, limit, a, b, n);
    assert a[..|a|] == a && b[..|b|] == b;
    if |a| <= |b| {
      ClaimNotShorter(rows, pool, now, limit, a, b);
    } else {
      ClaimNotShorter(rows, pool, now, limit, b, a);
    }
  }
}
