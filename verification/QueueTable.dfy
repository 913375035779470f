/** The queue and lock tables as the program updates them, the invariants every operation
    keeps, and one pass of a classifier worker over them. */
module QueueTable {
  import opened Basics
  import opened Queue

  method FirstOf(rows: map<Domain, Row>, candidates: set<Domain>) returns (best: Domain)
    requires candidates != {} && forall d :: d in candidates ==> d in rows
    ensures best in candidates && forall d :: d in candidates && d != best ==> Before(rows, best, d)
  {
    best :| best in candidates;
    var todo := candidates - {best};
    while todo != {}
      invariant best in candidates && todo <= candidates && best !in todo
      invariant forall d :: d in candidates && d !in todo && d != best ==> Before(rows, best, d)
      decreases |todo|
    {
      var d :| d in todo;
      BeforeTotal(rows, best, d);
      if Before(rows, d, best) {
        forall x | x in candidates && x !in todo && x != best ensures Before(rows, d, x) {
          BeforeTransitive(rows, d, best, x);
        }
        best := d;
      }
      todo := todo - {d};
    }
  }

  /** The waiting rows of the pool whose time has come. */
  function Claimable(rows: map<Domain, Row>, pool: Option<PoolId>, now: int): set<Domain> {
    set d | d in rows && rows[d].state == Queued && now >= rows[d].availableAt && pool in {None, Some(rows[d].pool)}
  }

  function SetOf(sel: seq<Domain>): set<Domain> { set d | d in sel }

  /** Of higher priority, or of the same and older. */
  predicate MoreUrgent(a: Row, b: Row) {
    b.priority < a.priority || (b.priority == a.priority && b.createdAt > a.createdAt)
  }

  predicate MostUrgentFirst(rows: map<Domain, Row>, sel: seq<Domain>)
    requires forall d :: d in sel ==> d in rows
  {
    forall i, j :: 0 <= i < j < |sel| ==> !MoreUrgent(rows[sel[j]], rows[sel[i]])
  }

  /** A claim takes waiting rows of its pool whose time has come, as many as it may or all, and none
      is more urgent than one before it or left when one more urgent is. */
  lemma ClaimMeans(rows: map<Domain, Row>, pool: Option<PoolId>, now: int, limit: nat, sel: seq<Domain>)
    requires IsClaim(rows, pool, now, limit, sel)
    ensures |sel| <= limit && (|sel| == limit || Claimable(rows, pool, now) <= SetOf(sel))
    ensures SetOf(sel) <= Claimable(rows, pool, now) && (forall d :: d in sel ==> d in rows)
    ensures MostUrgentFirst(rows, sel)
    ensures forall c, d :: c in sel && d in Claimable(rows, pool, now) && d !in sel ==> !MoreUrgent(rows[d], rows[c])
  {
    forall d ensures d in Claimable(rows, pool, now) <==> Available(rows, d, pool, now) {
    }
    forall d | d in sel ensures Available(rows, d, pool, now) {
      var i :| 0 <= i < |sel| && sel[i] == d;
    }
    forall c, d | c in sel && d in Claimable(rows, pool, now) && d !in sel ensures !MoreUrgent(rows[d], rows[c]) {
      var i :| 0 <= i < |sel| && sel[i] == c;
      assert Before(rows, sel[i], d);
    }
  }

  /** The ordered, limited query of a claim. */
  method FirstAvailable(rows: map<Domain, Row>, pool: Option<PoolId>, now: int, limit: nat) returns (sel: seq<Domain>)
    ensures IsClaim(rows, pool, now, limit, sel)
  {
    var remaining := set d | d in rows && Available(rows, d, pool, now);
    sel := [];
    while |sel| < limit && remaining != {}
      invariant |sel| <= limit
      invariant forall i :: 0 <= i < |sel| ==> Available(rows, sel[i], pool, now)
      invariant forall i, j :: 0 <= i < j < |sel| ==> Before(rows, sel[i], sel[j])
      invariant forall d :: d in remaining <==> Available(rows, d, pool, now) && d !in sel
      invariant forall i, d :: 0 <= i < |sel| && d in remaining ==> Before(rows, sel[i], d)
      decreases |remaining|
    {
      var d := FirstOf(rows, remaining);
      sel := sel + [d];
      remaining := remaining - {d};
    }
  }

  class QueueTable {
    var rows: map<Domain, Row>
    var locks: set<Domain>

    ghost function State(): Tables
      reads this
    {
      Tables(rows, locks)
    }

    constructor ()
      ensures State() == EMPTY_TABLES
    {
      rows, locks := map[], {};
    }

    method Enqueue(domains: seq<Domain>, a: Ask, excluded: Domain -> bool) returns (c: Counts)
      modifies this
      ensures (State(), c) == Queue.Enqueue(old(State()), domains, a, excluded)
    {
      var unique := Unique(domains);
      var kept := Without(unique, excluded);
      c := Counts(|unique|, 0, 0, 0, 0, |unique| - |kept|);
      for i := 0 to |kept|
        invariant Queue.Enqueue(old(State()), domains, a, excluded) == EnqueueAll(State(), kept[i..], a, c)
      {
        assert kept[i..][1..] == kept[i + 1..];
        var d := kept[i];
        assert EnqueueAll(State(), kept[i..], a, c) ==
               EnqueueAll(EnqueueOne(State(), d, a), kept[i + 1..], a, Count(c, OutcomeOf(State(), d)));
        if d in locks {
          c := c.(locked := c.locked + 1);
          continue;
        }
        if d !in rows {
          rows := rows[d := Row(Queued, 0, a.now, a.now, a.priority, a.source, a.pool, 0)];
          c := c.(queued := c.queued + 1);
          continue;
        }
        var r := rows[d];
        if r.state.Processing? {
          c := c.(pending := c.pending + 1);
          continue;
        }
        if r.state.Queued? {
          rows := rows[d := r.(priority := MaxInt(r.priority, a.priority),
                               source := if a.priority >= r.priority && a.source != "" then a.source else r.source,
                               pool := if a.priority >= r.priority then a.pool else r.pool,
                               availableAt := 0)];
          c := c.(pending := c.pending + 1);
          continue;
        }
        rows := rows[d := r.(state := Queued, attempts := 0, updatedAt := a.now,
                             priority := MaxInt(r.priority, a.priority),
                             source := if a.source != "" then a.source else r.source,
                             pool := a.pool, availableAt := 0)];
        c := c.(requeued := c.requeued + 1);
      }
    }

    method Claim(limit: int, pool: Option<PoolId>, now: int) returns (sel: seq<Domain>)
      modifies this
      ensures IsClaim(old(rows), pool, now, MaxInt(1, limit), sel)
      ensures rows == MarkProcessing(old(rows), sel, now) && locks == old(locks) && rows.Keys == old(rows).Keys
      ensures forall d :: d in rows ==>
                rows[d] == if d !in sel then old(rows)[d]
                           else old(rows)[d].(state := Processing, attempts := old(rows)[d].attempts + 1,
                                              updatedAt := now)
    {
      sel := FirstAvailable(rows, pool, now, MaxInt(1, limit));
      rows := MarkProcessing(rows, sel, now);
    }

    method Ack(d: Domain)
      modifies this
      ensures State() == Queue.Ack(old(State()), d)
    {
      rows := rows - {d};
    }

    method Fail(d: Domain, now: int, maxAttempts: nat)
      modifies this
      ensures State() == Queue.Fail(old(State()), d, now, maxAttempts)
      ensures rows.Keys == old(rows).Keys && forall x :: x in rows && x != d ==> rows[x] == old(rows)[x]
      ensures d in rows ==> rows[d].attempts == old(rows)[d].attempts && rows[d].availableAt == 0
      ensures d in rows ==> rows[d].state == if old(rows)[d].attempts < maxAttempts then Queued else Failed
    {
      if d in rows {
        var r := rows[d];
        rows := rows[d := r.(state := if r.attempts >= maxAttempts then Failed else Queued, updatedAt := now,
                             availableAt := 0)];
      }
    }

    method Defer(d: Domain, now: int, retryAt: int)
      modifies this
      ensures State() == Queue.Defer(old(State()), d, now, retryAt)
    {
      if d in rows {
        var r := rows[d];
        rows := rows[d := r.(state := Queued, attempts := MaxInt(0, r.attempts - 1), updatedAt := now,
                             availableAt := MaxInt(now + 1, retryAt))];
      }
    }

    /** A starting worker puts back what an earlier one of its pool left in processing. */
    method RequeueProcessing(pool: Option<PoolId>, now: int)
      modifies this
      ensures State() == Queue.RequeueProcessing(old(State()), pool, now) && rows.Keys == old(rows).Keys
      ensures forall d :: d in rows ==>
                var r := old(rows)[d];
                rows[d] == if r.state == Processing && pool in {None, Some(r.pool)}
                           then r.(state := Queued, updatedAt := now, availableAt := 0) else r
    {
      rows := map d | d in rows ::
        var r := rows[d];
        if r.state.Processing? && (pool.Some? ==> r.pool == pool.value)
        then r.(state := Queued, updatedAt := now, availableAt := 0) else r;
    }

    method SetLock(d: Domain)
      modifies this
      ensures State() == Queue.SetLock(old(State()), d)
      ensures forall x :: x in locks <==> x == d || x in old(locks)
      ensures d !in rows && forall x :: x != d ==> RowOf(State(), x) == old(RowOf(State(), x))
    {
      locks := locks + {d};
      rows := rows - {d};
    }

    method RemoveLock(d: Domain)
      modifies this
      ensures State() == Queue.RemoveLock(old(State()), d)
      ensures rows == old(rows) && forall x :: x in locks <==> x != d && x in old(locks)
    {
      locks := locks - {d};
    }

    /** One pass of a worker's loop after its queue is ready: claim, drop what was locked
        meanwhile, and settle the rest by how the dispatch ended. A stopping worker hands
        its claim back. */
    method ClassifierPass(limit: int, pool: PoolId, now: int, stopping: bool, report: Report)
      returns (claimed: seq<Domain>)
      modifies this
      ensures IsClaim(old(rows), Some(pool), now, MaxInt(1, limit), claimed)
      ensures State() == PassResult(old(State()), claimed, now, stopping, report)
    {
      claimed := Claim(limit, Some(pool), now);
      if stopping {
        Settle(claimed, now, Withdrawn);
        return;
      }
      var unlocked := DropLocked(claimed);
      Settle(unlocked, now, report);
    }

    /** Rows of domains that were locked after the claim are dropped. */
    method DropLocked(claimed: seq<Domain>) returns (unlocked: seq<Domain>)
      modifies this
      ensures State() == SkipLocked(old(State()), claimed) && locks == old(locks)
      ensures unlocked == Unlocked(locks, claimed)
    {
      unlocked := [];
      for i := 0 to |claimed|
        invariant locks == old(locks)
        invariant SkipLocked(old(State()), claimed) == SkipLocked(State(), claimed[i..])
        invariant Unlocked(locks, claimed) == unlocked + Unlocked(locks, claimed[i..])
      {
        assert claimed[i..][1..] == claimed[i + 1..];
        if claimed[i] in locks {
          Ack(claimed[i]);
        } else {
          unlocked := unlocked + [claimed[i]];
        }
      }
      assert unlocked + [] == unlocked;
    }

    method Settle(domains: seq<Domain>, now: int, report: Report)
      modifies this
      ensures State() == SettleAll(old(State()), domains, now, report)
    {
      for i := 0 to |domains|
        invariant SettleAll(old(State()), domains, now, report) == SettleAll(State(), domains[i..], now, report)
      {
        assert domains[i..][1..] == domains[i + 1..];
        match Verdict(report, domains[i], now) {
          case Acked => Ack(domains[i]);
          case Deferred(at) => Defer(domains[i], now, at);
          case GivenUp => Fail(domains[i], now, 1);
        }
      }
    }
  }

  // ----- Settling a batch -----

  /** How the dispatch of a claimed batch ended. */
  datatype Report =
    | Dispatched(completed: set<Domain>, retryAt: int)   // some domains classified; latest retry time of the errors
    | Unavailable(retryAt: int)
    | Withdrawn                                          // cancelled, or the worker is stopping
    | Broken                                             // any other error

  datatype Settlement = Acked | Deferred(at: int) | GivenUp

  function Verdict(report: Report, d: Domain, now: int): Settlement {
    match report
    case Dispatched(completed, retryAt) =>
      if d in completed then Acked else if retryAt > now then Deferred(retryAt) else GivenUp
    case Unavailable(retryAt) => if retryAt > now then Deferred(retryAt) else GivenUp
    case Withdrawn => Deferred(now)
    case Broken => GivenUp
  }

  function SettleOne(t: Tables, d: Domain, now: int, report: Report): Tables {
    match Verdict(report, d, now)
    case Acked => Ack(t, d)
    case Deferred(at) => Defer(t, d, now, at)
    case GivenUp => Fail(t, d, now, 1)
  }

  function SettleAll(t: Tables, ds: seq<Domain>, now: int, report: Report): Tables
    decreases |ds|
  {
    if ds == [] then t else SettleAll(SettleOne(t, ds[0], now, report), ds[1..], now, report)
  }

  function SkipLocked(t: Tables, ds: seq<Domain>): Tables
    decreases |ds|
  {
    if ds == [] then t else SkipLocked(if ds[0] in t.locks then Ack(t, ds[0]) else t, ds[1..])
  }

  function Unlocked(locks: set<Domain>, ds: seq<Domain>): seq<Domain> {
    if ds == [] then [] else (if ds[0] in locks then [] else [ds[0]]) + Unlocked(locks, ds[1..])
  }

  function PassResult(t: Tables, claimed: seq<Domain>, now: int, stopping: bool, report: Report): Tables {
    var marked := t.(rows := MarkProcessing(t.rows, claimed, now));
    if stopping then SettleAll(marked, claimed, now, Withdrawn)
    else SettleAll(SkipLocked(marked, claimed), Unlocked(marked.locks, claimed), now, report)
  }

  function RowOf(t: Tables, d: Domain): Option<Row> { if d in t.rows then Some(t.rows[d]) else None }

  predicate NoRepeats(ds: seq<Domain>) { forall i, j :: 0 <= i < j < |ds| ==> ds[i] != ds[j] }

  /** Settling a batch settles each of its domains once and touches no other row. */
  lemma {:induction false} SettledAt(t: Tables, ds: seq<Domain>, now: int, report: Report, d: Domain)
    requires NoRepeats(ds)
    ensures RowOf(SettleAll(t, ds, now, report), d) ==
            if d in ds then RowOf(SettleOne(t, d, now, report), d) else RowOf(t, d)
    decreases |ds|
  {
    if ds != [] {
      var mid := SettleOne(t, ds[0], now, report);
      SettledAt(mid, ds[1..], now, report, d);
      assert ds[0] !in ds[1..];
    }
  }

  lemma {:induction false} SkippedAt(t: Tables, ds: seq<Domain>, d: Domain)
    ensures SkipLocked(t, ds).locks == t.locks
    ensures RowOf(SkipLocked(t, ds), d) == if d in ds && d in t.locks then None else RowOf(t, d)
    decreases |ds|
  {
    if ds != [] {
      SkippedAt(if ds[0] in t.locks then Ack(t, ds[0]) else t, ds[1..], d);
    }
  }

  lemma {:induction false} UnlockedAt(locks: set<Domain>, ds: seq<Domain>)
    requires NoRepeats(ds)
    ensures NoRepeats(Unlocked(locks, ds))
    ensures forall d :: d in Unlocked(locks, ds) <==> d in ds && d !in locks
  {
    if ds != [] {
      UnlockedAt(locks, ds[1..]);
      assert ds[0] !in ds[1..];
    }
  }

  lemma ClaimHasNoRepeats(rows: map<Domain, Row>, pool: Option<PoolId>, now: int, limit: nat, sel: seq<Domain>)
    requires IsClaim(rows, pool, now, limit, sel)
    ensures NoRepeats(sel)
  {
    forall i, j | 0 <= i < j < |sel| ensures sel[i] != sel[j] {
      BeforeTotal(rows, sel[i], sel[j]);
    }
  }

  /** Queued again until the retry time with the attempts it had, or failed if that time has come. */
  function Postponed(r: Row, now: int, retryAt: int): Row {
    if retryAt > now then r.(updatedAt := now, availableAt := retryAt) else GivenUpOn(r, now)
  }

  function GivenUpOn(r: Row, now: int): Row {
    r.(state := Failed, attempts := r.attempts + 1, updatedAt := now, availableAt := 0)
  }

  /** What a pass leaves of a claimed row: a stopping worker hands it back; a locked domain is
      dropped; a classified one is gone; one without a classification waits for the providers or
      fails; a cancelled one is handed back; after any other error it fails. */
  function AfterPass(r: Row, locked: bool, d: Domain, now: int, stopping: bool, report: Report): Option<Row> {
    if stopping then Some(r.(updatedAt := now, availableAt := now + 1))
    else if locked then None
    else
      match report
      case Dispatched(completed, retryAt) => if d in completed then None else Some(Postponed(r, now, retryAt))
      case Unavailable(retryAt) => Some(Postponed(r, now, retryAt))
      case Withdrawn => Some(r.(updatedAt := now, availableAt := now + 1))
      case Broken => Some(GivenUpOn(r, now))
  }

  /** Each claimed row is settled once; rows of domains locked meanwhile are dropped. */
  lemma PassAt(t: Tables, claimed: seq<Domain>, now: int, stopping: bool, report: Report, d: Domain)
    requires NoRepeats(claimed)
    ensures var marked := t.(rows := MarkProcessing(t.rows, claimed, now));
            RowOf(PassResult(t, claimed, now, stopping, report), d) ==
            if d !in claimed then RowOf(t, d)
            else if !stopping && d in t.locks then None
            else RowOf(SettleOne(marked, d, now, if stopping then Withdrawn else report), d)
  {
    var marked := t.(rows := MarkProcessing(t.rows, claimed, now));
    if stopping {
      SettledAt(marked, claimed, now, Withdrawn, d);
    } else {
      SkippedAt(marked, claimed, d);
      UnlockedAt(t.locks, claimed);
      SettledAt(SkipLocked(marked, claimed), Unlocked(t.locks, claimed), now, report, d);
    }
  }

  /** A pass settles every row it claimed by how the dispatch ended; other rows are as before. */
  lemma EveryClaimSettled(t: Tables, pool: PoolId, now: int, limit: nat, claimed: seq<Domain>, stopping: bool,
                          report: Report, d: Domain)
    requires IsClaim(t.rows, Some(pool), now, limit, claimed)
    ensures var u := PassResult(t, claimed, now, stopping, report);
            && (d !in claimed ==> RowOf(u, d) == RowOf(t, d))
            && (d in claimed ==>
                  d in t.rows && RowOf(u, d) == AfterPass(t.rows[d], d in t.locks, d, now, stopping, report))
  {
    ClaimHasNoRepeats(t.rows, Some(pool), now, limit, claimed);
    PassAt(t, claimed, now, stopping, report, d);
    if d in claimed {
      var i :| 0 <= i < |claimed| && claimed[i] == d;
      assert Available(t.rows, claimed[i], Some(pool), now);
    }
  }

  // ----- Every operation -----

  datatype Operation =
    | EnqueueOp(domains: seq<Domain>, ask: Ask, excluded: Domain -> bool)
    | ClaimOp(sel: seq<Domain>, now: int)
    | AckOp(domain: Domain)
    | FailOp(domain: Domain, now: int, maxAttempts: nat)
    | DeferOp(domain: Domain, now: int, retryAt: int)
    | RequeueOp(pool: Option<PoolId>, now: int)
    | LockOp(domain: Domain)
    | UnlockOp(domain: Domain)

  function Apply(t: Tables, op: Operation): Tables {
    match op
    case EnqueueOp(ds, a, excluded) => Enqueue(t, ds, a, excluded).0
    case ClaimOp(sel, now) => t.(rows := MarkProcessing(t.rows, sel, now))
    case AckOp(d) => Ack(t, d)
    case FailOp(d, now, n) => Fail(t, d, now, n)
    case DeferOp(d, now, at) => Defer(t, d, now, at)
    case RequeueOp(p, now) => RequeueProcessing(t, p, now)
    case LockOp(d) => SetLock(t, d)
    case UnlockOp(d) => RemoveLock(t, d)
  }

  function ApplyAll(t: Tables, ops: seq<Operation>): Tables
    decreases |ops|
  {
    if ops == [] then t else ApplyAll(Apply(t, ops[0]), ops[1..])
  }

  predicate NoLockedRow(t: Tables) { forall d :: d in t.rows ==> d !in t.locks }

  /** A live row's priority never falls. */
  predicate Keeps(t: Tables, u: Tables) {
    forall d :: d in t.rows && d in u.rows ==> u.rows[d].priority >= t.rows[d].priority
  }

  lemma {:induction false} EnqueueAllKeeps(t: Tables, ds: seq<Domain>, a: Ask, c: Counts)
    ensures var u := EnqueueAll(t, ds, a, c).0;
            && u.locks == t.locks && (NoLockedRow(t) ==> NoLockedRow(u)) && Keeps(t, u)
            && (forall d :: d in t.rows ==> d in u.rows)
            && (forall d :: d in t.rows && t.rows[d].state.Processing? ==> u.rows[d] == t.rows[d])
    decreases |ds|
  {
    if ds != [] {
      EnqueueAllKeeps(EnqueueOne(t, ds[0], a), ds[1..], a, Count(c, OutcomeOf(t, ds[0])));
    }
  }

  lemma EnqueueOneGrows(t: Tables, d: Domain, a: Ask)
    ensures |EnqueueOne(t, d, a).rows| == |t.rows| + if OutcomeOf(t, d) == Inserted then 1 else 0
  {
    var u := EnqueueOne(t, d, a);
    assert u.rows.Keys == t.rows.Keys + if OutcomeOf(t, d) == Inserted then {d} else {};
    assert |u.rows| == |u.rows.Keys| && |t.rows| == |t.rows.Keys|;
  }

  /** What an enqueue finds decides what it does. */
  predicate Meets(t: Tables, d: Domain, o: Outcome) {
    match o
    case SkippedLocked => d in t.locks
    case Inserted => d !in t.locks && d !in t.rows
    case Requeued => d !in t.locks && d in t.rows && t.rows[d].state == Failed
    case Pending => d !in t.locks && d in t.rows && t.rows[d].state in {Queued, Processing}
  }

  function Meeting(t: Tables, ds: seq<Domain>, o: Outcome): nat {
    if ds == [] then 0 else (if Meets(t, ds[0], o) then 1 else 0) + Meeting(t, ds[1..], o)
  }

  lemma {:induction false} MeetingSame(t: Tables, u: Tables, ds: seq<Domain>, o: Outcome)
    requires u.locks == t.locks && forall d :: d in ds ==> RowOf(u, d) == RowOf(t, d)
    ensures Meeting(u, ds, o) == Meeting(t, ds, o)
  {
    if ds != [] {
      assert RowOf(u, ds[0]) == RowOf(t, ds[0]);
      MeetingSame(t, u, ds[1..], o);
    }
  }

  lemma MeetingAfter(t: Tables, ds: seq<Domain>, a: Ask)
    requires NoRepeats(ds) && ds != []
    ensures forall o :: Meeting(EnqueueOne(t, ds[0], a), ds[1..], o) == Meeting(t, ds[1..], o)
  {
    assert ds[0] !in ds[1..];
    forall o ensures Meeting(EnqueueOne(t, ds[0], a), ds[1..], o) == Meeting(t, ds[1..], o) {
      MeetingSame(t, EnqueueOne(t, ds[0], a), ds[1..], o);
    }
  }

  lemma {:induction false} EnqueueAllCounts(t: Tables, ds: seq<Domain>, a: Ask, c: Counts)
    requires NoRepeats(ds)
    ensures var (u, n) := EnqueueAll(t, ds, a, c);
            && n == Counts(c.requested, c.queued + Meeting(t, ds, Inserted), c.requeued + Meeting(t, ds, Requeued),
                           c.pending + Meeting(t, ds, Pending), c.locked + Meeting(t, ds, SkippedLocked), c.filtered)
            && |u.rows| == |t.rows| + Meeting(t, ds, Inserted)
    ensures Meeting(t, ds, Inserted) + Meeting(t, ds, Requeued) + Meeting(t, ds, Pending)
            + Meeting(t, ds, SkippedLocked) == |ds|
    decreases |ds|
  {
    if ds != [] {
      var u := EnqueueOne(t, ds[0], a);
      EnqueueOneGrows(t, ds[0], a);
      MeetingAfter(t, ds, a);
      EnqueueAllCounts(u, ds[1..], a, Count(c, OutcomeOf(t, ds[0])));
    }
  }

  /** Each count is of the distinct requested domains that met its case: not known yet, failed,
      waiting or in processing, locked, or excluded. `queued` is exactly the growth of the table,
      and rows in processing are left alone. */
  lemma EnqueueCounts(t: Tables, domains: seq<Domain>, a: Ask, excluded: Domain -> bool)
    ensures var (u, c) := Enqueue(t, domains, a, excluded);
            var kept := Without(Unique(domains), excluded);
            && c.queued == Meeting(t, kept, Inserted) && c.requeued == Meeting(t, kept, Requeued)
            && c.pending == Meeting(t, kept, Pending) && c.locked == Meeting(t, kept, SkippedLocked)
            && c.queued + c.requeued + c.pending + c.locked + c.filtered == c.requested == |Unique(domains)|
            && |u.rows| == |t.rows| + c.queued
            && (forall d :: d in t.rows && t.rows[d].state.Processing? ==> d in u.rows && u.rows[d] == t.rows[d])
  {
    var unique := Unique(domains);
    var kept := Without(unique, excluded);
    var c := Counts(|unique|, 0, 0, 0, 0, |unique| - |kept|);
    WithoutSome(unique, excluded);
    EnqueueAllKeeps(t, kept, a, c);
    EnqueueAllCounts(t, kept, a, c);
  }

  /** Nothing changes for a domain that was not asked for, is excluded or locked, or is in
      processing. Every other one is queued and available at once, at least as urgently as asked,
      from the most urgent ask's pool and source, and keeps its age if it had a row. */
  lemma EnqueueServes(t: Tables, domains: seq<Domain>, a: Ask, excluded: Domain -> bool, d: Domain)
    ensures var u := Enqueue(t, domains, a, excluded).0;
            && u.locks == t.locks
            && if d == "" || d !in domains || excluded(d) || d in t.locks
                  || (d in t.rows && t.rows[d].state == Processing)
               then RowOf(u, d) == RowOf(t, d)
               else
                 && d in u.rows && u.rows[d].state == Queued && u.rows[d].availableAt == 0
                 && ServedRow(RowOf(t, d), u.rows[d], a)
  {
    var unique := Unique(domains);
    var kept := Without(unique, excluded);
    WithoutSome(unique, excluded);
    EnqueuedAt(t, kept, a, Counts(|unique|, 0, 0, 0, 0, |unique| - |kept|), d);
  }

  /** A failed row starts over as asked; a waiting one takes pool and source of an ask at least as
      urgent; a blank source replaces nothing. */
  predicate ServedRow(before: Option<Row>, r: Row, a: Ask) {
    match before
    case None =>
      && r.attempts == 0 && r.createdAt == r.updatedAt == a.now && r.priority == a.priority
      && r.source == a.source && r.pool == a.pool
    case Some(b) =>
      var taken := b.state == Failed || a.priority >= b.priority;
      && r.createdAt == b.createdAt && r.priority >= a.priority && r.priority >= b.priority
      && r.priority in {a.priority, b.priority}
      && r.pool == (if taken then a.pool else b.pool)
      && r.source == (if taken && a.source != "" then a.source else b.source)
      && (b.state == Failed ==> r.attempts == 0 && r.updatedAt == a.now)
      && (b.state == Queued ==> r.attempts == b.attempts && r.updatedAt == b.updatedAt)
  }

  /** Each requested domain's row is what one enqueue makes of it; no other row changes. */
  lemma {:induction false} EnqueuedAt(t: Tables, ds: seq<Domain>, a: Ask, c: Counts, d: Domain)
    requires NoRepeats(ds)
    ensures var u := EnqueueAll(t, ds, a, c).0;
            u.locks == t.locks && RowOf(u, d) == if d in ds then RowOf(EnqueueOne(t, d, a), d) else RowOf(t, d)
    decreases |ds|
  {
    if ds != [] {
      EnqueuedAt(EnqueueOne(t, ds[0], a), ds[1..], a, Count(c, OutcomeOf(t, ds[0])), d);
      assert ds[0] !in ds[1..];
    }
  }

  /** The domain is locked, in processing, or queued at least as urgently as asked. */
  predicate Served(t: Tables, d: Domain, a: Ask, later: int) {
    OutcomeOf(t, d) in {Pending, SkippedLocked} && EnqueueOne(t, d, a.(now := later)) == t
  }

  lemma ServedAfter(t: Tables, u: Tables, d: Domain, a: Ask, later: int)
    requires u.locks == t.locks && RowOf(u, d) == RowOf(EnqueueOne(t, d, a), d)
    ensures Served(u, d, a, later)
  {
    if d in u.rows && d !in u.locks {
      assert u.rows[d] == RowOf(u, d).value;
      assert u.rows[d := u.rows[d]] == u.rows;
    }
  }

  lemma {:induction false} ServedStays(t: Tables, ds: seq<Domain>, a: Ask, later: int, c: Counts)
    requires forall d :: d in ds ==> Served(t, d, a, later)
    ensures var (u, n) := EnqueueAll(t, ds, a.(now := later), c);
            u == t && n.queued == c.queued && n.requeued == c.requeued
    decreases |ds|
  {
    if ds != [] {
      assert Served(t, ds[0], a, later);
      ServedStays(t, ds[1..], a, later, Count(c, OutcomeOf(t, ds[0])));
    }
  }

  lemma {:induction false} WithoutSome(ds: seq<Domain>, excluded: Domain -> bool)
    requires NoRepeats(ds)
    ensures NoRepeats(Without(ds, excluded))
    ensures forall d :: d in Without(ds, excluded) <==> d in ds && !excluded(d)
  {
    if ds != [] {
      WithoutSome(ds[1..], excluded);
      assert ds[0] !in ds[1..];
    }
  }

  /** Enqueueing is idempotent: asking again for the same domains, at any later time, changes
      no row and counts nothing as queued or requeued. */
  lemma RepeatedEnqueueIsPending(t: Tables, domains: seq<Domain>, a: Ask, excluded: Domain -> bool, later: int)
    ensures var u := Enqueue(t, domains, a, excluded).0;
            var (v, c) := Enqueue(u, domains, a.(now := later), excluded);
            v == u && c.queued == 0 && c.requeued == 0
  {
    var unique := Unique(domains);
    var kept := Without(unique, excluded);
    var c := Counts(|unique|, 0, 0, 0, 0, |unique| - |kept|);
    var u := EnqueueAll(t, kept, a, c).0;
    WithoutSome(unique, excluded);
    forall d | d in kept ensures Served(u, d, a, later) {
      EnqueuedAt(t, kept, a, c, d);
      ServedAfter(t, u, d, a, later);
    }
    ServedStays(u, kept, a, later, c);
  }

  lemma ApplyKeeps(t: Tables, op: Operation)
    requires NoLockedRow(t)
    ensures NoLockedRow(Apply(t, op)) && Keeps(t, Apply(t, op))
  {
    if op.EnqueueOp? {
      var unique := Unique(op.domains);
      var kept := Without(unique, op.excluded);
      EnqueueAllKeeps(t, kept, op.ask, Counts(|unique|, 0, 0, 0, 0, |unique| - |kept|));
    }
  }

  predicate AlwaysPresent(t: Tables, ops: seq<Operation>, d: Domain)
    decreases |ops|
  {
    d in t.rows && (ops != [] ==> AlwaysPresent(Apply(t, ops[0]), ops[1..], d))
  }

  /** In every reachable state a locked domain has no queue row, and as long as a row lives
      its priority never falls. */
  lemma {:induction false} QueueInvariants(t: Tables, ops: seq<Operation>)
    requires NoLockedRow(t)
    ensures NoLockedRow(ApplyAll(t, ops))
    ensures forall d :: AlwaysPresent(t, ops, d) ==>
              d in ApplyAll(t, ops).rows && ApplyAll(t, ops).rows[d].priority >= t.rows[d].priority
    decreases |ops|
  {
    if ops != [] {
      ApplyKeeps(t, ops[0]);
      QueueInvariants(Apply(t, ops[0]), ops[1..]);
    }
  }
}
