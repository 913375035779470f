/** The two classifier workers, enqueuers and lock holders interleaved at transaction
    granularity: who owns a row in processing, and why queued work is not lost. */
module Workers {
  import opened Basics
  import opened Queue

  /** A worker either is not running or holds the unsettled part of its current batch, with
      the domains whose classification it saved and those it found locked. */
  datatype Worker =
    | Ended
    | Running(batch: set<Domain>, saved: set<Domain>, skipped: set<Domain>)

  /** enqueuedAt and savedAt are history: when an enqueue last counted a domain as queued or
      requeued, and when a classification of it was last saved. */
  datatype System = System(t: Tables, realtime: Worker, background: Worker, clock: nat,
                           enqueuedAt: map<Domain, nat>, savedAt: map<Domain, nat>)

  datatype Event =
    | EnqueueDomain(d: Domain, ask: Ask)
    | Lock(d: Domain)
    | Unlock(d: Domain)
    | Remove(d: Domain)
    | Start(p: PoolId, now: int)                         // a new thread requeues its pool's orphans
    | Claim(p: PoolId, now: int, limit: nat, sel: seq<Domain>)
    | FindLocked(p: PoolId, d: Domain)                   // the lock check; the row is dropped later
    | Save(p: PoolId, d: Domain)
    | AckRow(p: PoolId, d: Domain)
    | DeferRow(p: PoolId, d: Domain, now: int, retryAt: int)
    | FailRow(p: PoolId, d: Domain, now: int)
    | End(p: PoolId)                                     // the thread is gone, settled or not

  const INITIAL := System(EMPTY_TABLES, Ended, Ended, 0, map[], map[])

  function WorkerOf(s: System, p: PoolId): Worker {
    if p == Realtime then s.realtime else s.background
  }

  function WithWorker(s: System, p: PoolId, w: Worker): System {
    if p == Realtime then s.(realtime := w) else s.(background := w)
  }

  predicate Holds(s: System, p: PoolId, d: Domain)
  {
    WorkerOf(s, p).Running? && d in WorkerOf(s, p).batch
  }

  ghost predicate Enabled(s: System, e: Event)
  {
    match e
    case EnqueueDomain(_, _) => true
    case Lock(_) => true
    case Unlock(_) => true
    case Remove(_) => true
    case Start(p, _) => WorkerOf(s, p).Ended?
    case Claim(p, now, limit, sel) =>
      WorkerOf(s, p).Running? && WorkerOf(s, p).batch == {} && IsClaim(s.t.rows, Some(p), now, limit, sel)
    case FindLocked(p, d) => Holds(s, p, d) && d in s.t.locks
    case Save(p, d) => Holds(s, p, d)
    case AckRow(p, d) => Holds(s, p, d) && (d in WorkerOf(s, p).saved || d in WorkerOf(s, p).skipped)
    case DeferRow(p, d, _, _) => Holds(s, p, d)
    case FailRow(p, d, _) => Holds(s, p, d)
    case End(p) => WorkerOf(s, p).Running?
  }

  function SetOf(sel: seq<Domain>): set<Domain> { set d | d in sel }

  function Drop(w: Worker, d: Domain): Worker {
    if w.Ended? then w else Running(w.batch - {d}, w.saved - {d}, w.skipped - {d})
  }

  function NoteSaved(w: Worker, d: Domain): Worker {
    if w.Ended? then w else w.(saved := w.saved + {d})
  }

  function NoteSkipped(w: Worker, d: Domain): Worker {
    if w.Ended? then w else w.(skipped := w.skipped + {d})
  }

  function Effect(s: System, e: Event): System {
    match e
    case EnqueueDomain(d, a) =>
      var o := OutcomeOf(s.t, d);
      s.(t := EnqueueOne(s.t, d, a),
         enqueuedAt := if o == Inserted || o == Requeued then s.enqueuedAt[d := s.clock] else s.enqueuedAt)
    case Lock(d) => s.(t := SetLock(s.t, d))
    case Unlock(d) => s.(t := RemoveLock(s.t, d))
    case Remove(d) => s.(t := Ack(s.t, d))
    case Start(p, now) => WithWorker(s.(t := RequeueProcessing(s.t, Some(p), now)), p, Running({}, {}, {}))
    case Claim(p, now, _, sel) =>
      WithWorker(s.(t := s.t.(rows := MarkProcessing(s.t.rows, sel, now))), p, Running(SetOf(sel), {}, {}))
    case FindLocked(p, d) => WithWorker(s, p, NoteSkipped(WorkerOf(s, p), d))
    case Save(p, d) => WithWorker(s.(savedAt := s.savedAt[d := s.clock]), p, NoteSaved(WorkerOf(s, p), d))
    case AckRow(p, d) => WithWorker(s.(t := Ack(s.t, d)), p, Drop(WorkerOf(s, p), d))
    case DeferRow(p, d, now, at) => WithWorker(s.(t := Defer(s.t, d, now, at)), p, Drop(WorkerOf(s, p), d))
    case FailRow(p, d, now) => WithWorker(s.(t := Fail(s.t, d, now, 1)), p, Drop(WorkerOf(s, p), d))
    case End(p) => WithWorker(s, p, Ended)
  }

  /** A disabled event does nothing; time passes either way. */
  ghost function Next(s: System, e: Event): (u: System)
  {
    var u := if Enabled(s, e) then Effect(s, e) else s;
    u.(clock := s.clock + 1)
  }

  ghost function Run(s: System, events: seq<Event>): (u: System)
    decreases |events|
  {
    if events == [] then s else Run(Next(s, events[0]), events[1..])
  }

  // ----- Ownership in every run -----

  predicate InProcessing(t: Tables, d: Domain, p: PoolId) {
    d in t.rows && t.rows[d].state.Processing? && t.rows[d].pool == p
  }

  /** A running worker holds every row of its pool that is in processing. */
  ghost predicate Owned(s: System)
  {
    forall p, d :: WorkerOf(s, p).Running? && InProcessing(s.t, d, p) ==> Holds(s, p, d)
  }

  lemma ClaimedAreAvailable(s: System, p: PoolId, now: int, limit: nat, sel: seq<Domain>, d: Domain)
    requires Enabled(s, Claim(p, now, limit, sel)) && d in sel
    ensures d in s.t.rows && s.t.rows[d].state.Queued? && s.t.rows[d].pool == p && s.t.rows[d].availableAt <= now
  {
    var i :| 0 <= i < |sel| && sel[i] == d;
    assert Available(s.t.rows, sel[i], Some(p), now);
  }

  /** Only a claim of the pool puts a row in processing. */
  lemma EntersByClaim(s: System, e: Event, d: Domain, p: PoolId)
    requires InProcessing(Next(s, e).t, d, p)
    ensures InProcessing(s.t, d, p) || (e.Claim? && e.p == p && d in e.sel && Enabled(s, e))
  {
    if Enabled(s, e) && e.Claim? && d in e.sel {
      ClaimedAreAvailable(s, e.p, e.now, e.limit, e.sel, d);
    }
  }

  lemma NextOwned(s: System, e: Event)
    requires Owned(s)
    ensures Owned(Next(s, e))
  {
    var u := Next(s, e);
    forall p, d | WorkerOf(u, p).Running? && InProcessing(u.t, d, p) ensures Holds(u, p, d) {
      EntersByClaim(s, e, d, p);
      if InProcessing(s.t, d, p) && WorkerOf(s, p).Running? {
        assert Holds(s, p, d);
      }
    }
  }

  /** Queue ownership, over all interleavings and including removals, locks and crashes: while
      worker p runs, every row in processing of pool p is in its current unsettled batch. */
  lemma {:induction false} RowsInProcessingAreHeld(events: seq<Event>, s: System)
    requires Owned(s)
    ensures Owned(Run(s, events))
    decreases |events|
  {
    if events != [] {
      NextOwned(s, events[0]);
      RowsInProcessingAreHeld(events[1..], Next(s, events[0]));
    }
  }

  /** A worker that starts again finds every row its pool had in processing queued and available;
      its batch is empty, and no other row changes. */
  lemma RestartRequeues(s: System, p: PoolId, now: int, d: Domain)
    requires WorkerOf(s, p).Ended?
    ensures var u := Next(s, Start(p, now));
            && WorkerOf(u, p) == Running({}, {}, {}) && u.t.locks == s.t.locks
            && (d in u.t.rows <==> d in s.t.rows) && !InProcessing(u.t, d, p)
            && (d in s.t.rows ==>
                  u.t.rows[d] == if InProcessing(s.t, d, p)
                                 then s.t.rows[d].(state := Queued, updatedAt := now, availableAt := 0)
                                 else s.t.rows[d])
            && (InProcessing(s.t, d, p) ==> forall t: nat :: Available(u.t.rows, d, Some(p), t))
  {
  }

  // ----- Exclusive flight -----

  /** The event deletes, from outside the workers, a row that a running worker holds. */
  predicate Rips(s: System, e: Event) {
    (e.Lock? || e.Remove?) && (Holds(s, Realtime, e.d) || Holds(s, Background, e.d))
  }

  ghost predicate NeverRips(s: System, events: seq<Event>)
    decreases |events|
  {
    events != [] ==> !Rips(s, events[0]) && NeverRips(Next(s, events[0]), events[1..])
  }

  /** A worker holds exactly the rows of its pool in processing, and no lock covers a row. */
  ghost predicate Exact(s: System)
  {
    && (forall p, d :: WorkerOf(s, p).Running? ==> (Holds(s, p, d) <==> InProcessing(s.t, d, p)))
    && (forall d :: d in s.t.rows ==> d !in s.t.locks)
    && (forall p, d :: WorkerOf(s, p).Running? && d in WorkerOf(s, p).saved ==> Holds(s, p, d))
    && (forall p :: WorkerOf(s, p).Running? ==> WorkerOf(s, p).skipped == {})
  }

  lemma NextExact(s: System, e: Event)
    requires Exact(s) && !Rips(s, e)
    ensures Exact(Next(s, e))
  {
    var u := Next(s, e);
    NextOwned(s, e);
    forall p ensures var w := WorkerOf(u, p); w.Running? ==> w.saved <= w.batch && w.skipped == {} {
      SavedStayHeld(s, e, p);
      NothingSkipped(s, e, p);
    }
    forall p, d | WorkerOf(u, p).Running? && Holds(u, p, d) ensures InProcessing(u.t, d, p) {
      StaysHeld(s, e, p, d);
    }
    forall d | d in u.t.rows ensures d !in u.t.locks {
      assert d in s.t.rows ==> d !in s.t.locks;
    }
  }

  lemma SavedStayHeld(s: System, e: Event, p: PoolId)
    requires forall d :: WorkerOf(s, p).Running? && d in WorkerOf(s, p).saved ==> Holds(s, p, d)
    ensures var w := WorkerOf(Next(s, e), p);
            w.Running? ==> w.saved <= w.batch
  {
    if WorkerOf(s, p).Running? {
      assert WorkerOf(s, p).saved <= WorkerOf(s, p).batch by {
        assert forall d :: d in WorkerOf(s, p).saved ==> Holds(s, p, d);
      }
    }
  }

  lemma NothingSkipped(s: System, e: Event, p: PoolId)
    requires Exact(s)
    ensures var w := WorkerOf(Next(s, e), p);
            w.Running? ==> w.skipped == {}
  {
    assert e.FindLocked? && Holds(s, e.p, e.d) ==> InProcessing(s.t, e.d, e.p);
    assert !(e.FindLocked? && Enabled(s, e));
    assert WorkerOf(s, p).Running? ==> WorkerOf(s, p).skipped == {};
  }

  /** The event neither settles d for worker p nor ends the worker. */
  predicate LeavesTo(e: Event, p: PoolId, d: Domain) {
    match e
    case AckRow(q, x) => q != p || x != d
    case DeferRow(q, x, _, _) => q != p || x != d
    case FailRow(q, x, _) => q != p || x != d
    case End(q) => q != p
    case _ => true
  }

  /** Only its holder changes a row in processing. */
  lemma HeldRowSame(s: System, e: Event, p: PoolId, d: Domain)
    requires Exact(s) && Holds(s, p, d) && !Rips(s, e) && LeavesTo(e, p, d)
    ensures Holds(Next(s, e), p, d) && d in Next(s, e).t.rows && Next(s, e).t.rows[d] == s.t.rows[d]
  {
    assert InProcessing(s.t, d, p);
    if Enabled(s, e) {
      match e {
        case Claim(q, now, limit, sel) =>
          if d in sel {
            ClaimedAreAvailable(s, q, now, limit, sel, d);
          }
        case AckRow(q, x) => assert InProcessing(s.t, x, q);
        case DeferRow(q, x, _, _) => assert InProcessing(s.t, x, q);
        case FailRow(q, x, _) => assert InProcessing(s.t, x, q);
        case _ =>
      }
    }
  }

  lemma StaysHeld(s: System, e: Event, p: PoolId, d: Domain)
    requires Exact(s) && !Rips(s, e) && Holds(Next(s, e), p, d)
    ensures InProcessing(Next(s, e).t, d, p)
  {
    if Enabled(s, e) && e.Claim? && e.p == p {
      assert d in e.sel;
      ClaimedAreAvailable(s, p, e.now, e.limit, e.sel, d);
    } else {
      assert Holds(s, p, d) && InProcessing(s.t, d, p);
      if Enabled(s, e) {
        HeldRowSame(s, e, p, d);
      }
    }
  }

  lemma {:induction false} RunExact(events: seq<Event>, s: System)
    requires Exact(s) && NeverRips(s, events)
    ensures Exact(Run(s, events))
    decreases |events|
  {
    if events != [] {
      NextExact(s, events[0]);
      RunExact(events[1..], Next(s, events[0]));
    }
  }

  /** As long as no row is removed while a worker holds it, no domain is ever in flight in both
      workers, and each held row is in processing for its holder. */
  lemma NeverInFlightTwice(events: seq<Event>, d: Domain)
    requires NeverRips(INITIAL, events)
    ensures var s := Run(INITIAL, events);
            && !(Holds(s, Realtime, d) && Holds(s, Background, d))
            && forall p :: Holds(s, p, d) ==> InProcessing(s.t, d, p)
  {
    RunExact(events, INITIAL);
  }

  lemma {:induction false} RunSplits(s: System, a: seq<Event>, b: seq<Event>)
    ensures Run(s, a + b) == Run(Run(s, a), b)
    decreases |a|
  {
    if a == [] {
      assert a + b == b;
    } else {
      assert (a + b)[1..] == a[1..] + b;
      RunSplits(Next(s, a[0]), a[1..], b);
    }
  }

  // ----- Exactly what breaks the exclusion -----

  predicate InBoth(s: System, d: Domain) { Holds(s, Realtime, d) && Holds(s, Background, d) }

  function Other(p: PoolId): PoolId { if p == Realtime then Background else Realtime }

  lemma {:induction false} AbovePriorities(rows: map<Domain, Row>, keys: set<Domain>) returns (n: nat)
    requires keys <= rows.Keys
    ensures forall d :: d in keys ==> rows[d].priority < n
    decreases |keys|
  {
    n := 0;
    if keys != {} {
      var d :| d in keys;
      var rest := AbovePriorities(rows, keys - {d});
      n := if rest > rows[d].priority then rest else rows[d].priority + 1;
    }
  }

  /** The other worker is restarted with an empty batch; its queue holds the same rows. */
  lemma Restarted(s: System, q: PoolId)
    ensures var u := Next(Next(s, End(q)), Start(q, 0));
            && WorkerOf(u, q) == Running({}, {}, {}) && WorkerOf(u, Other(q)) == WorkerOf(s, Other(q))
            && u.t.locks == s.t.locks && u.t.rows.Keys == s.t.rows.Keys
            && forall d :: d in s.t.rows ==> u.t.rows[d].priority == s.t.rows[d].priority
  {
    assert WorkerOf(Next(s, End(q)), q).Ended? && Next(s, End(q)).t == s.t;
  }

  /** A domain without a row is unlocked and enqueued as the most urgent one of the pool. */
  lemma Urgent(s: System, q: PoolId, d: Domain, n: nat)
    requires d !in s.t.rows && forall x :: x in s.t.rows ==> s.t.rows[x].priority < n
    ensures var u := Next(Next(s, Unlock(d)), EnqueueDomain(d, Ask(0, n, "live", q)));
            && u.realtime == s.realtime && u.background == s.background
            && IsClaim(u.t.rows, Some(q), 0, 1, [d])
  {
    var m := Next(s, Unlock(d));
    var u := Next(m, EnqueueDomain(d, Ask(0, n, "live", q)));
    assert OutcomeOf(m.t, d) == Inserted;
    assert u.t.rows == s.t.rows[d := Row(Queued, 0, 0, 0, n, "live", q, 0)];
    forall x | Available(u.t.rows, x, Some(q), 0) && x !in [d] ensures Before(u.t.rows, d, x) {
      assert x in s.t.rows;
    }
  }

  lemma RunThree(s: System, a: Event, b: Event, c: Event)
    ensures Run(s, [a, b, c]) == Next(Next(Next(s, a), b), c)
  {
    assert [a, b, c][1..] == [b, c] && [b, c][1..] == [c] && [c][1..] == [];
    assert Run(s, [a, b, c]) == Run(Next(s, a), [b, c]);
    assert Run(Next(s, a), [b, c]) == Run(Next(Next(s, a), b), [c]);
    assert Run(Next(Next(s, a), b), [c]) == Run(Next(Next(Next(s, a), b), c), []);
  }

  lemma RunFive(s: System, a: Event, b: Event, c: Event, d: Event, e: Event)
    ensures Run(s, [a, b, c, d, e]) == Next(Next(Next(Next(Next(s, a), b), c), d), e)
  {
    RunSplits(s, [a, b, c], [d, e]);
    RunThree(s, a, b, c);
    assert [a, b, c] + [d, e] == [a, b, c, d, e];
    var m := Next(Next(Next(s, a), b), c);
    assert [d, e][1..] == [e] && [e][1..] == [];
    assert Run(m, [d, e]) == Run(Next(m, d), [e]);
    assert Run(Next(m, d), [e]) == Run(Next(Next(m, d), e), []);
  }

  lemma TakenTwice(s: System, p: PoolId, d: Domain) returns (later: seq<Event>)
    requires Holds(s, p, d) && d !in s.t.rows
    ensures NeverRemovesOrLocks(later) && InBoth(Run(s, later), d)
  {
    var q := Other(p);
    var n := AbovePriorities(s.t.rows, s.t.rows.Keys);
    var ask := Ask(0, n, "live", q);
    later := [End(q), Start(q, 0), Unlock(d), EnqueueDomain(d, ask), Claim(q, 0, 1, [d])];
    Restarted(s, q);
    var u := Next(Next(s, End(q)), Start(q, 0));
    Urgent(u, q, d, n);
    var v := Next(Next(u, Unlock(d)), EnqueueDomain(d, ask));
    ClaimTakes(v, q, d);
    RunFive(s, End(q), Start(q, 0), Unlock(d), EnqueueDomain(d, ask), Claim(q, 0, 1, [d]));
  }

  lemma ClaimTakes(s: System, q: PoolId, d: Domain)
    requires WorkerOf(s, q).Running? && WorkerOf(s, q).batch == {} && IsClaim(s.t.rows, Some(q), 0, 1, [d])
    ensures var u := Next(s, Claim(q, 0, 1, [d]));
            Holds(u, q, d) && WorkerOf(u, Other(q)) == WorkerOf(s, Other(q))
  {
    assert d in SetOf([d]);
  }

  /** A row ripped out of a batch can be taken by the other worker as well. */
  lemma RippedIsTakenTwice(s: System, e: Event) returns (later: seq<Event>)
    requires Rips(s, e)
    ensures NeverRemovesOrLocks(later) && InBoth(Run(Next(s, e), later), e.d)
  {
    var p := if Holds(s, Realtime, e.d) then Realtime else Background;
    later := TakenTwice(Next(s, e), p, e.d);
  }

  lemma {:induction false} NoRemovalNoRip(s: System, events: seq<Event>)
    requires NeverRemovesOrLocks(events)
    ensures NeverRips(s, events)
    decreases |events|
  {
    if events != [] {
      assert events[0] in events;
      NoRemovalNoRip(Next(s, events[0]), events[1..]);
    }
  }

  /** However the run goes on, as long as no further held row is removed, no domain is in flight twice. */
  ghost predicate Exclusive(s: System) {
    forall later, d :: NeverRips(s, later) ==> !InBoth(Run(s, later), d)
  }

  /** In every state that runs without such removals reach, an event keeps the exclusion if and
      only if it does not remove a row that a running worker holds. */
  lemma ExclusionIff(events: seq<Event>, e: Event)
    requires NeverRips(INITIAL, events)
    ensures Exclusive(Next(Run(INITIAL, events), e)) <==> !Rips(Run(INITIAL, events), e)
  {
    var s := Run(INITIAL, events);
    RunExact(events, INITIAL);
    if Rips(s, e) {
      var later := RippedIsTakenTwice(s, e);
      NoRemovalNoRip(Next(s, e), later);
    } else {
      NextExact(s, e);
      forall later, d | NeverRips(Next(s, e), later) ensures !InBoth(Run(Next(s, e), later), d) {
        RunExact(later, Next(s, e));
      }
    }
  }

  /** Such a state is reached at once: lock a domain in processing, and it can fly twice. */
  lemma LockingInFlightBreaksExclusion(d: Domain)
    ensures exists events :: InBoth(Run(INITIAL, events), d)
  {
    var ask := Ask(0, 100, "live", Realtime);
    var first := [Start(Realtime, 0), EnqueueDomain(d, ask), Claim(Realtime, 0, 1, [d])];
    var s2 := Next(Next(INITIAL, Start(Realtime, 0)), EnqueueDomain(d, ask));
    var s := Next(s2, Claim(Realtime, 0, 1, [d]));
    OnlyRow(d, ask);
    ClaimTakes(s2, Realtime, d);
    RunThree(INITIAL, Start(Realtime, 0), EnqueueDomain(d, ask), Claim(Realtime, 0, 1, [d]));
    var later := RippedIsTakenTwice(s, Lock(d));
    assert ([Lock(d)] + later)[1..] == later;
    RunSplits(INITIAL, first, [Lock(d)] + later);
  }

  lemma OnlyRow(d: Domain, ask: Ask)
    requires ask == Ask(0, 100, "live", Realtime)
    ensures var s := Next(Next(INITIAL, Start(Realtime, 0)), EnqueueDomain(d, ask));
            s.realtime == Running({}, {}, {}) && IsClaim(s.t.rows, Some(Realtime), 0, 1, [d])
  {
    var s := Next(INITIAL, Start(Realtime, 0));
    assert s.t.rows == map[];
    assert Next(s, EnqueueDomain(d, ask)).t.rows == map[d := Row(Queued, 0, 0, 0, 100, "live", Realtime, 0)];
  }

  // ----- A claim and its settlement, with anything in between -----

  /** A row in flight stays exactly as its claim left it until its worker settles it. */
  lemma {:induction false} RowInFlightIsFrozen(events: seq<Event>, s: System, p: PoolId, d: Domain)
    requires Exact(s) && Holds(s, p, d) && NeverRips(s, events)
    requires forall e :: e in events ==> LeavesTo(e, p, d)
    ensures var u := Run(s, events);
            Exact(u) && Holds(u, p, d) && d in s.t.rows && d in u.t.rows && u.t.rows[d] == s.t.rows[d]
    decreases |events|
  {
    assert InProcessing(s.t, d, p);
    if events != [] {
      assert events[0] in events;
      HeldRowSame(s, events[0], p, d);
      NextExact(s, events[0]);
      RowInFlightIsFrozen(events[1..], Next(s, events[0]), p, d);
    }
  }

  /** Whatever other transactions come between a claim and a deferral of a domain, its attempt
      count, priority, source and age are what they were before the claim. */
  lemma ClaimThenDefer(before: seq<Event>, p: PoolId, now: int, limit: nat, sel: seq<Domain>, between: seq<Event>,
                       d: Domain, later: int, retryAt: int)
    requires NeverRips(INITIAL, before) && Enabled(Run(INITIAL, before), Claim(p, now, limit, sel)) && d in sel
    requires NeverRips(Next(Run(INITIAL, before), Claim(p, now, limit, sel)), between)
    requires forall e :: e in between ==> LeavesTo(e, p, d)
    ensures var s := Run(INITIAL, before);
            var u := Next(Run(Next(s, Claim(p, now, limit, sel)), between), DeferRow(p, d, later, retryAt));
            && d in s.t.rows && d in u.t.rows
            && u.t.rows[d] == s.t.rows[d].(state := Queued, updatedAt := later,
                                           availableAt := MaxInt(later + 1, retryAt))
            && !Holds(u, p, d)
  {
    var s := Run(INITIAL, before);
    RunExact(before, INITIAL);
    ClaimedAreAvailable(s, p, now, limit, sel, d);
    NextExact(s, Claim(p, now, limit, sel));
    assert d in SetOf(sel);
    RowInFlightIsFrozen(between, Next(s, Claim(p, now, limit, sel)), p, d);
  }

  /** The same for a failure: the row is marked failed at once, with the attempt counted. */
  lemma ClaimThenFail(before: seq<Event>, p: PoolId, now: int, limit: nat, sel: seq<Domain>, between: seq<Event>,
                      d: Domain, later: int)
    requires NeverRips(INITIAL, before) && Enabled(Run(INITIAL, before), Claim(p, now, limit, sel)) && d in sel
    requires NeverRips(Next(Run(INITIAL, before), Claim(p, now, limit, sel)), between)
    requires forall e :: e in between ==> LeavesTo(e, p, d)
    ensures var s := Run(INITIAL, before);
            var u := Next(Run(Next(s, Claim(p, now, limit, sel)), between), FailRow(p, d, later));
            && d in s.t.rows && d in u.t.rows
            && u.t.rows[d] == s.t.rows[d].(state := Failed, attempts := s.t.rows[d].attempts + 1, updatedAt := later,
                                           availableAt := 0)
            && !Holds(u, p, d)
  {
    var s := Run(INITIAL, before);
    RunExact(before, INITIAL);
    ClaimedAreAvailable(s, p, now, limit, sel, d);
    NextExact(s, Claim(p, now, limit, sel));
    assert d in SetOf(sel);
    RowInFlightIsFrozen(between, Next(s, Claim(p, now, limit, sel)), p, d);
  }

  lemma LockedStep(s: System, e: Event, d: Domain)
    requires d in s.t.locks && d !in s.t.rows && e != Unlock(d)
    ensures d in Next(s, e).t.locks && d !in Next(s, e).t.rows
  {
    if Enabled(s, e) {
      match e {
        case EnqueueDomain(x, a) =>
        case Unlock(x) => assert x != d;
        case _ =>
      }
    }
  }

  /** A locked domain has no row until it is unlocked, whatever is enqueued and settled meanwhile. */
  lemma {:induction false} LockedStaysOut(events: seq<Event>, s: System, d: Domain)
    requires d in s.t.locks && d !in s.t.rows && forall e :: e in events ==> e != Unlock(d)
    ensures d in Run(s, events).t.locks && d !in Run(s, events).t.rows
    decreases |events|
  {
    if events != [] {
      assert events[0] in events;
      LockedStep(s, events[0], d);
      assert forall e :: e in events[1..] ==> e in events;
      LockedStaysOut(events[1..], Next(s, events[0]), d);
    }
  }

  lemma LockKeepsOut(events: seq<Event>, s: System, d: Domain)
    requires forall e :: e in events ==> e != Unlock(d)
    ensures d !in Run(s, [Lock(d)] + events).t.rows
  {
    assert ([Lock(d)] + events)[1..] == events;
    LockedStaysOut(events, Next(s, Lock(d)), d);
  }

  // ----- No lost work -----

  predicate NeverRemovesOrLocks(events: seq<Event>) {
    forall e :: e in events ==> !e.Lock? && !e.Remove?
  }

  predicate ClassifiedSince(s: System, d: Domain) {
    d in s.savedAt && (d in s.enqueuedAt ==> s.savedAt[d] > s.enqueuedAt[d])
  }

  /** Every accepted domain still has its row or was classified after it was accepted. */
  ghost predicate NothingLost(s: System)
  {
    && (forall d :: d in s.enqueuedAt ==> s.enqueuedAt[d] < s.clock && (d in s.t.rows || ClassifiedSince(s, d)))
    && (forall p, d :: WorkerOf(s, p).Running? && d in WorkerOf(s, p).saved ==> ClassifiedSince(s, d))
    && s.t.locks == {}
  }

  /** A domain in processing is not accepted again, so its classification stays the later event. */
  lemma ClassifiedStays(s: System, e: Event, p: PoolId, d: Domain)
    requires ClassifiedSince(s, d) && InProcessing(s.t, d, p) && (d in s.enqueuedAt ==> s.enqueuedAt[d] < s.clock)
    ensures ClassifiedSince(Next(s, e), d)
  {
  }

  lemma SavedSince(s: System, e: Event, p: PoolId, d: Domain)
    requires Exact(s) && NothingLost(s)
    requires WorkerOf(Next(s, e), p).Running? && d in WorkerOf(Next(s, e), p).saved
    ensures ClassifiedSince(Next(s, e), d)
  {
    if WorkerOf(s, p).Running? && d in WorkerOf(s, p).saved {
      assert Holds(s, p, d);
      ClassifiedStays(s, e, p, d);
    } else {
      assert e == Save(p, d);
    }
  }

  lemma AcceptedIsKept(s: System, e: Event, d: Domain)
    requires Exact(s) && NothingLost(s) && !e.Lock? && !e.Remove? && d in Next(s, e).enqueuedAt
    ensures var u := Next(s, e);
            u.enqueuedAt[d] < u.clock && (d in u.t.rows || ClassifiedSince(u, d))
  {
    if Enabled(s, e) && e.AckRow? && e.d == d {
      assert WorkerOf(s, e.p).skipped == {} && d in WorkerOf(s, e.p).saved;
      assert ClassifiedSince(s, d);
    } else if d in s.enqueuedAt {
      assert d in s.t.rows || ClassifiedSince(s, d);
    }
  }

  lemma NextNothingLost(s: System, e: Event)
    requires Exact(s) && NothingLost(s) && !e.Lock? && !e.Remove?
    ensures NothingLost(Next(s, e))
  {
    var u := Next(s, e);
    forall p, d | WorkerOf(u, p).Running? && d in WorkerOf(u, p).saved ensures ClassifiedSince(u, d) {
      SavedSince(s, e, p, d);
    }
    forall d | d in u.enqueuedAt ensures u.enqueuedAt[d] < u.clock && (d in u.t.rows || ClassifiedSince(u, d)) {
      AcceptedIsKept(s, e, d);
    }
  }

  lemma {:induction false} RunNothingLost(events: seq<Event>, s: System)
    requires Exact(s) && NothingLost(s) && NeverRemovesOrLocks(events)
    ensures NothingLost(Run(s, events))
    decreases |events|
  {
    if events != [] {
      assert events[0] in events;
      NextExact(s, events[0]);
      NextNothingLost(s, events[0]);
      RunNothingLost(events[1..], Next(s, events[0]));
    }
  }

  /** No lost work: without explicit removals or locks, a domain an enqueue counted as queued
      or requeued keeps its row until a classification made after that enqueue is saved,
      through any interleaving, deferral, failure, crash and restart. */
  lemma NoLostWork(events: seq<Event>, d: Domain)
    requires NeverRemovesOrLocks(events)
    ensures var s := Run(INITIAL, events);
            d in s.enqueuedAt ==> d in s.t.rows || (d in s.savedAt && s.savedAt[d] > s.enqueuedAt[d])
  {
    RunNothingLost(events, INITIAL);
  }
}
