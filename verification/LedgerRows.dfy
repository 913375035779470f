/** One row through a run of the ledger: as long as nobody names it, an open row stays as it is until
    an admission past its expiry sweeps it, and a settled row stays for good. New rows have new ids,
    so the row that carries an id is always the one that was inserted under it. */
module LedgerRows {
  import opened Basics
  import opened Quota

  predicate Names(e: Event, id: nat) { (e.Complete? || e.Cancel?) && e.id == id }

  /** Other callers hold no reservation but their own. */
  function Foreign(events: seq<Event>, id: nat): seq<Event> {
    if events == [] then []
    else (if Names(events[0], id) then [] else [events[0]]) + Foreign(events[1..], id)
  }

  /** An admission, in any scope, at a clock reading past the expiry sweeps the reservation. */
  predicate Sweeps(s: Ledger, e: Event, expiresAt: real) {
    match e
    case Reserve(q) => Grants(s, q) && q.now >= expiresAt
    case Expire(now) => now >= expiresAt
    case _ => false
  }

  predicate SweptDuring(s: Ledger, events: seq<Event>, expiresAt: real)
    decreases |events|
  {
    events != [] && (Sweeps(s, events[0], expiresAt) || SweptDuring(Step(s, events[0]), events[1..], expiresAt))
  }

  function RowOf(rows: seq<Row>, id: nat): Option<Row> {
    if rows == [] then None
    else if rows[0].id == id then Some(rows[0])
    else RowOf(rows[1..], id)
  }

  predicate IdsBelow(rows: seq<Row>, bound: nat) { forall r :: r in rows ==> r.id < bound }

  predicate FreshIds(s: Ledger) { IdsBelow(s.rows, s.nextId) }

  lemma {:induction false} RowOfFinds(rows: seq<Row>, id: nat)
    ensures var found := RowOf(rows, id);
            if found.Some? then found.value in rows && found.value.id == id else forall r :: r in rows ==> r.id != id
  {
    if rows != [] {
      RowOfFinds(rows[1..], id);
    }
  }

  lemma {:induction false} RowInsert(rows: seq<Row>, r: Row, id: nat)
    ensures r.id != id ==> RowOf(Insert(rows, r), id) == RowOf(rows, id)
    ensures r.id == id && RowOf(rows, id).None? ==> RowOf(Insert(rows, r), id) == Some(r)
    ensures forall x :: x in Insert(rows, r) ==> x == r || x in rows
  {
    if rows != [] {
      RowInsert(rows[1..], r, id);
      var out := Insert(rows, r);
      if r.createdAt < rows[0].createdAt {
        assert out[1..] == rows;
      } else {
        assert out[1..] == Insert(rows[1..], r);
      }
    }
  }

  lemma {:induction false} RowSweep(rows: seq<Row>, now: real, id: nat)
    ensures RowOf(Sweep(rows, now), id) ==
            match RowOf(rows, id)
            case None => None
            case Some(r) => Some(if r.state.Reserved? && r.expiresAt <= now then r.(state := RowState.Cancelled) else r)
  {
    if rows != [] {
      RowSweep(rows[1..], now, id);
      assert Sweep(rows, now)[1..] == Sweep(rows[1..], now);
    }
  }

  lemma {:induction false} RowSettled(rows: seq<Row>, other: nat, a: Amounts, id: nat)
    ensures id != other || (RowOf(rows, id).Some? && !RowOf(rows, id).value.state.Reserved?) ==>
              RowOf(CompleteRows(rows, other, a), id) == RowOf(CancelRows(rows, other), id) == RowOf(rows, id)
    ensures id == other && RowOf(rows, id).Some? && RowOf(rows, id).value.state.Reserved? ==>
              var r := RowOf(rows, id).value;
              && RowOf(CompleteRows(rows, other, a), id) ==
                 Some(r.(state := Completed, amounts := Amounts(r.amounts.requests, a.input, a.output, a.units)))
              && RowOf(CancelRows(rows, other), id) == Some(r.(state := RowState.Cancelled))
  {
    if rows != [] {
      RowSettled(rows[1..], other, a, id);
      assert CompleteRows(rows, other, a)[1..] == CompleteRows(rows[1..], other, a);
      assert CancelRows(rows, other)[1..] == CancelRows(rows[1..], other);
    }
  }

  lemma {:induction false} SettledIds(rows: seq<Row>, now: real, id: nat, a: Amounts, bound: nat)
    requires IdsBelow(rows, bound)
    ensures IdsBelow(Sweep(rows, now), bound)
    ensures IdsBelow(CompleteRows(rows, id, a), bound) && IdsBelow(CancelRows(rows, id), bound)
  {
    if rows != [] {
      assert rows[0] in rows && IdsBelow(rows[1..], bound);
      SettledIds(rows[1..], now, id, a, bound);
    }
  }

  lemma StepFresh(s: Ledger, e: Event)
    requires FreshIds(s)
    ensures FreshIds(Step(s, e)) && Step(s, e).nextId >= s.nextId
  {
    match e
    case Reserve(q) =>
      SettledIds(s.rows, q.now, 0, q.estimate, s.nextId);
      RowInsert(Sweep(s.rows, q.now), NewRow(s, q), s.nextId);
    case Complete(id, a, _) => SettledIds(s.rows, 0.0, id, a, s.nextId);
    case Cancel(id) => SettledIds(s.rows, 0.0, id, Amounts(0.0, 0.0, 0.0, 0.0), s.nextId);
    case Expire(now) => SettledIds(s.rows, now, 0, Amounts(0.0, 0.0, 0.0, 0.0), s.nextId);
  }

  lemma {:induction false} RunFresh(s: Ledger, events: seq<Event>)
    requires FreshIds(s)
    ensures FreshIds(Run(s, events)) && Run(s, events).nextId >= s.nextId
    decreases |events|
  {
    if events != [] {
      StepFresh(s, events[0]);
      RunFresh(Step(s, events[0]), events[1..]);
    }
  }

  /** What becomes of a row that nobody names: an open one may be swept, nothing else happens. */
  predicate LeftAlone(before: Option<Row>, after: Option<Row>, swept: bool) {
    match before
    case None => false
    case Some(r) => after == Some(if r.state.Reserved? && swept then r.(state := RowState.Cancelled) else r)
  }

  lemma StepOnRow(s: Ledger, e: Event, id: nat)
    requires FreshIds(s) && RowOf(s.rows, id).Some?
    ensures var r := RowOf(s.rows, id).value;
            !r.state.Reserved? || !Names(e, id) ==>
              LeftAlone(Some(r), RowOf(Step(s, e).rows, id), Sweeps(s, e, r.expiresAt))
  {
    RowOfFinds(s.rows, id);
    match e
    case Reserve(q) =>
      RowSweep(s.rows, q.now, id);
      RowInsert(Sweep(s.rows, q.now), NewRow(s, q), id);
    case Complete(other, a, _) => RowSettled(s.rows, other, a, id);
    case Cancel(other) => RowSettled(s.rows, other, Amounts(0.0, 0.0, 0.0, 0.0), id);
    case Expire(now) => RowSweep(s.rows, now, id);
  }

  lemma {:induction false} RunOnRow(s: Ledger, events: seq<Event>, id: nat)
    requires FreshIds(s) && RowOf(s.rows, id).Some?
    requires !RowOf(s.rows, id).value.state.Reserved? || forall e :: e in events ==> !Names(e, id)
    ensures var r := RowOf(s.rows, id).value;
            LeftAlone(Some(r), RowOf(Run(s, events).rows, id), SweptDuring(s, events, r.expiresAt))
    decreases |events|
  {
    if events != [] {
      assert events[0] in events;
      StepFresh(s, events[0]);
      StepOnRow(s, events[0], id);
      RunOnRow(Step(s, events[0]), events[1..], id);
    }
  }

  lemma {:induction false} ForeignDropsOwn(events: seq<Event>, id: nat)
    ensures forall e :: e in Foreign(events, id) <==> e in events && !Names(e, id)
  {
    if events != [] {
      ForeignDropsOwn(events[1..], id);
    }
  }

  lemma {:induction false} EachSettled(rows: seq<Row>, now: real, id: nat, a: Amounts)
    ensures |Sweep(rows, now)| == |CompleteRows(rows, id, a)| == |CancelRows(rows, id)| == |rows|
    ensures forall i :: 0 <= i < |rows| ==>
              && Sweep(rows, now)[i] == SweepRow(rows[i], now)
              && CompleteRows(rows, id, a)[i] == CompleteRow(rows[i], id, a)
              && CancelRows(rows, id)[i] == CancelRow(rows[i], id)
  {
    if rows != [] {
      EachSettled(rows[1..], now, id, a);
    }
  }

  lemma {:induction false} InsertAdds(rows: seq<Row>, r: Row)
    ensures multiset(Insert(rows, r)) == multiset(rows) + multiset{r}
  {
    if rows != [] && r.createdAt >= rows[0].createdAt {
      InsertAdds(rows[1..], r);
      assert rows == [rows[0]] + rows[1..];
    }
  }
}
