/** The retry loop of one provider call on top of the ledger, while other callers keep
    stepping the same ledger: every reservation it makes is settled exactly once. */
module ProviderRequest {
  import opened Basics
  import opened Quota
  import opened QuotaLimits
  import opened LedgerTable
  import opened LedgerRows

  datatype Response =
    | Aborted                                            // cancelled while the request was in flight
    | NoAnswer                                           // connection error or timeout
    | Status(code: int, usage: Option<Usage>, headers: seq<Observation>)

  /** One admission try of the quota wait, after steps of other callers. */
  datatype Try = Try(others: seq<Event>, request: Request)

  /** Everything outside the loop's control in one attempt. */
  datatype Attempt = Attempt(cancelledBefore: bool, tries: seq<Try>, others: seq<Event>, response: Response,
                             cancelledAfter: bool)

  datatype Result =
    | Answered(code: int)
    | RateLimited
    | HttpFailed(code: int)
    | ConnectionFailed
    | QuotaFailed
    | OperationCancelled
    | NoResponse                                         // the statement after the loop

  datatype Verdict = Retry | Done(result: Result)

  /** History of one reservation the loop made: what its request came back with, and whether
      another caller's admission expired it before that. */
  datatype Entry = Entry(reservation: Reservation, response: Response, expired: bool)

  predicate Retryable(code: int) { code in {408, 429, 500, 502, 503, 504} }

  predicate RaisesForStatus(code: int) { 400 <= code < 600 }

  // ----- Reference -----

  function TryReserve(s: Ledger, tries: seq<Try>): (Ledger, Option<Reservation>)
    decreases |tries|
  {
    if tries == [] then (s, None)
    else
      var (after, outcome) := ReserveStep(Run(s, tries[0].others), tries[0].request);
      match outcome
      case Granted(r) => (after, Some(r))
      case Rejected(_) => TryReserve(after, tries[1..])
  }

  /** A failed answer is charged its input tokens only. */
  function FailureUsage(r: Reservation): Option<Usage> { Some(Usage(r.estimate.input, 0.0, 0.0)) }

  function Settle(s: Ledger, r: Reservation, p: Profile, a: Attempt): Ledger {
    match a.response
    case Status(code, usage, headers) =>
      var charged := if Retryable(code) || RaisesForStatus(code) then FailureUsage(r) else usage;
      CompleteStep(s, r.id, NormalizedUsage(charged, r.estimate, Some(p)), headers)
    case _ => CancelStep(s, r.id)
  }

  function Judge(a: Attempt, last: bool): Verdict {
    match a.response
    case Aborted => Done(OperationCancelled)
    case NoAnswer =>
      if a.cancelledAfter then Done(OperationCancelled)
      else if last then Done(ConnectionFailed) else Retry
    case Status(code, _, _) =>
      if Retryable(code) then
        if a.cancelledAfter then Done(OperationCancelled)
        else if !last then Retry
        else if code == 429 then Done(RateLimited) else Done(HttpFailed(code))
      else if RaisesForStatus(code) then Done(HttpFailed(code))
      else if a.cancelledAfter then Done(OperationCancelled)
      else Done(Answered(code))
  }

  /** One attempt: the ledger it leaves, the reservation it made, and whether to go on. */
  datatype Outcome = Outcome(ledger: Ledger, log: seq<Entry>, verdict: Verdict)

  function AttemptOnce(s: Ledger, p: Profile, a: Attempt, last: bool): Outcome {
    if a.cancelledBefore then Outcome(s, [], Done(OperationCancelled))
    else
      var (reserved, got) := TryReserve(s, a.tries);
      match got
      case None => Outcome(reserved, [], Done(QuotaFailed))
      case Some(r) =>
        var others := Foreign(a.others, r.id);
        Outcome(Settle(Run(reserved, others), r, p, a),
                [Entry(r, a.response, SweptDuring(reserved, others, r.expiresAt))],
                Judge(a, last))
  }

  datatype Final = Final(ledger: Ledger, log: seq<Entry>, result: Result)

  function Attempts(s: Ledger, p: Profile, script: nat -> Attempt, k: nat, attempts: nat): Final
    decreases attempts - k
  {
    if k >= attempts then Final(s, [], NoResponse)
    else
      var o := AttemptOnce(s, p, script(k), k + 1 >= attempts);
      match o.verdict
      case Done(result) => Final(o.ledger, o.log, result)
      case Retry => Prepend(o.log, Attempts(o.ledger, p, script, k + 1, attempts))
  }

  function Prepend(log: seq<Entry>, f: Final): Final { f.(log := log + f.log) }

  function AttemptCount(maxRetries: int): nat { if maxRetries + 1 >= 1 then maxRetries + 1 else 1 }

  // ----- The quota wait -----

  /** The ledger that the i-th try decides on, or that all of them leave: the other callers' steps
      so far and nothing else. */
  function BeforeTry(s: Ledger, tries: seq<Try>, i: nat): Ledger
    requires i <= |tries|
    decreases |tries|
  {
    if tries == [] then s
    else if i == 0 then Run(s, tries[0].others)
    else BeforeTry(Run(s, tries[0].others), tries[1..], i - 1)
  }

  predicate RoomAt(s: Ledger, tries: seq<Try>, i: nat)
    requires i < |tries|
  {
    Grants(BeforeTry(s, tries, i), tries[i].request)
  }

  /** The n-th try is the first that has room, or n is all of them, and the result says so. */
  ghost predicate Takes(s: Ledger, tries: seq<Try>, n: nat, result: (Ledger, Option<Reservation>))
    requires n <= |tries|
  {
    && (forall i :: 0 <= i < n ==> !RoomAt(s, tries, i))
    && if n == |tries| then result == (BeforeTry(s, tries, n), None)
       else result.1.Some?
            && (result.0, Granted(result.1.value)) == ReserveStep(BeforeTry(s, tries, n), tries[n].request)
  }

  lemma TryFirst(s: Ledger, tries: seq<Try>)
    requires tries != []
    ensures var mid, q := Run(s, tries[0].others), tries[0].request;
            TryReserve(s, tries) ==
            if Grants(mid, q) then (ReserveStep(mid, q).0, Some(ReserveStep(mid, q).1.reservation))
            else TryReserve(mid, tries[1..])
  {
  }

  lemma NextTry(s: Ledger, tries: seq<Try>, i: nat)
    requires i < |tries|
    ensures BeforeTry(s, tries, i + 1) == BeforeTry(Run(s, tries[0].others), tries[1..], i)
  {
  }

  lemma TakesLater(s: Ledger, tries: seq<Try>, k: nat, result: (Ledger, Option<Reservation>))
    requires k < |tries| && !RoomAt(s, tries, 0)
    requires Takes(Run(s, tries[0].others), tries[1..], k, result)
    ensures Takes(s, tries, k + 1, result)
  {
    NextTry(s, tries, k);
    forall i | 0 < i < k + 1 ensures !RoomAt(s, tries, i) {
      NextTry(s, tries, i - 1);
      assert !RoomAt(Run(s, tries[0].others), tries[1..], i - 1);
    }
  }

  lemma TakesNow(s: Ledger, tries: seq<Try>)
    requires tries == [] || RoomAt(s, tries, 0)
    ensures Takes(s, tries, 0, TryReserve(s, tries))
  {
    if tries != [] {
      TryFirst(s, tries);
    }
  }

  /** The wait takes the first try that has room, and gives up only when none has. */
  lemma {:induction false} WaitTakesFirst(s: Ledger, tries: seq<Try>) returns (n: nat)
    ensures n <= |tries| && Takes(s, tries, n, TryReserve(s, tries))
    decreases |tries|
  {
    if tries == [] || RoomAt(s, tries, 0) {
      n := 0;
      TakesNow(s, tries);
    } else {
      var mid := Run(s, tries[0].others);
      TryFirst(s, tries);
      var k := WaitTakesFirst(mid, tries[1..]);
      n := k + 1;
      TakesLater(s, tries, k, TryReserve(mid, tries[1..]));
    }
  }

  /** The row is the reservation's in that state, with the estimate as its amounts. */
  predicate RowFor(found: Option<Row>, r: Reservation, state: RowState) {
    found.Some? && found.value == Row(r.id, found.value.pool, state, r.estimate, r.createdAt, r.expiresAt)
  }

  lemma GrantedRow(s: Ledger, q: Request)
    requires FreshIds(s) && ReserveStep(s, q).1.Granted?
    ensures var (t, o) := ReserveStep(s, q);
            o.reservation.id == s.nextId < t.nextId && RowFor(RowOf(t.rows, s.nextId), o.reservation, Reserved)
  {
    RowSweep(s.rows, q.now, s.nextId);
    RowOfFinds(s.rows, s.nextId);
    RowInsert(Sweep(s.rows, q.now), NewRow(s, q), s.nextId);
  }

  /** The granted row is fresh and open; rows that were settled before stay as they are. */
  lemma {:induction false} TryReserveOnRow(s: Ledger, tries: seq<Try>, id: nat)
    requires FreshIds(s)
    ensures var (t, got) := TryReserve(s, tries);
            && FreshIds(t) && t.nextId >= s.nextId
            && (got.Some? ==> s.nextId <= got.value.id < t.nextId
                              && RowFor(RowOf(t.rows, got.value.id), got.value, Reserved))
            && (RowOf(s.rows, id).Some? && !RowOf(s.rows, id).value.state.Reserved? ==>
                  RowOf(t.rows, id) == RowOf(s.rows, id))
    decreases |tries|
  {
    if tries != [] {
      var q, mid := tries[0].request, Run(s, tries[0].others);
      RunFresh(s, tries[0].others);
      if RowOf(s.rows, id).Some? && !RowOf(s.rows, id).value.state.Reserved? {
        RunOnRow(s, tries[0].others, id);
        StepOnRow(mid, Reserve(q), id);
      }
      assert Step(mid, Reserve(q)) == ReserveStep(mid, q).0;
      StepFresh(mid, Reserve(q));
      if Grants(mid, q) {
        GrantedRow(mid, q);
      } else {
        TryReserveOnRow(mid, tries[1..], id);
      }
    }
  }

  // ----- Settlement -----

  /** What an answered request is charged: the request always; a failed one its estimated input at
      the profile's prices and, unless nothing was estimated, no output; a success what it reported. */
  predicate Charged(a: Amounts, estimate: Amounts, code: int, usage: Option<Usage>, p: Profile) {
    a.requests == estimate.requests &&
    if 400 <= code < 600 then
      && a.input == estimate.input && a.output == (if estimate.input > 0.0 then 0.0 else estimate.output)
      && 1000000.0 * a.units == a.input * p.inputUnits + a.output * p.outputUnits
    else a == NormalizedUsage(usage, estimate, Some(p))
  }

  /** The row of a reservation after its attempt. It stays counted exactly when its request was
      answered and another caller had not expired it before that. */
  predicate SettledRow(r: Row, e: Entry, p: Profile) {
    && r.id == e.reservation.id && r.createdAt == e.reservation.createdAt && r.expiresAt == e.reservation.expiresAt
    && if e.response.Status? && !e.expired then
         r.state == Completed && Charged(r.amounts, e.reservation.estimate, e.response.code, e.response.usage, p)
       else r.state == RowState.Cancelled && r.amounts == e.reservation.estimate
  }

  /** Nothing stays outstanding. */
  predicate SettledEntry(s: Ledger, e: Entry, p: Profile) {
    var found := RowOf(s.rows, e.reservation.id);
    e.reservation.id < s.nextId && found.Some? && SettledRow(found.value, e, p)
  }

  lemma FailureIsCharged(r: Reservation, code: int, p: Profile)
    requires 400 <= code < 600
    ensures Charged(NormalizedUsage(FailureUsage(r), r.estimate, Some(p)), r.estimate, code, None, p)
  {
    var a := NormalizedUsage(FailureUsage(r), r.estimate, Some(p));
    assert a.units == UnitsFor(a.input, a.output, p);
    assert 1000000.0 * UnitsFor(a.input, a.output, p) == a.input * p.inputUnits + a.output * p.outputUnits;
  }

  lemma SettleRow(mid: Ledger, e: Entry, p: Profile, a: Attempt)
    requires e.response == a.response && e.reservation.id < mid.nextId
    requires RowFor(RowOf(mid.rows, e.reservation.id), e.reservation,
                    if e.expired then RowState.Cancelled else Reserved)
    ensures SettledEntry(Settle(mid, e.reservation, p, a), e, p)
  {
    var r := e.reservation;
    match a.response
    case Status(code, usage, headers) =>
      var charged := if Retryable(code) || RaisesForStatus(code) then FailureUsage(r) else usage;
      if 400 <= code < 600 {
        FailureIsCharged(r, code, p);
      }
      RowSettled(mid.rows, r.id, NormalizedUsage(charged, r.estimate, Some(p)), r.id);
    case _ => RowSettled(mid.rows, r.id, r.estimate, r.id);
  }

  lemma SettleStores(mid: Ledger, r: Reservation, p: Profile, a: Attempt)
    requires FreshIds(mid)
    ensures var t := Settle(mid, r, p, a);
            && FreshIds(t) && t.nextId == mid.nextId
            && (a.response.Status? ==> forall h :: LastOfKey(a.response.headers, h) ==> h in t.live)
  {
    match a.response
    case Status(code, usage, headers) =>
      var charged := if Retryable(code) || RaisesForStatus(code) then FailureUsage(r) else usage;
      StepFresh(mid, Complete(r.id, NormalizedUsage(charged, r.estimate, Some(p)), headers));
      LastHeadersStay(mid.live, headers);
    case _ => StepFresh(mid, Cancel(r.id));
  }

  lemma SettleKeeps(mid: Ledger, r: Reservation, p: Profile, a: Attempt, id: nat)
    requires FreshIds(mid) && RowOf(mid.rows, id).Some? && !RowOf(mid.rows, id).value.state.Reserved?
    ensures RowOf(Settle(mid, r, p, a).rows, id) == RowOf(mid.rows, id)
  {
    match a.response
    case Status(code, usage, headers) =>
      var charged := if Retryable(code) || RaisesForStatus(code) then FailureUsage(r) else usage;
      RowSettled(mid.rows, r.id, NormalizedUsage(charged, r.estimate, Some(p)), id);
    case _ => RowSettled(mid.rows, r.id, r.estimate, id);
  }

  /** The attempt settles the reservation it makes, charges it for what came back, and stores the
      response's headers. */
  lemma AttemptSettles(s: Ledger, p: Profile, a: Attempt, last: bool)
    requires FreshIds(s)
    ensures var o := AttemptOnce(s, p, a, last);
            && FreshIds(o.ledger) && o.ledger.nextId >= s.nextId && |o.log| <= 1
            && (|o.log| == 1 ==>
                  && o.log[0].response == a.response && o.log[0].reservation.id >= s.nextId
                  && SettledEntry(o.ledger, o.log[0], p)
                  && (a.response.Status? ==> forall h :: LastOfKey(a.response.headers, h) ==> h in o.ledger.live))
  {
    if !a.cancelledBefore {
      var (reserved, got) := TryReserve(s, a.tries);
      TryReserveOnRow(s, a.tries, 0);
      if got.Some? {
        var r := got.value;
        var others := Foreign(a.others, r.id);
        ForeignDropsOwn(a.others, r.id);
        RunFresh(reserved, others);
        RunOnRow(reserved, others, r.id);
        SettleRow(Run(reserved, others), AttemptOnce(s, p, a, last).log[0], p, a);
        SettleStores(Run(reserved, others), r, p, a);
      }
    }
  }

  /** The attempt leaves rows alone that were settled before it. */
  lemma AttemptKeeps(s: Ledger, p: Profile, a: Attempt, last: bool, id: nat)
    requires FreshIds(s) && RowOf(s.rows, id).Some? && !RowOf(s.rows, id).value.state.Reserved?
    ensures RowOf(AttemptOnce(s, p, a, last).ledger.rows, id) == RowOf(s.rows, id)
  {
    if !a.cancelledBefore {
      var (reserved, got) := TryReserve(s, a.tries);
      TryReserveOnRow(s, a.tries, id);
      if got.Some? {
        var others := Foreign(a.others, got.value.id);
        RunFresh(reserved, others);
        RunOnRow(reserved, others, id);
        SettleKeeps(Run(reserved, others), got.value, p, a, id);
      }
    }
  }

  /** Attempts made later never disturb a settled row. */
  lemma {:induction false} LaterAttemptsKeep(s: Ledger, p: Profile, script: nat -> Attempt, k: nat, attempts: nat,
                                             id: nat)
    requires FreshIds(s) && RowOf(s.rows, id).Some? && !RowOf(s.rows, id).value.state.Reserved?
    ensures var f := Attempts(s, p, script, k, attempts);
            RowOf(f.ledger.rows, id) == RowOf(s.rows, id) && f.ledger.nextId >= s.nextId
    decreases attempts - k
  {
    if k < attempts {
      var last := k + 1 >= attempts;
      var o := AttemptOnce(s, p, script(k), last);
      AttemptSettles(s, p, script(k), last);
      AttemptKeeps(s, p, script(k), last, id);
      if o.verdict.Retry? {
        LaterAttemptsKeep(o.ledger, p, script, k + 1, attempts, id);
      }
    }
  }

  /** All of the log is settled in the ledger, under increasing ids from `from` on. */
  predicate AllSettled(s: Ledger, log: seq<Entry>, p: Profile, from: nat) {
    && (forall i :: 0 <= i < |log| ==> SettledEntry(s, log[i], p) && log[i].reservation.id >= from)
    && (forall i, j :: 0 <= i < j < |log| ==> log[i].reservation.id < log[j].reservation.id)
  }

  lemma {:induction false} AttemptsSettle(s: Ledger, p: Profile, script: nat -> Attempt, k: nat, attempts: nat)
    requires FreshIds(s)
    ensures var f := Attempts(s, p, script, k, attempts);
            AllSettled(f.ledger, f.log, p, s.nextId)
    decreases attempts - k
  {
    if k < attempts {
      var last := k + 1 >= attempts;
      var o := AttemptOnce(s, p, script(k), last);
      AttemptSettles(s, p, script(k), last);
      if o.verdict.Retry? {
        var e := o.log[0];
        LaterAttemptsKeep(o.ledger, p, script, k + 1, attempts, e.reservation.id);
        AttemptsSettle(o.ledger, p, script, k + 1, attempts);
        var rest := Attempts(o.ledger, p, script, k + 1, attempts);
        LogGrows(rest.ledger, e, rest.log, p, s.nextId, o.ledger.nextId);
        assert o.log == [e];
      }
    }
  }

  /** For any responses, cancellations and interleaved steps of other callers, the loop makes at
      most one reservation per attempt, and settles and charges every one. */
  lemma EveryReservationSettled(s: Ledger, p: Profile, script: nat -> Attempt, maxRetries: int)
    requires FreshIds(s)
    ensures var f := Attempts(s, p, script, 0, AttemptCount(maxRetries));
            && |f.log| <= MaxInt(1, maxRetries + 1) && f.result != NoResponse
            && AllSettled(f.ledger, f.log, p, s.nextId)
  {
    FailuresUseEveryAttempt(s, p, script, 0, AttemptCount(maxRetries));
    AttemptsSettle(s, p, script, 0, AttemptCount(maxRetries));
  }

  lemma LogGrows(s: Ledger, e: Entry, log: seq<Entry>, p: Profile, from: nat, next: nat)
    requires SettledEntry(s, e, p) && from <= e.reservation.id < next && AllSettled(s, log, p, next) && from <= next
    ensures AllSettled(s, [e] + log, p, from)
  {
    var all := [e] + log;
    assert forall i :: 1 <= i < |all| ==> all[i] == log[i - 1];
  }

  /** Without clock readings past the expiry nothing is swept. */
  lemma {:induction false} PunctualIsUnswept(s: Ledger, events: seq<Event>, expiresAt: real)
    requires forall e :: e in events && e.Reserve? ==> e.request.now < expiresAt
    requires forall e :: e in events && e.Expire? ==> e.now < expiresAt
    ensures !SweptDuring(s, events, expiresAt)
    decreases |events|
  {
    if events != [] {
      assert events[0] in events;
      PunctualIsUnswept(Step(s, events[0]), events[1..], expiresAt);
    }
  }

  /** One request with its prompt and the smallest output reserve. */
  const ONE_REQUEST := Amounts(1.0, 100.0, 256.0, 0.0)

  const UNLIMITED := Profile(false, true, [], 0.0, 0.0, 0.0)

  function AskAt(now: Quantity): Request { Request(UNLIMITED, Options(0.0, 1), "realtime", ONE_REQUEST, now) }

  function SlowAttempt(): Attempt {
    Attempt(false, [Try([], AskAt(0.0))], [Reserve(AskAt(300.0))], Status(200, None, []), false)
  }

  /** What the slow attempt leaves: its own reservation swept, the other caller's open. */
  lemma SlowRows()
    ensures var o := AttemptOnce(EMPTY_LEDGER, UNLIMITED, SlowAttempt(), true);
            && o.verdict == Done(Answered(200)) && |o.log| == 1 && o.log[0].response.Status?
            && o.ledger.rows == [Row(0, "realtime", RowState.Cancelled, ONE_REQUEST, 0.0, 300.0),
                                 Row(1, "realtime", Reserved, ONE_REQUEST, 300.0, 600.0)]
  {
    var r0, r1 := NewRow(EMPTY_LEDGER, AskAt(0.0)), Row(1, "realtime", Reserved, ONE_REQUEST, 300.0, 600.0);
    var s := Ledger([r0], [], 1);
    UnknownProviderRate(EMPTY_LEDGER, AskAt(0.0));
    UnknownProviderRate(s, AskAt(300.0));
    assert Run(EMPTY_LEDGER, []) == EMPTY_LEDGER;
    assert Sweep([], 0.0) == [] && Insert([], r0) == [r0];
    assert r0 == Row(0, "realtime", Reserved, ONE_REQUEST, 0.0, 300.0);
    assert ReserveStep(EMPTY_LEDGER, AskAt(0.0)).0 == s;
    assert ReserveStep(EMPTY_LEDGER, AskAt(0.0)) == (s, Granted(Reservation(0, ONE_REQUEST, 0.0, 300.0)));
    assert TryReserve(EMPTY_LEDGER, SlowAttempt().tries) == (s, Some(Reservation(0, ONE_REQUEST, 0.0, 300.0)));
    var swept := r0.(state := RowState.Cancelled);
    var others := SlowAttempt().others;
    assert Foreign(others, 0) == others && others[1..] == [];
    assert [r0][1..] == [] && Sweep([r0], 300.0) == [swept];
    assert Insert([swept], r1) == [swept] + Insert([], r1);
    assert Run(s, others) == Step(s, others[0]);
    assert [swept, r1][1..] == [r1] && [r1][1..] == [];
    var a := NormalizedUsage(None, ONE_REQUEST, Some(UNLIMITED));
    assert CompleteRows([r1], 0, a) == [r1] && CompleteRows([swept, r1], 0, a) == [swept] + CompleteRows([r1], 0, a);
  }

  /** The exception is real: a request answered after 300 seconds, during which another caller
      was admitted, has its reservation swept and counts nowhere. */
  lemma SlowAnswerIsNotCounted()
    ensures var o := AttemptOnce(EMPTY_LEDGER, UNLIMITED, SlowAttempt(), true);
            && o.verdict == Done(Answered(200)) && |o.log| == 1 && o.log[0].response.Status?
            && SettledEntry(o.ledger, o.log[0], UNLIMITED) && o.log[0].expired
            && Used(o.ledger.rows, Interval(-1.0, 299.0, false), Requests) == 0.0
  {
    SlowRows();
    var rows := AttemptOnce(EMPTY_LEDGER, UNLIMITED, SlowAttempt(), true).ledger.rows;
    assert rows[1..][1..] == [];
    assert Select(rows[1..], Interval(-1.0, 299.0, false)) == [];
    AttemptSettles(EMPTY_LEDGER, UNLIMITED, SlowAttempt(), true);
  }

  // ----- What a result means -----

  /** A failure that is tried again as long as attempts are left. */
  predicate Passing(r: Response) {
    r.NoAnswer? || (r.Status? && (r.code in {408, 429} || r.code in {500, 502, 503, 504}))
  }

  /** How the last attempt, with a reservation made or not, brings about the loop's result. */
  predicate EarnedBy(result: Result, a: Attempt, made: bool, last: bool) {
    match result
    case Answered(code) =>
      made && !a.cancelledAfter && a.response.Status? && a.response.code == code && !(400 <= code < 600)
    case RateLimited => made && last && !a.cancelledAfter && a.response.Status? && a.response.code == 429
    case HttpFailed(code) =>
      && made && a.response.Status? && a.response.code == code && 400 <= code < 600 && code != 429
      && (Passing(a.response) ==> last && !a.cancelledAfter)
    case ConnectionFailed => made && last && !a.cancelledAfter && a.response.NoAnswer?
    case QuotaFailed => !made && !a.cancelledBefore
    case OperationCancelled => if made then a.response.Aborted? || a.cancelledAfter else a.cancelledBefore
    case NoResponse => false
  }

  function At(script: nat -> Attempt, from: nat, i: nat): Attempt { script(from + i) }

  /** The log holds the attempts from `from` on, and after only passing failures the last of at
      most `budget` attempts earned the result. */
  predicate EndsWith(f: Final, script: nat -> Attempt, from: nat, budget: nat, made: bool) {
    var n := |f.log|;
    var j := if made then n - 1 else n;
    && 0 <= j < budget && EarnedBy(f.result, At(script, from, j), made, j + 1 == budget)
    && (forall i :: 0 <= i < n ==>
          f.log[i].response == At(script, from, i).response && !At(script, from, i).cancelledBefore)
    && (forall i :: 0 <= i < j ==> Passing(At(script, from, i).response) && !At(script, from, i).cancelledAfter)
  }

  predicate Earned(f: Final, script: nat -> Attempt, from: nat, budget: nat) {
    EndsWith(f, script, from, budget, true) || EndsWith(f, script, from, budget, false)
  }

  /** The outcome of the attempt: a passing failure is tried again while attempts are left, and
      whatever ends the loop is earned. */
  predicate Fair(o: Outcome, a: Attempt, last: bool) {
    && |o.log| <= 1 && (|o.log| == 1 ==> o.log[0].response == a.response && !a.cancelledBefore)
    && match o.verdict
       case Retry => |o.log| == 1 && !last && Passing(a.response) && !a.cancelledAfter
       case Done(result) => EarnedBy(result, a, |o.log| == 1, last)
  }

  lemma AttemptIsFair(s: Ledger, p: Profile, a: Attempt, last: bool)
    ensures Fair(AttemptOnce(s, p, a, last), a, last)
  {
  }

  function Continued(o: Outcome, rest: Final): Final {
    match o.verdict
    case Done(result) => Final(o.ledger, o.log, result)
    case Retry => Prepend(o.log, rest)
  }

  lemma EarnedStep(whole: Final, o: Outcome, rest: Final, script: nat -> Attempt, k: nat, attempts: nat)
    requires k < attempts && whole == Continued(o, rest) && Fair(o, script(k), attempts - k == 1)
    requires o.verdict.Retry? && k + 1 < attempts ==> Earned(rest, script, k + 1, attempts - (k + 1))
    ensures Earned(whole, script, k, attempts - k)
  {
    var budget: nat := attempts - k;
    if o.verdict.Retry? {
      assert o.log == [o.log[0]];
      EarnedLonger(o.log[0], rest, script, k, budget, EndsWith(rest, script, k + 1, budget - 1, true));
    } else {
      assert EndsWith(whole, script, k, budget, |o.log| == 1);
    }
  }

  /** The result is the one the last attempt earned: an answer is a success; a rate limit, a lost
      connection or another passing failure surfaces only after every attempt was used; every
      other failure at once; and before it there were only passing failures. */
  lemma {:induction false} FailuresUseEveryAttempt(s: Ledger, p: Profile, script: nat -> Attempt, k: nat, attempts: nat)
    requires k < attempts
    ensures Earned(Attempts(s, p, script, k, attempts), script, k, attempts - k)
    decreases attempts - k
  {
    var o, rest := FirstAttempt(s, p, script, k, attempts);
    if o.verdict.Retry? {
      FailuresUseEveryAttempt(o.ledger, p, script, k + 1, attempts);
    }
    EarnedStep(Attempts(s, p, script, k, attempts), o, rest, script, k, attempts);
  }

  lemma FirstAttempt(s: Ledger, p: Profile, script: nat -> Attempt, k: nat, attempts: nat)
    returns (o: Outcome, rest: Final)
    requires k < attempts
    ensures Fair(o, script(k), attempts - k == 1) && rest == Attempts(o.ledger, p, script, k + 1, attempts)
    ensures Attempts(s, p, script, k, attempts) == Continued(o, rest)
  {
    o := AttemptOnce(s, p, script(k), k + 1 >= attempts);
    rest := Attempts(o.ledger, p, script, k + 1, attempts);
    AttemptIsFair(s, p, script(k), k + 1 >= attempts);
    assert (k + 1 >= attempts) == (attempts - k == 1);
  }

  lemma EarnedLonger(e: Entry, rest: Final, script: nat -> Attempt, from: nat, budget: nat, made: bool)
    requires budget > 0 && EndsWith(rest, script, from + 1, budget - 1, made)
    requires e.response == script(from).response && Passing(e.response)
    requires !script(from).cancelledBefore && !script(from).cancelledAfter
    ensures EndsWith(Prepend([e], rest), script, from, budget, made)
  {
    var all := [e] + rest.log;
    assert At(script, from, 0) == script(from);
    forall i: nat | i >= 1 ensures At(script, from, i) == At(script, from + 1, i - 1) {
    }
    assert forall i :: 1 <= i < |all| ==> all[i] == rest.log[i - 1];
  }

  /** A failed answer keeps the request and its input tokens counted and gives the output back,
      and under the estimate's own pricing it never costs more than was reserved. */
  lemma FailedAnswersReleaseOutput(r: Reservation, p: Profile)
    requires r.estimate.units == UnitsFor(r.estimate.input, r.estimate.output, p)
    ensures var a := NormalizedUsage(FailureUsage(r), r.estimate, Some(p));
            && a.requests == r.estimate.requests && a.input == r.estimate.input
            && a.output == (if r.estimate.input > 0.0 then 0.0 else r.estimate.output)
            && a.units <= r.estimate.units
  {
    var outputCost := r.estimate.output * p.outputUnits;
    assert outputCost >= 0.0;
    assert 0.0 * p.outputUnits == 0.0;
  }

  // ----- The loop -----

  method Interleave(ledger: QuotaLedger, events: seq<Event>, p: Profile)
    modifies ledger
    ensures ledger.State() == Run(old(ledger.State()), events)
  {
    for i := 0 to |events|
      invariant Run(old(ledger.State()), events) == Run(ledger.State(), events[i..])
    {
      assert events[i..][1..] == events[i + 1..];
      match events[i] {
        case Reserve(q) => var _ := ledger.Reserve(q);
        case Complete(id, a, headers) => ledger.Complete(Reservation(id, a, 0.0, 0.0), None, Some(p), headers);
        case Cancel(id) => ledger.Cancel(Reservation(id, Amounts(0.0, 0.0, 0.0, 0.0), 0.0, 0.0));
        case Expire(now) => ledger.Expire(now);
      }
    }
  }

  method WaitForQuota(ledger: QuotaLedger, tries: seq<Try>, p: Profile) returns (got: Option<Reservation>)
    modifies ledger
    ensures (ledger.State(), got) == TryReserve(old(ledger.State()), tries)
  {
    for i := 0 to |tries|
      invariant TryReserve(old(ledger.State()), tries) == TryReserve(ledger.State(), tries[i..])
    {
      assert tries[i..][1..] == tries[i + 1..];
      Interleave(ledger, tries[i].others, p);
      var o := ledger.Reserve(tries[i].request);
      if o.Granted? {
        return Some(o.reservation);
      }
    }
    got := None;
  }

  method AttemptRequest(ledger: QuotaLedger, p: Profile, a: Attempt, last: bool)
    returns (verdict: Verdict, ghost log: seq<Entry>)
    modifies ledger
    ensures Outcome(ledger.State(), log, verdict) == AttemptOnce(old(ledger.State()), p, a, last)
  {
    if a.cancelledBefore {
      return Done(OperationCancelled), [];
    }
    var got := WaitForQuota(ledger, a.tries, p);
    if got.None? {
      return Done(QuotaFailed), [];
    }
    var r := got.value;
    var others := Foreign(a.others, r.id);
    log := [Entry(r, a.response, SweptDuring(ledger.State(), others, r.expiresAt))];
    Interleave(ledger, others, p);
    match a.response {
      case Status(code, usage, headers) =>
        var charged := if Retryable(code) || RaisesForStatus(code) then FailureUsage(r) else usage;
        ledger.Complete(r, charged, Some(p), headers);
      case _ =>
        ledger.Cancel(r);
    }
    verdict := Judge(a, last);
  }

  method RequestWithRetries(ledger: QuotaLedger, p: Profile, script: nat -> Attempt, maxRetries: int)
    returns (result: Result, ghost log: seq<Entry>)
    modifies ledger
    ensures Final(ledger.State(), log, result) ==
            Attempts(old(ledger.State()), p, script, 0, AttemptCount(maxRetries))
  {
    var attempts := AttemptCount(maxRetries);
    log := [];
    ghost var whole := Attempts(ledger.State(), p, script, 0, attempts);
    assert [] + whole.log == whole.log;
    for k := 0 to attempts
      invariant whole == Prepend(log, Attempts(ledger.State(), p, script, k, attempts))
    {
      var verdict, more := AttemptRequest(ledger, p, script(k), k + 1 >= attempts);
      ghost var later := Attempts(ledger.State(), p, script, k + 1, attempts);
      if verdict.Done? {
        log := log + more;
        return verdict.result, log;
      }
      PrependTwice(log, more, later);
      log := log + more;
    }
    assert log + [] == log;
    result := NoResponse;
  }

  lemma PrependTwice(a: seq<Entry>, b: seq<Entry>, f: Final)
    ensures Prepend(a, Prepend(b, f)) == Prepend(a + b, f)
  {
    assert a + (b + f.log) == a + b + f.log;
  }
}
