/** The audit log of rule changes and its rollback: undoing recorded changes newest first
    passes every staleness check and restores the rule table. */
module AuditUndo {
  import opened Basics

  datatype Kind = ExactDomain | RegexDomain | SubscribedList

  datatype Resource = Resource(kind: Kind, listType: string, key: string)

  /** Group lists are kept normalized, that is, as sets. */
  datatype Rule = Rule(comment: string, enabled: bool, groups: set<int>)

  /** What the log remembers of a rule; the groups may be unknown. */
  datatype Snapshot = Snapshot(comment: string, enabled: bool, groups: Option<set<int>>)

  type Table = map<Resource, Rule>

  datatype Operation = Add | Update | Delete | Rollback

  datatype Entry = Entry(instance: string, operation: Operation, resource: Resource, before: Option<Snapshot>,
                         after: Option<Snapshot>, reversible: bool, related: Option<nat>, rolledBack: bool)

  /** The rule table of the connected server, and the log; an entry's id is its position. */
  datatype State = State(instance: string, table: Table, log: seq<Entry>)

  function Capture(t: Table, r: Resource): Option<Snapshot> {
    if r in t then Some(Snapshot(t[r].comment, t[r].enabled, Some(t[r].groups))) else None
  }

  // ----- Recording changes -----

  /** A change the application makes. An add may leave the groups to the server. */
  datatype Change =
    | AddRule(resource: Resource, comment: string, enabled: bool, groups: Option<set<int>>, defaulted: set<int>)
    | UpdateRule(resource: Resource, rule: Rule)
    | DeleteRule(resource: Resource)

  function Reversible(op: Operation, before: Option<Snapshot>): bool {
    op == Add || ((op == Update || op == Delete) && before.Some?)
  }

  function Record(s: State, op: Operation, r: Resource, before: Option<Snapshot>, after: Option<Snapshot>): seq<Entry> {
    s.log + [Entry(s.instance, op, r, before, after, Reversible(op, before), None, false)]
  }

  /** The server stores what it is sent. */
  function Perform(s: State, c: Change): State {
    match c
    case AddRule(r, comment, enabled, groups, defaulted) =>
      var stored := if groups.Some? then groups.value else defaulted;
      s.(table := s.table[r := Rule(comment, enabled, stored)],
         log := Record(s, Add, r, None, Some(Snapshot(comment, enabled, groups))))
    case UpdateRule(r, rule) =>
      s.(table := s.table[r := rule],
         log := Record(s, Update, r, Capture(s.table, r),
                       Some(Snapshot(rule.comment, rule.enabled, Some(rule.groups)))))
    case DeleteRule(r) =>
      s.(table := s.table - {r}, log := Record(s, Delete, r, Capture(s.table, r), None))
  }

  /** Adds are of absent resources; updates and deletes are of present, captured ones. */
  predicate Proper(s: State, c: Change) {
    match c
    case AddRule(r, _, _, _, _) => r !in s.table
    case UpdateRule(r, _) => r in s.table
    case DeleteRule(r) => r in s.table
  }

  // ----- Rolling back -----

  /** Only fields the expected snapshot knows are compared. */
  predicate Matches(current: Option<Snapshot>, expected: Option<Snapshot>) {
    match expected
    case None => current.None?
    case Some(e) =>
      && current.Some? && current.value.comment == e.comment && current.value.enabled == e.enabled
      && (e.groups.Some? ==> current.value.groups == e.groups)
  }

  datatype Refusal = NotFound | NotReversible | AlreadyRolledBack | OtherInstance | Stale

  datatype Answer = Undone(id: nat) | Refused(why: Refusal)

  function Expected(e: Entry): Option<Snapshot> { if e.operation == Delete then None else e.after }

  function Check(s: State, id: nat): Option<Refusal> {
    if id >= |s.log| then Some(NotFound)
    else
      var e := s.log[id];
      if !e.reversible || e.operation == Rollback then Some(NotReversible)
      else if e.rolledBack then Some(AlreadyRolledBack)
      else if e.instance != s.instance then Some(OtherInstance)
      else if !Matches(Capture(s.table, e.resource), Expected(e)) then Some(Stale)
      else None
  }

  function Restore(t: Table, r: Resource, before: Option<Snapshot>): Table {
    match before
    case None => t
    case Some(b) => t[r := Rule(b.comment, b.enabled, if b.groups.Some? then b.groups.value else {})]
  }

  function ApplyRollback(t: Table, e: Entry): Table {
    if e.operation == Add then t - {e.resource} else Restore(t, e.resource, e.before)
  }

  function RollbackEntry(s: State, id: nat): (State, Answer) {
    var refusal := Check(s, id);
    if refusal.Some? then (s, Refused(refusal.value))
    else
      var e := s.log[id];
      (s.(table := ApplyRollback(s.table, e),
          log := s.log[id := e.(rolledBack := true)]
                 + [Entry(e.instance, Rollback, e.resource, e.after, e.before, false, Some(id), false)]),
       Undone(|s.log|))
  }

  class Audit {
    var instance: string
    var table: Table
    var log: seq<Entry>

    ghost function Value(): State
      reads this
    {
      State(instance, table, log)
    }

    constructor (name: string)
      ensures Value() == State(name, map[], [])
    {
      instance, table, log := name, map[], [];
    }

    method Change(c: Change)
      modifies this
      ensures Value() == Perform(old(Value()), c)
      ensures instance == old(instance) && |log| == |old(log)| + 1 && log[..|old(log)|] == old(log)
      ensures (if c.resource in table then Some(table[c.resource]) else None) == Left(c)
      ensures log[|old(log)|].before == if c.AddRule? then None else old(Capture(table, c.resource))
      ensures log[|old(log)|].reversible <==> c.AddRule? || c.resource in old(table)
      ensures log[|old(log)|].resource == c.resource && Matches(Capture(table, c.resource), log[|old(log)|].after)
      ensures forall r :: r != c.resource ==> Capture(table, r) == old(Capture(table, r))
    {
      var before := Capture(table, c.resource);
      match c {
        case AddRule(r, comment, enabled, groups, defaulted) =>
          table := table[r := Rule(comment, enabled, if groups.Some? then groups.value else defaulted)];
          LogChange(Add, r, None, Some(Snapshot(comment, enabled, groups)));
        case UpdateRule(r, rule) =>
          table := table[r := rule];
          LogChange(Update, r, before, Some(Snapshot(rule.comment, rule.enabled, Some(rule.groups))));
        case DeleteRule(r) =>
          table := table - {r};
          LogChange(Delete, r, before, None);
      }
    }

    method LogChange(op: Operation, r: Resource, before: Option<Snapshot>, after: Option<Snapshot>)
      modifies this`log
      ensures log == Record(old(Value()), op, r, before, after)
    {
      log := log + [Entry(instance, op, r, before, after, Reversible(op, before), None, false)];
    }

    method RollBack(id: nat) returns (a: Answer)
      modifies this
      ensures (Value(), a) == RollbackEntry(old(Value()), id)
      ensures a.Refused? ==> Value() == old(Value())
    {
      if id >= |log| {
        return Refused(NotFound);
      }
      var e := log[id];
      if !e.reversible || e.operation == Rollback {
        return Refused(NotReversible);
      }
      if e.rolledBack {
        return Refused(AlreadyRolledBack);
      }
      if e.instance != instance {
        return Refused(OtherInstance);
      }
      var current := Capture(table, e.resource);
      if !Matches(current, if e.operation == Delete then None else e.after) {
        return Refused(Stale);
      }
      table := ApplyRollback(table, e);
      a := Undone(|log|);
      log := log[id := e.(rolledBack := true)]
             + [Entry(e.instance, Rollback, e.resource, e.after, e.before, false, Some(id), false)];
    }
  }

  // ----- Undoing a run -----

  function PerformAll(s: State, changes: seq<Change>): State {
    if changes == [] then s
    else
      var n := |changes| - 1;
      Perform(PerformAll(s, changes[..n]), changes[n])
  }

  predicate AllProper(s: State, changes: seq<Change>) {
    changes == [] ||
    var n := |changes| - 1;
    AllProper(s, changes[..n]) && Proper(PerformAll(s, changes[..n]), changes[n])
  }

  /** Roll back the entries high-1, ..., low in that order; None if one is refused. */
  function UndoDown(s: State, high: nat, low: nat): Option<State>
    decreases high
  {
    if high <= low then Some(s)
    else
      var (next, answer) := RollbackEntry(s, high - 1);
      if answer.Refused? then None else UndoDown(next, high - 1, low)
  }

  lemma {:induction false} PerformAllLog(s: State, changes: seq<Change>)
    ensures var t := PerformAll(s, changes);
            |t.log| == |s.log| + |changes| && s.log <= t.log && t.instance == s.instance
  {
    if changes != [] {
      PerformAllLog(s, changes[..|changes| - 1]);
    }
  }

  /** A state the undo has reached: the table after these changes, and their entries untouched. */
  predicate Reached(s: State, changes: seq<Change>, t: State) {
    var u := PerformAll(s, changes);
    t.instance == u.instance && t.table == u.table && u.log <= t.log
  }

  function NewEntry(s: State, c: Change): Entry {
    var log := Perform(s, c).log;
    log[|log| - 1]
  }

  /** What a change logs matches what it did, and applying it backwards undoes it. */
  lemma EntryUndoes(s: State, c: Change)
    requires Proper(s, c)
    ensures var t, e := Perform(s, c), NewEntry(s, c);
            && e.reversible && e.operation != Rollback && !e.rolledBack && e.instance == s.instance
            && Matches(Capture(t.table, e.resource), Expected(e))
            && ApplyRollback(t.table, e) == s.table
  {
    var r := c.resource;
    var t := Perform(s, c);
    match c {
      case AddRule(_, _, _, _, _) => assert t.table - {r} == s.table;
      case UpdateRule(_, rule) => assert t.table[r := s.table[r]] == s.table;
      case DeleteRule(_) => assert t.table[r := s.table[r]] == s.table;
    }
  }

  /** Rolling back the newest change passes the checks and reinstates what was before it. */
  lemma UndoNewest(s: State, changes: seq<Change>, t: State)
    requires changes != [] && AllProper(s, changes) && Reached(s, changes, t)
    ensures var id := |s.log| + |changes| - 1;
            RollbackEntry(t, id).1.Undone? && Reached(s, changes[..|changes| - 1], RollbackEntry(t, id).0)
  {
    var n := |changes| - 1;
    var before := PerformAll(s, changes[..n]);
    PerformAllLog(s, changes);
    PerformAllLog(s, changes[..n]);
    var id := |s.log| + n;
    var c := changes[n];
    assert t.log[id] == Perform(before, c).log[id];
    assert t.log[id] == NewEntry(before, c);
    EntryUndoes(before, c);
    var next := RollbackEntry(t, id).0;
    assert before.log <= next.log by {
      assert forall i :: 0 <= i < |before.log| ==> next.log[i] == t.log[i];
    }
  }

  lemma {:induction false} UndoFrom(s: State, changes: seq<Change>, t: State)
    requires AllProper(s, changes) && Reached(s, changes, t)
    ensures var u := UndoDown(t, |s.log| + |changes|, |s.log|);
            u.Some? && u.value.table == s.table
    decreases |changes|
  {
    if changes != [] {
      UndoNewest(s, changes, t);
      UndoFrom(s, changes[..|changes| - 1], RollbackEntry(t, |s.log| + |changes| - 1).0);
    }
  }

  /** After any run of recorded changes, rolling all of them back newest first is never
      refused and restores the initial rule table. */
  lemma UndoRestores(s: State, changes: seq<Change>)
    requires AllProper(s, changes)
    ensures var u := UndoDown(PerformAll(s, changes), |s.log| + |changes|, |s.log|);
            u.Some? && u.value.table == s.table
  {
    UndoFrom(s, changes, PerformAll(s, changes));
  }

  /** Every compared field of the resource is still what the entry left. */
  predicate StillCurrent(t: Table, e: Entry) {
    if e.operation == Delete || e.after.None? then e.resource !in t
    else
      && e.resource in t
      && t[e.resource].comment == e.after.value.comment
      && t[e.resource].enabled == e.after.value.enabled
      && (e.after.value.groups.Some? ==> t[e.resource].groups == e.after.value.groups.value)
  }

  /** A refusal names a reason that is true. */
  predicate TrueReason(s: State, id: nat, why: Refusal) {
    match why
    case NotFound => id >= |s.log|
    case NotReversible => id < |s.log| && (!s.log[id].reversible || s.log[id].operation == Rollback)
    case AlreadyRolledBack => id < |s.log| && s.log[id].rolledBack
    case OtherInstance => id < |s.log| && s.log[id].instance != s.instance
    case Stale => id < |s.log| && !StillCurrent(s.table, s.log[id])
  }

  /** A rollback goes through exactly when the entry can be undone here, was not undone
      before, and the resource is still as the entry left it; no other resource changes. It is
      logged with the states exchanged, and neither it nor the entry can be rolled back again. */
  lemma RefusedUnlessCurrent(s: State, id: nat)
    requires id < |s.log|
    ensures var e := s.log[id];
            var (next, answer) := RollbackEntry(s, id);
            && (answer.Undone? <==>
                (e.reversible && e.operation != Rollback && e.instance == s.instance && !e.rolledBack
                 && StillCurrent(s.table, e)))
            && (answer.Refused? ==> next == s && TrueReason(s, id, answer.why))
            && (answer.Undone? ==>
                  && answer.id == |s.log| && |next.log| == |s.log| + 1
                  && RollbackEntry(next, id).1 == Refused(AlreadyRolledBack)
                  && RollbackEntry(next, |s.log|).1 == Refused(NotReversible)
                  && (forall i :: 0 <= i < |s.log| && i != id ==> next.log[i] == s.log[i])
                  && var made := next.log[|s.log|];
                     made.related == Some(id) && made.before == e.after && made.after == e.before
                     && made.resource == e.resource && made.instance == s.instance)
            && (answer.Undone? ==> forall r :: r != e.resource ==>
                  (r in next.table <==> r in s.table) && (r in s.table ==> next.table[r] == s.table[r]))
  {
  }

  // ----- Undoing one entry after a run -----

  /** What a change leaves of its rule. */
  function Left(c: Change): Option<Rule> {
    match c
    case AddRule(_, comment, enabled, groups, defaulted) =>
      Some(Rule(comment, enabled, if groups.Some? then groups.value else defaulted))
    case UpdateRule(_, rule) => Some(rule)
    case DeleteRule(_) => None
  }

  /** The fields the change's entry compares; an add that left the groups to the server compares no groups. */
  predicate SameFields(left: Option<Rule>, c: Change) {
    match c
    case AddRule(_, comment, enabled, groups, _) =>
      && left.Some? && left.value.comment == comment && left.value.enabled == enabled
      && (groups.Some? ==> left.value.groups == groups.value)
    case UpdateRule(_, rule) => left == Some(rule)
    case DeleteRule(_) => left.None?
  }

  predicate Untouched(changes: seq<Change>, from: nat, r: Resource) {
    forall i :: from <= i < |changes| ==> changes[i].resource != r
  }

  /** The last change of a rule decides what is left of it. */
  lemma {:induction false} LastChangeLeft(s: State, changes: seq<Change>, j: nat)
    requires j < |changes| && Untouched(changes, j + 1, changes[j].resource)
    ensures var t, r := PerformAll(s, changes).table, changes[j].resource;
            (if r in t then Some(t[r]) else None) == Left(changes[j])
    decreases |changes|
  {
    var n := |changes| - 1;
    if j < n {
      assert changes[n].resource != changes[j].resource;
      assert changes[..n][j] == changes[j];
      LastChangeLeft(s, changes[..n], j);
    }
  }

  /** Every entry of a run stays in the log as its change recorded it. */
  lemma {:induction false} EntryStays(s: State, changes: seq<Change>, k: nat)
    requires k < |changes|
    ensures var t := PerformAll(s, changes);
            |t.log| == |s.log| + |changes| && t.instance == s.instance
            && t.log[|s.log| + k] == NewEntry(PerformAll(s, changes[..k]), changes[k])
    decreases |changes|
  {
    var n := |changes| - 1;
    PerformAllLog(s, changes);
    PerformAllLog(s, changes[..n]);
    if k < n {
      assert changes[..n][..k] == changes[..k] && changes[..n][k] == changes[k];
      EntryStays(s, changes[..n], k);
    }
  }

  /** After any run, an entry can be undone exactly when the last change of its rule left the
      compared fields as the entry's own change did; a rule changed otherwise is not touched. */
  lemma UndoAfterRun(s: State, changes: seq<Change>, k: nat, j: nat)
    requires AllProper(s, changes) && k <= j < |changes| && changes[j].resource == changes[k].resource
    requires Untouched(changes, j + 1, changes[k].resource)
    ensures var t := PerformAll(s, changes);
            RollbackEntry(t, |s.log| + k).1 ==
            if SameFields(Left(changes[j]), changes[k]) then Undone(|t.log|) else Refused(Stale)
  {
    EntryStays(s, changes, k);
    LastChangeLeft(s, changes, j);
    ProperAt(s, changes, k);
    EntryUndoes(PerformAll(s, changes[..k]), changes[k]);
    PerformAllLog(s, changes[..k]);
  }

  lemma {:induction false} ProperAt(s: State, changes: seq<Change>, k: nat)
    requires AllProper(s, changes) && k < |changes|
    ensures Proper(PerformAll(s, changes[..k]), changes[k])
    decreases |changes|
  {
    var n := |changes| - 1;
    if k < n {
      assert changes[..n][..k] == changes[..k] && changes[..n][k] == changes[k];
      ProperAt(s, changes[..n], k);
    }
  }
}
