/** The alert table: one active alert per condition, and what a run of changes keeps. */
module Alerts {
  import opened Wrappers

  datatype Status = Open | Acked | Snoozed | Resolved

  datatype Severity = Info | Warning | Critical

  datatype Alert = Alert(
    kind: string, severity: Severity, title: string, body: string, raisedAt: int, status: Status,
    ackedAt: Option<int>, resolvedAt: Option<int>, snoozedUntil: Option<int>, signature: string)

  datatype RaiseInput = RaiseInput(kind: string, severity: Severity, title: string, body: string, signature: string)

  type Rows = map<string, Alert>

  predicate Active(a: Alert) { a.status != Resolved }

  predicate HasActive(rows: Rows, signature: string) {
    exists id :: id in rows && rows[id].signature == signature && Active(rows[id])
  }

  function Fresh(input: RaiseInput, now: int): Alert {
    Alert(input.kind, input.severity, input.title, input.body, now, Open, None, None, None, input.signature)
  }

  // ---- the statements ------------------------------------------------------

  predicate PastDue(a: Alert, now: int) { a.status == Snoozed && a.snoozedUntil.Some? && a.snoozedUntil.value <= now }

  predicate IsCost(kind: string) { "cost." <= kind }

  datatype Change = Acking(now: int) | Resolving(now: int) | Snoozing(until: int) | Unsnoozing(now: int) | Downgrading

  /** The `WHERE` of an update of active rows. */
  predicate Applies(a: Alert, c: Change) {
    match c
    case Acking(_) => a.status in {Open, Snoozed}
    case Resolving(_) => Active(a)
    case Snoozing(_) => a.status in {Open, Acked}
    case Unsnoozing(now) => PastDue(a, now)
    case Downgrading => a.severity == Critical && Active(a) && IsCost(a.kind)
  }

  /** The row after `UPDATE alerts SET … WHERE …`. */
  function Changed(a: Alert, c: Change): Alert {
    if !Applies(a, c) then a
    else match c
      case Acking(now) => a.(status := Acked, ackedAt := Some(now))
      case Resolving(now) => a.(status := Resolved, resolvedAt := Some(now))
      case Snoozing(until) => a.(status := Snoozed, snoozedUntil := Some(until))
      case Unsnoozing(_) => a.(status := Open, snoozedUntil := None)
      case Downgrading => a.(severity := Warning)
  }

  function Update(rows: Rows, c: Change): Rows { map id | id in rows :: Changed(rows[id], c) }

  function UpdateOne(rows: Rows, id: string, c: Change): Rows {
    if id in rows then rows[id := Changed(rows[id], c)] else rows
  }

  /** `INSERT … ON CONFLICT (signature) WHERE active DO NOTHING`. */
  function Raise(rows: Rows, input: RaiseInput, id: string, now: int): Rows {
    if HasActive(rows, input.signature) then rows else rows[id := Fresh(input, now)]
  }

  // ---- what the statements do, by their columns ----------------------------

  /** No row comes or goes, and every row but this one is as it was. */
  predicate OthersStay(before: Rows, after: Rows, id: string) {
    after.Keys == before.Keys && forall j <- before | j != id :: after[j] == before[j]
  }

  /** An active row with this signature, which makes a raise a duplicate. */
  ghost predicate Taken(rows: Rows, signature: string) {
    exists id :: id in rows && rows[id].signature == signature && (rows[id].status == Open || rows[id].status == Snoozed || rows[id].status == Acked)
  }

  /** The raised row, column by column. */
  predicate IsRaised(a: Alert, input: RaiseInput, now: int) {
    && a.kind == input.kind && a.severity == input.severity && a.title == input.title && a.body == input.body
    && a.signature == input.signature && a.raisedAt == now && a.status == Open
    && a.ackedAt == None && a.resolvedAt == None && a.snoozedUntil == None
  }

  /** A critical alert about cost that is not resolved. */
  predicate TooLoud(a: Alert) {
    a.severity == Critical && a.status != Resolved && |a.kind| >= 5 && a.kind[..5] == "cost."
  }

  /** What an operation makes of the table: which rows move, what they move to, and that nothing else changes. */
  ghost predicate Does(before: Rows, op: Op, after: Rows) {
    match op
    case RaiseOp(input, id, now) =>
      if id in before || Taken(before, input.signature) then after == before
      else after.Keys == before.Keys + {id} && IsRaised(after[id], input, now) && forall j <- before :: after[j] == before[j]
    case AckOp(id, now) =>
      && OthersStay(before, after, id)
      && (id in before ==>
            after[id] == if before[id].status == Open || before[id].status == Snoozed
                         then before[id].(status := Acked, ackedAt := Some(now)) else before[id])
    case ResolveOp(id, now) =>
      && OthersStay(before, after, id)
      && (id in before ==>
            after[id] == if before[id].status == Resolved then before[id]
                         else before[id].(status := Resolved, resolvedAt := Some(now)))
    case SnoozeOp(id, until) =>
      && OthersStay(before, after, id)
      && (id in before ==>
            after[id] == if before[id].status == Open || before[id].status == Acked
                         then before[id].(status := Snoozed, snoozedUntil := Some(until)) else before[id])
    case UnsnoozeOp(now) =>
      && after.Keys == before.Keys
      && forall j <- before ::
           after[j] == if before[j].status == Snoozed && before[j].snoozedUntil.Some? && before[j].snoozedUntil.value <= now
                       then before[j].(status := Open, snoozedUntil := None) else before[j]
    case ResolveAllOp(now) =>
      && after.Keys == before.Keys
      && forall j <- before :: after[j] == if before[j].status == Resolved then before[j]
                                          else before[j].(status := Resolved, resolvedAt := Some(now))
    case DowngradeOp =>
      && after.Keys == before.Keys
      && forall j <- before :: after[j] == if TooLoud(before[j]) then before[j].(severity := Warning) else before[j]
  }

  /** The rows that an operation has changed. */
  function Moved(before: Rows, after: Rows): set<string> { set id | id in before && id in after && after[id] != before[id] }

  lemma MovedIs(rows: Rows, c: Change)
    requires !c.Acking? && !c.Snoozing?
    ensures Moved(rows, Update(rows, c)) == set id | id in rows && Applies(rows[id], c)
  {}

  /** Every step of a run is one of these. */
  lemma StepDoes(rows: Rows, op: Op)
    ensures Does(rows, op, Step(rows, op))
  {
    if op.RaiseOp? {
      TakenIff(rows, op.input.signature);
    }
  }

  lemma TakenIff(rows: Rows, signature: string)
    ensures Taken(rows, signature) <==> HasActive(rows, signature)
  {
    if HasActive(rows, signature) {
      var id :| id in rows && rows[id].signature == signature && Active(rows[id]);
      assert rows[id].status == Open || rows[id].status == Snoozed || rows[id].status == Acked;
    }
  }

  predicate WholeTable(op: Op, c: Change) {
    match op
    case UnsnoozeOp(now) => c == Unsnoozing(now)
    case ResolveAllOp(now) => c == Resolving(now)
    case DowngradeOp => c == Downgrading
    case _ => false
  }

  /** A statement over the whole table, as a step of a run. */
  lemma Updated(before: Rows, after: Rows, op: Op, c: Change)
    requires WholeTable(op, c) && after == Update(before, c)
    ensures after == Step(before, op) && Does(before, op, after)
    ensures |Moved(before, after)| == |set id | id in before && Applies(before[id], c)|
  {
    hide Does, Moved, Update, Applies;
    StepDoes(before, op);
    MovedIs(before, c);
  }

  /** A resolved alert does not keep its condition from being reported: in any run, once the active row of a
      signature is resolved, by itself or with all others, the next raise of it under a new id is a fresh open row. */
  lemma ResolvedThenRaised(ops: seq<Op>, id: string, at: int, all: bool, input: RaiseInput, newId: string, now: int)
    requires var rows := Run(map[], ops); id in rows && rows[id].status != Resolved && rows[id].signature == input.signature
    requires newId !in Run(map[], ops)
    ensures var rows := Run(map[], ops + [if all then ResolveAllOp(at) else ResolveOp(id, at)]);
            && rows[id].status == Resolved && rows[id].resolvedAt == Some(at) && !Taken(rows, input.signature)
            && var next := Run(map[], ops + [if all then ResolveAllOp(at) else ResolveOp(id, at)] + [RaiseOp(input, newId, now)]);
               newId in next && IsRaised(next[newId], input, now) && next[id] == rows[id]
  {
    var op, raise := if all then ResolveAllOp(at) else ResolveOp(id, at), RaiseOp(input, newId, now);
    var rows := Run(map[], ops);
    RunMore(ops, op);
    RunMore(ops + [op], raise);
    AlwaysSane(ops);
    StepDoes(rows, op);
    StepDoes(Step(rows, op), raise);
    hide Step, Run;
    assert forall j <- rows | rows[j].signature == input.signature && j != id :: rows[j].status == Resolved;
  }

  lemma RunMore(ops: seq<Op>, op: Op)
    ensures Run(map[], ops + [op]) == Step(Run(map[], ops), op)
  {
    assert (ops + [op])[..|ops|] == ops;
  }

  // ---- the repository ------------------------------------------------------

  class AlertRepository {
    var rows: Rows

    constructor ()
      ensures rows == map[]
    {
      rows := map[];
    }

    /** `id` is the key the database generates. */
    method RaiseIfNew(input: RaiseInput, id: string, now: int) returns (raised: Option<Alert>)
      requires id !in rows
      modifies this
      ensures rows == Step(old(rows), RaiseOp(input, id, now))
      ensures raised.Some? <==> !Taken(old(rows), input.signature)
      ensures raised.Some? ==> rows == old(rows)[id := raised.value] && IsRaised(raised.value, input, now)
      ensures raised.None? ==> rows == old(rows)
    {
      TakenIff(rows, input.signature);
      if HasActive(rows, input.signature) {
        return None;
      }
      rows := rows[id := Fresh(input, now)];
      return Some(rows[id]);
    }

    method Ack(id: string, now: int)
      modifies this
      ensures rows == Step(old(rows), AckOp(id, now)) && Does(old(rows), AckOp(id, now), rows)
    {
      if id in rows && rows[id].status in {Open, Snoozed} {
        rows := rows[id := rows[id].(status := Acked, ackedAt := Some(now))];
      }
    }

    method Resolve(id: string, now: int)
      modifies this
      ensures rows == Step(old(rows), ResolveOp(id, now)) && Does(old(rows), ResolveOp(id, now), rows)
      ensures id in rows ==> rows[id].status == Resolved
    {
      if id in rows && rows[id].status != Resolved {
        rows := rows[id := rows[id].(status := Resolved, resolvedAt := Some(now))];
      }
    }

    method Snooze(id: string, until: int)
      modifies this
      ensures rows == Step(old(rows), SnoozeOp(id, until)) && Does(old(rows), SnoozeOp(id, until), rows)
    {
      if id in rows && rows[id].status in {Open, Acked} {
        rows := rows[id := rows[id].(status := Snoozed, snoozedUntil := Some(until))];
      }
    }

    /** Reports how many rows it woke. */
    method UnsnoozeExpired(now: int) returns (n: nat)
      modifies this
      ensures rows == Step(old(rows), UnsnoozeOp(now)) && Does(old(rows), UnsnoozeOp(now), rows)
      ensures n == |Moved(old(rows), rows)|
    {
      hide Does, Step, Moved;
      ghost var was := rows;
      n := |set id | id in rows && Applies(rows[id], Unsnoozing(now))|;
      rows := map id | id in rows ::
        if rows[id].status == Snoozed && rows[id].snoozedUntil.Some? && rows[id].snoozedUntil.value <= now
        then rows[id].(status := Open, snoozedUntil := None) else rows[id];
      Updated(was, rows, UnsnoozeOp(now), Unsnoozing(now));
    }

    /** Reports how many rows it resolved. */
    method ResolveAll(now: int) returns (n: nat)
      modifies this
      ensures rows == Step(old(rows), ResolveAllOp(now)) && Does(old(rows), ResolveAllOp(now), rows)
      ensures forall id <- rows :: rows[id].status == Resolved
      ensures n == |Moved(old(rows), rows)|
    {
      hide Does, Step, Moved;
      ghost var was := rows;
      n := |set id | id in rows && Applies(rows[id], Resolving(now))|;
      rows := map id | id in rows ::
        if rows[id].status in {Open, Acked, Snoozed} then rows[id].(status := Resolved, resolvedAt := Some(now)) else rows[id];
      Updated(was, rows, ResolveAllOp(now), Resolving(now));
    }

    /** Reports how many rows it downgraded. */
    method DowngradeOpenCostAlertsToWarning() returns (n: nat)
      modifies this
      ensures rows == Step(old(rows), DowngradeOp) && Does(old(rows), DowngradeOp, rows)
      ensures n == |Moved(old(rows), rows)|
    {
      hide Does, Step, Moved;
      ghost var was := rows;
      n := |set id | id in rows && Applies(rows[id], Downgrading)|;
      rows := map id | id in rows ::
        if rows[id].severity == Critical && rows[id].status in {Open, Snoozed, Acked} && IsCost(rows[id].kind)
        then rows[id].(severity := Warning) else rows[id];
      Updated(was, rows, DowngradeOp, Downgrading);
    }
  }

  // ---- runs ----------------------------------------------------------------

  datatype Op =
    | RaiseOp(input: RaiseInput, id: string, now: int)
    | AckOp(id: string, now: int)
    | ResolveOp(id: string, now: int)
    | SnoozeOp(id: string, until: int)
    | UnsnoozeOp(now: int)
    | ResolveAllOp(now: int)
    | DowngradeOp

  function Step(rows: Rows, op: Op): Rows {
    match op
    case RaiseOp(input, id, now) => if id in rows then rows else Raise(rows, input, id, now)
    case AckOp(id, now) => UpdateOne(rows, id, Acking(now))
    case ResolveOp(id, now) => UpdateOne(rows, id, Resolving(now))
    case SnoozeOp(id, until) => UpdateOne(rows, id, Snoozing(until))
    case UnsnoozeOp(now) => Update(rows, Unsnoozing(now))
    case ResolveAllOp(now) => Update(rows, Resolving(now))
    case DowngradeOp => Update(rows, Downgrading)
  }

  function Run(rows: Rows, ops: seq<Op>): Rows
    decreases |ops|
  {
    if ops == [] then rows else Step(Run(rows, ops[..|ops| - 1]), ops[|ops| - 1])
  }

  /** The raise goes through. */
  predicate Raises(rows: Rows, op: Op, signature: string) {
    op.RaiseOp? && op.id !in rows && op.input.signature == signature && !HasActive(rows, signature)
  }

  /** How often a signature was freshly raised. */
  function Raised(ops: seq<Op>, signature: string): nat
    decreases |ops|
  {
    if ops == [] then 0
    else Raised(ops[..|ops| - 1], signature) + if Raises(Run(map[], ops[..|ops| - 1]), ops[|ops| - 1], signature) then 1 else 0
  }

  function ActiveOf(rows: Rows, signature: string): set<string> {
    set id | id in rows && rows[id].signature == signature && Active(rows[id])
  }

  function ResolvedOf(rows: Rows, signature: string): set<string> {
    set id | id in rows && rows[id].signature == signature && !Active(rows[id])
  }

  /** At most one active row per signature, and a snoozed row knows until when. */
  ghost predicate Sane(rows: Rows) {
    && (forall i, j | i in rows && j in rows && rows[i].signature == rows[j].signature && Active(rows[i]) && Active(rows[j]) :: i == j)
    && (forall id <- rows | rows[id].status == Snoozed :: rows[id].snoozedUntil.Some?)
  }

  /** Changes of a row that no operation makes: its signature stays, and a resolved row stays as it is. */
  ghost predicate RowKept(a: Alert, b: Alert) {
    && b.signature == a.signature && (Active(b) ==> Active(a)) && (!Active(a) ==> b == a)
    && ((a.status == Snoozed ==> a.snoozedUntil.Some?) ==> (b.status == Snoozed ==> b.snoozedUntil.Some?))
  }

  lemma StepKeepsRows(rows: Rows, op: Op)
    ensures forall id <- rows :: id in Step(rows, op) && RowKept(rows[id], Step(rows, op)[id])
    ensures forall id <- Step(rows, op) | id !in rows ::
              op.RaiseOp? && id == op.id && !HasActive(rows, op.input.signature) && Step(rows, op)[id] == Fresh(op.input, op.now)
  {}

  lemma StepSane(rows: Rows, op: Op)
    requires Sane(rows)
    ensures Sane(Step(rows, op))
  {
    hide Step;
    StepKeepsRows(rows, op);
  }

  lemma {:induction false} AlwaysSane(ops: seq<Op>)
    ensures Sane(Run(map[], ops))
    decreases |ops|
  {
    if ops == [] {
    } else {
      AlwaysSane(ops[..|ops| - 1]);
      StepSane(Run(map[], ops[..|ops| - 1]), ops[|ops| - 1]);
    }
  }

  function IdsOf(rows: Rows, signature: string): set<string> { set id | id in rows && rows[id].signature == signature }

  lemma StepCounts(rows: Rows, op: Op, signature: string)
    ensures |IdsOf(Step(rows, op), signature)| == |IdsOf(rows, signature)| + if Raises(rows, op, signature) then 1 else 0
  {
    StepKeepsRows(rows, op);
    if Raises(rows, op, signature) {
      assert IdsOf(Step(rows, op), signature) == IdsOf(rows, signature) + {op.id};
    } else {
      assert IdsOf(Step(rows, op), signature) == IdsOf(rows, signature);
    }
  }

  lemma {:induction false} EveryRaiseHasItsRow(ops: seq<Op>, signature: string)
    ensures |IdsOf(Run(map[], ops), signature)| == Raised(ops, signature)
    decreases |ops|
  {
    if ops == [] {
    } else {
      EveryRaiseHasItsRow(ops[..|ops| - 1], signature);
      StepCounts(Run(map[], ops[..|ops| - 1]), ops[|ops| - 1], signature);
    }
  }

  lemma AtMostOne(s: set<string>)
    requires forall i, j | i in s && j in s :: i == j
    ensures |s| <= 1
  {
    if s != {} {
      var i :| i in s;
      assert s == {i};
    }
  }

  /** In every run the fresh raises of a signature are its resolved rows and at most one active row. */
  lemma RaisesAreAccountedFor(ops: seq<Op>, signature: string)
    ensures var rows := Run(map[], ops);
            && Raised(ops, signature) == |ResolvedOf(rows, signature)| + |ActiveOf(rows, signature)|
            && |ActiveOf(rows, signature)| <= 1
  {
    var rows := Run(map[], ops);
    AlwaysSane(ops);
    EveryRaiseHasItsRow(ops, signature);
    AtMostOne(ActiveOf(rows, signature));
    assert IdsOf(rows, signature) == ResolvedOf(rows, signature) + ActiveOf(rows, signature);
  }

  /** A resolved row is never touched again. */
  lemma {:induction false} ResolvedForEver(rows: Rows, ops: seq<Op>, id: string)
    requires id in rows && rows[id].status == Resolved
    ensures id in Run(rows, ops) && Run(rows, ops)[id] == rows[id]
    decreases |ops|
  {
    if ops == [] {
    } else {
      ResolvedForEver(rows, ops[..|ops| - 1], id);
      StepKeepsRows(Run(rows, ops[..|ops| - 1]), ops[|ops| - 1]);
    }
  }

  /** After a wake-up no row sleeps past its time. */
  lemma NoneOverslept(ops: seq<Op>, now: int)
    ensures var rows := Run(map[], ops + [UnsnoozeOp(now)]);
            forall id <- rows | rows[id].status == Snoozed :: rows[id].snoozedUntil.Some? && rows[id].snoozedUntil.value > now
  {
    AlwaysSane(ops + [UnsnoozeOp(now)]);
    assert (ops + [UnsnoozeOp(now)])[..|ops|] == ops;
  }
}
