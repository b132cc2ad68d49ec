/**
 * The partial update of PUT /bookings/:id: a patch of optional fields, what it
 * means for a row, and the SET list with numbered placeholders built for it.
 */
module UpdateBuilder {
  import opened Base
  import opened Records

  /**
   * A field of the request body: left out (`undefined`, the column is kept), or
   * present with a value or with JSON null (the column is set to NULL).
   */
  datatype Field<T> = Absent | Present(value: Option<T>)

  datatype Patch = Patch(
    scheduledDate: Field<Date>,
    scheduledTime: Field<Time>,
    priority: Field<int>,
    notes: Field<string>,
    serviceTypeId: Field<nat>)

  function Weight<T>(f: Field<T>): nat {
    if f.Present? then 1 else 0
  }

  /** How many fields the body supplies. */
  function FieldCount(p: Patch): nat {
    Weight(p.scheduledDate) + Weight(p.scheduledTime) + Weight(p.priority) + Weight(p.notes) + Weight(p.serviceTypeId)
  }

  /** The new value of a column: the supplied one, else the current one. */
  function Or<T>(f: Field<T>, current: Option<T>): Option<T> {
    if f.Present? then f.value else current
  }

  /** What the update means for one row: supplied fields replaced, updated_at bumped, nothing else touched. */
  function ApplyPatch(p: Patch, r: ServiceRequest, now: Timestamp): ServiceRequest {
    r.(scheduledDate := Or(p.scheduledDate, r.scheduledDate),
       scheduledTime := Or(p.scheduledTime, r.scheduledTime),
       priority := Or(p.priority, r.priority),
       notes := Or(p.notes, r.notes),
       serviceTypeId := Or(p.serviceTypeId, r.serviceTypeId),
       updatedAt := now)
  }

  // ---------------------------------------------------------------------------
  // The SET list

  datatype Column = ScheduledDateColumn | ScheduledTimeColumn | PriorityColumn | NotesColumn | ServiceTypeColumn

  /** `column = $slot`, or `updated_at = CURRENT_TIMESTAMP`. */
  datatype Setter = SetColumn(column: Column, slot: nat) | SetUpdatedAtNow

  /** UPDATE SERVICE_REQUESTS SET sets WHERE request_id = $idSlot, with `params` bound. */
  datatype UpdateStatement = UpdateStatement(sets: seq<Setter>, params: seq<Value>, idSlot: nat)

  /** The placeholder the SET list assigns to column `c`, if any. */
  function SlotOf(sets: seq<Setter>, c: Column): Option<nat> {
    if |sets| == 0 then None
    else if sets[0].SetColumn? && sets[0].column == c then Some(sets[0].slot)
    else SlotOf(sets[1..], c)
  }

  lemma {:induction false} SlotOfAppend(sets: seq<Setter>, x: Setter, c: Column)
    ensures SlotOf(sets + [x], c) ==
      if SlotOf(sets, c).Some? then SlotOf(sets, c)
      else if x.SetColumn? && x.column == c then Some(x.slot) else None
  {
    if |sets| > 0 {
      assert (sets + [x])[1..] == sets[1..] + [x];
      SlotOfAppend(sets[1..], x, c);
    }
  }

  function Bound(st: UpdateStatement, c: Column): Option<Value> {
    match SlotOf(st.sets, c)
    case None => None
    case Some(n) => Some(ParamAt(st.params, n))
  }

  function AsDate(v: Value): Option<Date> { if v.DateValue? then Some(v.date) else None }
  function AsTime(v: Value): Option<Time> { if v.TimeValue? then Some(v.time) else None }
  function AsInt(v: Value): Option<int> { if v.IntValue? then Some(v.n) else None }
  function AsText(v: Value): Option<string> { if v.TextValue? then Some(v.text) else None }
  function AsId(v: Value): Option<nat> { if v.IdValue? then Some(v.id) else None }

  function DateParam(d: Option<Date>): Value { if d.Some? then DateValue(d.value) else Null }
  function TimeParam(t: Option<Time>): Value { if t.Some? then TimeValue(t.value) else Null }
  function IntParam(n: Option<int>): Value { if n.Some? then IntValue(n.value) else Null }
  function TextParam(s: Option<string>): Value { if s.Some? then TextValue(s.value) else Null }
  function IdParam(n: Option<nat>): Value { if n.Some? then IdValue(n.value) else Null }

  /** The row after the statement's SET list is applied to it (all columns assigned at once). */
  function Execute(st: UpdateStatement, r: ServiceRequest, now: Timestamp): ServiceRequest {
    var sd, stime, pr, nt, sv :=
      Bound(st, ScheduledDateColumn), Bound(st, ScheduledTimeColumn), Bound(st, PriorityColumn),
      Bound(st, NotesColumn), Bound(st, ServiceTypeColumn);
    r.(scheduledDate := if sd.Some? then AsDate(sd.value) else r.scheduledDate,
       scheduledTime := if stime.Some? then AsTime(stime.value) else r.scheduledTime,
       priority := if pr.Some? then AsInt(pr.value) else r.priority,
       notes := if nt.Some? then AsText(nt.value) else r.notes,
       serviceTypeId := if sv.Some? then AsId(sv.value) else r.serviceTypeId,
       updatedAt := if SetUpdatedAtNow in st.sets then now else r.updatedAt)
  }

  /** The SET list and the parameters built so far. */
  datatype Draft = Draft(sets: seq<Setter>, params: seq<Value>)

  /** One step of the builder: when the body supplies `c`, append `c = $next` and bind its value. */
  function Advance(d: Draft, p: Patch, c: Column): Draft {
    if Supplies(p, c) then Draft(d.sets + [SetColumn(c, |d.params| + 1)], d.params + [ParamFor(p, c)]) else d
  }

  /** The draft after the first `n` steps, in the order the handler tests the fields. */
  function Drafted(p: Patch, n: nat): Draft
    requires n <= 5
  {
    if n == 0 then Draft([], []) else Advance(Drafted(p, n - 1), p, ColumnAt(n))
  }

  /** One `if (field !== undefined)` block: push the setter and the value, bump the counter. */
  method PushIfSupplied(p: Patch, c: Column, updates: seq<Setter>, params: seq<Value>, paramCount: nat)
    returns (updates': seq<Setter>, params': seq<Value>, paramCount': nat)
    requires paramCount == |params| + 1
    ensures Draft(updates', params') == Advance(Draft(updates, params), p, c)
    ensures paramCount' == |params'| + 1
  {
    updates', params', paramCount' := updates, params, paramCount;
    if Supplies(p, c) {
      updates' := updates' + [SetColumn(c, paramCount')];
      params' := params' + [ParamFor(p, c)];
      paramCount' := paramCount' + 1;
    }
  }

  /**
   * Pushes `column = $paramCount` and its value for every supplied field, counting
   * placeholders from 1.
   */
  method BuildSetList(p: Patch) returns (updates: seq<Setter>, params: seq<Value>, paramCount: nat)
    ensures Draft(updates, params) == Drafted(p, 5) && paramCount == |params| + 1
    ensures Progress(updates, params, paramCount, p, 5)
  {
    updates := [];
    params := [];
    paramCount := 1;
    updates, params, paramCount := PushIfSupplied(p, ScheduledDateColumn, updates, params, paramCount);
    assert Draft(updates, params) == Drafted(p, 1);
    updates, params, paramCount := PushIfSupplied(p, ScheduledTimeColumn, updates, params, paramCount);
    assert Draft(updates, params) == Drafted(p, 2);
    updates, params, paramCount := PushIfSupplied(p, PriorityColumn, updates, params, paramCount);
    assert Draft(updates, params) == Drafted(p, 3);
    updates, params, paramCount := PushIfSupplied(p, NotesColumn, updates, params, paramCount);
    assert Draft(updates, params) == Drafted(p, 4);
    updates, params, paramCount := PushIfSupplied(p, ServiceTypeColumn, updates, params, paramCount);
    assert Draft(updates, params) == Drafted(p, 5);
    DraftedProgress(p, 5);
  }

  /**
   * Builds the SET list, refuses a body with no field, then appends
   * `updated_at = CURRENT_TIMESTAMP` and binds the request id to the next placeholder.
   */
  method BuildUpdate(p: Patch, requestId: nat) returns (st: Option<UpdateStatement>)
    ensures st.None? <==> FieldCount(p) == 0
    ensures st.Some? ==>
      && |st.value.params| == FieldCount(p) + 1
      && st.value.idSlot == FieldCount(p) + 1
      && ParamAt(st.value.params, st.value.idSlot) == IdValue(requestId)
      && |st.value.sets| == FieldCount(p) + 1
      && (forall k :: 0 <= k < FieldCount(p) ==> st.value.sets[k].SetColumn? && st.value.sets[k].slot == k + 1)
      && st.value.sets[FieldCount(p)] == SetUpdatedAtNow
    ensures st.Some? ==> forall r, now :: Execute(st.value, r, now) == ApplyPatch(p, r, now)
  {
    var updates, params, paramCount := BuildSetList(p);
    SuppliedBeforeAll(p);
    if |updates| == 0 {
      return None;
    }
    Finish(updates, params, paramCount, p, requestId);
    updates := updates + [SetUpdatedAtNow];
    params := params + [IdValue(requestId)];
    ExecuteMeaning(UpdateStatement(updates, params, paramCount), p);
    st := Some(UpdateStatement(updates, params, paramCount));
  }

  /** The binding a statement gives column `c` when it carries exactly the supplied fields of `p`. */
  function Expected(p: Patch, c: Column): Option<Value> {
    if Supplies(p, c) then Some(ParamFor(p, c)) else None
  }

  /** Appending `updated_at = CURRENT_TIMESTAMP` and the request id completes the statement. */
  lemma Finish(fields: seq<Setter>, fieldParams: seq<Value>, paramCount: nat, p: Patch, requestId: nat)
    requires Progress(fields, fieldParams, paramCount, p, 5)
    requires SuppliedBefore(p, 5) == FieldCount(p)
    ensures var st := UpdateStatement(fields + [SetUpdatedAtNow], fieldParams + [IdValue(requestId)], paramCount);
      && |st.params| == FieldCount(p) + 1
      && st.idSlot == FieldCount(p) + 1
      && ParamAt(st.params, st.idSlot) == IdValue(requestId)
      && |st.sets| == FieldCount(p) + 1
      && (forall k :: 0 <= k < FieldCount(p) ==> st.sets[k].SetColumn? && st.sets[k].slot == k + 1)
      && st.sets[FieldCount(p)] == SetUpdatedAtNow
      && SetUpdatedAtNow in st.sets
      && forall c :: Bound(st, c) == Expected(p, c)
  {
    var st := UpdateStatement(fields + [SetUpdatedAtNow], fieldParams + [IdValue(requestId)], paramCount);
    Extend(fields, SetUpdatedAtNow);
    assert st.sets[|fields|] == SetUpdatedAtNow;
    forall c ensures Bound(st, c) == Expected(p, c) {
      if Supplies(p, c) {
        var n := SlotOf(fields, c).value;
        assert st.params[n - 1] == fieldParams[n - 1];
      }
    }
    forall k | 0 <= k < FieldCount(p) ensures st.sets[k].SetColumn? && st.sets[k].slot == k + 1 {
      assert st.sets[k] == fields[k];
    }
  }

  /** A statement that binds exactly the supplied columns and stamps updated_at does what the patch means. */
  lemma ExecuteMeaning(st: UpdateStatement, p: Patch)
    requires SetUpdatedAtNow in st.sets
    requires forall c :: Bound(st, c) == Expected(p, c)
    ensures forall r, now :: Execute(st, r, now) == ApplyPatch(p, r, now)
  {
    assert Bound(st, ScheduledDateColumn) == Expected(p, ScheduledDateColumn);
    assert Bound(st, ScheduledTimeColumn) == Expected(p, ScheduledTimeColumn);
    assert Bound(st, PriorityColumn) == Expected(p, PriorityColumn);
    assert Bound(st, NotesColumn) == Expected(p, NotesColumn);
    assert Bound(st, ServiceTypeColumn) == Expected(p, ServiceTypeColumn);
  }

  /** The columns handled by the first `n` steps of the builder, in the order the handler tests them. */
  function ColumnAt(n: nat): Column
    requires 1 <= n <= 5
  {
    match n
    case 1 => ScheduledDateColumn
    case 2 => ScheduledTimeColumn
    case 3 => PriorityColumn
    case 4 => NotesColumn
    case _ => ServiceTypeColumn
  }

  function StepOf(c: Column): nat {
    match c
    case ScheduledDateColumn => 1
    case ScheduledTimeColumn => 2
    case PriorityColumn => 3
    case NotesColumn => 4
    case ServiceTypeColumn => 5
  }

  predicate Supplies(p: Patch, c: Column) {
    match c
    case ScheduledDateColumn => p.scheduledDate.Present?
    case ScheduledTimeColumn => p.scheduledTime.Present?
    case PriorityColumn => p.priority.Present?
    case NotesColumn => p.notes.Present?
    case ServiceTypeColumn => p.serviceTypeId.Present?
  }

  /** The parameter the builder binds for column `c`. */
  function ParamFor(p: Patch, c: Column): Value {
    match c
    case ScheduledDateColumn => if p.scheduledDate.Present? then DateParam(p.scheduledDate.value) else Null
    case ScheduledTimeColumn => if p.scheduledTime.Present? then TimeParam(p.scheduledTime.value) else Null
    case PriorityColumn => if p.priority.Present? then IntParam(p.priority.value) else Null
    case NotesColumn => if p.notes.Present? then TextParam(p.notes.value) else Null
    case ServiceTypeColumn => if p.serviceTypeId.Present? then IdParam(p.serviceTypeId.value) else Null
  }

  /** How many of the first `n` columns the patch supplies. */
  function SuppliedBefore(p: Patch, n: nat): nat
    requires n <= 5
  {
    if n == 0 then 0 else SuppliedBefore(p, n - 1) + (if Supplies(p, ColumnAt(n)) then 1 else 0)
  }

  /**
   * After step `n`: one setter and one parameter per supplied column among the first
   * `n`, placeholders numbered 1.., and each such column bound to its own parameter.
   */
  ghost predicate Progress(sets: seq<Setter>, params: seq<Value>, paramCount: nat, p: Patch, n: nat)
    requires n <= 5
  {
    && |sets| == |params| == SuppliedBefore(p, n)
    && paramCount == |params| + 1
    && (forall k :: 0 <= k < |sets| ==> sets[k].SetColumn? && sets[k].slot == k + 1)
    && (forall c :: StepOf(c) <= n && Supplies(p, c) ==>
          SlotOf(sets, c).Some? && 1 <= SlotOf(sets, c).value <= |params|
          && params[SlotOf(sets, c).value - 1] == ParamFor(p, c))
    && (forall c :: !(StepOf(c) <= n && Supplies(p, c)) ==> SlotOf(sets, c).None?)
  }

  lemma SuppliedBeforeAll(p: Patch)
    ensures SuppliedBefore(p, 5) == FieldCount(p)
  {
    assert SuppliedBefore(p, 1) == Weight(p.scheduledDate);
    assert SuppliedBefore(p, 2) == SuppliedBefore(p, 1) + Weight(p.scheduledTime);
    assert SuppliedBefore(p, 3) == SuppliedBefore(p, 2) + Weight(p.priority);
    assert SuppliedBefore(p, 4) == SuppliedBefore(p, 3) + Weight(p.notes);
  }

  /** One step of the builder keeps Progress. */
  lemma Step(sets: seq<Setter>, params: seq<Value>, paramCount: nat,
             sets': seq<Setter>, params': seq<Value>, paramCount': nat, p: Patch, n: nat)
    requires 1 <= n <= 5
    requires Progress(sets, params, paramCount, p, n - 1)
    requires Supplies(p, ColumnAt(n)) ==>
      sets' == sets + [SetColumn(ColumnAt(n), paramCount)] && params' == params + [ParamFor(p, ColumnAt(n))]
      && paramCount' == paramCount + 1
    requires !Supplies(p, ColumnAt(n)) ==> sets' == sets && params' == params && paramCount' == paramCount
    ensures Progress(sets', params', paramCount', p, n)
  {
    var x := SetColumn(ColumnAt(n), paramCount);
    Extend(sets, x);
    assert forall c :: StepOf(c) == n <==> c == ColumnAt(n);
    if Supplies(p, ColumnAt(n)) {
      forall c | StepOf(c) <= n && Supplies(p, c)
        ensures SlotOf(sets', c).Some? && 1 <= SlotOf(sets', c).value <= |params'|
          && params'[SlotOf(sets', c).value - 1] == ParamFor(p, c)
      {
        if StepOf(c) < n {
          assert SlotOf(sets', c) == SlotOf(sets, c);
        } else {
          assert SlotOf(sets', c) == Some(paramCount);
        }
      }
    }
  }

  /** After step `n` of the builder every supplied column among the first `n` is bound to its own value. */
  lemma {:induction false} DraftedProgress(p: Patch, n: nat)
    requires n <= 5
    ensures Progress(Drafted(p, n).sets, Drafted(p, n).params, |Drafted(p, n).params| + 1, p, n)
  {
    if n == 0 {
      assert Progress([], [], 1, p, 0);
    } else {
      DraftedProgress(p, n - 1);
      var d, e := Drafted(p, n - 1), Drafted(p, n);
      Step(d.sets, d.params, |d.params| + 1, e.sets, e.params, |e.params| + 1, p, n);
    }
  }

  lemma Extend(sets: seq<Setter>, x: Setter)
    ensures forall c :: (SlotOf(sets + [x], c) ==
      if SlotOf(sets, c).Some? then SlotOf(sets, c)
      else if x.SetColumn? && x.column == c then Some(x.slot) else None)
  {
    forall c {
      SlotOfAppend(sets, x, c);
    }
  }
}
