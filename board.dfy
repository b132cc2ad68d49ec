/**
 * The dispatch board (GET /bookings): optional filters combined with AND, the
 * parameterised WHERE clause built for them, a fixed five-key ordering, and the
 * joins with customers, service types and technicians.
 */
module Board {
  import opened Base
  import opened Ordering
  import opened Records

  /**
   * The query string's filters. `status` is the raw text; absent and empty text
   * (both falsy) put no limit. `date` and `techId` are already-converted values;
   * `None` stands for an absent or empty parameter.
   */
  datatype BoardFilter = BoardFilter(status: Option<string>, date: Option<Date>, techId: Option<nat>)

  /** JavaScript truthiness of an optional query-string value. */
  predicate Supplied(text: Option<string>) {
    text.Some? && text.value != ""
  }

  /** The meaning of the WHERE clause: every supplied filter holds (a NULL column matches nothing). */
  predicate Matches(f: BoardFilter, r: ServiceRequest) {
    && (Supplied(f.status) ==> StatusName(r.status) == f.status.value)
    && (f.date.Some? ==> r.scheduledDate == f.date || r.preferredDate == f.date)
    && (f.techId.Some? ==> r.assignedTech == f.techId)
  }

  // ---------------------------------------------------------------------------
  // The parameterised WHERE clause

  /**
   * One conjunct of the WHERE clause after `WHERE 1=1`. `OnDate(n)` is
   * `(sr.scheduled_date = $n OR sr.preferred_date = $n)`: one placeholder used twice.
   */
  datatype Condition = StatusIs(slot: nat) | OnDate(slot: nat) | AssignedTo(slot: nat)

  predicate ConditionHolds(c: Condition, params: seq<Value>, r: ServiceRequest) {
    var v := ParamAt(params, c.slot);
    match c
    case StatusIs(_) => v.TextValue? && StatusName(r.status) == v.text
    case OnDate(_) => v.DateValue? && (r.scheduledDate == Some(v.date) || r.preferredDate == Some(v.date))
    case AssignedTo(_) => v.IdValue? && r.assignedTech == Some(v.id)
  }

  predicate WhereHolds(conds: seq<Condition>, params: seq<Value>, r: ServiceRequest) {
    forall k :: 0 <= k < |conds| ==> ConditionHolds(conds[k], params, r)
  }

  /** How many of the three filters are supplied. */
  function SuppliedCount(f: BoardFilter): nat {
    (if Supplied(f.status) then 1 else 0) + (if f.date.Some? then 1 else 0) + (if f.techId.Some? then 1 else 0)
  }

  /**
   * Builds the conditions and parameters step by step, numbering placeholders
   * from 1. Returns the conditions, the parameters and the next free placeholder.
   */
  method BuildFilterClause(f: BoardFilter) returns (conds: seq<Condition>, params: seq<Value>, paramCount: nat)
    ensures |conds| == |params| == SuppliedCount(f)
    ensures paramCount == |params| + 1
    ensures params == (if Supplied(f.status) then [TextValue(f.status.value)] else [])
                    + (if f.date.Some? then [DateValue(f.date.value)] else [])
                    + (if f.techId.Some? then [IdValue(f.techId.value)] else [])
    ensures forall k :: 0 <= k < |conds| ==> conds[k].slot == k + 1
    ensures forall k :: 0 <= k < |conds| ==>
      (params[k].TextValue? ==> conds[k].StatusIs?) && (params[k].DateValue? ==> conds[k].OnDate?)
      && (params[k].IdValue? ==> conds[k].AssignedTo?)
    ensures forall r :: WhereHolds(conds, params, r) <==> Matches(f, r)
  {
    conds, params, paramCount := [], [], 1;
    if Supplied(f.status) {
      conds := conds + [StatusIs(paramCount)];
      params := params + [TextValue(f.status.value)];
      paramCount := paramCount + 1;
    }
    if f.date.Some? {
      conds := conds + [OnDate(paramCount)];
      params := params + [DateValue(f.date.value)];
      paramCount := paramCount + 1;
    }
    if f.techId.Some? {
      conds := conds + [AssignedTo(paramCount)];
      params := params + [IdValue(f.techId.value)];
      paramCount := paramCount + 1;
    }
    forall r ensures WhereHolds(conds, params, r) <==> Matches(f, r) {
      FilterClauseMeaning(f, conds, params, r);
    }
  }

  /** The clause that BuildFilterClause produces for each combination of supplied filters means Matches. */
  lemma {:induction false} FilterClauseMeaning(f: BoardFilter, conds: seq<Condition>, params: seq<Value>, r: ServiceRequest)
    requires params == (if Supplied(f.status) then [TextValue(f.status.value)] else [])
                     + (if f.date.Some? then [DateValue(f.date.value)] else [])
                     + (if f.techId.Some? then [IdValue(f.techId.value)] else [])
    requires |conds| == |params|
    requires forall k :: 0 <= k < |conds| ==> conds[k].slot == k + 1
    requires forall k :: 0 <= k < |conds| ==>
      (params[k].TextValue? ==> conds[k].StatusIs?) && (params[k].DateValue? ==> conds[k].OnDate?)
      && (params[k].IdValue? ==> conds[k].AssignedTo?)
    ensures WhereHolds(conds, params, r) <==> Matches(f, r)
  {
    var s := if Supplied(f.status) then 1 else 0;
    var d := if f.date.Some? then 1 else 0;
    if Supplied(f.status) {
      assert params[0] == TextValue(f.status.value);
      assert ConditionHolds(conds[0], params, r) <==> StatusName(r.status) == f.status.value;
    }
    if f.date.Some? {
      assert params[s] == DateValue(f.date.value);
      assert ConditionHolds(conds[s], params, r) <==> (r.scheduledDate == f.date || r.preferredDate == f.date);
    }
    if f.techId.Some? {
      assert params[s + d] == IdValue(f.techId.value);
      assert ConditionHolds(conds[s + d], params, r) <==> r.assignedTech == f.techId;
    }
  }

  // ---------------------------------------------------------------------------
  // Ordering

  /** CASE sr.status WHEN 'in_progress' THEN 1 WHEN 'scheduled' THEN 2 WHEN 'pending' THEN 3 ELSE 4. */
  function StatusRank(s: Status): nat {
    match s
    case InProgress => 1
    case Scheduled => 2
    case Pending => 3
    case _ => 4
  }

  /** Key for a DESC column: larger first, NULL first (NULL counts as larger than every value). */
  function Descending(p: Option<int>): Ext {
    match p
    case None => Bottom
    case Some(v) => Fin(-v)
  }

  /** Key for an ASC column: smaller first, NULL last. */
  function Ascending(d: Option<int>): Ext {
    match d
    case None => Top
    case Some(v) => Fin(v)
  }

  /** The ORDER BY list: status rank, priority DESC, scheduled_date, preferred_date, created_at. */
  function BoardKey(r: ServiceRequest): seq<Ext> {
    [Fin(StatusRank(r.status)), Descending(r.priority), Ascending(r.scheduledDate),
     Ascending(r.preferredDate), Fin(r.createdAt)]
  }

  /** `p` comes strictly before `q` under priority DESC with NULLs first. */
  predicate PriorityAhead(p: Option<int>, q: Option<int>) {
    (p.None? && q.Some?) || (p.Some? && q.Some? && p.value > q.value)
  }

  /** `d` comes strictly before `e` under ASC with NULLs last. */
  predicate DateAhead(d: Option<Date>, e: Option<Date>) {
    d.Some? && (e.None? || d.value < e.value)
  }

  /** `a` may appear before `b` on the board: the five sort keys compared in turn. */
  predicate BoardPrecedes(a: ServiceRequest, b: ServiceRequest) {
    || StatusRank(a.status) < StatusRank(b.status)
    || (StatusRank(a.status) == StatusRank(b.status) &&
        (|| PriorityAhead(a.priority, b.priority)
         || (a.priority == b.priority &&
             (|| DateAhead(a.scheduledDate, b.scheduledDate)
              || (a.scheduledDate == b.scheduledDate &&
                  (|| DateAhead(a.preferredDate, b.preferredDate)
                   || (a.preferredDate == b.preferredDate && a.createdAt <= b.createdAt)))))))
  }

  lemma DescendingOrder(p: Option<int>, q: Option<int>)
    ensures ExtLt(Descending(p), Descending(q)) <==> PriorityAhead(p, q)
    ensures Descending(p) == Descending(q) <==> p == q
  {
  }

  lemma AscendingOrder(d: Option<int>, e: Option<int>)
    ensures ExtLt(Ascending(d), Ascending(e)) <==> DateAhead(d, e)
    ensures Ascending(d) == Ascending(e) <==> d == e
  {
  }

  /** Comparing BoardKeys lexicographically is exactly the five-key cascade. */
  lemma {:induction false} BoardKeyOrder(a: ServiceRequest, b: ServiceRequest)
    ensures LexLeq(BoardKey(a), BoardKey(b)) <==> BoardPrecedes(a, b)
  {
    DescendingOrder(a.priority, b.priority);
    AscendingOrder(a.scheduledDate, b.scheduledDate);
    AscendingOrder(a.preferredDate, b.preferredDate);
    var a4, b4 := [Fin(a.createdAt)], [Fin(b.createdAt)];
    var a3, b3 := [Ascending(a.preferredDate)] + a4, [Ascending(b.preferredDate)] + b4;
    var a2, b2 := [Ascending(a.scheduledDate)] + a3, [Ascending(b.scheduledDate)] + b3;
    var a1, b1 := [Descending(a.priority)] + a2, [Descending(b.priority)] + b2;
    assert BoardKey(a) == [Fin(StatusRank(a.status))] + a1 && BoardKey(b) == [Fin(StatusRank(b.status))] + b1;
    assert a4[1..] == [];
    LexLeqStep(a4, b4);
    LexLeqStep(a3, b3);
    LexLeqStep(a2, b2);
    LexLeqStep(a1, b1);
    LexLeqStep(BoardKey(a), BoardKey(b));
    assert a3[1..] == a4 && b3[1..] == b4;
    assert a2[1..] == a3 && b2[1..] == b3;
    assert a1[1..] == a2 && b1[1..] == b2;
    assert BoardKey(a)[1..] == a1 && BoardKey(b)[1..] == b1;
  }

  // ---------------------------------------------------------------------------
  // The query

  /** A board row joins a request with its customer (inner join) and, if any, its service type and technician. */
  datatype Booking = Booking(request: ServiceRequest, customer: Customer,
                             serviceType: Option<ServiceType>, tech: Option<Technician>)

  datatype BoardView = BoardView(bookings: seq<Booking>, count: nat)

  /** A row survives the WHERE clause and the JOIN with CUSTOMERS. */
  predicate Visible(f: BoardFilter, customers: map<nat, Customer>, r: ServiceRequest) {
    Matches(f, r) && r.customerId in customers
  }

  /** The rows the WHERE clause and the customer join keep, in store order. */
  function Selected(rows: seq<ServiceRequest>, f: BoardFilter, customers: map<nat, Customer>): (out: seq<ServiceRequest>)
    ensures forall r :: multiset(out)[r] == if Visible(f, customers, r) then multiset(rows)[r] else 0
    ensures forall k :: 0 <= k < |out| ==> Visible(f, customers, out[k])
  {
    if |rows| == 0 then []
    else
      var rest := Selected(rows[1..], f, customers);
      assert rows == [rows[0]] + rows[1..];
      if Visible(f, customers, rows[0]) then [rows[0]] + rest else rest
  }

  function LookupType(types: map<nat, ServiceType>, id: Option<nat>): Option<ServiceType> {
    if id.Some? && id.value in types then Some(types[id.value]) else None
  }

  function JoinRow(r: ServiceRequest, customers: map<nat, Customer>, types: map<nat, ServiceType>,
                   techs: seq<Technician>): Booking
    requires r.customerId in customers
  {
    Booking(r, customers[r.customerId], LookupType(types, r.serviceTypeId), FindTech(techs, r.assignedTech))
  }

  function RequestsOf(bookings: seq<Booking>): seq<ServiceRequest> {
    seq(|bookings|, k requires 0 <= k < |bookings| => bookings[k].request)
  }

  /** The joins, row by row; order and multiplicity are kept. */
  function Join(rows: seq<ServiceRequest>, customers: map<nat, Customer>, types: map<nat, ServiceType>,
                techs: seq<Technician>): (out: seq<Booking>)
    requires forall k :: 0 <= k < |rows| ==> rows[k].customerId in customers
    ensures RequestsOf(out) == rows
  {
    var out := seq(|rows|, k requires 0 <= k < |rows| => JoinRow(rows[k], customers, types, techs));
    assert RequestsOf(out) == rows;
    out
  }

  /**
   * GET /bookings: the requests that pass the filters and have a customer, sorted
   * by the board order, each joined with its customer, service type and technician.
   */
  function BoardQuery(rows: seq<ServiceRequest>, customers: map<nat, Customer>, types: map<nat, ServiceType>,
                      techs: seq<Technician>, f: BoardFilter): (v: BoardView)
    requires UniqueTechIds(techs)
    requires KeyedCustomers(customers) && KeyedServiceTypes(types)
    ensures v.count == |v.bookings|
    ensures forall r :: multiset(RequestsOf(v.bookings))[r] == if Visible(f, customers, r) then multiset(rows)[r] else 0
    ensures forall k :: 0 <= k < |v.bookings| ==> Matches(f, v.bookings[k].request)
    ensures forall i, j :: 0 <= i < j < |v.bookings| ==> BoardPrecedes(v.bookings[i].request, v.bookings[j].request)
    ensures forall k :: 0 <= k < |v.bookings| ==> v.bookings[k].request.customerId in customers
    ensures forall k :: 0 <= k < |v.bookings| ==> v.bookings[k] == JoinRow(v.bookings[k].request, customers, types, techs)
    ensures forall k :: 0 <= k < |v.bookings| ==> v.bookings[k].customer.customerId == v.bookings[k].request.customerId
    ensures forall k :: 0 <= k < |v.bookings| && v.bookings[k].serviceType.Some? ==>
      v.bookings[k].request.serviceTypeId == Some(v.bookings[k].serviceType.value.serviceTypeId)
    ensures forall k :: 0 <= k < |v.bookings| && v.bookings[k].tech.Some? ==>
      v.bookings[k].request.assignedTech == Some(v.bookings[k].tech.value.techId)
  {
    var ordered := Ordered(rows, f, customers);
    BoardView(Join(ordered, customers, types, techs), |ordered|)
  }

  /** The selected rows in board order. */
  function Ordered(rows: seq<ServiceRequest>, f: BoardFilter, customers: map<nat, Customer>): (out: seq<ServiceRequest>)
    ensures forall r :: multiset(out)[r] == if Visible(f, customers, r) then multiset(rows)[r] else 0
    ensures forall k :: 0 <= k < |out| ==> Visible(f, customers, out[k])
    ensures forall i, j :: 0 <= i < j < |out| ==> BoardPrecedes(out[i], out[j])
  {
    var selected := Selected(rows, f, customers);
    SortByCorrect(selected, BoardKey);
    var out := SortBy(selected, BoardKey);
    SortedAllPairs(out, BoardKey);
    BoardOrdered(out);
    VisibleAfterPermutation(out, selected, f, customers);
    out
  }

  lemma VisibleAfterPermutation(out: seq<ServiceRequest>, selected: seq<ServiceRequest>, f: BoardFilter,
                                 customers: map<nat, Customer>)
    requires multiset(out) == multiset(selected)
    requires forall k :: 0 <= k < |selected| ==> Visible(f, customers, selected[k])
    ensures forall k :: 0 <= k < |out| ==> Visible(f, customers, out[k])
  {
    forall k | 0 <= k < |out| ensures Visible(f, customers, out[k]) {
      assert out[k] in multiset(selected);
    }
  }

  lemma BoardOrdered(ordered: seq<ServiceRequest>)
    requires forall i, j :: 0 <= i < j < |ordered| ==> LexLeq(BoardKey(ordered[i]), BoardKey(ordered[j]))
    ensures forall i, j :: 0 <= i < j < |ordered| ==> BoardPrecedes(ordered[i], ordered[j])
  {
    forall i, j | 0 <= i < j < |ordered| ensures BoardPrecedes(ordered[i], ordered[j]) {
      BoardKeyOrder(ordered[i], ordered[j]);
    }
  }
}
