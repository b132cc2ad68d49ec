/**
 * The rows of the dispatch tables: service requests, customers, service types and
 * technicians, and the closed set of request statuses.
 * Calendar days are day numbers and timestamps are seconds on the store's clock.
 */
module Records {
  import opened Base

  /** A calendar day, counted in days. */
  type Date = int
  /** A point in time, counted in seconds; day `DayOf(t)` starts at `t - t % SecondsPerDay`. */
  type Timestamp = int
  /** A time of day, counted in minutes after midnight. */
  type Time = t: nat | t < 1440

  const SecondsPerDay: int := 86400

  /** SQL's DATE(timestamp): the calendar day a timestamp falls on. */
  function DayOf(t: Timestamp): (d: Date)
    ensures d * SecondsPerDay <= t < (d + 1) * SecondsPerDay
  {
    t / SecondsPerDay
  }

  datatype Status = Pending | Scheduled | InProgress | Completed | Cancelled

  /** The text the store keeps in the status column. */
  function StatusName(s: Status): string {
    match s
    case Pending => "pending"
    case Scheduled => "scheduled"
    case InProgress => "in_progress"
    case Completed => "completed"
    case Cancelled => "cancelled"
  }

  /** Membership in the list of valid statuses, as a parse of the request body's text. */
  function ParseStatus(text: string): (s: Option<Status>)
    ensures s.Some? ==> StatusName(s.value) == text
    ensures s.None? ==> forall t: Status :: StatusName(t) != text
  {
    if text == "pending" then Some(Pending)
    else if text == "scheduled" then Some(Scheduled)
    else if text == "in_progress" then Some(InProgress)
    else if text == "completed" then Some(Completed)
    else if text == "cancelled" then Some(Cancelled)
    else None
  }

  lemma {:induction false} ParseStatusName(s: Status)
    ensures ParseStatus(StatusName(s)) == Some(s)
  {
  }

  datatype ServiceRequest = ServiceRequest(
    id: nat,
    customerId: nat,
    serviceTypeId: Option<nat>,
    assignedTech: Option<nat>,
    status: Status,
    priority: Option<int>,
    preferredDate: Option<Date>,
    preferredTime: Option<Time>,
    scheduledDate: Option<Date>,
    scheduledTime: Option<Time>,
    notes: Option<string>,
    issueDescription: Option<string>,
    createdAt: Timestamp,
    updatedAt: Timestamp)

  datatype Customer = Customer(
    customerId: nat, name: string, phone: string, email: string,
    address: string, city: string, state: string, zip: string)

  /** `basePrice` is in cents. */
  datatype ServiceType = ServiceType(
    serviceTypeId: nat, serviceName: string, basePrice: int, estimatedDurationMinutes: Option<nat>)

  /** `status` is an open set of labels (available, busy, ...), kept as text. */
  datatype Technician = Technician(
    techId: nat, name: string, phone: string, email: string, status: string, specialization: string)

  /** A table keyed by request_id: no two rows share an id. */
  predicate UniqueIds(rows: seq<ServiceRequest>) {
    forall i, j :: 0 <= i < j < |rows| ==> rows[i].id != rows[j].id
  }

  /** A table keyed by tech_id. */
  predicate UniqueTechIds(techs: seq<Technician>) {
    forall i, j :: 0 <= i < j < |techs| ==> techs[i].techId != techs[j].techId
  }

  /** The customers table, keyed by customer_id: each key is its row's own id. */
  predicate KeyedCustomers(customers: map<nat, Customer>) {
    forall k :: k in customers ==> customers[k].customerId == k
  }

  /** The service types table, keyed by service_type_id. */
  predicate KeyedServiceTypes(types: map<nat, ServiceType>) {
    forall k :: k in types ==> types[k].serviceTypeId == k
  }

  /** The index of the row with request_id `id`, if any (the row an UPDATE ... WHERE request_id = id touches). */
  function Locate(rows: seq<ServiceRequest>, id: nat): (i: Option<nat>)
    ensures i.Some? ==> i.value < |rows| && rows[i.value].id == id
    ensures i.Some? ==> forall k :: 0 <= k < i.value ==> rows[k].id != id
    ensures i.None? <==> forall k :: 0 <= k < |rows| ==> rows[k].id != id
  {
    if |rows| == 0 then None
    else if rows[0].id == id then Some(0)
    else match Locate(rows[1..], id)
      case None => None
      case Some(k) => Some(k + 1)
  }

  /** Under a primary key, the located row is the only row with that id. */
  lemma {:induction false} LocateUnique(rows: seq<ServiceRequest>, id: nat)
    requires UniqueIds(rows)
    requires Locate(rows, id).Some?
    ensures forall k :: 0 <= k < |rows| && rows[k].id == id ==> k == Locate(rows, id).value
  {
  }

  /** The technician row with the given id (a LEFT JOIN on tech_id: absent when nothing matches). */
  function FindTech(techs: seq<Technician>, id: Option<nat>): (t: Option<Technician>)
    ensures t.Some? ==> id.Some? && t.value in techs && t.value.techId == id.value
    ensures t.None? <==> id.None? || forall k :: 0 <= k < |techs| ==> techs[k].techId != id.value
  {
    if id.None? || |techs| == 0 then None
    else if techs[0].techId == id.value then Some(techs[0])
    else FindTech(techs[1..], id)
  }

  /** A value bound to a query placeholder. */
  datatype Value = Null | DateValue(date: Date) | TimeValue(time: Time) | IntValue(n: int)
                 | TextValue(text: string) | IdValue(id: nat)

  /** `$n` refers to `params[n - 1]`; a placeholder with no parameter reads as NULL. */
  function ParamAt(params: seq<Value>, n: nat): Value {
    if 1 <= n <= |params| then params[n - 1] else Null
  }
}
