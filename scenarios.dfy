/**
 * Properties that connect the mutations with the board, the technician list and
 * the dashboard counters, and request sequences a dispatcher goes through.
 */
module Scenarios {
  import opened Base
  import opened Records
  import opened Board
  import opened Roster
  import opened Stats
  import opened UpdateBuilder
  import opened Store

  lemma StatusNameInjective(a: Status, b: Status)
    ensures StatusName(a) == StatusName(b) ==> a == b
  {
  }

  /** Filtering the board by a status name returns only requests in that status. */
  lemma StatusFilterOnly(rows: seq<ServiceRequest>, customers: map<nat, Customer>, types: map<nat, ServiceType>,
                         techs: seq<Technician>, s: Status)
    requires UniqueTechIds(techs) && KeyedCustomers(customers) && KeyedServiceTypes(types)
    ensures var v := BoardQuery(rows, customers, types, techs, BoardFilter(Some(StatusName(s)), None, None));
      forall k :: 0 <= k < |v.bookings| ==> v.bookings[k].request.status == s
  {
    var v := BoardQuery(rows, customers, types, techs, BoardFilter(Some(StatusName(s)), None, None));
    forall k | 0 <= k < |v.bookings| ensures v.bookings[k].request.status == s {
      StatusNameInjective(v.bookings[k].request.status, s);
    }
  }

  /** A visible request of the store is on the board. */
  lemma {:induction false} VisibleOnBoard(rows: seq<ServiceRequest>, customers: map<nat, Customer>,
                                          types: map<nat, ServiceType>, techs: seq<Technician>,
                                          f: BoardFilter, r: ServiceRequest)
    requires UniqueTechIds(techs) && KeyedCustomers(customers) && KeyedServiceTypes(types)
    requires r in rows && Visible(f, customers, r)
    ensures exists k :: (0 <= k < |BoardQuery(rows, customers, types, techs, f).bookings|
      && BoardQuery(rows, customers, types, techs, f).bookings[k].request == r)
  {
    var v := BoardQuery(rows, customers, types, techs, f);
    assert multiset(rows)[r] > 0;
    assert r in multiset(RequestsOf(v.bookings));
    var k :| 0 <= k < |RequestsOf(v.bookings)| && RequestsOf(v.bookings)[k] == r;
  }

  /**
   * With no filter the board lists every request that has a customer, cancelled
   * ones included.
   */
  lemma UnfilteredBoardShowsCancelled(rows: seq<ServiceRequest>, customers: map<nat, Customer>,
                                      types: map<nat, ServiceType>, techs: seq<Technician>, r: ServiceRequest)
    requires UniqueTechIds(techs) && KeyedCustomers(customers) && KeyedServiceTypes(types)
    requires r in rows && r.status == Cancelled && r.customerId in customers
    ensures exists k :: (0 <= k < |BoardQuery(rows, customers, types, techs, BoardFilter(None, None, None)).bookings|
      && BoardQuery(rows, customers, types, techs, BoardFilter(None, None, None)).bookings[k].request == r)
  {
    VisibleOnBoard(rows, customers, types, techs, BoardFilter(None, None, None), r);
  }

  /**
   * After a request is assigned, the board filtered on "scheduled" shows it joined
   * with the row of the technician it was given, and with the date it was given.
   */
  lemma AssignedShowsOnBoard(rows: seq<ServiceRequest>, customers: map<nat, Customer>,
                             types: map<nat, ServiceType>, techs: seq<Technician>,
                             i: nat, techId: Option<nat>, date: Option<Date>, time: Option<Time>, now: Timestamp)
    requires UniqueTechIds(techs) && KeyedCustomers(customers) && KeyedServiceTypes(types)
    requires i < |rows| && rows[i].customerId in customers
    ensures var row := rows[i].(assignedTech := techId, scheduledDate := date, scheduledTime := time,
                                status := Scheduled, updatedAt := now);
      var v := BoardQuery(rows[i := row], customers, types, techs, BoardFilter(Some("scheduled"), None, None));
      exists k :: 0 <= k < |v.bookings| && v.bookings[k].request == row
        && v.bookings[k].tech == FindTech(techs, techId) && v.bookings[k].request.scheduledDate == date
  {
    var row := rows[i].(assignedTech := techId, scheduledDate := date, scheduledTime := time,
                        status := Scheduled, updatedAt := now);
    assert rows[i := row][i] == row;
    VisibleOnBoard(rows[i := row], customers, types, techs, BoardFilter(Some("scheduled"), None, None), row);
  }

  /**
   * Completing a scheduled request at a time that falls today moves it from the
   * scheduled count to completed_today.
   */
  lemma {:induction false} CompletionMovesCounters(rows: seq<ServiceRequest>, i: nat, now: Timestamp, today: Date)
    requires i < |rows| && rows[i].status == Scheduled && DayOf(now) == today
    ensures var after := DashboardCounts(rows[i := rows[i].(status := Completed, updatedAt := now)], today);
      var before := DashboardCounts(rows, today);
      && after.completedToday == before.completedToday + 1
      && after.scheduled + 1 == before.scheduled
      && after.pending == before.pending && after.inProgress == before.inProgress
  {
    var y := rows[i].(status := Completed, updatedAt := now);
    CountUpdate(rows, i, y, CompletedOn(today));
    CountUpdate(rows, i, y, LiveScheduled);
    CountUpdate(rows, i, y, LivePending);
    CountUpdate(rows, i, y, LiveInProgress);
  }

  /** Assigning a request to a technician makes it one of their active jobs. */
  lemma AssignmentAddsActiveJob(rows: seq<ServiceRequest>, i: nat, techId: nat, date: Option<Date>,
                                time: Option<Time>, now: Timestamp)
    requires i < |rows|
    requires !(rows[i].assignedTech == Some(techId) && (rows[i].status == Scheduled || rows[i].status == InProgress))
    ensures var row := rows[i].(assignedTech := Some(techId), scheduledDate := date, scheduledTime := time,
                                status := Scheduled, updatedAt := now);
      ActiveJobs(rows[i := row], techId) == ActiveJobs(rows, techId) + 1
  {
    var row := rows[i].(assignedTech := Some(techId), scheduledDate := date, scheduledTime := time,
                        status := Scheduled, updatedAt := now);
    ActiveJobsGained(rows, i, row, techId);
  }

  // ---------------------------------------------------------------------------
  // Request sequences against the store

  /**
   * Assign, then read the board filtered on "scheduled": the request is there, joined
   * with technician T's row (none when no technician has that id), on day D.
   */
  method AssignThenView(store: DispatchStore, id: nat, techId: nat, date: Date, time: Time, now: Timestamp)
    returns (res: Response, view: BoardView)
    requires store.Valid()
    requires exists k :: 0 <= k < |store.requests| && store.requests[k].id == id
    requires forall k :: 0 <= k < |store.requests| && store.requests[k].id == id ==>
      store.requests[k].customerId in store.customers
    modifies store`requests
    ensures store.Valid()
    ensures res.Ok? && res.booking.id == id && res.booking.status == Scheduled
    ensures res.booking.assignedTech == Some(techId) && res.booking.scheduledDate == Some(date)
    ensures view == BoardQuery(store.requests, store.customers, store.serviceTypes, store.technicians,
                               BoardFilter(Some("scheduled"), None, None))
    ensures exists k :: (0 <= k < |view.bookings| && view.bookings[k].request == res.booking
      && view.bookings[k].tech == FindTech(store.technicians, Some(techId))
      && view.bookings[k].request.scheduledDate == Some(date))
  {
    ghost var before := store.requests;
    res := store.AssignTech(id, Some(techId), Some(date), Some(time), now);
    var i := Locate(before, id).value;
    AssignedShowsOnBoard(before, store.customers, store.serviceTypes, store.technicians,
                         i, Some(techId), Some(date), Some(time), now);
    view := BoardQuery(store.requests, store.customers, store.serviceTypes, store.technicians,
                       BoardFilter(Some("scheduled"), None, None));
  }

  /** An unknown status is refused and a later read sees the same rows. */
  method RejectBogusStatus(store: DispatchStore, id: nat, now: Timestamp, today: Date) returns (res: Response)
    requires store.Valid()
    modifies store`requests
    ensures res == InvalidArgument
    ensures store.requests == old(store.requests)
    ensures DashboardCounts(store.requests, today) == DashboardCounts(old(store.requests), today)
  {
    res := store.SetStatus(id, "bogus", now);
  }

  /** Nothing stops a request from going in progress without a technician. */
  method StartWithoutTechnician(store: DispatchStore, id: nat, now: Timestamp) returns (res: Response)
    requires store.Valid()
    requires exists k :: 0 <= k < |store.requests| && store.requests[k].id == id
    requires forall k :: 0 <= k < |store.requests| && store.requests[k].id == id ==> store.requests[k].assignedTech.None?
    modifies store`requests
    ensures res.Ok? && res.booking.status == InProgress && res.booking.assignedTech.None?
  {
    res := store.SetStatus(id, "in_progress", now);
  }

  /** An empty update body is refused before the row is looked up. */
  method EmptyUpdateRefused(store: DispatchStore, id: nat, now: Timestamp) returns (res: Response)
    requires store.Valid()
    modifies store`requests
    ensures res == InvalidArgument && store.requests == old(store.requests)
  {
    res := store.UpdateDetails(id, Patch(Absent, Absent, Absent, Absent, Absent), now);
  }
}
