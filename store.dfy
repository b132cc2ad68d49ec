/**
 * The dispatch store and its three mutations of one service request:
 * assigning a technician (PUT /bookings/:id/assign), setting the status
 * (PUT /bookings/:id/status) and the partial update (PUT /bookings/:id).
 * `now` stands for CURRENT_TIMESTAMP.
 */
module Store {
  import opened Base
  import opened Records
  import opened UpdateBuilder

  /** The handler's outcome: the updated row (RETURNING *), 404 or 400. */
  datatype Response = Ok(booking: ServiceRequest) | NotFound | InvalidArgument

  class DispatchStore {
    var requests: seq<ServiceRequest>
    var customers: map<nat, Customer>
    var serviceTypes: map<nat, ServiceType>
    var technicians: seq<Technician>

    /** The primary keys of the two tables the handlers look rows up in. */
    ghost predicate Valid()
      reads this
    {
      && UniqueIds(requests) && UniqueTechIds(technicians)
      && KeyedCustomers(customers) && KeyedServiceTypes(serviceTypes)
    }

    /** updated_at is never earlier than created_at. */
    predicate StampsOrdered()
      reads this
    {
      forall k :: 0 <= k < |requests| ==> requests[k].createdAt <= requests[k].updatedAt
    }

    /** A clock reading no earlier than any request's creation. */
    predicate NotBeforeCreation(now: Timestamp)
      reads this
    {
      forall k :: 0 <= k < |requests| ==> requests[k].createdAt <= now
    }

    constructor (requests: seq<ServiceRequest>, customers: map<nat, Customer>,
                 serviceTypes: map<nat, ServiceType>, technicians: seq<Technician>)
      requires UniqueIds(requests) && UniqueTechIds(technicians)
      requires KeyedCustomers(customers) && KeyedServiceTypes(serviceTypes)
      ensures Valid()
      ensures this.requests == requests && this.customers == customers
      ensures this.serviceTypes == serviceTypes && this.technicians == technicians
    {
      this.requests := requests;
      this.customers := customers;
      this.serviceTypes := serviceTypes;
      this.technicians := technicians;
    }

    /**
     * Sets technician and schedule and forces status to scheduled, whatever the
     * status was. Missing body fields arrive as NULL.
     */
    method AssignTech(id: nat, techId: Option<nat>, date: Option<Date>, time: Option<Time>, now: Timestamp)
      returns (res: Response)
      requires Valid()
      modifies this`requests
      ensures Valid()
      ensures Locate(old(requests), id).None? ==> res == NotFound && requests == old(requests)
      ensures Locate(old(requests), id).Some? ==>
        var i := Locate(old(requests), id).value;
        var row := old(requests)[i].(assignedTech := techId, scheduledDate := date, scheduledTime := time,
                                     status := Scheduled, updatedAt := now);
        && res == Ok(row) && requests == old(requests)[i := row]
        && forall k :: 0 <= k < |requests| && requests[k].id == id ==> k == i
      ensures forall k :: 0 <= k < |requests| && requests[k].id != id ==> requests[k] == old(requests)[k]
      ensures old(StampsOrdered() && NotBeforeCreation(now)) ==> StampsOrdered()
    {
      var loc := Locate(requests, id);
      if loc.None? {
        return NotFound;
      }
      var i := loc.value;
      LocateUnique(requests, id);
      var row := requests[i].(assignedTech := techId, scheduledDate := date, scheduledTime := time,
                              status := Scheduled, updatedAt := now);
      requests := requests[i := row];
      res := Ok(row);
    }

    /**
     * Checks the text against the five statuses first (400 whether or not the
     * row exists), then changes only that row's status and updated_at.
     */
    method SetStatus(id: nat, status: string, now: Timestamp) returns (res: Response)
      requires Valid()
      modifies this`requests
      ensures Valid()
      ensures ParseStatus(status).None? ==> res == InvalidArgument && requests == old(requests)
      ensures ParseStatus(status).Some? && Locate(old(requests), id).None? ==>
        res == NotFound && requests == old(requests)
      ensures ParseStatus(status).Some? && Locate(old(requests), id).Some? ==>
        var i := Locate(old(requests), id).value;
        var row := old(requests)[i].(status := ParseStatus(status).value, updatedAt := now);
        && res == Ok(row) && requests == old(requests)[i := row]
        && forall k :: 0 <= k < |requests| && requests[k].id == id ==> k == i
      ensures forall k :: 0 <= k < |requests| && requests[k].id != id ==> requests[k] == old(requests)[k]
      ensures old(StampsOrdered() && NotBeforeCreation(now)) ==> StampsOrdered()
    {
      var parsed := ParseStatus(status);
      if parsed.None? {
        return InvalidArgument;
      }
      var loc := Locate(requests, id);
      if loc.None? {
        return NotFound;
      }
      var i := loc.value;
      LocateUnique(requests, id);
      var row := requests[i].(status := parsed.value, updatedAt := now);
      requests := requests[i := row];
      res := Ok(row);
    }

    /**
     * Builds the SET list for the supplied fields (400 when there are none,
     * whether or not the row exists), then runs it against the row whose id is
     * bound to the last placeholder.
     */
    method UpdateDetails(id: nat, patch: Patch, now: Timestamp) returns (res: Response)
      requires Valid()
      modifies this`requests
      ensures Valid()
      ensures FieldCount(patch) == 0 ==> res == InvalidArgument && requests == old(requests)
      ensures FieldCount(patch) > 0 && Locate(old(requests), id).None? ==>
        res == NotFound && requests == old(requests)
      ensures FieldCount(patch) > 0 && Locate(old(requests), id).Some? ==>
        var i := Locate(old(requests), id).value;
        var row := ApplyPatch(patch, old(requests)[i], now);
        && res == Ok(row) && requests == old(requests)[i := row]
        && forall k :: 0 <= k < |requests| && requests[k].id == id ==> k == i
      ensures forall k :: 0 <= k < |requests| && requests[k].id != id ==> requests[k] == old(requests)[k]
      ensures old(StampsOrdered() && NotBeforeCreation(now)) ==> StampsOrdered()
    {
      var st := BuildUpdate(patch, id);
      if st.None? {
        return InvalidArgument;
      }
      var target := ParamAt(st.value.params, st.value.idSlot);
      var loc := Locate(requests, target.id);
      if loc.None? {
        return NotFound;
      }
      var i := loc.value;
      LocateUnique(requests, id);
      var row := Execute(st.value, requests[i], now);
      requests := requests[i := row];
      res := Ok(row);
    }
  }
}
