/**
 * The transactional store the services write through: one table per entity,
 * each a sequence of rows in the order an unordered SELECT returns them.
 * A write to a field of a loaded row is an update of that row here; a
 * service's "commit" is the state its method leaves, and a service that
 * returns or fails before its commit leaves the store as it found it.
 *
 * Notifications and audit records are not modelled beyond the fact that
 * they were emitted: both are appended to `events`.
 */
module Database {
  import opened Wrappers
  import opened Tables
  import opened Models

  /** The old/new values an audit record carries. */
  datatype AuditChange =
    | NoValues
    | RequestCreated(title: string, kind: MaintenanceType)
    | StatusChanged(before: MaintenanceStatus, after: MaintenanceStatus, reason: Option<string>)

  datatype Event =
    | Audit(actorId: Id, action: string, entityType: string, entityId: Id, change: AuditChange)
    | Notify(userId: Id, title: string, category: string)

  class Store {
    var routes: seq<Route>
    var drivers: seq<Driver>
    var vehicles: seq<Vehicle>
    var assignments: seq<RotationAssignment>
    var trips: seq<Trip>
    var tickets: seq<Ticket>
    var gpsRows: seq<GpsRow>
    var exchanges: seq<DriverExchange>
    var breakLogs: seq<BreakLog>
    var requests: seq<MaintenanceRequest>
    var events: seq<Event>

    // The autoincrement sequences of the tables the services insert into.
    var nextAssignmentId: nat
    var nextTripId: nat
    var nextTicketId: nat
    var nextBreakLogId: nat
    var nextRequestId: nat

    /**
     * The primary key of every table the services write, the UNIQUE
     * constraints, fresh autoincrement values, and
     * distinct seats per trip. The last is no schema constraint (the tickets
     * table has none): it is what the seat check of ticket issuance keeps,
     * with one writer at a time.
     */
    ghost predicate Valid()
      reads this
    {
      && UniqueOn(routes, RouteId)
      && UniqueOn(drivers, DriverId)
      && UniqueOn(drivers, DriverUserId)
      && UniqueOn(vehicles, VehicleId)
      && UniqueOn(requests, RequestId)
      && AssignmentsUnique(assignments)
      && UniqueOn(assignments, AssignmentId)
      && UniqueOn(trips, TripId)
      && UniqueOn(tickets, TicketId)
      && UniqueOn(breakLogs, BreakLogId)
      && SeatsUnique(tickets)
      && KeysBelow(assignments, AssignmentId, nextAssignmentId)
      && KeysBelow(trips, TripId, nextTripId)
      && KeysBelow(tickets, TicketId, nextTicketId)
      && KeysBelow(breakLogs, BreakLogId, nextBreakLogId)
      && KeysBelow(requests, RequestId, nextRequestId)
    }

    /** An empty store. */
    constructor ()
      ensures Valid()
      ensures routes == [] && drivers == [] && vehicles == [] && assignments == [] && trips == []
      ensures tickets == [] && gpsRows == [] && exchanges == [] && breakLogs == [] && requests == []
      ensures events == []
    {
      routes, drivers, vehicles, assignments, trips := [], [], [], [], [];
      tickets, gpsRows, exchanges, breakLogs, requests, events := [], [], [], [], [], [];
      nextAssignmentId, nextTripId, nextTicketId, nextBreakLogId, nextRequestId := 0, 0, 0, 0, 0;
    }

    /** `UPDATE drivers SET ...` on the row at `i`, keeping its keys. */
    method SetDriver(i: nat, d: Driver)
      requires Valid() && i < |drivers| && d.id == drivers[i].id && d.userId == drivers[i].userId
      modifies this
      ensures Valid() && drivers == old(drivers)[i := d]
      ensures routes == old(routes) && vehicles == old(vehicles) && assignments == old(assignments)
      ensures trips == old(trips) && tickets == old(tickets) && gpsRows == old(gpsRows) && exchanges == old(exchanges)
      ensures breakLogs == old(breakLogs) && requests == old(requests) && events == old(events)
      ensures nextAssignmentId == old(nextAssignmentId) && nextTripId == old(nextTripId)
      ensures nextTicketId == old(nextTicketId) && nextBreakLogId == old(nextBreakLogId) && nextRequestId == old(nextRequestId)
    {
      UniqueUpdate(drivers, i, d, DriverId);
      UniqueUpdate(drivers, i, d, DriverUserId);
      drivers := drivers[i := d];
    }

    /** `UPDATE vehicles SET ...` on the row at `i`, keeping its key. */
    method SetVehicle(i: nat, v: Vehicle)
      requires Valid() && i < |vehicles| && v.id == vehicles[i].id
      modifies this
      ensures Valid() && vehicles == old(vehicles)[i := v]
      ensures routes == old(routes) && drivers == old(drivers) && assignments == old(assignments)
      ensures trips == old(trips) && tickets == old(tickets) && gpsRows == old(gpsRows) && exchanges == old(exchanges)
      ensures breakLogs == old(breakLogs) && requests == old(requests) && events == old(events)
      ensures nextAssignmentId == old(nextAssignmentId) && nextTripId == old(nextTripId)
      ensures nextTicketId == old(nextTicketId) && nextBreakLogId == old(nextBreakLogId) && nextRequestId == old(nextRequestId)
    {
      UniqueUpdate(vehicles, i, v, VehicleId);
      vehicles := vehicles[i := v];
    }

    /** `UPDATE break_logs SET ...` on the row at `i`, keeping its key. */
    method SetBreakLog(i: nat, b: BreakLog)
      requires Valid() && i < |breakLogs| && b.id == breakLogs[i].id
      modifies this
      ensures Valid() && breakLogs == old(breakLogs)[i := b]
      ensures routes == old(routes) && drivers == old(drivers) && vehicles == old(vehicles) && assignments == old(assignments)
      ensures trips == old(trips) && tickets == old(tickets) && gpsRows == old(gpsRows) && exchanges == old(exchanges)
      ensures requests == old(requests) && events == old(events)
      ensures nextAssignmentId == old(nextAssignmentId) && nextTripId == old(nextTripId)
      ensures nextTicketId == old(nextTicketId) && nextBreakLogId == old(nextBreakLogId) && nextRequestId == old(nextRequestId)
    {
      KeysBelowUpdate(breakLogs, i, b, BreakLogId, nextBreakLogId);
      breakLogs := breakLogs[i := b];
    }

    /** `UPDATE maintenance_requests SET ...` on the row at `i`, keeping its key. */
    method SetRequest(i: nat, m: MaintenanceRequest)
      requires Valid() && i < |requests| && m.id == requests[i].id
      modifies this
      ensures Valid() && requests == old(requests)[i := m]
      ensures routes == old(routes) && drivers == old(drivers) && vehicles == old(vehicles) && assignments == old(assignments)
      ensures trips == old(trips) && tickets == old(tickets) && gpsRows == old(gpsRows) && exchanges == old(exchanges)
      ensures breakLogs == old(breakLogs) && events == old(events)
      ensures nextAssignmentId == old(nextAssignmentId) && nextTripId == old(nextTripId)
      ensures nextTicketId == old(nextTicketId) && nextBreakLogId == old(nextBreakLogId) && nextRequestId == old(nextRequestId)
    {
      UniqueUpdate(requests, i, m, RequestId);
      KeysBelowUpdate(requests, i, m, RequestId, nextRequestId);
      requests := requests[i := m];
    }
  }

  /** The key under which the ticket issuance path keeps seats distinct on a trip. */
  function SeatKey(t: Ticket): (Id, Option<string>) { (t.tripId, t.seatNumber) }

  /** No trip has two tickets for the same seat (an unset seat counts as one seat). */
  ghost predicate SeatsUnique(tickets: seq<Ticket>) {
    UniqueOn(tickets, SeatKey)
  }
}
