/**
 * The administrative endpoints of app/api/v1/admin.py that the model
 * covers: issuing a ticket, the soft deletes of drivers, vehicles and
 * routes, the origin/destination of a trip in the trip list, and the
 * message of the forced schedule generation.
 */
module Admin {
  import opened Wrappers
  import opened Tables
  import opened Models
  import opened Database
  import opened Rotation

  // ---------------------------------------------------------------------
  // Ticket issuance (create_ticket)
  // ---------------------------------------------------------------------

  /** The authenticated caller: the handler admits ADMIN and DRIVER users, the router in front of it ADMIN only. */
  datatype Caller = Caller(userId: Id, role: UserRole)

  /** The body of the request (TicketCreate). */
  datatype TicketRequest = TicketRequest(
    tripId: Id,
    passengerName: Option<string>,
    seatNumber: Option<string>,
    price: real,
    status: TicketStatus)

  datatype TicketError =
    | TripNotFound          // 404 "Trip not found"
    | NoDriverProfile       // the DRIVER caller has no driver row: `scalar_one()` raises, a 500
    | NotTripDriver         // 403 "Not authorized to issue tickets for this trip"
    | NoVehicle             // 400 "Trip has no assigned vehicle"
    | BusFull(capacity: int)  // 400 "Bus is full! Capacity: ..."
    | SeatTaken             // 400 "Seat ... is already taken"

  function TicketOfTrip(tripId: Id): Ticket -> bool {
    (t: Ticket) => t.tripId == tripId
  }

  /** `SELECT count(tickets.id) WHERE trip_id = ...`. */
  function TicketCount(tickets: seq<Ticket>, tripId: Id): nat {
    |Filter(tickets, TicketOfTrip(tripId))|
  }

  /** A ticket of the trip holds the seat (an unset seat matches an unset seat: `seat_number IS NULL`). */
  predicate SeatHeld(tickets: seq<Ticket>, tripId: Id, seat: Option<string>) {
    exists t :: t in tickets && SeatKey(t) == (tripId, seat)
  }

  /**
   * The checks of `create_ticket`, in the order the handler makes them; `None`
   * when the ticket may be issued.
   */
  function TicketCheck(trips: seq<Trip>, drivers: seq<Driver>, vehicles: seq<Vehicle>, tickets: seq<Ticket>,
      caller: Caller, req: TicketRequest): (r: Option<TicketError>)
    ensures IndexOf(trips, TripId, req.tripId).None? ==> r == Some(TripNotFound)
    ensures r.None? ==> IndexOf(trips, TripId, req.tripId).Some?
    ensures r.None? ==> !SeatHeld(tickets, req.tripId, req.seatNumber)
  {
    match IndexOf(trips, TripId, req.tripId)
    case None => Some(TripNotFound)
    case Some(ti) =>
      var trip := trips[ti];
      var driver := IndexOf(drivers, DriverUserId, caller.userId);
      if caller.role == DriverRole && driver.None? then Some(NoDriverProfile)
      else if caller.role == DriverRole && trip.driverId != drivers[driver.value].id then Some(NotTripDriver)
      else match IndexOf(vehicles, VehicleId, trip.vehicleId)
        case None => Some(NoVehicle)
        case Some(vi) =>
          if TicketCount(tickets, req.tripId) >= vehicles[vi].capacity then Some(BusFull(vehicles[vi].capacity))
          else if SeatHeld(tickets, req.tripId, req.seatNumber) then Some(SeatTaken)
          else None
  }

  /** The row the ticket is stored as. */
  function IssuedTicket(id: Id, req: TicketRequest): Ticket {
    Ticket(id, req.tripId, req.passengerName, req.seatNumber, req.price, req.status)
  }

  /** The caller may issue for the trip: any non-DRIVER caller, or a DRIVER whose driver row drives it. */
  predicate MayIssueFor(trip: Trip, drivers: seq<Driver>, caller: Caller) {
    caller.role == DriverRole ==>
      IndexOf(drivers, DriverUserId, caller.userId).Some? &&
      trip.driverId == drivers[IndexOf(drivers, DriverUserId, caller.userId).value].id
  }

  /**
   * A request that meets every check passes: the trip exists, the caller may
   * issue for it, its vehicle is stored, the bus has room and the seat is free.
   */
  lemma RequestMeetingChecksPasses(trips: seq<Trip>, drivers: seq<Driver>, vehicles: seq<Vehicle>, tickets: seq<Ticket>,
      caller: Caller, req: TicketRequest, ti: nat, vi: nat)
    requires IndexOf(trips, TripId, req.tripId) == Some(ti)
    requires MayIssueFor(trips[ti], drivers, caller)
    requires IndexOf(vehicles, VehicleId, trips[ti].vehicleId) == Some(vi)
    requires TicketCount(tickets, req.tripId) < vehicles[vi].capacity
    requires !SeatHeld(tickets, req.tripId, req.seatNumber)
    ensures TicketCheck(trips, drivers, vehicles, tickets, caller, req) == None
  {
  }

  /** A full bus is refused before the seat is looked at: the capacity check comes first. */
  lemma CapacityBeforeSeat(trips: seq<Trip>, drivers: seq<Driver>, vehicles: seq<Vehicle>, tickets: seq<Ticket>,
      caller: Caller, req: TicketRequest, ti: nat, vi: nat)
    requires IndexOf(trips, TripId, req.tripId) == Some(ti)
    requires MayIssueFor(trips[ti], drivers, caller)
    requires IndexOf(vehicles, VehicleId, trips[ti].vehicleId) == Some(vi)
    requires TicketCount(tickets, req.tripId) >= vehicles[vi].capacity
    ensures TicketCheck(trips, drivers, vehicles, tickets, caller, req) == Some(BusFull(vehicles[vi].capacity))
  {
  }

  /** A DRIVER caller may only issue tickets for a trip they drive. */
  lemma DriverIssuesOwnTripsOnly(trips: seq<Trip>, drivers: seq<Driver>, vehicles: seq<Vehicle>, tickets: seq<Ticket>,
      caller: Caller, req: TicketRequest)
    requires caller.role == DriverRole
    requires TicketCheck(trips, drivers, vehicles, tickets, caller, req).None?
    ensures exists ti, di :: (0 <= ti < |trips| && 0 <= di < |drivers| && trips[ti].id == req.tripId &&
      drivers[di].userId == caller.userId && trips[ti].driverId == drivers[di].id)
  {
    var ti := IndexOf(trips, TripId, req.tripId).value;
    var di := IndexOf(drivers, DriverUserId, caller.userId).value;
    assert trips[ti].id == req.tripId && drivers[di].userId == caller.userId;
  }

  /**
   * The router in front of the endpoint admits ADMIN users only, and for an
   * ADMIN caller the driver table is never consulted: the ownership checks
   * are not reached.
   */
  lemma AdminSkipsOwnership(trips: seq<Trip>, drivers: seq<Driver>, vehicles: seq<Vehicle>, tickets: seq<Ticket>,
      caller: Caller, req: TicketRequest)
    requires caller.role == AdminRole
    ensures TicketCheck(trips, drivers, vehicles, tickets, caller, req) == TicketCheck(trips, [], vehicles, tickets, caller, req)
    ensures TicketCheck(trips, drivers, vehicles, tickets, caller, req) != Some(NoDriverProfile)
    ensures TicketCheck(trips, drivers, vehicles, tickets, caller, req) != Some(NotTripDriver)
  {
  }

  /**
   * Issuing never takes a trip over its bus's capacity: after a successful
   * issue the trip has at most `capacity` tickets, exactly one more than before.
   */
  lemma IssueRespectsCapacity(trips: seq<Trip>, drivers: seq<Driver>, vehicles: seq<Vehicle>, tickets: seq<Ticket>,
      caller: Caller, req: TicketRequest, id: Id)
    requires TicketCheck(trips, drivers, vehicles, tickets, caller, req).None?
    ensures TicketCount(tickets + [IssuedTicket(id, req)], req.tripId) == TicketCount(tickets, req.tripId) + 1
    ensures exists vi :: (0 <= vi < |vehicles| && vehicles[vi].id == trips[IndexOf(trips, TripId, req.tripId).value].vehicleId &&
      TicketCount(tickets + [IssuedTicket(id, req)], req.tripId) <= vehicles[vi].capacity)
  {
    var t := IssuedTicket(id, req);
    FilterAppend(tickets, [t], TicketOfTrip(req.tripId));
    assert Filter([t], TicketOfTrip(req.tripId)) == [t];
    var ti := IndexOf(trips, TripId, req.tripId).value;
    var vi := IndexOf(vehicles, VehicleId, trips[ti].vehicleId).value;
    assert vehicles[vi].id == trips[ti].vehicleId;
  }

  /** A successful issue keeps the seats of every trip distinct. */
  lemma IssueKeepsSeatsUnique(tickets: seq<Ticket>, req: TicketRequest, id: Id)
    requires SeatsUnique(tickets) && !SeatHeld(tickets, req.tripId, req.seatNumber)
    ensures SeatsUnique(tickets + [IssuedTicket(id, req)])
  {
    var t := IssuedTicket(id, req);
    forall x, y | x in tickets && y in [t] ensures SeatKey(x) != SeatKey(y) {
      assert y == t;
    }
    UniqueAppend(tickets, [t], SeatKey);
  }

  /**
   * `create_ticket`: the checks of `TicketCheck`; on success exactly one
   * ticket, with the next id and the request's fields, is added and
   * committed. A refusal changes nothing.
   */
  method CreateTicket(db: Store, caller: Caller, req: TicketRequest) returns (r: Result<Ticket, TicketError>)
    requires db.Valid() && caller.role != ManagerRole
    modifies db
    ensures db.Valid()
    ensures TicketCheck(old(db.trips), old(db.drivers), old(db.vehicles), old(db.tickets), caller, req).Some? ==>
      r == Failure(TicketCheck(old(db.trips), old(db.drivers), old(db.vehicles), old(db.tickets), caller, req).value) &&
      unchanged(db)
    ensures TicketCheck(old(db.trips), old(db.drivers), old(db.vehicles), old(db.tickets), caller, req).None? ==>
      r == Success(IssuedTicket(old(db.nextTicketId), req)) &&
      db.tickets == old(db.tickets) + [r.value] && db.nextTicketId == old(db.nextTicketId) + 1
    ensures db.trips == old(db.trips) && db.drivers == old(db.drivers) && db.vehicles == old(db.vehicles)
    ensures db.routes == old(db.routes) && db.assignments == old(db.assignments) && db.events == old(db.events)
    ensures db.breakLogs == old(db.breakLogs) && db.requests == old(db.requests)
    ensures db.gpsRows == old(db.gpsRows) && db.exchanges == old(db.exchanges)
    ensures db.nextAssignmentId == old(db.nextAssignmentId) && db.nextTripId == old(db.nextTripId)
    ensures db.nextBreakLogId == old(db.nextBreakLogId) && db.nextRequestId == old(db.nextRequestId)
  {
    // 1. The trip.
    var tripAt := IndexOf(db.trips, TripId, req.tripId);
    if tripAt.None? {
      return Failure(TripNotFound);
    }
    var trip := db.trips[tripAt.value];
    // 2. Ownership, for a DRIVER caller.
    if caller.role == DriverRole {
      var driverAt := IndexOf(db.drivers, DriverUserId, caller.userId);
      if driverAt.None? {
        return Failure(NoDriverProfile);
      }
      if trip.driverId != db.drivers[driverAt.value].id {
        return Failure(NotTripDriver);
      }
    }
    // The vehicle and its capacity.
    var vehicleAt := IndexOf(db.vehicles, VehicleId, trip.vehicleId);
    if vehicleAt.None? {
      return Failure(NoVehicle);
    }
    var capacity := db.vehicles[vehicleAt.value].capacity;
    // 2. Capacity.
    var currentCount := TicketCount(db.tickets, req.tripId);
    if currentCount >= capacity {
      return Failure(BusFull(capacity));
    }
    // 3. The seat.
    if SeatHeld(db.tickets, req.tripId, req.seatNumber) {
      return Failure(SeatTaken);
    }
    var ticket := Issue(db, req);
    return Success(ticket);
  }

  /** Stores a ticket whose seat is free under the next ticket id. */
  method Issue(db: Store, req: TicketRequest) returns (ticket: Ticket)
    requires db.Valid() && !SeatHeld(db.tickets, req.tripId, req.seatNumber)
    modifies db
    ensures db.Valid()
    ensures ticket == IssuedTicket(old(db.nextTicketId), req)
    ensures db.tickets == old(db.tickets) + [ticket] && db.nextTicketId == old(db.nextTicketId) + 1
    ensures db.trips == old(db.trips) && db.drivers == old(db.drivers) && db.vehicles == old(db.vehicles)
    ensures db.routes == old(db.routes) && db.assignments == old(db.assignments) && db.events == old(db.events)
    ensures db.breakLogs == old(db.breakLogs) && db.requests == old(db.requests)
    ensures db.gpsRows == old(db.gpsRows) && db.exchanges == old(db.exchanges)
    ensures db.nextAssignmentId == old(db.nextAssignmentId) && db.nextTripId == old(db.nextTripId)
    ensures db.nextBreakLogId == old(db.nextBreakLogId) && db.nextRequestId == old(db.nextRequestId)
  {
    ticket := IssuedTicket(db.nextTicketId, req);
    IssueKeepsSeatsUnique(db.tickets, req, db.nextTicketId);
    InsertFresh(db.tickets, ticket, TicketId, db.nextTicketId);
    db.tickets := db.tickets + [ticket];
    db.nextTicketId := db.nextTicketId + 1;
  }

  // ---------------------------------------------------------------------
  // Soft deletes
  // ---------------------------------------------------------------------

  datatype NotFound = NotFound   // 404 "... not found"

  /** A deleted driver, and only that driver, leaves the generator's driver pool. */
  lemma DeletedDriverLeavesPool(drivers: seq<Driver>, k: nat)
    requires UniqueOn(drivers, DriverId) && k < |drivers|
    ensures forall d :: d in DriverPool(drivers[k := drivers[k].(status := OffDuty)]) <==>
      d in DriverPool(drivers) && d.id != drivers[k].id
  {
    FilterAfterDisable(drivers, k, drivers[k].(status := OffDuty), InDriverPool, DriverId);
  }

  /** A deleted vehicle, and only that vehicle, leaves the generator's vehicle pool. */
  lemma DeletedVehicleLeavesPool(vehicles: seq<Vehicle>, k: nat)
    requires UniqueOn(vehicles, VehicleId) && k < |vehicles|
    ensures forall v :: v in VehiclePool(vehicles[k := vehicles[k].(status := OutOfService)]) <==>
      v in VehiclePool(vehicles) && v.id != vehicles[k].id
  {
    FilterAfterDisable(vehicles, k, vehicles[k].(status := OutOfService), InVehiclePool, VehicleId);
  }

  /** A deleted route, and only that route, is no longer scheduled. */
  lemma DeletedRouteLeavesSchedule(routes: seq<Route>, k: nat)
    requires UniqueOn(routes, RouteId) && k < |routes|
    ensures forall r :: r in ActiveRoutes(routes[k := routes[k].(isActive := false)]) <==>
      r in ActiveRoutes(routes) && r.id != routes[k].id
  {
    FilterAfterDisable(routes, k, routes[k].(isActive := false), IsActiveRoute, RouteId);
  }

  /** `delete_driver`: the driver row becomes OFF_DUTY and the delete is audited; an unknown id is a 404. */
  method DeleteDriver(db: Store, id: Id, actorId: Id) returns (r: Result<(), NotFound>)
    requires db.Valid()
    modifies db
    ensures db.Valid()
    ensures IndexOf(old(db.drivers), DriverId, id).None? ==> r == Failure(NotFound) && unchanged(db)
    ensures IndexOf(old(db.drivers), DriverId, id).Some? ==>
      && r.Success?
      && db.drivers == old(db.drivers)[IndexOf(old(db.drivers), DriverId, id).value :=
           old(db.drivers)[IndexOf(old(db.drivers), DriverId, id).value].(status := OffDuty)]
      && db.events == old(db.events) + [Audit(actorId, "DELETE", "Driver", id, NoValues)]
    ensures db.routes == old(db.routes) && db.vehicles == old(db.vehicles) && db.trips == old(db.trips)
    ensures db.assignments == old(db.assignments) && db.breakLogs == old(db.breakLogs) && db.requests == old(db.requests)
    ensures db.tickets == old(db.tickets) && db.gpsRows == old(db.gpsRows) && db.exchanges == old(db.exchanges)
    ensures db.nextAssignmentId == old(db.nextAssignmentId) && db.nextTripId == old(db.nextTripId)
    ensures db.nextTicketId == old(db.nextTicketId) && db.nextBreakLogId == old(db.nextBreakLogId)
    ensures db.nextRequestId == old(db.nextRequestId)
  {
    var k := IndexOf(db.drivers, DriverId, id);
    if k.None? {
      return Failure(NotFound);
    }
    var row := db.drivers[k.value].(status := OffDuty);
    db.SetDriver(k.value, row);
    db.events := db.events + [Audit(actorId, "DELETE", "Driver", id, NoValues)];
    return Success(());
  }

  /** `delete_vehicle`: the vehicle row becomes OUT_OF_SERVICE and the delete is audited; an unknown id is a 404. */
  method DeleteVehicle(db: Store, id: Id, actorId: Id) returns (r: Result<(), NotFound>)
    requires db.Valid()
    modifies db
    ensures db.Valid()
    ensures IndexOf(old(db.vehicles), VehicleId, id).None? ==> r == Failure(NotFound) && unchanged(db)
    ensures IndexOf(old(db.vehicles), VehicleId, id).Some? ==>
      && r.Success?
      && db.vehicles == old(db.vehicles)[IndexOf(old(db.vehicles), VehicleId, id).value :=
           old(db.vehicles)[IndexOf(old(db.vehicles), VehicleId, id).value].(status := OutOfService)]
      && db.events == old(db.events) + [Audit(actorId, "DELETE", "Vehicle", id, NoValues)]
    ensures db.routes == old(db.routes) && db.drivers == old(db.drivers) && db.trips == old(db.trips)
    ensures db.assignments == old(db.assignments) && db.requests == old(db.requests) && db.breakLogs == old(db.breakLogs)
    ensures db.tickets == old(db.tickets) && db.gpsRows == old(db.gpsRows) && db.exchanges == old(db.exchanges)
    ensures db.nextAssignmentId == old(db.nextAssignmentId) && db.nextTripId == old(db.nextTripId)
    ensures db.nextTicketId == old(db.nextTicketId) && db.nextBreakLogId == old(db.nextBreakLogId)
    ensures db.nextRequestId == old(db.nextRequestId)
  {
    var k := IndexOf(db.vehicles, VehicleId, id);
    if k.None? {
      return Failure(NotFound);
    }
    var row := db.vehicles[k.value].(status := OutOfService);
    db.SetVehicle(k.value, row);
    db.events := db.events + [Audit(actorId, "DELETE", "Vehicle", id, NoValues)];
    return Success(());
  }

  /** `delete_route`: the route row is deactivated and the delete is audited; an unknown id is a 404. */
  method DeleteRoute(db: Store, id: Id, actorId: Id) returns (r: Result<(), NotFound>)
    requires db.Valid()
    modifies db
    ensures db.Valid()
    ensures IndexOf(old(db.routes), RouteId, id).None? ==> r == Failure(NotFound) && unchanged(db)
    ensures IndexOf(old(db.routes), RouteId, id).Some? ==>
      && r.Success?
      && db.routes == old(db.routes)[IndexOf(old(db.routes), RouteId, id).value :=
           old(db.routes)[IndexOf(old(db.routes), RouteId, id).value].(isActive := false)]
      && db.events == old(db.events) + [Audit(actorId, "DELETE", "Route", id, NoValues)]
    ensures db.vehicles == old(db.vehicles) && db.drivers == old(db.drivers) && db.trips == old(db.trips)
    ensures db.assignments == old(db.assignments) && db.breakLogs == old(db.breakLogs) && db.requests == old(db.requests)
    ensures db.tickets == old(db.tickets) && db.gpsRows == old(db.gpsRows) && db.exchanges == old(db.exchanges)
    ensures db.nextAssignmentId == old(db.nextAssignmentId) && db.nextTripId == old(db.nextTripId)
    ensures db.nextTicketId == old(db.nextTicketId) && db.nextBreakLogId == old(db.nextBreakLogId)
    ensures db.nextRequestId == old(db.nextRequestId)
  {
    var k := IndexOf(db.routes, RouteId, id);
    if k.None? {
      return Failure(NotFound);
    }
    var row := db.routes[k.value].(isActive := false);
    UniqueUpdate(db.routes, k.value, row, RouteId);
    db.routes := db.routes[k.value := row];
    db.events := db.events + [Audit(actorId, "DELETE", "Route", id, NoValues)];
    return Success(());
  }

  // ---------------------------------------------------------------------
  // The trip list (get_trips)
  // ---------------------------------------------------------------------

  /** Where a trip leaves from and where it goes: OUTBOUND runs start to end, INBOUND end to start. */
  function Endpoints(route: Route, direction: TripDirection): (p: (string, string))
    ensures {p.0, p.1} == {route.startLocation, route.endLocation}
    ensures direction == Outbound ==> p.0 == route.startLocation
    ensures direction != Outbound ==> p.1 == route.startLocation
  {
    if direction == Outbound then (route.startLocation, route.endLocation)
    else (route.endLocation, route.startLocation)
  }

  /** The two directions of a route run between the same places, swapped. */
  lemma EndpointsSwap(route: Route)
    ensures Endpoints(route, Inbound).0 == Endpoints(route, Outbound).1
    ensures Endpoints(route, Inbound).1 == Endpoints(route, Outbound).0
    ensures Endpoints(route, Outbound) == (route.startLocation, route.endLocation)
  {
  }

  /** A row of the trip list: the trip's own columns, its places and its route's name. */
  datatype TripRow = TripRow(
    id: Id,
    tripNumber: Option<TripNo>,
    status: TripStatus,
    direction: TripDirection,
    origin: string,
    destination: string,
    startTime: Instant,
    endTime: Option<Instant>,
    routeName: string)

  function RowOf(t: Trip, route: Route): (row: TripRow)
    ensures (row.origin, row.destination) == Endpoints(route, t.direction)
    ensures row.id == t.id && row.direction == t.direction && row.startTime == t.scheduledStart
  {
    var places := Endpoints(route, t.direction);
    TripRow(t.id, t.tripNumber, t.status, t.direction, places.0, places.1, t.scheduledStart, t.scheduledEnd, route.name)
  }

  /**
   * The serialisation loop of `get_trips` over the selected trips, each
   * with its loaded route: one row per trip, in the query's order.
   */
  method SerializeTrips(trips: seq<(Trip, Route)>) returns (serialized: seq<TripRow>)
    ensures |serialized| == |trips|
    ensures forall k :: 0 <= k < |trips| ==> serialized[k] == RowOf(trips[k].0, trips[k].1)
  {
    serialized := [];
    for k := 0 to |trips|
      invariant |serialized| == k
      invariant forall j :: 0 <= j < k ==> serialized[j] == RowOf(trips[j].0, trips[j].1)
    {
      var t := trips[k].0;
      var route := trips[k].1;
      var origin := if t.direction == Outbound then route.startLocation else route.endLocation;
      var destination := if t.direction == Outbound then route.endLocation else route.startLocation;
      serialized := serialized + [TripRow(t.id, t.tripNumber, t.status, t.direction, origin, destination,
        t.scheduledStart, t.scheduledEnd, route.name)];
    }
  }

  // ---------------------------------------------------------------------
  // The forced generation message (force_generate_schedule)
  // ---------------------------------------------------------------------

  datatype ScheduleMessage =
    | AlreadyExists              // "Schedule already exists. Use regenerate=true to overwrite."
    | Created(action: string, count: nat)  // "<Generated|Regenerated> <n> trips for today"
    | GenerationFailed           // 500 "Regeneration Failed: ..."

  function Action(regenerate: bool): string {
    if regenerate then "Regenerated" else "Generated"
  }

  /**
   * The message as the handler writes it: an empty result without
   * regeneration is reported as an existing schedule, whatever made it empty.
   */
  function MessageAsWritten(result: Result<seq<Trip>, GenerateError>, regenerate: bool): (m: ScheduleMessage)
    ensures m == GenerationFailed <==> result.Failure?
    ensures m == AlreadyExists <==> result == Success([]) && !regenerate
    ensures m.Created? ==> m.action == Action(regenerate) && m.count == |result.value|
  {
    if result.Failure? then GenerationFailed
    else if result.value == [] && !regenerate then AlreadyExists
    else Created(Action(regenerate), |result.value|)
  }

  /** The message as intended: "already exists" exactly when the guard found trips on the date. */
  function Message(s: ScheduleState, today: int, regenerate: bool): (m: ScheduleMessage)
    ensures m == AlreadyExists <==> HasTripsOn(s.trips, today) && !regenerate
    ensures m.Created? ==> (Generate(s, today, regenerate).result.Success? &&
      m.count == |Generate(s, today, regenerate).result.value|)
    ensures m == GenerationFailed <==> Generate(s, today, regenerate).result.Failure?
    ensures m.Created? ==> m.action == Action(regenerate)
  {
    var result := Generate(s, today, regenerate).result;
    if result.Failure? then GenerationFailed
    else if HasTripsOn(s.trips, today) && !regenerate then AlreadyExists
    else Created(Action(regenerate), |result.value|)
  }

  /** Where the guard fired, the written message is right. */
  lemma MessageAsWrittenOnExisting(s: ScheduleState, today: int)
    requires HasTripsOn(s.trips, today)
    ensures MessageAsWritten(Generate(s, today, false).result, false) == AlreadyExists
    ensures Message(s, today, false) == AlreadyExists
  {
  }

  /** A store with no driver, no vehicle, no route and no trip. */
  function EmptySchedule(): ScheduleState {
    ScheduleState([], [], [], [], [], [], [], [], 0, 0)
  }

  /**
   * The written message is wrong on an empty store: nothing exists for the
   * day and nothing can be generated (the driver pool is empty), yet the
   * handler reports that the schedule already exists.
   */
  lemma MessageAsWrittenMisreports(today: int)
    ensures !HasTripsOn(EmptySchedule().trips, today)
    ensures Generate(EmptySchedule(), today, false).result == Success([])
    ensures MessageAsWritten(Generate(EmptySchedule(), today, false).result, false) == AlreadyExists
    ensures Message(EmptySchedule(), today, false) == Created("Generated", 0)
  {
  }

  /**
   * `force_generate_schedule` as written: runs the generator for `today`
   * and answers with `MessageAsWritten`, so an empty result without
   * regeneration is reported as an existing schedule.
   */
  method ForceGenerateSchedule(db: Store, today: int, regenerate: bool) returns (m: ScheduleMessage)
    requires db.Valid()
    modifies db
    ensures db.Valid()
    ensures m == MessageAsWritten(Generate(old(View(db)), today, regenerate).result, regenerate)
    ensures View(db) == Generate(old(View(db)), today, regenerate).state
    ensures OtherTables(db) == old(OtherTables(db))
  {
    var result := GenerateDailySchedule(db, today, regenerate);
    if result.Failure? {
      return GenerationFailed;
    }
    var action := Action(regenerate);
    if result.value == [] && !regenerate {
      return AlreadyExists;
    }
    return Created(action, |result.value|);
  }

  /**
   * `force_generate_schedule` as intended: the same run, answered with
   * `Message`, which looks at whether the date had trips before the call.
   */
  method ForceGenerateScheduleCorrected(db: Store, today: int, regenerate: bool) returns (m: ScheduleMessage)
    requires db.Valid()
    modifies db
    ensures db.Valid()
    ensures m == Message(old(View(db)), today, regenerate)
    ensures View(db) == Generate(old(View(db)), today, regenerate).state
    ensures OtherTables(db) == old(OtherTables(db))
  {
    var existed := HasTripsOn(db.trips, today);
    var result := GenerateDailySchedule(db, today, regenerate);
    if result.Failure? {
      return GenerationFailed;
    }
    if existed && !regenerate {
      return AlreadyExists;
    }
    return Created(Action(regenerate), |result.value|);
  }
}
