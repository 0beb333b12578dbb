/**
 * The entities and enumerations of app/models/models.py, with the defaults
 * and uniqueness constraints the services rely on.
 *
 * Times are whole minutes on one global clock (`Instant`); the date of an
 * instant is `DateOf`, and `At(d, m)` is minute `m` after midnight of date
 * `d` (06:00 on date d is At(d, 360)). The source's float minute fields
 * become integers. String-backed enumerations become closed datatypes.
 */
module Models {
  import opened Wrappers
  import opened Tables

  type Id = nat

  /** Minutes since midnight of date 0. */
  type Instant = int

  // The bodies below spell the day length (MinutesPerDay) as a literal, which
  // keeps the arithmetic linear for the verifier.
  const MinutesPerDay: int := 1440

  function DateOf(t: Instant): int { t / 1440 }

  function TimeOfDay(t: Instant): int { t % 1440 }

  function At(date: int, minute: int): Instant { date * 1440 + minute }

  /** `At` and (`DateOf`, `TimeOfDay`) are inverse for minutes inside one day. */
  lemma AtRoundTrip(date: int, minute: int)
    requires 0 <= minute < MinutesPerDay
    ensures DateOf(At(date, minute)) == date && TimeOfDay(At(date, minute)) == minute
  {
  }

  /** Minimum completed trips before a break (app/core/config.py). */
  const MinTripsBeforeBreak: int := 1

  // --- Enumerations ---

  datatype UserRole = AdminRole | ManagerRole | DriverRole

  datatype DriverStatus = Active | OnTrip | OnBreak | OffDuty

  datatype VehicleStatus = Free | Assigned | EnRoute | Maintenance | OutOfService

  datatype TripStatus = Scheduled | Active | Completed | Cancelled

  datatype TripDirection = Outbound | Inbound

  datatype MaintenanceStatus = Pending | Approved | InProgress | Completed | Rejected

  datatype MaintenanceType = Regular | Emergency

  datatype ShiftType = Morning | Evening

  datatype RotationPosition = Driver1 | Driver2 | Driver3

  datatype ReplacementReason = Break | EmergencyCrowding | EmergencyBreakdown | NoShow

  datatype TicketStatus = Issued | Used | Cancelled | Expired

  // --- Entities (only the fields the modelled operations read or write) ---

  datatype Driver = Driver(
    id: Id,
    userId: Id,
    status: DriverStatus,
    breakTimeRemaining: int,
    totalBreakTimeToday: int,
    breakStartTime: Option<Instant>,
    tripsSinceLastBreak: int,
    currentBreakNumber: int)

  datatype Vehicle = Vehicle(id: Id, status: VehicleStatus, capacity: int)

  datatype Route = Route(
    id: Id,
    name: string,
    startLocation: string,
    endLocation: string,
    estimatedTimeMinutes: int,
    turnaroundTimeMinutes: int,
    isActive: bool)

  datatype RouteStop = RouteStop(id: Id, routeId: Id, stopName: string, sequenceOrder: int)

  datatype RotationAssignment = RotationAssignment(
    id: Id,
    routeId: Id,
    driverId: Id,
    vehicleId: Id,
    shiftType: ShiftType,
    position: RotationPosition,
    shiftDate: int,
    shiftStartTime: Instant,
    shiftEndTime: Instant,
    isActive: bool)

  /**
   * A trip number, kept as the route name, start instant and direction
   * letter it is formatted from ("RIV-0600-O" for a Riverside trip leaving
   * at 06:00); the string itself is `Rotation.TripNumber`.
   */
  datatype TripNo = TripNo(routeName: string, start: Instant, suffix: char)

  datatype Trip = Trip(
    id: Id,
    driverId: Id,
    vehicleId: Id,
    routeId: Id,
    rotationAssignmentId: Option<Id>,
    direction: TripDirection,
    status: TripStatus,
    tripNumber: Option<TripNo>,
    scheduledStart: Instant,
    scheduledEnd: Option<Instant>)

  datatype Ticket = Ticket(
    id: Id,
    tripId: Id,
    passengerName: Option<string>,
    seatNumber: Option<string>,
    price: real,
    status: TicketStatus)

  datatype GpsRow = GpsRow(id: Id, vehicleId: Id, tripId: Option<Id>)

  datatype DriverExchange = DriverExchange(
    id: Id,
    rotationAssignmentId: Id,
    outgoingDriverId: Id,
    incomingDriverId: Id,
    reason: ReplacementReason,
    exchangeTime: Instant,
    returnTime: Option<Instant>,
    tripId: Option<Id>)

  /** An unset `endTime` marks a break that is still open. */
  datatype BreakLog = BreakLog(
    id: Id,
    driverId: Id,
    shiftDate: int,
    breakNumber: int,
    startTime: Instant,
    endTime: Option<Instant>,
    durationMinutes: Option<int>)

  datatype MaintenanceRequest = MaintenanceRequest(
    id: Id,
    vehicleId: Id,
    requestedById: Id,
    approvedById: Option<Id>,
    kind: MaintenanceType,
    status: MaintenanceStatus,
    priority: int,
    title: string,
    description: Option<string>,
    rejectionReason: Option<string>)

  // --- Rows created with the column defaults ---

  /** A driver row with every break column at its default. */
  function NewDriver(id: Id, userId: Id): Driver {
    Driver(id, userId, DriverStatus.Active, 60, 0, None, 0, 0)
  }

  /** A vehicle row with its default status and capacity. */
  function NewVehicle(id: Id): Vehicle {
    Vehicle(id, Free, 50)
  }

  /** A route row with its default turnaround and active flag. */
  function NewRoute(id: Id, name: string, startLocation: string, endLocation: string, estimated: int): Route {
    Route(id, name, startLocation, endLocation, estimated, 10, true)
  }

  // --- Keys of the uniqueness constraints ---

  function RouteId(r: Route): Id { r.id }
  function DriverId(d: Driver): Id { d.id }
  function DriverUserId(d: Driver): Id { d.userId }
  function VehicleId(v: Vehicle): Id { v.id }
  function TripId(t: Trip): Id { t.id }
  function AssignmentId(a: RotationAssignment): Id { a.id }
  function RequestId(m: MaintenanceRequest): Id { m.id }
  function TicketId(t: Ticket): Id { t.id }
  function BreakLogId(b: BreakLog): Id { b.id }

  /** The key of uix_rotation_assignment. */
  function AssignmentKey(a: RotationAssignment): (Id, ShiftType, RotationPosition, int) {
    (a.routeId, a.shiftType, a.position, a.shiftDate)
  }

  /** The key of uix_route_stop_order. */
  function StopKey(s: RouteStop): (Id, int) {
    (s.routeId, s.sequenceOrder)
  }

  ghost predicate AssignmentsUnique(assignments: seq<RotationAssignment>) {
    UniqueOn(assignments, AssignmentKey)
  }

  ghost predicate StopsUnique(stops: seq<RouteStop>) {
    UniqueOn(stops, StopKey)
  }

  /** The stop a route visits at a given place in its order, if any. */
  function StopAt(stops: seq<RouteStop>, routeId: Id, order: int): (r: Option<RouteStop>)
    ensures r.Some? ==> r.value in stops && StopKey(r.value) == (routeId, order)
    ensures r.None? ==> forall s :: s in stops ==> StopKey(s) != (routeId, order)
  {
    match IndexOf(stops, StopKey, (routeId, order))
    case None => None
    case Some(i) => Some(stops[i])
  }

  /** Under uix_route_stop_order, a stop is found again by its own key. */
  lemma StopAtUnique(stops: seq<RouteStop>, s: RouteStop)
    requires StopsUnique(stops) && s in stops
    ensures StopAt(stops, s.routeId, s.sequenceOrder) == Some(s)
  {
    var i :| 0 <= i < |stops| && stops[i] == s;
    IndexOfUnique(stops, StopKey, i);
  }

  /** Under uix_rotation_assignment, a (route, shift, position, date) slot holds at most one assignment. */
  lemma AssignmentSlotUnique(assignments: seq<RotationAssignment>, a: RotationAssignment, b: RotationAssignment)
    requires AssignmentsUnique(assignments) && a in assignments && b in assignments
    requires AssignmentKey(a) == AssignmentKey(b)
    ensures a == b
  {
    var i :| 0 <= i < |assignments| && assignments[i] == a;
    var j :| 0 <= j < |assignments| && assignments[j] == b;
  }
}
