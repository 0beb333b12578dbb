/**
 * The driver break service of app/services/break_service.py: the break
 * status a driver sees, starting a break and ending one.
 *
 * A driver row carries the break budget (`breakTimeRemaining`), the minutes
 * used today, the trips driven since the last break and the running break
 * number. Starting a break opens a BreakLog (no end time); ending it closes
 * the driver's latest open log. The clock is the `now` parameter.
 */
module Breaks {
  import opened Wrappers
  import opened Tables
  import opened Models
  import opened Database

  /** What `get_break_status` reports. */
  datatype BreakStatus = BreakStatus(
    breakTimeRemaining: int,
    totalBreakTimeToday: int,
    tripsSinceLastBreak: int,
    isEligible: bool)

  datatype BreakError =
    | NotEnoughTrips         // "Not enough trips completed to take a break"
    | NoBreakTimeRemaining   // "No break time remaining"
    | NotOnBreak             // "Driver is not on break"

  /** A driver may start a break: enough trips since the last one and some budget left. */
  predicate Eligible(d: Driver)
    ensures d.tripsSinceLastBreak == 0 ==> !Eligible(d)
    ensures d.breakTimeRemaining <= 0 ==> !Eligible(d)
    ensures d.tripsSinceLastBreak >= MinTripsBeforeBreak && d.breakTimeRemaining >= 1 ==> Eligible(d)
  {
    d.tripsSinceLastBreak >= MinTripsBeforeBreak && d.breakTimeRemaining > 0
  }

  /** The counters of the driver row, and whether a break may start now. */
  function GetBreakStatus(d: Driver): (r: BreakStatus)
    ensures r.isEligible <==> StartCheck(d).None?
    ensures r.breakTimeRemaining == d.breakTimeRemaining && r.totalBreakTimeToday == d.totalBreakTimeToday
    ensures r.tripsSinceLastBreak == d.tripsSinceLastBreak
  {
    BreakStatus(d.breakTimeRemaining, d.totalBreakTimeToday, d.tripsSinceLastBreak, Eligible(d))
  }

  // ---------------------------------------------------------------------
  // Starting a break
  // ---------------------------------------------------------------------

  /**
   * The checks of `start_break`, in order. The status test the source
   * writes first has an empty body, so the status is never looked at.
   */
  function StartCheck(d: Driver): (r: Option<BreakError>)
    ensures r.None? <==> Eligible(d)
    ensures r == Some(NotEnoughTrips) <==> d.tripsSinceLastBreak < MinTripsBeforeBreak
    ensures r == Some(NoBreakTimeRemaining) <==> d.tripsSinceLastBreak >= MinTripsBeforeBreak && d.breakTimeRemaining <= 0
  {
    if d.tripsSinceLastBreak < MinTripsBeforeBreak then Some(NotEnoughTrips)
    else if d.breakTimeRemaining <= 0 then Some(NoBreakTimeRemaining)
    else None
  }

  /** The driver row once a break has started at `now`. */
  function OnBreakRow(d: Driver, now: Instant): (r: Driver)
    ensures r.status == OnBreak && r.breakStartTime == Some(now)
    ensures r.currentBreakNumber == d.currentBreakNumber + 1
    ensures r == d.(status := OnBreak, breakStartTime := Some(now), currentBreakNumber := r.currentBreakNumber)
  {
    d.(status := OnBreak, breakStartTime := Some(now), currentBreakNumber := d.currentBreakNumber + 1)
  }

  /** The log a break started at `now` opens: numbered like the break, on the date of `now`, still open. */
  function OpenedLog(id: Id, d: Driver, now: Instant): (b: BreakLog)
    ensures b.driverId == d.id && b.startTime == now && b.shiftDate == DateOf(now)
    ensures b.breakNumber == d.currentBreakNumber
    ensures b.endTime.None? && b.durationMinutes.None?
  {
    BreakLog(id, d.id, DateOf(now), d.currentBreakNumber, now, None, None)
  }

  /** The status is never consulted: a driver already on break (or off duty) starts a break like an active one. */
  lemma StartIgnoresStatus(d: Driver, status: DriverStatus)
    ensures StartCheck(d.(status := status)) == StartCheck(d)
  {
  }

  /** A started break keeps the trip counter and the budget; only a later `end_break` spends it. */
  lemma StartKeepsBudget(d: Driver, now: Instant)
    ensures OnBreakRow(d, now).tripsSinceLastBreak == d.tripsSinceLastBreak
    ensures OnBreakRow(d, now).breakTimeRemaining == d.breakTimeRemaining
    ensures OnBreakRow(d, now).totalBreakTimeToday == d.totalBreakTimeToday
  {
  }

  /** A driver row with the column defaults has the whole budget but must drive a trip before a break. */
  lemma FreshDriverMustDriveFirst(id: Id, userId: Id)
    ensures GetBreakStatus(NewDriver(id, userId)) == BreakStatus(60, 0, 0, false)
    ensures StartCheck(NewDriver(id, userId)) == Some(NotEnoughTrips)
  {
  }

  /**
   * `start_break`: checks the trip count, then the budget; on success puts
   * the driver ON_BREAK from `now`, opens a BreakLog numbered with the new
   * break number, and audits the start. A failure changes nothing.
   */
  method StartBreak(db: Store, i: nat, now: Instant) returns (r: Result<BreakLog, BreakError>)
    requires db.Valid() && i < |db.drivers|
    modifies db
    ensures db.Valid()
    ensures StartCheck(old(db.drivers[i])).Some? ==>
      r == Failure(StartCheck(old(db.drivers[i])).value) && unchanged(db)
    ensures StartCheck(old(db.drivers[i])).None? ==>
      && r.Success?
      && db.drivers == old(db.drivers)[i := OnBreakRow(old(db.drivers[i]), now)]
      && r.value == OpenedLog(old(db.nextBreakLogId), OnBreakRow(old(db.drivers[i]), now), now)
      && db.breakLogs == old(db.breakLogs) + [r.value]
      && db.nextBreakLogId == old(db.nextBreakLogId) + 1
      && db.events == old(db.events) + [Audit(old(db.drivers[i]).userId, "START_BREAK", "Driver", old(db.drivers[i]).id, NoValues)]
    ensures db.routes == old(db.routes) && db.vehicles == old(db.vehicles) && db.assignments == old(db.assignments)
    ensures db.trips == old(db.trips) && db.tickets == old(db.tickets) && db.requests == old(db.requests)
    ensures db.gpsRows == old(db.gpsRows) && db.exchanges == old(db.exchanges)
    ensures db.nextAssignmentId == old(db.nextAssignmentId) && db.nextTripId == old(db.nextTripId)
    ensures db.nextTicketId == old(db.nextTicketId) && db.nextRequestId == old(db.nextRequestId)
  {
    var driver := db.drivers[i];
    if driver.tripsSinceLastBreak < MinTripsBeforeBreak {
      return Failure(NotEnoughTrips);
    }
    if driver.breakTimeRemaining <= 0 {
      return Failure(NoBreakTimeRemaining);
    }
    var started := OnBreakRow(driver, now);
    var log := OpenedLog(db.nextBreakLogId, started, now);
    InsertFresh(db.breakLogs, log, BreakLogId, db.nextBreakLogId);
    db.SetDriver(i, started);
    db.breakLogs := db.breakLogs + [log];
    db.nextBreakLogId := db.nextBreakLogId + 1;
    db.events := db.events + [Audit(driver.userId, "START_BREAK", "Driver", driver.id, NoValues)];
    return Success(log);
  }

  // ---------------------------------------------------------------------
  // Ending a break
  // ---------------------------------------------------------------------

  /** An open break log of driver `driverId`. */
  predicate IsOpenLogOf(b: BreakLog, driverId: Id) {
    b.driverId == driverId && b.endTime.None?
  }

  /**
   * The row `SELECT ... WHERE driver_id = d AND end_time IS NULL ORDER BY
   * start_time DESC` returns first: an open log of the driver with the
   * latest start. Among logs with the same start the database may return
   * any; the model takes the first in table order.
   */
  function LatestOpenLog(logs: seq<BreakLog>, driverId: Id): (r: Option<nat>)
    ensures r.Some? ==> r.value < |logs| && IsOpenLogOf(logs[r.value], driverId)
    ensures r.Some? ==> forall j :: 0 <= j < |logs| && IsOpenLogOf(logs[j], driverId) ==>
      logs[j].startTime <= logs[r.value].startTime
    ensures r.Some? ==> forall j :: 0 <= j < r.value && IsOpenLogOf(logs[j], driverId) ==>
      logs[j].startTime < logs[r.value].startTime
    ensures r.None? <==> forall j :: 0 <= j < |logs| ==> !IsOpenLogOf(logs[j], driverId)
    decreases |logs|
  {
    if logs == [] then None
    else
      var last := |logs| - 1;
      var prev := LatestOpenLog(logs[..last], driverId);
      if !IsOpenLogOf(logs[last], driverId) then prev
      else if prev.None? || logs[last].startTime > logs[prev.value].startTime then Some(last)
      else prev
  }

  /** The driver row once a break that started at `start` ends at `now`: the elapsed minutes are charged. */
  function EndedRow(d: Driver, start: Instant, now: Instant): (r: Driver)
    ensures r.status == DriverStatus.Active && r.breakStartTime.None? && r.tripsSinceLastBreak == 0
    ensures r.breakTimeRemaining >= 0
    ensures r.totalBreakTimeToday == d.totalBreakTimeToday + (now - start)
    ensures r.id == d.id && r.userId == d.userId && r.currentBreakNumber == d.currentBreakNumber
  {
    var elapsed := now - start;
    d.(status := DriverStatus.Active,
       breakTimeRemaining := Max0(d.breakTimeRemaining - elapsed),
       totalBreakTimeToday := d.totalBreakTimeToday + elapsed,
       breakStartTime := None,
       tripsSinceLastBreak := 0)
  }

  /** Python's `max(0, x)`. */
  function Max0(x: int): int { if x > 0 then x else 0 }

  /** The closed log: its end is `now` and its duration the elapsed minutes. */
  function ClosedLog(b: BreakLog, start: Instant, now: Instant): (c: BreakLog)
    ensures c.endTime == Some(now) && c.durationMinutes == Some(now - start)
    ensures c.id == b.id && c.driverId == b.driverId && c.startTime == b.startTime && c.breakNumber == b.breakNumber
  {
    b.(endTime := Some(now), durationMinutes := Some(now - start))
  }

  /**
   * Ending a break within the budget moves the elapsed minutes from the
   * remaining budget to today's total; an overrun empties the budget and
   * still counts every minute.
   */
  lemma EndChargesElapsed(d: Driver, start: Instant, now: Instant)
    requires d.breakTimeRemaining >= 0
    ensures 0 <= now - start <= d.breakTimeRemaining ==>
      EndedRow(d, start, now).breakTimeRemaining + EndedRow(d, start, now).totalBreakTimeToday
        == d.breakTimeRemaining + d.totalBreakTimeToday
    ensures now - start > d.breakTimeRemaining ==>
      EndedRow(d, start, now).breakTimeRemaining == 0 &&
      EndedRow(d, start, now).totalBreakTimeToday > d.totalBreakTimeToday + d.breakTimeRemaining
    ensures now >= start ==> EndedRow(d, start, now).breakTimeRemaining <= d.breakTimeRemaining
  {
  }

  /**
   * A break that used up the budget leaves none: however many trips the
   * driver completes afterwards, no further break can start.
   */
  lemma SpentBudgetBlocksBreak(d: Driver, start: Instant, now: Instant, trips: int)
    requires now - start >= d.breakTimeRemaining
    requires trips >= MinTripsBeforeBreak
    ensures StartCheck(EndedRow(d, start, now).(tripsSinceLastBreak := trips)) == Some(NoBreakTimeRemaining)
    ensures !GetBreakStatus(EndedRow(d, start, now).(tripsSinceLastBreak := trips)).isEligible
  {
  }

  /** Ending a break resets the trip counter, so a break cannot start again before a trip is driven. */
  lemma EndedDriverMustDriveFirst(d: Driver, start: Instant, now: Instant)
    ensures StartCheck(EndedRow(d, start, now)) == Some(NotEnoughTrips)
  {
  }

  /**
   * `end_break`: refuses a driver who is not ON_BREAK or has no break start;
   * otherwise charges the elapsed minutes to the driver row, closes the
   * driver's latest open log if there is one (no other log changes) and
   * audits the end. A failure changes nothing.
   */
  method EndBreak(db: Store, i: nat, now: Instant) returns (r: Result<Driver, BreakError>)
    requires db.Valid() && i < |db.drivers|
    modifies db
    ensures db.Valid()
    ensures (old(db.drivers[i]).status != OnBreak || old(db.drivers[i]).breakStartTime.None?) ==>
      r == Failure(NotOnBreak) && unchanged(db)
    ensures old(db.drivers[i]).status == OnBreak && old(db.drivers[i]).breakStartTime.Some? ==>
      && r == Success(EndedRow(old(db.drivers[i]), old(db.drivers[i]).breakStartTime.value, now))
      && db.drivers == old(db.drivers)[i := r.value]
      && db.breakLogs == ClosedLogs(old(db.breakLogs), old(db.drivers[i]).id, old(db.drivers[i]).breakStartTime.value, now)
      && db.events == old(db.events) + [Audit(old(db.drivers[i]).userId, "END_BREAK", "Driver", old(db.drivers[i]).id, NoValues)]
      && db.nextBreakLogId == old(db.nextBreakLogId)
    ensures db.routes == old(db.routes) && db.vehicles == old(db.vehicles) && db.assignments == old(db.assignments)
    ensures db.trips == old(db.trips) && db.tickets == old(db.tickets) && db.requests == old(db.requests)
    ensures db.gpsRows == old(db.gpsRows) && db.exchanges == old(db.exchanges)
    ensures db.nextAssignmentId == old(db.nextAssignmentId) && db.nextTripId == old(db.nextTripId)
    ensures db.nextTicketId == old(db.nextTicketId) && db.nextRequestId == old(db.nextRequestId)
  {
    var driver := db.drivers[i];
    if driver.status != OnBreak || driver.breakStartTime.None? {
      return Failure(NotOnBreak);
    }
    var start := driver.breakStartTime.value;
    var ended := EndedRow(driver, start, now);
    db.SetDriver(i, ended);
    var k := LatestOpenLog(db.breakLogs, driver.id);
    if k.Some? {
      db.SetBreakLog(k.value, ClosedLog(db.breakLogs[k.value], start, now));
    }
    db.events := db.events + [Audit(driver.userId, "END_BREAK", "Driver", driver.id, NoValues)];
    return Success(ended);
  }

  /** The break log table after `end_break` for a driver whose break started at `start`. */
  function ClosedLogs(logs: seq<BreakLog>, driverId: Id, start: Instant, now: Instant): (r: seq<BreakLog>)
    ensures |r| == |logs|
    ensures forall j :: 0 <= j < |logs| && LatestOpenLog(logs, driverId) != Some(j) ==> r[j] == logs[j]
  {
    match LatestOpenLog(logs, driverId)
    case None => logs
    case Some(k) => logs[k := ClosedLog(logs[k], start, now)]
  }

  /** After `end_break` the driver's latest open log `k` is closed at `now`, charged with the elapsed minutes. */
  lemma EndClosesLatestOpenLog(logs: seq<BreakLog>, driverId: Id, start: Instant, now: Instant, k: nat)
    requires LatestOpenLog(logs, driverId) == Some(k)
    ensures !IsOpenLogOf(ClosedLogs(logs, driverId, start, now)[k], driverId)
    ensures ClosedLogs(logs, driverId, start, now)[k].endTime == Some(now)
    ensures ClosedLogs(logs, driverId, start, now)[k].durationMinutes == Some(now - start)
    ensures ClosedLogs(logs, driverId, start, now)[k].startTime == logs[k].startTime
  {
  }

  /** Without an open log for the driver, `end_break` leaves the break log table as it is. */
  lemma EndWithoutOpenLog(logs: seq<BreakLog>, driverId: Id, start: Instant, now: Instant)
    requires forall j :: 0 <= j < |logs| ==> !IsOpenLogOf(logs[j], driverId)
    ensures ClosedLogs(logs, driverId, start, now) == logs
  {
  }

  /**
   * Nothing stops a second `start_break` while a break is running: the
   * ON_BREAK driver is still eligible, and both started breaks leave an open
   * log of the same driver.
   */
  lemma SecondStartOpensSecondLog(d: Driver, now: Instant, later: Instant, id: Id)
    requires Eligible(d)
    ensures StartCheck(OnBreakRow(d, now)).None?
    ensures IsOpenLogOf(OpenedLog(id, OnBreakRow(d, now), now), d.id)
    ensures IsOpenLogOf(OpenedLog(id + 1, OnBreakRow(OnBreakRow(d, now), later), later), d.id)
    ensures OpenedLog(id + 1, OnBreakRow(OnBreakRow(d, now), later), later).breakNumber == d.currentBreakNumber + 2
  {
  }
}
