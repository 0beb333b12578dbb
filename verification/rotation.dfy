/**
 * The daily schedule generator of app/services/rotation_service.py.
 *
 * `Generate` is the specification: what one call of `generate_daily_schedule`
 * leaves in the store and returns. It is built from the pieces the source
 * runs in order: the idempotence guard, the regeneration deletes
 * (`ClearDate`), the resource pools, the per-route claim of drivers and
 * vehicles (`Allocate`), the two MORNING assignments per route and the
 * 60-minute dispatch walk (`RouteTrips`). The method `GenerateDailySchedule`
 * runs the source's loops and is proved to agree with `Generate`; the lemmas
 * state what the schedule looks like.
 */
module Rotation {
  import opened Wrappers
  import opened Tables
  import opened Models
  import opened Database

  const ShiftStart: int := 360        // 06:00: start of the MORNING shift and of the walk
  const ShiftEnd: int := 900          // 15:00: end of the MORNING shift
  const WalkEnd: int := 840           // 14:00: no trip of the walk starts at or after this
  const Frequency: int := 60          // minutes between two dispatch cycles (a literal inside products)
  const DriversPerRoute: nat := 3
  const VehiclesPerRoute: nat := 2

  // ---------------------------------------------------------------------
  // Resource pools
  // ---------------------------------------------------------------------

  predicate InDriverPool(d: Driver) { d.status != OffDuty }

  predicate InVehiclePool(v: Vehicle) { v.status != OutOfService }

  predicate IsActiveRoute(r: Route) { r.isActive }

  function DriverPool(drivers: seq<Driver>): seq<Driver> { Filter(drivers, InDriverPool) }

  function VehiclePool(vehicles: seq<Vehicle>): seq<Vehicle> { Filter(vehicles, InVehiclePool) }

  function ActiveRoutes(routes: seq<Route>): seq<Route> { Filter(routes, IsActiveRoute) }

  /** Rows created with their defaults are eligible for the pools. */
  lemma FreshRowsEnterPools(id: Id, userId: Id, name: string, from: string, to: string, estimated: int)
    ensures InDriverPool(NewDriver(id, userId))
    ensures InVehiclePool(NewVehicle(id))
    ensures IsActiveRoute(NewRoute(id, name, from, to, estimated))
    ensures NewRoute(id, name, from, to, estimated).turnaroundTimeMinutes == 10
  {
  }

  /** Python's `s[from:from+n]`: it stops at the end of `s` and never wraps. */
  function Slice<T>(s: seq<T>, from: nat, n: nat): (r: seq<T>)
    ensures |r| == if from >= |s| then 0 else if from + n <= |s| then n else |s| - from
    ensures forall k :: 0 <= k < |r| ==> r[k] == s[from + k]
  {
    if from >= |s| then [] else if from + n <= |s| then s[from..from + n] else s[from..]
  }

  // ---------------------------------------------------------------------
  // Claiming drivers and vehicles route by route
  // ---------------------------------------------------------------------

  /** A processed route with the drivers and vehicles it claimed. */
  datatype Crew = Crew(route: Route, drivers: seq<Driver>, vehicles: seq<Vehicle>)

  /** A processed route claimed two or three drivers and two vehicles. */
  ghost predicate WellFormedCrew(c: Crew) {
    2 <= |c.drivers| <= 3 && |c.vehicles| == 2
  }

  ghost predicate WellFormedCrews(crews: seq<Crew>) {
    forall k :: 0 <= k < |crews| ==> WellFormedCrew(crews[k])
  }

  /**
   * The routes of `routes` that are processed, with their claims, when the
   * driver index starts at `di` and the vehicle index at `vi`. A route whose
   * slices are too short is skipped and does not advance the indices.
   */
  function Allocate(routes: seq<Route>, dpool: seq<Driver>, vpool: seq<Vehicle>, di: nat, vi: nat): (crews: seq<Crew>)
    requires |dpool| > 0 && |vpool| > 0
    ensures |crews| <= |routes|
    ensures WellFormedCrews(crews)
    decreases |routes|
  {
    if routes == [] then []
    else
      var ds := Slice(dpool, di, DriversPerRoute);
      var vs := Slice(vpool, vi, VehiclesPerRoute);
      if |ds| < 2 || |vs| < 2 then Allocate(routes[1..], dpool, vpool, di, vi)
      else [Crew(routes[0], ds, vs)] + Allocate(routes[1..], dpool, vpool, (di + DriversPerRoute) % |dpool|, (vi + VehiclesPerRoute) % |vpool|)
  }

  /** Once a route is skipped, every later route is skipped too: the indices no longer move. */
  lemma {:induction false} SkippedRouteEndsAllocation(routes: seq<Route>, dpool: seq<Driver>, vpool: seq<Vehicle>, di: nat, vi: nat)
    requires |dpool| > 0 && |vpool| > 0
    requires |Slice(dpool, di, DriversPerRoute)| < 2 || |Slice(vpool, vi, VehiclesPerRoute)| < 2
    ensures Allocate(routes, dpool, vpool, di, vi) == []
    decreases |routes|
  {
    if routes != [] {
      SkippedRouteEndsAllocation(routes[1..], dpool, vpool, di, vi);
    }
  }

  /** The processed routes are the first routes, in order. */
  lemma {:induction false} AllocatedRoutesArePrefix(routes: seq<Route>, dpool: seq<Driver>, vpool: seq<Vehicle>, di: nat, vi: nat)
    requires |dpool| > 0 && |vpool| > 0
    ensures forall k :: 0 <= k < |Allocate(routes, dpool, vpool, di, vi)| ==>
      Allocate(routes, dpool, vpool, di, vi)[k].route == routes[k]
    decreases |routes|
  {
    if routes != [] {
      var ds := Slice(dpool, di, DriversPerRoute);
      var vs := Slice(vpool, vi, VehiclesPerRoute);
      if |ds| < 2 || |vs| < 2 {
        SkippedRouteEndsAllocation(routes[1..], dpool, vpool, di, vi);
      } else {
        AllocatedRoutesArePrefix(routes[1..], dpool, vpool, (di + DriversPerRoute) % |dpool|, (vi + VehiclesPerRoute) % |vpool|);
      }
    }
  }

  lemma {:induction false} MulAtLeast(d: int, n: int)
    requires d >= 1 && n > 0
    ensures d * n >= n
    decreases d
  {
    if d > 1 {
      MulAtLeast(d - 1, n);
      assert d * n == (d - 1) * n + n;
    }
  }

  /** Euclidean remainder is determined by any quotient-remainder decomposition. */
  lemma ModUnique(x: int, n: int, q: int, r: int)
    requires n > 0 && 0 <= r < n && x == q * n + r
    ensures x % n == r
  {
    var q0, r0 := x / n, x % n;
    assert x == q0 * n + r0;
    if q > q0 {
      MulAtLeast(q - q0, n);
    } else if q < q0 {
      MulAtLeast(q0 - q, n);
    }
  }

  lemma ModShift(a: int, b: int, n: int)
    requires n > 0
    ensures (a % n + b) % n == (a + b) % n
  {
    var q := a / n;
    var y := a % n + b;
    var qy, ry := y / n, y % n;
    assert y == qy * n + ry;
    assert a + b == (q + qy) * n + ry by {
      assert a == q * n + a % n;
      assert (q + qy) * n == q * n + qy * n;
    }
    ModUnique(a + b, n, q + qy, ry);
  }

  /** Advancing by `step` and then by `step` k - 1 more times, modulo n, is advancing by `step` k times. */
  lemma StepAhead(d: int, step: int, k: int, n: int)
    requires n > 0 && k > 0
    ensures ((d + step) % n + step * (k - 1)) % n == (d + step * k) % n
  {
    ModShift(d + step, step * (k - 1), n);
    assert d + step + step * (k - 1) == d + step * k;
  }

  /**
   * Round robin: the k-th processed route claims the pool slices that start
   * at 3k and 2k positions past the initial indices, modulo the pool sizes.
   */
  lemma {:induction false} RoundRobinClaims(routes: seq<Route>, dpool: seq<Driver>, vpool: seq<Vehicle>, di: nat, vi: nat, k: nat)
    requires |dpool| > 0 && |vpool| > 0 && di < |dpool| && vi < |vpool|
    requires k < |Allocate(routes, dpool, vpool, di, vi)|
    ensures Allocate(routes, dpool, vpool, di, vi)[k].drivers == Slice(dpool, (di + 3 * k) % |dpool|, DriversPerRoute)
    ensures Allocate(routes, dpool, vpool, di, vi)[k].vehicles == Slice(vpool, (vi + 2 * k) % |vpool|, VehiclesPerRoute)
    decreases |routes|
  {
    var n, m := |dpool|, |vpool|;
    var crews := Allocate(routes, dpool, vpool, di, vi);
    var ds := Slice(dpool, di, DriversPerRoute);
    var vs := Slice(vpool, vi, VehiclesPerRoute);
    if |ds| < 2 || |vs| < 2 {
      assert crews == Allocate(routes[1..], dpool, vpool, di, vi);
      RoundRobinClaims(routes[1..], dpool, vpool, di, vi, k);
    } else {
      var di', vi' := (di + 3) % n, (vi + 2) % m;
      var tail := Allocate(routes[1..], dpool, vpool, di', vi');
      assert crews == [Crew(routes[0], ds, vs)] + tail;
      if k == 0 {
        ModUnique(di, n, 0, di);
        ModUnique(vi, m, 0, vi);
      } else {
        assert crews[k] == tail[k - 1];
        RoundRobinClaims(routes[1..], dpool, vpool, di', vi', k - 1);
        StepAhead(di, 3, k, n);
        StepAhead(vi, 2, k, m);
      }
    }
  }

  // ---------------------------------------------------------------------
  // Rotation assignments
  // ---------------------------------------------------------------------

  /** The assignment of claimed driver and vehicle number `slot` (0 or 1) of a crew. */
  function MorningAssignment(c: Crew, date: int, id: Id, slot: nat): (a: RotationAssignment)
    requires slot < 2 && slot < |c.drivers| && slot < |c.vehicles|
    ensures DateOf(a.shiftStartTime) == date && TimeOfDay(a.shiftStartTime) == ShiftStart
    ensures DateOf(a.shiftEndTime) == date && TimeOfDay(a.shiftEndTime) == ShiftEnd
  {
    AtRoundTrip(date, ShiftStart);
    AtRoundTrip(date, ShiftEnd);
    RotationAssignment(id, c.route.id, c.drivers[slot].id, c.vehicles[slot].id, Morning,
      if slot == 0 then Driver1 else Driver2, date, At(date, ShiftStart), At(date, ShiftEnd), true)
  }

  // ---------------------------------------------------------------------
  // Trip numbers
  // ---------------------------------------------------------------------

  function UpperChar(c: char): char {
    if 'a' <= c <= 'z' then (c as int - 32) as char else c
  }

  /** ASCII upper-casing, character by character. */
  function Upper(s: string): string
    decreases |s|
  {
    if s == [] then [] else [UpperChar(s[0])] + Upper(s[1..])
  }

  /** The first three characters of a route name (fewer if it is shorter), upper-cased. */
  function NamePrefix(name: string): string {
    Upper(if |name| < 3 then name else name[..3])
  }

  function Digit(n: int): char
    requires 0 <= n < 10
  {
    (48 + n) as char
  }

  /** `n` in decimal, zero-padded to `width` digits (its last `width` digits if longer). */
  function Padded(n: nat, width: nat): (r: string)
    ensures |r| == width
    decreases width
  {
    if width == 0 then [] else Padded(n / 10, width - 1) + [Digit(n % 10)]
  }

  /** `strftime('%H%M')`: hours and minutes of the time of day, two digits each. */
  function Hhmm(t: Instant): (r: string)
    ensures |r| == 4
  {
    Padded(TimeOfDay(t) / 60, 2) + Padded(TimeOfDay(t) % 60, 2)
  }

  predicate IsDigit(c: char) { '0' <= c <= '9' }

  /** Reads four digits HHMM back as minutes after midnight. */
  function ParseHhmm(s: string): Option<int> {
    if |s| == 4 && IsDigit(s[0]) && IsDigit(s[1]) && IsDigit(s[2]) && IsDigit(s[3]) then
      Some(600 * (s[0] as int - 48) + 60 * (s[1] as int - 48) + 10 * (s[2] as int - 48) + (s[3] as int - 48))
    else None
  }

  /** The string a trip number is stored as, e.g. "RIV-0600-O". */
  function TripNumber(n: TripNo): (r: string)
    ensures |r| == |NamePrefix(n.routeName)| + 7
    ensures r[|r| - 6..|r| - 2] == Hhmm(n.start) && r[|r| - 1] == n.suffix
  {
    NamePrefix(n.routeName) + "-" + Hhmm(n.start) + "-" + [n.suffix]
  }

  lemma PaddedTwo(n: nat)
    requires n < 100
    ensures Padded(n, 2) == [Digit(n / 10), Digit(n % 10)]
  {
    assert Padded(n / 10, 1) == Padded(n / 100, 0) + [Digit(n / 10 % 10)];
  }

  lemma HhmmRoundTrip(t: Instant)
    ensures ParseHhmm(Hhmm(t)) == Some(TimeOfDay(t))
  {
    var m := TimeOfDay(t);
    var h, mm := m / 60, m % 60;
    PaddedTwo(h);
    PaddedTwo(mm);
    assert Hhmm(t) == [Digit(h / 10), Digit(h % 10), Digit(mm / 10), Digit(mm % 10)];
    assert m == 60 * h + mm;
    assert h == 10 * (h / 10) + h % 10;
    assert mm == 10 * (mm / 10) + mm % 10;
  }

  /**
   * A trip number is the upper-cased name prefix, a dash, the four digits
   * of the start's time of day, a dash and the direction letter.
   */
  lemma TripNumberLayout(n: TripNo)
    ensures |TripNumber(n)| == |NamePrefix(n.routeName)| + 7
    ensures TripNumber(n)[..|NamePrefix(n.routeName)|] == NamePrefix(n.routeName)
    ensures TripNumber(n)[|NamePrefix(n.routeName)|] == '-'
    ensures TripNumber(n)[|NamePrefix(n.routeName)| + 5] == '-'
    ensures TripNumber(n)[|NamePrefix(n.routeName)| + 6] == n.suffix
    ensures ParseHhmm(TripNumber(n)[|NamePrefix(n.routeName)| + 1..|NamePrefix(n.routeName)| + 5]) == Some(TimeOfDay(n.start))
  {
    var p, s := NamePrefix(n.routeName), TripNumber(n);
    PaddedTwo(TimeOfDay(n.start) / 60);
    PaddedTwo(TimeOfDay(n.start) % 60);
    assert s[|p| + 1..|p| + 5] == Hhmm(n.start);
    HhmmRoundTrip(n.start);
  }

  /** Two trip numbers with equal strings agree on name prefix, time of day and direction letter. */
  lemma TripNumberDetermines(n1: TripNo, n2: TripNo)
    requires TripNumber(n1) == TripNumber(n2)
    ensures NamePrefix(n1.routeName) == NamePrefix(n2.routeName)
    ensures TimeOfDay(n1.start) == TimeOfDay(n2.start)
    ensures n1.suffix == n2.suffix
  {
    TripNumberLayout(n1);
    TripNumberLayout(n2);
    var p1, p2 := NamePrefix(n1.routeName), NamePrefix(n2.routeName);
    assert |p1| == |p2|;
  }

  /**
   * Trip numbers are not unique: routes whose names share an upper-cased
   * prefix, and one route on two dates, produce the same numbers.
   */
  lemma TripNumbersCollide(t: Instant, suffix: char)
    ensures TripNumber(TripNo("Riverside Express", t, suffix)) == TripNumber(TripNo("riverbank", t, suffix))
    ensures TripNumber(TripNo("Riverside Express", t, suffix)) == TripNumber(TripNo("Riverside Express", t + MinutesPerDay, suffix))
  {
    assert "Riverside Express"[..3] == "Riv";
    assert "riverbank"[..3] == "riv";
    assert Upper("Riv") == "RIV" == Upper("riv");
    assert TimeOfDay(t + MinutesPerDay) == TimeOfDay(t);
  }

  /** The first outbound trip of a route called "Riverside Express" is numbered "RIV-0600-O". */
  lemma RiversideFirstNumber(date: int)
    ensures TripNumber(TripNo("Riverside Express", At(date, ShiftStart), 'O')) == "RIV-0600-O"
  {
    AtRoundTrip(date, ShiftStart);
    assert "Riverside Express"[..3] == "Riv";
    assert Upper("Riv") == "RIV";
    assert NamePrefix("Riverside Express") == "RIV";
    PaddedTwo(6);
    PaddedTwo(0);
    assert Hhmm(At(date, ShiftStart)) == "0600";
  }

  // ---------------------------------------------------------------------
  // The dispatch walk
  // ---------------------------------------------------------------------

  /**
   * The trips of one dispatch cycle leaving at `start` under assignment `a`:
   * the outbound trip, then the inbound trip if it leaves before `end`.
   */
  function Cycle(route: Route, a: RotationAssignment, end: Instant, start: Instant, id: Id): seq<Trip> {
    var est := route.estimatedTimeMinutes;
    var out := Trip(id, a.driverId, a.vehicleId, route.id, Some(a.id), Outbound, Scheduled,
      Some(TripNo(route.name, start, 'O')), start, Some(start + est));
    var back := start + est + route.turnaroundTimeMinutes;
    if back < end then
      [out, Trip(id + 1, a.driverId, a.vehicleId, route.id, Some(a.id), Inbound, Scheduled,
        Some(TripNo(route.name, back, 'I')), back, Some(back + est))]
    else [out]
  }

  /**
   * The trips of the cycles leaving at `start`, `start` + 60, ... before
   * `end`; the assignments take turns, `a` first and then `b`.
   */
  function Walk(route: Route, a: RotationAssignment, b: RotationAssignment, end: Instant, start: Instant, id: Id): seq<Trip>
    decreases end - start
  {
    if start >= end then []
    else
      var c := Cycle(route, a, end, start, id);
      c + Walk(route, b, a, end, start + Frequency, id + |c|)
  }

  /** All trips one route gets on `date` from the assignments `a0` and `a1`, numbered from `id`. */
  function RouteTrips(route: Route, a0: RotationAssignment, a1: RotationAssignment, date: int, id: Id): seq<Trip> {
    Walk(route, a0, a1, At(date, WalkEnd), At(date, ShiftStart), id)
  }

  /** One step of the walk: the cycle leaving at `start`, then the walk an hour later with the turns swapped. */
  lemma WalkStep(route: Route, a: RotationAssignment, b: RotationAssignment, end: Instant, start: Instant, id: Id)
    requires start < end
    ensures Walk(route, a, b, end, start, id) ==
      Cycle(route, a, end, start, id) + Walk(route, b, a, end, start + Frequency, id + |Cycle(route, a, end, start, id)|)
  {
  }

  /** The walk stops at `end`. */
  lemma WalkDone(route: Route, a: RotationAssignment, b: RotationAssignment, end: Instant, start: Instant, id: Id)
    requires start >= end
    ensures Walk(route, a, b, end, start, id) == []
  {
  }

  predicate IsOutbound(t: Trip) { t.direction == Outbound }

  /** `t` is the trip of direction `dir` that `route` dispatches at `start` under assignment `a`. */
  ghost predicate DispatchedAt(t: Trip, route: Route, a: RotationAssignment, start: Instant, dir: TripDirection) {
    && t.direction == dir
    && t.routeId == route.id
    && t.rotationAssignmentId == Some(a.id)
    && t.driverId == a.driverId
    && t.vehicleId == a.vehicleId
    && t.status == Scheduled
    && t.scheduledStart == start
    && t.scheduledEnd == Some(start + route.estimatedTimeMinutes)
    && t.tripNumber == Some(TripNo(route.name, start, if dir == Outbound then 'O' else 'I'))
  }

  /** A cycle is its outbound trip, then an inbound trip exactly when that one leaves before `end`. */
  lemma CycleShape(route: Route, a: RotationAssignment, end: Instant, start: Instant, id: Id)
    ensures 1 <= |Cycle(route, a, end, start, id)| <= 2
    ensures |Cycle(route, a, end, start, id)| == 2 <==>
      start + route.estimatedTimeMinutes + route.turnaroundTimeMinutes < end
    ensures DispatchedAt(Cycle(route, a, end, start, id)[0], route, a, start, Outbound)
    ensures Cycle(route, a, end, start, id)[0].id == id
    ensures |Cycle(route, a, end, start, id)| == 2 ==>
      && DispatchedAt(Cycle(route, a, end, start, id)[1], route, a,
           start + route.estimatedTimeMinutes + route.turnaroundTimeMinutes, Inbound)
      && Cycle(route, a, end, start, id)[1].id == id + 1
  {
  }

  /** Trip ids run consecutively from `id`. */
  ghost predicate NumberedFrom(ts: seq<Trip>, id: Id) {
    forall i :: 0 <= i < |ts| ==> ts[i].id == id + i
  }

  lemma NumberedAppend(ts: seq<Trip>, us: seq<Trip>, id: Id)
    requires NumberedFrom(ts, id) && NumberedFrom(us, id + |ts|)
    ensures NumberedFrom(ts + us, id)
  {
    forall i | 0 <= i < |ts + us| ensures (ts + us)[i].id == id + i {
      if i >= |ts| {
        assert (ts + us)[i] == us[i - |ts|];
      }
    }
  }

  /** The walk hands out consecutive ids. */
  lemma {:induction false} WalkIds(route: Route, a: RotationAssignment, b: RotationAssignment, end: Instant, start: Instant, id: Id)
    ensures NumberedFrom(Walk(route, a, b, end, start, id), id)
    decreases end - start
  {
    if start < end {
      var c := Cycle(route, a, end, start, id);
      WalkStep(route, a, b, end, start, id);
      WalkIds(route, b, a, end, start + Frequency, id + |c|);
      CycleShape(route, a, end, start, id);
      assert NumberedFrom(c, id);
      NumberedAppend(c, Walk(route, b, a, end, start + Frequency, id + |c|), id);
    } else {
      WalkDone(route, a, b, end, start, id);
    }
  }

  /**
   * The outbound trips `os` are those of consecutive cycles from `start`:
   * trip j leaves at `start` + 60j, under `a` when j is even and `b` when odd.
   */
  ghost predicate OutboundsFrom(os: seq<Trip>, route: Route, a: RotationAssignment, b: RotationAssignment, start: Instant) {
    forall j :: 0 <= j < |os| ==>
      DispatchedAt(os[j], route, if j % 2 == 0 then a else b, start + 60 * j, Outbound)
  }

  /** The only outbound trip of a cycle is its first. */
  lemma CycleOutbound(route: Route, a: RotationAssignment, end: Instant, start: Instant, id: Id)
    ensures Filter(Cycle(route, a, end, start, id), IsOutbound) == [Cycle(route, a, end, start, id)[0]]
  {
    var c := Cycle(route, a, end, start, id);
    if |c| == 2 {
      assert c == [c[0]] + [c[1]];
      FilterAppend([c[0]], [c[1]], IsOutbound);
    }
  }

  lemma OutboundsCons(x: Trip, os: seq<Trip>, route: Route, a: RotationAssignment, b: RotationAssignment, start: Instant)
    requires DispatchedAt(x, route, a, start, Outbound)
    requires OutboundsFrom(os, route, b, a, start + Frequency)
    ensures OutboundsFrom([x] + os, route, a, b, start)
  {
    var xs := [x] + os;
    forall j | 0 <= j < |xs|
      ensures DispatchedAt(xs[j], route, if j % 2 == 0 then a else b, start + 60 * j, Outbound)
    {
      if j > 0 {
        assert xs[j] == os[j - 1];
        assert start + Frequency + 60 * (j - 1) == start + 60 * j;
      }
    }
  }

  /** A walk over 60n minutes dispatches n outbound trips, one per cycle. */
  lemma {:induction false} WalkOutboundCount(route: Route, a: RotationAssignment, b: RotationAssignment, end: Instant, start: Instant, id: Id, n: nat)
    requires end - start == 60 * n
    ensures |Filter(Walk(route, a, b, end, start, id), IsOutbound)| == n
    decreases n
  {
    if n > 0 {
      var c := Cycle(route, a, end, start, id);
      WalkStep(route, a, b, end, start, id);
      CycleOutbound(route, a, end, start, id);
      WalkOutboundCount(route, b, a, end, start + Frequency, id + |c|, n - 1);
      FilterSplit(Walk(route, a, b, end, start, id), c, Walk(route, b, a, end, start + Frequency, id + |c|), IsOutbound, c[0]);
    } else {
      WalkDone(route, a, b, end, start, id);
    }
  }

  /** Outbound trip j of the walk is the one of the cycle leaving at `start` + 60j. */
  lemma {:induction false} WalkOutbounds(route: Route, a: RotationAssignment, b: RotationAssignment, end: Instant, start: Instant, id: Id)
    ensures OutboundsFrom(Filter(Walk(route, a, b, end, start, id), IsOutbound), route, a, b, start)
    decreases end - start
  {
    if start < end {
      var c := Cycle(route, a, end, start, id);
      var rest := Walk(route, b, a, end, start + Frequency, id + |c|);
      WalkStep(route, a, b, end, start, id);
      CycleShape(route, a, end, start, id);
      CycleOutbound(route, a, end, start, id);
      WalkOutbounds(route, b, a, end, start + Frequency, id + |c|);
      FilterSplit(Walk(route, a, b, end, start, id), c, rest, IsOutbound, c[0]);
      OutboundsCons(c[0], Filter(rest, IsOutbound), route, a, b, start);
    } else {
      WalkDone(route, a, b, end, start, id);
      assert Filter(Walk(route, a, b, end, start, id), IsOutbound) == [];
    }
  }

  /**
   * Each route dispatches exactly 8 outbound trips, hourly from 06:00 to
   * 13:00, under a0, a1, a0, ... in turn.
   */
  lemma OutboundTimetable(route: Route, a0: RotationAssignment, a1: RotationAssignment, date: int, id: Id)
    ensures |Filter(RouteTrips(route, a0, a1, date, id), IsOutbound)| == 8
    ensures OutboundsFrom(Filter(RouteTrips(route, a0, a1, date, id), IsOutbound), route, a0, a1, At(date, ShiftStart))
  {
    WalkOutboundCount(route, a0, a1, At(date, WalkEnd), At(date, ShiftStart), id, 8);
    WalkOutbounds(route, a0, a1, At(date, WalkEnd), At(date, ShiftStart), id);
  }

  /**
   * If the trip at position i is inbound, it directly follows the outbound
   * trip of its cycle, under the same assignment, and leaves one turnaround
   * after that trip arrives, before `end`.
   */
  predicate InboundPairedAt(ts: seq<Trip>, i: int, route: Route, end: Instant) {
    0 <= i < |ts| && ts[i].direction == Inbound ==>
      && 0 < i && ts[i - 1].direction == Outbound
      && ts[i].rotationAssignmentId == ts[i - 1].rotationAssignmentId
      && ts[i].driverId == ts[i - 1].driverId && ts[i].vehicleId == ts[i - 1].vehicleId
      && ts[i].routeId == route.id
      && ts[i].scheduledStart == ts[i - 1].scheduledStart + route.estimatedTimeMinutes + route.turnaroundTimeMinutes
      && ts[i].scheduledEnd == Some(ts[i].scheduledStart + route.estimatedTimeMinutes)
      && ts[i].scheduledStart < end
      && ts[i].tripNumber == Some(TripNo(route.name, ts[i].scheduledStart, 'I'))
      && ts[i].status == Scheduled
  }

  ghost predicate InboundsPaired(ts: seq<Trip>, route: Route, end: Instant) {
    forall i :: 0 <= i < |ts| ==> InboundPairedAt(ts, i, route, end)
  }

  /** The trip after position i is an inbound one. */
  predicate FollowedByInbound(ts: seq<Trip>, i: int) {
    0 <= i && i + 1 < |ts| && ts[i + 1].direction == Inbound
  }

  /** If the trip at position i is outbound, an inbound trip follows it exactly when that one would leave before `end`. */
  predicate InboundFitsAt(ts: seq<Trip>, i: int, route: Route, end: Instant) {
    0 <= i < |ts| && ts[i].direction == Outbound ==>
      (FollowedByInbound(ts, i) <==>
       ts[i].scheduledStart + route.estimatedTimeMinutes + route.turnaroundTimeMinutes < end)
  }

  ghost predicate InboundIffFits(ts: seq<Trip>, route: Route, end: Instant) {
    forall i :: 0 <= i < |ts| ==> InboundFitsAt(ts, i, route, end)
  }

  /** A cycle put in front of a well-paired sequence of trips keeps every inbound trip paired. */
  lemma CycleKeepsInboundsPaired(route: Route, a: RotationAssignment, end: Instant, start: Instant, id: Id, rest: seq<Trip>, ts: seq<Trip>)
    requires ts == Cycle(route, a, end, start, id) + rest
    requires rest != [] ==> rest[0].direction == Outbound
    requires InboundsPaired(rest, route, end)
    ensures InboundsPaired(ts, route, end)
  {
    var c := Cycle(route, a, end, start, id);
    CycleShape(route, a, end, start, id);
    forall i | 0 <= i < |ts| ensures InboundPairedAt(ts, i, route, end) {
      if i >= |c| {
        assert InboundPairedAt(rest, i - |c|, route, end);
        assert ts[i] == rest[i - |c|];
        if i - |c| > 0 {
          assert ts[i - 1] == rest[i - 1 - |c|];
        }
      } else if i == 1 {
        assert ts[0] == c[0] && ts[1] == c[1];
      } else {
        assert ts[0] == c[0];
      }
    }
  }

  /** A cycle put in front of a well-paired sequence of trips keeps the inbound-iff-fits rule. */
  lemma CycleKeepsInboundIffFits(route: Route, a: RotationAssignment, end: Instant, start: Instant, id: Id, rest: seq<Trip>, ts: seq<Trip>)
    requires ts == Cycle(route, a, end, start, id) + rest
    requires rest != [] ==> rest[0].direction == Outbound
    requires InboundIffFits(rest, route, end)
    ensures InboundIffFits(ts, route, end)
  {
    var c := Cycle(route, a, end, start, id);
    CycleShape(route, a, end, start, id);
    forall i | 0 <= i < |ts| ensures InboundFitsAt(ts, i, route, end) {
      if i >= |c| {
        var j := i - |c|;
        assert InboundFitsAt(rest, j, route, end);
        assert ts[i] == rest[j];
        if i + 1 < |ts| {
          assert ts[i + 1] == rest[j + 1];
        }
      } else if i == 0 {
        assert ts[0] == c[0];
        if |c| == 2 {
          assert ts[1] == c[1];
        } else if rest != [] {
          assert ts[1] == rest[0];
        }
      } else {
        assert ts[1] == c[1];
      }
    }
  }

  /** A walk that dispatches anything begins with an outbound trip. */
  lemma WalkStartsOutbound(route: Route, a: RotationAssignment, b: RotationAssignment, end: Instant, start: Instant, id: Id)
    ensures Walk(route, a, b, end, start, id) != [] ==> Walk(route, a, b, end, start, id)[0].direction == Outbound
  {
    if start < end {
      var c := Cycle(route, a, end, start, id);
      WalkStep(route, a, b, end, start, id);
      CycleShape(route, a, end, start, id);
      assert (c + Walk(route, b, a, end, start + Frequency, id + |c|))[0] == c[0];
    }
  }

  lemma {:induction false} WalkInboundsPaired(route: Route, a: RotationAssignment, b: RotationAssignment, end: Instant, start: Instant, id: Id)
    ensures InboundsPaired(Walk(route, a, b, end, start, id), route, end)
    decreases end - start
  {
    if start < end {
      var c := Cycle(route, a, end, start, id);
      var rest := Walk(route, b, a, end, start + Frequency, id + |c|);
      WalkStep(route, a, b, end, start, id);
      WalkInboundsPaired(route, b, a, end, start + Frequency, id + |c|);
      WalkStartsOutbound(route, b, a, end, start + Frequency, id + |c|);
      CycleKeepsInboundsPaired(route, a, end, start, id, rest, Walk(route, a, b, end, start, id));
    } else {
      WalkDone(route, a, b, end, start, id);
    }
  }

  lemma {:induction false} WalkInboundIffFits(route: Route, a: RotationAssignment, b: RotationAssignment, end: Instant, start: Instant, id: Id)
    ensures InboundIffFits(Walk(route, a, b, end, start, id), route, end)
    decreases end - start
  {
    if start < end {
      var c := Cycle(route, a, end, start, id);
      var rest := Walk(route, b, a, end, start + Frequency, id + |c|);
      WalkStep(route, a, b, end, start, id);
      WalkInboundIffFits(route, b, a, end, start + Frequency, id + |c|);
      WalkStartsOutbound(route, b, a, end, start + Frequency, id + |c|);
      CycleKeepsInboundIffFits(route, a, end, start, id, rest, Walk(route, a, b, end, start, id));
    } else {
      WalkDone(route, a, b, end, start, id);
    }
  }

  /**
   * A route's trips start with an outbound trip; every inbound trip is paired
   * with the outbound trip before it, and an outbound trip has an inbound
   * partner exactly when that partner would leave before 14:00.
   */
  lemma WalkPairs(route: Route, a0: RotationAssignment, a1: RotationAssignment, date: int, id: Id)
    ensures RouteTrips(route, a0, a1, date, id) != [] && RouteTrips(route, a0, a1, date, id)[0].direction == Outbound
    ensures InboundsPaired(RouteTrips(route, a0, a1, date, id), route, At(date, WalkEnd))
    ensures InboundIffFits(RouteTrips(route, a0, a1, date, id), route, At(date, WalkEnd))
  {
    var end, start := At(date, WalkEnd), At(date, ShiftStart);
    WalkStep(route, a0, a1, end, start, id);
    WalkStartsOutbound(route, a0, a1, end, start, id);
    WalkInboundsPaired(route, a0, a1, end, start, id);
    WalkInboundIffFits(route, a0, a1, end, start, id);
  }

  // ---------------------------------------------------------------------
  // The whole schedule of a date
  // ---------------------------------------------------------------------

  datatype Generated = Generated(assignments: seq<RotationAssignment>, trips: seq<Trip>)

  /** The trips of a processed route, from its two assignments numbered `aid` and `aid` + 1. */
  function CrewTrips(c: Crew, date: int, aid: Id, tid: Id): seq<Trip>
    requires WellFormedCrew(c)
  {
    RouteTrips(c.route, MorningAssignment(c, date, aid, 0), MorningAssignment(c, date, aid + 1, 1), date, tid)
  }

  /** The assignments and trips created for `crews`, in creation order, numbered from `aid` and `tid`. */
  function BuildAll(crews: seq<Crew>, date: int, aid: Id, tid: Id): (g: Generated)
    requires WellFormedCrews(crews)
    ensures |g.assignments| == 2 * |crews|
    decreases |crews|
  {
    if crews == [] then Generated([], [])
    else
      var ts := CrewTrips(crews[0], date, aid, tid);
      var rest := BuildAll(crews[1..], date, aid + 2, tid + |ts|);
      Generated([MorningAssignment(crews[0], date, aid, 0), MorningAssignment(crews[0], date, aid + 1, 1)] + rest.assignments,
        ts + rest.trips)
  }

  /** The first processed route's assignments and trips come first. */
  lemma BuildAllStep(crews: seq<Crew>, date: int, aid: Id, tid: Id)
    requires WellFormedCrews(crews) && crews != []
    ensures WellFormedCrew(crews[0]) && WellFormedCrews(crews[1..])
    ensures BuildAll(crews, date, aid, tid).trips ==
      CrewTrips(crews[0], date, aid, tid) + BuildAll(crews[1..], date, aid + 2, tid + |CrewTrips(crews[0], date, aid, tid)|).trips
    ensures BuildAll(crews, date, aid, tid).assignments ==
      [MorningAssignment(crews[0], date, aid, 0), MorningAssignment(crews[0], date, aid + 1, 1)]
      + BuildAll(crews[1..], date, aid + 2, tid + |CrewTrips(crews[0], date, aid, tid)|).assignments
  {
  }

  /** Nothing is created for no routes. */
  lemma BuildAllEmpty(date: int, aid: Id, tid: Id)
    ensures BuildAll([], date, aid, tid) == Generated([], [])
  {
  }

  /**
   * Each processed route gets exactly two MORNING assignments on the date,
   * 06:00 to 15:00: DRIVER_1 with its first claimed driver and vehicle,
   * DRIVER_2 with the second ones. The third claimed driver is never used.
   */
  lemma {:induction false} CrewAssignments(crews: seq<Crew>, date: int, aid: Id, tid: Id, k: nat)
    requires WellFormedCrews(crews) && k < |crews|
    ensures BuildAll(crews, date, aid, tid).assignments[2 * k] == MorningAssignment(crews[k], date, aid + 2 * k, 0)
    ensures BuildAll(crews, date, aid, tid).assignments[2 * k + 1] == MorningAssignment(crews[k], date, aid + 2 * k + 1, 1)
    decreases |crews|
  {
    BuildAllStep(crews, date, aid, tid);
    if k > 0 {
      var tid' := tid + |CrewTrips(crews[0], date, aid, tid)|;
      CrewAssignments(crews[1..], date, aid + 2, tid', k - 1);
      var all := BuildAll(crews, date, aid, tid).assignments;
      var rest := BuildAll(crews[1..], date, aid + 2, tid').assignments;
      var pair := [MorningAssignment(crews[0], date, aid, 0), MorningAssignment(crews[0], date, aid + 1, 1)];
      assert all == pair + rest;
      assert crews[1..][k - 1] == crews[k];
      AppendIndex(pair, rest, 2 * k - 2);
      AppendIndex(pair, rest, 2 * k - 1);
    }
  }

  /** Every processed route contributes exactly 8 outbound trips. */
  lemma {:induction false} EightOutboundPerRoute(crews: seq<Crew>, date: int, aid: Id, tid: Id)
    requires WellFormedCrews(crews)
    ensures |Filter(BuildAll(crews, date, aid, tid).trips, IsOutbound)| == 8 * |crews|
    decreases |crews|
  {
    if crews != [] {
      BuildAllStep(crews, date, aid, tid);
      var ts := CrewTrips(crews[0], date, aid, tid);
      var rest := BuildAll(crews[1..], date, aid + 2, tid + |ts|).trips;
      EightOutboundPerRoute(crews[1..], date, aid + 2, tid + |ts|);
      OutboundTimetable(crews[0].route, MorningAssignment(crews[0], date, aid, 0), MorningAssignment(crews[0], date, aid + 1, 1), date, tid);
      FilterAppend(ts, rest, IsOutbound);
    } else {
      BuildAllEmpty(date, aid, tid);
    }
  }

  /** The generated trips carry consecutive ids from `tid`. */
  lemma {:induction false} BuiltTripIds(crews: seq<Crew>, date: int, aid: Id, tid: Id)
    requires WellFormedCrews(crews)
    ensures NumberedFrom(BuildAll(crews, date, aid, tid).trips, tid)
    decreases |crews|
  {
    if crews != [] {
      BuildAllStep(crews, date, aid, tid);
      var ts := CrewTrips(crews[0], date, aid, tid);
      WalkIds(crews[0].route, MorningAssignment(crews[0], date, aid, 0), MorningAssignment(crews[0], date, aid + 1, 1),
        At(date, WalkEnd), At(date, ShiftStart), tid);
      BuiltTripIds(crews[1..], date, aid + 2, tid + |ts|);
      NumberedAppend(ts, BuildAll(crews[1..], date, aid + 2, tid + |ts|).trips, tid);
    } else {
      BuildAllEmpty(date, aid, tid);
    }
  }

  /** When at least one route is processed, the first generated trip is an outbound trip leaving at 06:00 on the date. */
  lemma FirstTripAtSix(crews: seq<Crew>, date: int, aid: Id, tid: Id)
    requires WellFormedCrews(crews) && crews != []
    ensures BuildAll(crews, date, aid, tid).trips != []
    ensures BuildAll(crews, date, aid, tid).trips[0].scheduledStart == At(date, ShiftStart)
    ensures BuildAll(crews, date, aid, tid).trips[0].direction == Outbound
  {
    BuildAllStep(crews, date, aid, tid);
    var a0 := MorningAssignment(crews[0], date, aid, 0);
    var a1 := MorningAssignment(crews[0], date, aid + 1, 1);
    var end, start := At(date, WalkEnd), At(date, ShiftStart);
    WalkStep(crews[0].route, a0, a1, end, start, tid);
    CycleShape(crews[0].route, a0, end, start, tid);
    var c := Cycle(crews[0].route, a0, end, start, tid);
    var ts := CrewTrips(crews[0], date, aid, tid);
    var all := BuildAll(crews, date, aid, tid).trips;
    assert ts[0] == c[0];
    assert all[0] == ts[0];
  }

  // ---------------------------------------------------------------------
  // Regeneration deletes and the uniqueness constraint
  // ---------------------------------------------------------------------

  /** The tables the generator reads and writes. */
  datatype ScheduleState = ScheduleState(
    routes: seq<Route>,
    drivers: seq<Driver>,
    vehicles: seq<Vehicle>,
    assignments: seq<RotationAssignment>,
    trips: seq<Trip>,
    tickets: seq<Ticket>,
    gpsRows: seq<GpsRow>,
    exchanges: seq<DriverExchange>,
    nextAssignmentId: nat,
    nextTripId: nat)

  function View(db: Store): ScheduleState
    reads db
  {
    ScheduleState(db.routes, db.drivers, db.vehicles, db.assignments, db.trips, db.tickets,
      db.gpsRows, db.exchanges, db.nextAssignmentId, db.nextTripId)
  }

  /** The tables and counters of the store that schedule generation never writes. */
  function OtherTables(db: Store): (seq<BreakLog>, seq<MaintenanceRequest>, seq<Event>, nat, nat, nat)
    reads db
  {
    (db.breakLogs, db.requests, db.events, db.nextTicketId, db.nextBreakLogId, db.nextRequestId)
  }

  predicate HasTripsOn(trips: seq<Trip>, date: int) {
    exists t :: t in trips && DateOf(t.scheduledStart) == date
  }

  function OnDate(date: int): Trip -> bool {
    (t: Trip) => DateOf(t.scheduledStart) == date
  }

  function AssignmentIdsOn(assignments: seq<RotationAssignment>, date: int): set<Id> {
    set a | a in assignments && a.shiftDate == date :: a.id
  }

  function TripIdsOn(trips: seq<Trip>, date: int): set<Id> {
    set t | t in trips && DateOf(t.scheduledStart) == date :: t.id
  }

  function TicketKept(tripIds: set<Id>): Ticket -> bool { (x: Ticket) => x.tripId !in tripIds }

  function GpsKept(tripIds: set<Id>): GpsRow -> bool { (g: GpsRow) => g.tripId.None? || g.tripId.value !in tripIds }

  function ExchangeKept(assignmentIds: set<Id>): DriverExchange -> bool {
    (e: DriverExchange) => e.rotationAssignmentId !in assignmentIds
  }

  function TripKept(tripIds: set<Id>): Trip -> bool { (t: Trip) => t.id !in tripIds }

  function AssignmentKept(assignmentIds: set<Id>): RotationAssignment -> bool {
    (a: RotationAssignment) => a.id !in assignmentIds
  }

  /**
   * The regeneration deletes: with the ids of the date's assignments and
   * trips collected first, remove the tickets and GPS rows of those trips,
   * the exchanges of those assignments, then the trips and the assignments.
   */
  function ClearDate(s: ScheduleState, date: int): (r: ScheduleState)
    ensures !HasTripsOn(r.trips, date)
    ensures forall a :: a in r.assignments ==> a.shiftDate != date
    ensures r.routes == s.routes && r.drivers == s.drivers && r.vehicles == s.vehicles
    ensures r.nextAssignmentId == s.nextAssignmentId && r.nextTripId == s.nextTripId
  {
    var assignmentIds := AssignmentIdsOn(s.assignments, date);
    var tripIds := TripIdsOn(s.trips, date);
    FilterMembers(s.trips, TripKept(tripIds));
    FilterMembers(s.assignments, AssignmentKept(assignmentIds));
    s.(tickets := Filter(s.tickets, TicketKept(tripIds)),
       gpsRows := Filter(s.gpsRows, GpsKept(tripIds)),
       exchanges := Filter(s.exchanges, ExchangeKept(assignmentIds)),
       trips := Filter(s.trips, TripKept(tripIds)),
       assignments := Filter(s.assignments, AssignmentKept(assignmentIds)))
  }

  /** An assignment already holds this (route, MORNING, position, date) slot. */
  predicate SlotTaken(existing: seq<RotationAssignment>, routeId: Id, position: RotationPosition, date: int) {
    exists a :: a in existing && AssignmentKey(a) == (routeId, Morning, position, date)
  }

  predicate CrewClashes(c: Crew, existing: seq<RotationAssignment>, date: int) {
    SlotTaken(existing, c.route.id, Driver1, date) || SlotTaken(existing, c.route.id, Driver2, date)
  }

  /**
   * Some processed route's flush would break uix_rotation_assignment: one of
   * its two slots is held by a row of the session, which by then also holds
   * the assignments of the routes processed before it.
   */
  predicate Clashes(crews: seq<Crew>, session: seq<RotationAssignment>, date: int, aid: Id)
    requires WellFormedCrews(crews)
    decreases |crews|
  {
    crews != [] &&
      (CrewClashes(crews[0], session, date) ||
       Clashes(crews[1..], session + [MorningAssignment(crews[0], date, aid, 0), MorningAssignment(crews[0], date, aid + 1, 1)], date, aid + 2))
  }

  /** The store refused an insert: uix_rotation_assignment would be broken. */
  datatype GenerateError = DuplicateAssignment

  datatype Generation = Generation(state: ScheduleState, result: Result<seq<Trip>, GenerateError>)

  /** The session after the created assignments and trips are added to it. */
  function Commit(c: ScheduleState, b: Generated): ScheduleState {
    c.(assignments := c.assignments + b.assignments,
       trips := c.trips + b.trips,
       nextAssignmentId := c.nextAssignmentId + |b.assignments|,
       nextTripId := c.nextTripId + |b.trips|)
  }

  /** What one call of the generator commits and returns. */
  function Generate(s: ScheduleState, date: int, regenerate: bool): (g: Generation)
    ensures g.result.Failure? ==> g.state == s
    ensures g.state.routes == s.routes && g.state.drivers == s.drivers && g.state.vehicles == s.vehicles
    ensures g.result.Success? ==> g.state.nextTripId == s.nextTripId + |g.result.value|
    ensures g.result.Success? ==>
      |g.result.value| <= |g.state.trips| && g.state.trips[|g.state.trips| - |g.result.value|..] == g.result.value
  {
    if HasTripsOn(s.trips, date) && !regenerate then Generation(s, Success([]))
    else
      var c := if regenerate then ClearDate(s, date) else s;
      var dpool, vpool := DriverPool(c.drivers), VehiclePool(c.vehicles);
      if dpool == [] || vpool == [] then Generation(s, Success([]))
      else
        var crews := Allocate(ActiveRoutes(c.routes), dpool, vpool, 0, 0);
        if Clashes(crews, c.assignments, date, c.nextAssignmentId) then Generation(s, Failure(DuplicateAssignment))
        else
          var b := BuildAll(crews, date, c.nextAssignmentId, c.nextTripId);
          Generation(Commit(c, b), Success(b.trips))
  }

  // ---------------------------------------------------------------------
  // Properties of a whole call
  // ---------------------------------------------------------------------

  /** The guard: a date that has trips is left alone unless regeneration is asked for. */
  lemma GuardLeavesDateAlone(s: ScheduleState, date: int)
    requires HasTripsOn(s.trips, date)
    ensures Generate(s, date, false) == Generation(s, Success([]))
  {
  }

  /** Empty driver or vehicle pool: nothing is committed, not even the regeneration deletes. */
  lemma EmptyPoolCommitsNothing(s: ScheduleState, date: int, regenerate: bool)
    requires DriverPool(s.drivers) == [] || VehiclePool(s.vehicles) == []
    ensures Generate(s, date, regenerate) == Generation(s, Success([]))
  {
  }

  lemma SameKeySameRow<T, K>(s: seq<T>, key: T -> K, x: T, y: T)
    requires UniqueOn(s, key) && x in s && y in s && key(x) == key(y)
    ensures x == y
  {
    var i :| 0 <= i < |s| && s[i] == x;
    var j :| 0 <= j < |s| && s[j] == y;
  }

  /**
   * After the regeneration deletes nothing of the date is left: no trip,
   * no assignment, and no ticket, GPS row or exchange of a deleted row.
   * Everything of other dates is kept.
   */
  lemma RegenerationClearsDate(s: ScheduleState, date: int)
    requires UniqueOn(s.trips, TripId)
    requires UniqueOn(s.assignments, AssignmentId)
    ensures forall t :: t in ClearDate(s, date).trips <==> t in s.trips && DateOf(t.scheduledStart) != date
    ensures forall a :: a in ClearDate(s, date).assignments <==> a in s.assignments && a.shiftDate != date
    ensures forall x :: x in ClearDate(s, date).tickets <==> x in s.tickets && x.tripId !in TripIdsOn(s.trips, date)
    ensures forall g :: g in ClearDate(s, date).gpsRows <==>
      g in s.gpsRows && (g.tripId.None? || g.tripId.value !in TripIdsOn(s.trips, date))
    ensures forall e :: e in ClearDate(s, date).exchanges <==>
      e in s.exchanges && e.rotationAssignmentId !in AssignmentIdsOn(s.assignments, date)
  {
    var tripIds, assignmentIds := TripIdsOn(s.trips, date), AssignmentIdsOn(s.assignments, date);
    FilterMembers(s.trips, TripKept(tripIds));
    FilterMembers(s.assignments, AssignmentKept(assignmentIds));
    FilterMembers(s.tickets, TicketKept(tripIds));
    FilterMembers(s.gpsRows, GpsKept(tripIds));
    FilterMembers(s.exchanges, ExchangeKept(assignmentIds));
    forall t | t in s.trips ensures t.id in tripIds <==> DateOf(t.scheduledStart) == date {
      if t.id in tripIds {
        var u :| u in s.trips && DateOf(u.scheduledStart) == date && u.id == t.id;
        SameKeySameRow(s.trips, TripId, t, u);
      }
    }
    forall a | a in s.assignments ensures a.id in assignmentIds <==> a.shiftDate == date {
      if a.id in assignmentIds {
        var b :| b in s.assignments && b.shiftDate == date && b.id == a.id;
        SameKeySameRow(s.assignments, AssignmentId, a, b);
      }
    }
  }

  function CrewRouteId(c: Crew): Id { c.route.id }

  /** Distinct route ids give distinct processed routes. */
  lemma AllocatedRoutesUnique(routes: seq<Route>, dpool: seq<Driver>, vpool: seq<Vehicle>)
    requires |dpool| > 0 && |vpool| > 0 && UniqueOn(routes, RouteId)
    ensures UniqueOn(Allocate(routes, dpool, vpool, 0, 0), CrewRouteId)
  {
    AllocatedRoutesArePrefix(routes, dpool, vpool, 0, 0);
  }

  /**
   * A session none of whose rows of the date belongs to a processed route
   * never clashes, the processed routes being distinct.
   */
  lemma {:induction false} NoClashOnFreeDate(crews: seq<Crew>, session: seq<RotationAssignment>, date: int, aid: Id)
    requires WellFormedCrews(crews) && UniqueOn(crews, CrewRouteId)
    requires forall a, k :: a in session && 0 <= k < |crews| && a.shiftDate == date ==> a.routeId != crews[k].route.id
    ensures !Clashes(crews, session, date, aid)
    decreases |crews|
  {
    if crews != [] {
      var pair := [MorningAssignment(crews[0], date, aid, 0), MorningAssignment(crews[0], date, aid + 1, 1)];
      var tail := crews[1..];
      UniqueOnTail(crews, CrewRouteId);
      forall a, k | a in session + pair && 0 <= k < |tail| && a.shiftDate == date
        ensures a.routeId != tail[k].route.id
      {
        assert tail[k] == crews[k + 1];
        if a in pair {
          assert CrewRouteId(crews[0]) != CrewRouteId(crews[k + 1]);
        }
      }
      NoClashOnFreeDate(tail, session + pair, date, aid + 2);
    }
  }

  /** Regeneration never breaks uix_rotation_assignment: it cannot fail. */
  lemma RegenerationNeverClashes(s: ScheduleState, date: int)
    requires UniqueOn(s.routes, RouteId)
    ensures Generate(s, date, true).result.Success?
  {
    var c := ClearDate(s, date);
    var dpool, vpool := DriverPool(c.drivers), VehiclePool(c.vehicles);
    if dpool != [] && vpool != [] {
      var crews := Allocate(ActiveRoutes(c.routes), dpool, vpool, 0, 0);
      FilterMembers(s.assignments, AssignmentKept(AssignmentIdsOn(s.assignments, date)));
      FilterKeepsUnique(c.routes, IsActiveRoute, RouteId);
      AllocatedRoutesUnique(ActiveRoutes(c.routes), dpool, vpool);
      NoClashOnFreeDate(crews, c.assignments, date, c.nextAssignmentId);
    }
  }

  /**
   * Idempotence: once a call has produced trips, a second call for the same
   * date without regeneration returns nothing and changes nothing.
   */
  lemma SecondCallIsNoOp(s: ScheduleState, date: int, regenerate: bool)
    requires Generate(s, date, regenerate).result.Success? && Generate(s, date, regenerate).result.value != []
    ensures Generate(Generate(s, date, regenerate).state, date, false) ==
      Generation(Generate(s, date, regenerate).state, Success([]))
  {
    var g := Generate(s, date, regenerate);
    var c := if regenerate then ClearDate(s, date) else s;
    var dpool, vpool := DriverPool(c.drivers), VehiclePool(c.vehicles);
    var crews := Allocate(ActiveRoutes(c.routes), dpool, vpool, 0, 0);
    if crews != [] {
      FirstTripAtSix(crews, date, c.nextAssignmentId, c.nextTripId);
      var t := BuildAll(crews, date, c.nextAssignmentId, c.nextTripId).trips[0];
      AtRoundTrip(date, ShiftStart);
      assert t in g.state.trips;
    }
  }

  /** The uniqueness constraints and autoincrement bounds of the tables the generator writes. */
  ghost predicate SessionValid(s: ScheduleState) {
    && AssignmentsUnique(s.assignments) && UniqueOn(s.assignments, AssignmentId)
    && KeysBelow(s.assignments, AssignmentId, s.nextAssignmentId)
    && UniqueOn(s.trips, TripId) && KeysBelow(s.trips, TripId, s.nextTripId)
    && SeatsUnique(s.tickets) && UniqueOn(s.tickets, TicketId)
  }

  /** The regeneration deletes keep every uniqueness constraint and add no row. */
  lemma ClearDateKeepsUnique(s: ScheduleState, date: int)
    requires AssignmentsUnique(s.assignments) && UniqueOn(s.assignments, AssignmentId)
    requires UniqueOn(s.trips, TripId) && SeatsUnique(s.tickets) && UniqueOn(s.tickets, TicketId)
    ensures AssignmentsUnique(ClearDate(s, date).assignments) && UniqueOn(ClearDate(s, date).assignments, AssignmentId)
    ensures UniqueOn(ClearDate(s, date).trips, TripId) && SeatsUnique(ClearDate(s, date).tickets)
    ensures UniqueOn(ClearDate(s, date).tickets, TicketId)
    ensures forall a :: a in ClearDate(s, date).assignments ==> a in s.assignments
    ensures forall t :: t in ClearDate(s, date).trips ==> t in s.trips
    ensures forall x :: x in ClearDate(s, date).tickets ==> x in s.tickets
  {
    var assignmentIds := AssignmentIdsOn(s.assignments, date);
    var tripIds := TripIdsOn(s.trips, date);
    FilterKeepsUnique(s.assignments, AssignmentKept(assignmentIds), AssignmentKey);
    FilterKeepsUnique(s.assignments, AssignmentKept(assignmentIds), AssignmentId);
    FilterKeepsUnique(s.trips, TripKept(tripIds), TripId);
    FilterKeepsUnique(s.tickets, TicketKept(tripIds), SeatKey);
    FilterKeepsUnique(s.tickets, TicketKept(tripIds), TicketId);
    FilterMembers(s.assignments, AssignmentKept(assignmentIds));
    FilterMembers(s.trips, TripKept(tripIds));
    FilterMembers(s.tickets, TicketKept(tripIds));
  }

  /** The created assignments carry the ids `aid`, `aid` + 1, ... in creation order. */
  lemma BuiltAssignmentIds(crews: seq<Crew>, date: int, aid: Id, tid: Id)
    requires WellFormedCrews(crews)
    ensures forall k :: 0 <= k < |BuildAll(crews, date, aid, tid).assignments| ==> BuildAll(crews, date, aid, tid).assignments[k].id == aid + k
  {
    var g := BuildAll(crews, date, aid, tid).assignments;
    forall k | 0 <= k < |g| ensures g[k].id == aid + k {
      CrewAssignments(crews, date, aid, tid, k / 2);
    }
  }

  /**
   * Without a clash every flush succeeds, so the session with all created
   * assignments keeps uix_rotation_assignment.
   */
  lemma {:induction false} NoClashKeepsSlotsUnique(crews: seq<Crew>, session: seq<RotationAssignment>, date: int, aid: Id, tid: Id)
    requires WellFormedCrews(crews) && AssignmentsUnique(session)
    requires !Clashes(crews, session, date, aid)
    ensures AssignmentsUnique(session + BuildAll(crews, date, aid, tid).assignments)
    decreases |crews|
  {
    if crews == [] {
      BuildAllEmpty(date, aid, tid);
      assert session + [] == session;
    } else {
      BuildAllStep(crews, date, aid, tid);
      var pair := [MorningAssignment(crews[0], date, aid, 0), MorningAssignment(crews[0], date, aid + 1, 1)];
      var ts := CrewTrips(crews[0], date, aid, tid);
      var rest := BuildAll(crews[1..], date, aid + 2, tid + |ts|).assignments;
      assert UniqueOn(pair, AssignmentKey);
      UniqueAppend(session, pair, AssignmentKey);
      NoClashKeepsSlotsUnique(crews[1..], session + pair, date, aid + 2, tid + |ts|);
      AppendAssoc(session, pair, rest);
    }
  }

  /** Rows numbered from `id` on, added after rows all below `id`, keep the ids unique. */
  lemma NumberedAfter<T>(s: seq<T>, t: seq<T>, key: T -> Id, id: Id)
    requires UniqueOn(s, key) && KeysBelow(s, key, id)
    requires forall k :: 0 <= k < |t| ==> key(t[k]) == id + k
    ensures UniqueOn(s + t, key)
    ensures KeysBelow(s + t, key, id + |t|)
  {
    forall x, y | x in s && y in t ensures key(x) != key(y) {
      var i :| 0 <= i < |s| && s[i] == x;
      var k :| 0 <= k < |t| && t[k] == y;
      assert key(s[i]) < id;
    }
    UniqueAppend(s, t, key);
    var u := s + t;
    forall i | 0 <= i < |u| ensures key(u[i]) < id + |t| {
      if i < |s| {
        assert u[i] == s[i] && key(s[i]) < id;
      } else {
        assert u[i] == t[i - |s|];
      }
    }
  }

  /**
   * Every call keeps uix_rotation_assignment, the primary keys of the
   * assignments and trips, the ticket seats and the autoincrement bounds,
   * and never touches the routes, drivers or vehicles or adds a ticket.
   */
  lemma GenerateKeepsValid(s: ScheduleState, date: int, regenerate: bool, ticketBound: int)
    requires SessionValid(s)
    requires KeysBelow(s.tickets, TicketId, ticketBound)
    ensures SessionValid(Generate(s, date, regenerate).state)
    ensures Generate(s, date, regenerate).state.routes == s.routes
    ensures Generate(s, date, regenerate).state.drivers == s.drivers
    ensures Generate(s, date, regenerate).state.vehicles == s.vehicles
    ensures KeysBelow(Generate(s, date, regenerate).state.tickets, TicketId, ticketBound)
  {
    if !HasTripsOn(s.trips, date) || regenerate {
      var c := if regenerate then ClearDate(s, date) else s;
      if regenerate {
        ClearDateKeepsUnique(s, date);
        KeysBelowSubset(c.assignments, s.assignments, AssignmentId, s.nextAssignmentId);
        KeysBelowSubset(c.trips, s.trips, TripId, s.nextTripId);
        KeysBelowSubset(c.tickets, s.tickets, TicketId, ticketBound);
      }
      assert SessionValid(c);
      var dpool, vpool := DriverPool(c.drivers), VehiclePool(c.vehicles);
      if dpool != [] && vpool != [] {
        var crews := Allocate(ActiveRoutes(c.routes), dpool, vpool, 0, 0);
        if !Clashes(crews, c.assignments, date, c.nextAssignmentId) {
          var b := BuildAll(crews, date, c.nextAssignmentId, c.nextTripId);
          NoClashKeepsSlotsUnique(crews, c.assignments, date, c.nextAssignmentId, c.nextTripId);
          BuiltAssignmentIds(crews, date, c.nextAssignmentId, c.nextTripId);
          NumberedAfter(c.assignments, b.assignments, AssignmentId, c.nextAssignmentId);
          BuiltTripIds(crews, date, c.nextAssignmentId, c.nextTripId);
          NumberedAfter(c.trips, b.trips, TripId, c.nextTripId);
        }
      }
    }
  }

  // ---------------------------------------------------------------------
  // The generator
  // ---------------------------------------------------------------------

  /** One pass of the loop body: the outbound trip, and the return trip when it leaves before `endTime`. */
  method DispatchCycle(route: Route, active: RotationAssignment, endTime: Instant, current: Instant, nextId: Id)
    returns (c: seq<Trip>)
    ensures c == Cycle(route, active, endTime, current, nextId)
  {
    var est := route.estimatedTimeMinutes;
    var out := Trip(nextId, active.driverId, active.vehicleId, route.id, Some(active.id), Outbound, Scheduled,
      Some(TripNo(route.name, current, 'O')), current, Some(current + est));
    c := [out];
    var returnStart := current + est + route.turnaroundTimeMinutes;
    if returnStart < endTime {
      var back := Trip(nextId + 1, active.driverId, active.vehicleId, route.id, Some(active.id), Inbound, Scheduled,
        Some(TripNo(route.name, returnStart, 'I')), returnStart, Some(returnStart + est));
      c := c + [back];
    }
  }

  /** The while loop of one route: walk from 06:00 to 14:00 in 60-minute steps, the two assignments taking turns. */
  method SequenceRouteTrips(route: Route, pair: seq<RotationAssignment>, targetDate: int, firstId: Id)
    returns (ts: seq<Trip>)
    requires |pair| == 2
    ensures ts == RouteTrips(route, pair[0], pair[1], targetDate, firstId)
  {
    var endTime := At(targetDate, WalkEnd);
    var current := At(targetDate, ShiftStart);
    var toggle := 0;
    var nextId := firstId;
    ts := [];
    while current < endTime
      invariant toggle == 0 || toggle == 1
      invariant nextId == firstId + |ts|
      invariant ts + Walk(route, pair[toggle], pair[1 - toggle], endTime, current, nextId) ==
        RouteTrips(route, pair[0], pair[1], targetDate, firstId)
      decreases endTime - current
    {
      var active := pair[toggle];
      ghost var other := pair[1 - toggle];
      WalkStep(route, active, other, endTime, current, nextId);
      var cycle := DispatchCycle(route, active, endTime, current, nextId);
      ghost var after := Walk(route, other, active, endTime, current + Frequency, nextId + |cycle|);
      AppendAssoc(ts, cycle, after);
      ts := ts + cycle;
      nextId := nextId + |cycle|;
      toggle := 1 - toggle;
      current := current + Frequency;
    }
    WalkDone(route, pair[toggle], pair[1 - toggle], endTime, current, nextId);
  }

  /** The regeneration deletes, run in the session before anything is committed. */
  method DeleteDateRows(s: ScheduleState, targetDate: int) returns (c: ScheduleState)
    ensures c == ClearDate(s, targetDate)
  {
    var assignmentIds := AssignmentIdsOn(s.assignments, targetDate);
    var tripIds := TripIdsOn(s.trips, targetDate);
    c := s;
    if tripIds != {} {
      c := c.(tickets := Filter(c.tickets, TicketKept(tripIds)), gpsRows := Filter(c.gpsRows, GpsKept(tripIds)));
    } else {
      FilterKeepsAll(s.tickets, TicketKept(tripIds));
      FilterKeepsAll(s.gpsRows, GpsKept(tripIds));
    }
    if assignmentIds != {} {
      c := c.(exchanges := Filter(c.exchanges, ExchangeKept(assignmentIds)));
    } else {
      FilterKeepsAll(s.exchanges, ExchangeKept(assignmentIds));
    }
    if tripIds != {} {
      c := c.(trips := Filter(c.trips, TripKept(tripIds)));
    } else {
      FilterKeepsAll(s.trips, TripKept(tripIds));
    }
    if assignmentIds != {} {
      c := c.(assignments := Filter(c.assignments, AssignmentKept(assignmentIds)));
    } else {
      FilterKeepsAll(s.assignments, AssignmentKept(assignmentIds));
    }
  }

  /** `zip(route_drivers[:2], route_vehicles)`: the DRIVER_1 and DRIVER_2 assignments of a processed route. */
  method PairAssignments(crew: Crew, targetDate: int, firstId: Id) returns (pair: seq<RotationAssignment>)
    requires WellFormedCrew(crew)
    ensures pair == [MorningAssignment(crew, targetDate, firstId, 0), MorningAssignment(crew, targetDate, firstId + 1, 1)]
  {
    pair := [];
    for slot := 0 to 2
      invariant |pair| == slot
      invariant forall q :: 0 <= q < slot ==> pair[q] == MorningAssignment(crew, targetDate, firstId + q, q)
    {
      var a := RotationAssignment(firstId + slot, crew.route.id, crew.drivers[slot].id, crew.vehicles[slot].id, Morning,
        if slot == 0 then Driver1 else Driver2, targetDate, At(targetDate, ShiftStart), At(targetDate, ShiftEnd), true);
      pair := pair + [a];
    }
  }

  /**
   * One processed route: its two assignments, the flush (the store refuses
   * an assignment whose slot another assignment in the session holds) and,
   * when the flush succeeds, its dispatch walk.
   */
  method ProcessRoute(crew: Crew, targetDate: int, session: seq<RotationAssignment>, nextA: Id, nextT: Id)
    returns (r: Result<Generated, GenerateError>)
    requires WellFormedCrew(crew)
    ensures CrewClashes(crew, session, targetDate) ==> r == Failure(DuplicateAssignment)
    ensures !CrewClashes(crew, session, targetDate) ==> r == Success(Generated(
      [MorningAssignment(crew, targetDate, nextA, 0), MorningAssignment(crew, targetDate, nextA + 1, 1)],
      CrewTrips(crew, targetDate, nextA, nextT)))
  {
    var pair := PairAssignments(crew, targetDate, nextA);
    var taken := exists x :: x in session && (AssignmentKey(x) == AssignmentKey(pair[0]) || AssignmentKey(x) == AssignmentKey(pair[1]));
    if taken {
      return Failure(DuplicateAssignment);
    }
    var routeTrips := SequenceRouteTrips(crew.route, pair, targetDate, nextT);
    return Success(Generated(pair, routeTrips));
  }

  /**
   * What the route loop has built so far: the rows added up to now,
   * followed by what the crews still to be processed would add, are the
   * rows the whole loop builds.
   */
  ghost predicate Built(built: Generated, added: seq<RotationAssignment>, generated: seq<Trip>,
      remaining: seq<Crew>, date: int, aid: Id, tid: Id)
  {
    && WellFormedCrews(remaining)
    && built.trips == generated + BuildAll(remaining, date, aid, tid).trips
    && built.assignments == added + BuildAll(remaining, date, aid, tid).assignments
  }

  /**
   * One pass of the route loop: after the first remaining crew's pair and
   * trips are appended, the loop invariants hold for the rest of the crews.
   */
  lemma {:induction false} ScheduleStep(remaining: seq<Crew>, existing: seq<RotationAssignment>,
      added: seq<RotationAssignment>, generated: seq<Trip>, date: int, aid: Id, tid: Id,
      pair: seq<RotationAssignment>, ts: seq<Trip>, built: Generated)
    requires WellFormedCrews(remaining) && remaining != []
    requires pair == [MorningAssignment(remaining[0], date, aid, 0), MorningAssignment(remaining[0], date, aid + 1, 1)]
    requires ts == CrewTrips(remaining[0], date, aid, tid)
    requires !CrewClashes(remaining[0], existing + added, date)
    requires Built(built, added, generated, remaining, date, aid, tid)
    ensures Built(built, added + pair, generated + ts, remaining[1..], date, aid + 2, tid + |ts|)
    ensures Clashes(remaining, existing + added, date, aid) <==>
      Clashes(remaining[1..], existing + (added + pair), date, aid + 2)
  {
    BuildAllStep(remaining, date, aid, tid);
    var rest := BuildAll(remaining[1..], date, aid + 2, tid + |ts|);
    AppendAssoc(existing, added, pair);
    AppendAssoc(added, pair, rest.assignments);
    AppendAssoc(generated, ts, rest.trips);
  }

  /**
   * The for loop over the active routes: claim the pool slices, add the two
   * assignments (the flush fails on a taken slot), walk the route. Returns
   * what the loop added to the session, which `BuildAll` specifies.
   */
  method ScheduleRoutes(routes: seq<Route>, allDrivers: seq<Driver>, allVehicles: seq<Vehicle>, targetDate: int,
      existing: seq<RotationAssignment>, firstA: Id, firstT: Id)
    returns (r: Result<Generated, GenerateError>)
    requires |allDrivers| > 0 && |allVehicles| > 0
    ensures Clashes(Allocate(routes, allDrivers, allVehicles, 0, 0), existing, targetDate, firstA) ==> r == Failure(DuplicateAssignment)
    ensures !Clashes(Allocate(routes, allDrivers, allVehicles, 0, 0), existing, targetDate, firstA) ==>
      r == Success(BuildAll(Allocate(routes, allDrivers, allVehicles, 0, 0), targetDate, firstA, firstT))
  {
    ghost var crews := Allocate(routes, allDrivers, allVehicles, 0, 0);
    ghost var built := BuildAll(crews, targetDate, firstA, firstT);
    var added: seq<RotationAssignment>, generated: seq<Trip> := [], [];
    var driverIdx: nat, vehicleIdx: nat := 0, 0;
    var nextA: nat, nextT: nat := firstA, firstT;
    ghost var remaining := crews;
    assert existing + added == existing;
    assert Built(built, added, generated, remaining, targetDate, nextA, nextT) by {
      assert [] + built.trips == built.trips && [] + built.assignments == built.assignments;
    }

    for i := 0 to |routes|
      invariant driverIdx < |allDrivers| && vehicleIdx < |allVehicles|
      invariant remaining == Allocate(routes[i..], allDrivers, allVehicles, driverIdx, vehicleIdx)
      invariant Clashes(crews, existing, targetDate, firstA) <==> Clashes(remaining, existing + added, targetDate, nextA)
      invariant Built(built, added, generated, remaining, targetDate, nextA, nextT)
    {
      assert routes[i..][1..] == routes[i + 1..];
      var route := routes[i];
      var routeDrivers := Slice(allDrivers, driverIdx, DriversPerRoute);
      var routeVehicles := Slice(allVehicles, vehicleIdx, VehiclesPerRoute);
      if |routeDrivers| < 2 || |routeVehicles| < 2 {
        continue;
      }
      driverIdx := (driverIdx + DriversPerRoute) % |allDrivers|;
      vehicleIdx := (vehicleIdx + VehiclesPerRoute) % |allVehicles|;
      var crew := Crew(route, routeDrivers, routeVehicles);
      assert remaining == [crew] + Allocate(routes[i + 1..], allDrivers, allVehicles, driverIdx, vehicleIdx);
      assert remaining[1..] == Allocate(routes[i + 1..], allDrivers, allVehicles, driverIdx, vehicleIdx);

      var step := ProcessRoute(crew, targetDate, existing + added, nextA, nextT);
      if step.Failure? {
        return Failure(DuplicateAssignment);
      }
      var pair, routeTrips := step.value.assignments, step.value.trips;
      ScheduleStep(remaining, existing, added, generated, targetDate, nextA, nextT, pair, routeTrips, built);
      added := added + pair;
      generated := generated + routeTrips;
      nextA := nextA + 2;
      nextT := nextT + |routeTrips|;
      remaining := remaining[1..];
    }
    assert routes[|routes|..] == [];
    assert remaining == [];
    assert !Clashes(crews, existing, targetDate, firstA);
    BuildAllEmpty(targetDate, nextA, nextT);
    assert built.trips == generated && built.assignments == added;
    return Success(Generated(added, generated));
  }

  /**
   * The body of `generate_daily_schedule` on the session's copy of the
   * tables: the guard, the regeneration deletes, the pools and the route
   * loop. The returned state is what the commit writes.
   */
  method RunGeneration(s: ScheduleState, targetDate: int, regenerate: bool) returns (g: Generation)
    ensures g == Generate(s, targetDate, regenerate)
  {
    // 1. The guard counts the trips that start on the date.
    var existing := |Filter(s.trips, OnDate(targetDate))|;
    assert existing > 0 <==> HasTripsOn(s.trips, targetDate) by {
      var on := Filter(s.trips, OnDate(targetDate));
      FilterMembers(s.trips, OnDate(targetDate));
      if existing > 0 { assert on[0] in on; }
    }
    if existing > 0 && !regenerate {
      return Generation(s, Success([]));
    }

    // Regeneration deletes, kept in the session until the commit.
    var session := s;
    if regenerate {
      session := DeleteDateRows(s, targetDate);
    }
    assert session == if regenerate then ClearDate(s, targetDate) else s;

    // 2-3. The pools.
    var routes := ActiveRoutes(session.routes);
    var allDrivers := DriverPool(session.drivers);
    var allVehicles := VehiclePool(session.vehicles);
    if |allDrivers| == 0 || |allVehicles| == 0 {
      return Generation(s, Success([]));
    }
    var outcome := ScheduleRoutes(routes, allDrivers, allVehicles, targetDate,
      session.assignments, session.nextAssignmentId, session.nextTripId);
    if outcome.Failure? {
      return Generation(s, Failure(DuplicateAssignment));
    }

    // The commit.
    var b := outcome.value;
    return Generation(Commit(session, b), Success(b.trips));
  }

  /** Writes a session's schedule tables back to the store; the routes, drivers and vehicles are not written. */
  method WriteBack(db: Store, next: ScheduleState)
    requires next.routes == db.routes && next.drivers == db.drivers && next.vehicles == db.vehicles
    modifies db
    ensures View(db) == next
    ensures OtherTables(db) == old(OtherTables(db))
  {
    db.assignments, db.trips, db.tickets, db.gpsRows, db.exchanges :=
      next.assignments, next.trips, next.tickets, next.gpsRows, next.exchanges;
    db.nextAssignmentId, db.nextTripId := next.nextAssignmentId, next.nextTripId;
  }

  /** `generate_daily_schedule(db, target_date, regenerate)`: runs in a session, then commits. */
  method GenerateDailySchedule(db: Store, targetDate: int, regenerate: bool)
    returns (r: Result<seq<Trip>, GenerateError>)
    requires db.Valid()
    modifies db
    ensures db.Valid()
    ensures View(db) == Generate(old(View(db)), targetDate, regenerate).state
    ensures r == Generate(old(View(db)), targetDate, regenerate).result
    ensures OtherTables(db) == old(OtherTables(db))
  {
    ghost var s := View(db);
    var g := RunGeneration(View(db), targetDate, regenerate);
    GenerateKeepsValid(s, targetDate, regenerate, db.nextTicketId);
    WriteBack(db, g.state);
    r := g.result;
  }
}
