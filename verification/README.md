# Bus rotation scheduler — a verified model

This project models the core of a bus operations back end: the daily
schedule generator that turns active routes, drivers and vehicles into
rotation assignments and timed trips; the driver break state machine; the
maintenance request workflow; and the administrative endpoints that issue
tickets, soft-delete drivers, vehicles and routes, list trips with their
origin and destination, and force a schedule generation. The database is
modelled as one class, `Database.Store`, holding a sequence per table,
the autoincrement counters, and the audit records and notifications the
services emit (`Database.Event`).

Files:

- `tables.dfy`: modules `Wrappers` (Option, Result) and `Tables`, which cover filters, key lookups, uniqueness constraints and fresh keys.
- `models.dfy`: module `Models`, which holds the entities and enumerations with their defaults and uniqueness constraints.
- `store.dfy`: module `Database`, which holds the store, its integrity predicate `Valid` and single-row updates.
- `rotation.dfy`: module `Rotation`, which models `generate_daily_schedule`.
- `breaks.dfy`: module `Breaks`, which models `get_break_status`, `start_break` and `end_break`.
- `maintenance.dfy`: module `Maintenance`, which models the creation, approval and rejection of maintenance requests.
- `admin.dfy`: module `Admin`, which models ticket issuance, the soft deletes, the trip list and the forced generation message.

Times are whole minutes on one clock (`Models.Instant`). `DateOf(t)` is the date of `t`, and `At(d, m)` is minute `m` of date `d`. So 06:00, 14:00 and 15:00 of the target date are `At(d, 360)`, `At(d, 840)` and `At(d, 900)`.

The generator is specified by the function `Rotation.Generate`, which gives the committed state and the returned trips. The imperative `Rotation.GenerateDailySchedule` runs:

1. the guard;
2. the regeneration deletes;
3. the route loop with its two rotating indices;
4. the 60-minute walk with its `driver_toggle`.

It is proved to commit exactly `Generate`'s state and to return its trips. The properties are lemmas about `Generate` and its parts.

## Model

| member | source | states |
|---|---|---|
| Models.StopAt | app/models/models.py:185 | The stop found for (route, order) carries that key; none found means no stop has it |
| Models.StopAtUnique | app/models/models.py:185 | Under uix_route_stop_order a stop is found again by its own (route, order) key |
| Models.AssignmentSlotUnique | app/models/models.py:203 | Under uix_rotation_assignment two assignments with the same (route, shift, position, date) are the same row |
| Rotation.FreshRowsEnterPools | app/models/models.py:105-172 | Rows created with the column defaults are in the pools: driver ACTIVE, vehicle FREE, route active, turnaround 10 |
| Rotation.MorningAssignment | app/services/rotation_service.py:85-98 | A created assignment runs from 06:00 to 15:00 of the target date |
| Rotation.Slice | app/services/rotation_service.py:75-76 | Python slicing `s[i:i+n]`: it stops at the end of the pool, never wraps, and its length is stated exactly |
| Rotation.Allocate | app/services/rotation_service.py:73-82 | The processed routes: at most one per route, each with 2 or 3 claimed drivers and exactly 2 vehicles |
| Rotation.SkippedRouteEndsAllocation | app/services/rotation_service.py:78-82 | A skipped route does not advance the indices, so every later route is skipped too |
| Rotation.AllocatedRoutesArePrefix | app/services/rotation_service.py:73-79 | The processed routes are the first active routes, in table order |
| Rotation.RoundRobinClaims | app/services/rotation_service.py:75-82 | Processed route k claims the driver slice at (3k mod pool size) and the vehicle slice at (2k mod pool size) |
| Rotation.CrewAssignments | app/services/rotation_service.py:84-100 | Route k gets assignments 2k and 2k+1: MORNING, 06:00–15:00, DRIVER_1 with claimed driver/vehicle 0, DRIVER_2 with claimed driver/vehicle 1; the third driver is unused |
| Rotation.PairAssignments | app/services/rotation_service.py:88-100 | The `zip` loop creates exactly the DRIVER_1 and DRIVER_2 assignments |
| Rotation.HhmmRoundTrip | app/services/rotation_service.py:115 | The HHMM digits read back as the trip's time of day |
| Rotation.TripNumber | app/services/rotation_service.py:115 | A trip number is the name prefix plus seven characters, the HHMM digits of its start then the direction letter at its end |
| Rotation.TripNumberLayout | app/services/rotation_service.py:115 | A trip number is the upper-cased 3-letter prefix, '-', the four HHMM digits of its own start, '-', and 'O' or 'I' |
| Rotation.TripNumberDetermines | app/services/rotation_service.py:132 | Equal trip numbers have equal prefix, time of day and direction letter |
| Rotation.TripNumbersCollide | app/services/rotation_service.py:115 | Trip numbers are not unique: two routes with the same prefix, or one route on two dates, get equal numbers |
| Rotation.RiversideFirstNumber | app/services/rotation_service.py:115 | The first outbound trip of "Riverside Express" is numbered "RIV-0600-O" |
| Rotation.Cycle | app/services/rotation_service.py:113-143 | Definition of one dispatch cycle: the outbound trip and, when it fits, the inbound trip; its shape is proved by `Rotation.CycleShape` |
| Rotation.Walk | app/services/rotation_service.py:104-145 | Definition of the hourly walk from 06:00 to 14:00 with alternating assignments; its content is proved by `Rotation.WalkOutboundCount`, `Rotation.OutboundTimetable` and `Rotation.WalkPairs` |
| Rotation.CycleShape | app/services/rotation_service.py:113-143 | A cycle is the outbound trip, then an inbound trip iff start + estimated + turnaround < 14:00 (strict); the inbound trip leaves one turnaround after arrival and uses the same assignment |
| Rotation.WalkOutboundCount | app/services/rotation_service.py:109-145 | A walk over 60n minutes dispatches exactly n outbound trips |
| Rotation.OutboundTimetable | app/services/rotation_service.py:104-126 | Each route has exactly 8 outbound trips, at 06:00, 07:00, …, 13:00, alternating assignment 0, 1, 0, …; each ends `estimated` minutes later, SCHEDULED |
| Rotation.WalkPairs | app/services/rotation_service.py:128-143 | A route's trips start outbound; each inbound trip directly follows its outbound trip with the same assignment, driver and vehicle; an outbound trip is followed by an inbound trip iff it fits before 14:00 |
| Rotation.EightOutboundPerRoute | app/services/rotation_service.py:104-145 | The generated trips contain exactly 8 outbound trips per processed route |
| Rotation.BuiltTripIds | app/services/rotation_service.py:125-143 | The created trips get consecutive ids, in creation order |
| Rotation.BuiltAssignmentIds | app/services/rotation_service.py:99-102 | The created assignments get consecutive ids, in creation order |
| Rotation.FirstTripAtSix | app/services/rotation_service.py:104-126 | When a route is processed, the first created trip is outbound at 06:00 on the date |
| Rotation.BuildAll | app/services/rotation_service.py:73-145 | Every processed route contributes exactly two assignments |
| Rotation.DispatchCycle | app/services/rotation_service.py:110-143 | One pass of the while body returns exactly the cycle's trips |
| Rotation.SequenceRouteTrips | app/services/rotation_service.py:104-145 | The while loop with `driver_toggle` and 60-minute steps returns exactly the route's walk from 06:00 to 14:00 |
| Rotation.ClearDate | app/services/rotation_service.py:20-46 | After the deletes no trip and no assignment of the date remains; routes, drivers, vehicles and the id counters are untouched |
| Rotation.Clashes | app/services/rotation_service.py:89-102 | Definition of a failing flush against the growing session; `Rotation.NoClashOnFreeDate`, `Rotation.RegenerationNeverClashes` and `Rotation.NoClashKeepsSlotsUnique` state what it means |
| Rotation.Generate | app/services/rotation_service.py:8-148 | A failed call commits nothing; no call writes routes, drivers or vehicles; the trip counter rises by the number of returned trips, which are the last rows of the trip table |
| Rotation.GuardLeavesDateAlone | app/services/rotation_service.py:14-18 | With a trip on the date and no regeneration, the result is [] and nothing changes |
| Rotation.EmptyPoolCommitsNothing | app/services/rotation_service.py:58-65 | An empty driver or vehicle pool returns [] and commits nothing, not even the regeneration deletes |
| Rotation.RegenerationClearsDate | app/services/rotation_service.py:20-46 | After the deletes, exactly the trips and assignments of other dates remain; the tickets and GPS rows of deleted trips and the exchanges of deleted assignments are gone, and the other rows stay |
| Rotation.ClearDateKeepsUnique | app/services/rotation_service.py:31-44 | The deletes keep every uniqueness constraint and add no row |
| Rotation.DeleteDateRows | app/services/rotation_service.py:20-46 | The delete phase computes the id sets first, then deletes in dependency order, and yields `ClearDate` |
| Rotation.NoClashOnFreeDate | app/services/rotation_service.py:89-102 | With no assignment of a processed route on the date, no flush hits uix_rotation_assignment |
| Rotation.RegenerationNeverClashes | app/services/rotation_service.py:20-102 | A regenerating call never fails on uix_rotation_assignment |
| Rotation.SecondCallIsNoOp | app/services/rotation_service.py:14-18 | Idempotence: after a call that created trips, a second call without regeneration returns [] and changes nothing |
| Rotation.NoClashKeepsSlotsUnique | app/services/rotation_service.py:99-102 | When no flush fails, the session with every created assignment keeps uix_rotation_assignment |
| Rotation.GenerateKeepsValid | app/services/rotation_service.py:8-148 | Every call keeps the uniqueness constraints and fresh ids of assignments, trips and tickets, and never writes routes, drivers or vehicles |
| Rotation.ProcessRoute | app/services/rotation_service.py:84-145 | One route: a taken slot fails the flush; otherwise its two assignments and its walk |
| Rotation.ScheduleRoutes | app/services/rotation_service.py:67-145 | The route loop fails iff some processed route clashes; otherwise it returns every processed route's assignments and trips in order |
| Rotation.RunGeneration | app/services/rotation_service.py:13-148 | The body computes exactly `Generate`: guard, deletes, pools, route loop |
| Rotation.GenerateDailySchedule | app/services/rotation_service.py:8-148 | The store ends in `Generate`'s state and the call returns its trips; store integrity holds, and break logs, requests and events are untouched |
| Breaks.GetBreakStatus | app/services/break_service.py:10-16 | `is_eligible` iff trips since the last break >= 1 and budget > 0, i.e. iff `start_break` would pass its checks; the counters are reported as stored |
| Breaks.StartCheck | app/services/break_service.py:23-32 | Too few trips fails first; then a budget <= 0 fails; otherwise the checks pass, exactly when the driver is eligible |
| Breaks.StartIgnoresStatus | app/services/break_service.py:23-26 | The status test is empty: any status, ON_BREAK included, gets the same outcome |
| Breaks.OnBreakRow | app/services/break_service.py:36-38 | A started break sets ON_BREAK, the start time to now and the break number plus one, and nothing else |
| Breaks.OpenedLog | app/services/break_service.py:41-46 | The new log belongs to the driver, starts at now on now's date, carries the new break number and is open |
| Breaks.StartKeepsBudget | app/services/break_service.py:35-38 | Starting a break keeps the trip counter, the budget and today's total |
| Breaks.FreshDriverMustDriveFirst | app/models/models.py:113-117 | A driver with the defaults has 60 minutes of budget but is not eligible (0 trips) |
| Breaks.Eligible | app/services/break_service.py:15 | A driver with no trip since the last break, or no budget left, is not eligible; one trip and a positive budget make the driver eligible |
| Breaks.StartBreak | app/services/break_service.py:18-57 | On failure it returns the first failing check and leaves the store unchanged; on success it sets the driver row, appends exactly one open log with the next id, and appends one START_BREAK audit. Every other table and counter is stated unchanged. |
| Breaks.SecondStartOpensSecondLog | app/services/break_service.py:23-47 | A driver already ON_BREAK can start again, leaving two open logs of the same driver |
| Breaks.LatestOpenLog | app/services/break_service.py:78-83 | The chosen log is an open log of the driver whose start no other open log exceeds, the first such in table order; None iff the driver has no open log |
| Breaks.EndedRow | app/services/break_service.py:70-74 | ACTIVE; budget max(0, budget − elapsed), never negative; today's total + elapsed; start cleared; trip counter 0 |
| Breaks.ClosedLog | app/services/break_service.py:85-87 | The closed log ends at now with the elapsed minutes and keeps every other column |
| Breaks.EndChargesElapsed | app/services/break_service.py:71-72 | Within the budget the elapsed minutes move from the budget to today's total; an overrun empties the budget |
| Breaks.SpentBudgetBlocksBreak | app/services/break_service.py:31-32 | A break that used up the budget leaves 0, so however many trips follow, `start_break` fails with "No break time remaining" |
| Breaks.EndedDriverMustDriveFirst | app/services/break_service.py:74 | After `end_break` a new break is refused for too few trips |
| Breaks.ClosedLogs | app/services/break_service.py:78-87 | Only the latest open log of the driver changes; every other log is untouched |
| Breaks.EndClosesLatestOpenLog | app/services/break_service.py:85-87 | The latest open log is closed at now with duration now − start |
| Breaks.EndWithoutOpenLog | app/services/break_service.py:85 | Without an open log of the driver no log changes |
| Breaks.EndBreak | app/services/break_service.py:59-90 | A driver not ON_BREAK or without a start fails and nothing changes; otherwise the driver row is `EndedRow`, the logs are `ClosedLogs`, and one END_BREAK audit is appended. Every other table and counter is stated unchanged. |
| Maintenance.InitialStatus | app/services/maintenance_service.py:17-20 | APPROVED iff REGULAR, PENDING iff EMERGENCY |
| Maintenance.NewRequest | app/services/maintenance_service.py:22-30 | The stored request keeps vehicle, requester, type, title, description and priority, with the status its type gives and no approver or reason |
| Maintenance.DefaultRequestFields | app/services/maintenance_service.py:14-15 | A request filed without them gets priority 3 and no description |
| Maintenance.ApprovedRow | app/services/maintenance_service.py:53-55 | APPROVED by the manager, every other column kept |
| Maintenance.RejectedRow | app/services/maintenance_service.py:79-82 | REJECTED with the reason, the manager in the approver column, every other column kept |
| Maintenance.SendToMaintenance | app/services/maintenance_service.py:57-64 | The vehicle row with the request's id becomes MAINTENANCE; a missing vehicle changes nothing; other rows are untouched |
| Maintenance.DecisionIgnoresStatus | app/services/maintenance_service.py:53-82 | Approval and rejection never look at the current status, so any status is overwritten |
| Maintenance.RejectAfterApprove | app/services/maintenance_service.py:79-82 | Rejecting an approved request gives the same row as rejecting it directly |
| Maintenance.MaintenanceStaysInPool | app/services/maintenance_service.py:57-64 | An approval never removes a vehicle from the generator's pool; the MAINTENANCE vehicle stays in it |
| Maintenance.CreateMaintenanceRequest | app/services/maintenance_service.py:8-46 | Appends exactly `NewRequest` with the next id and one CREATE audit; description and priority default to none and 3; vehicles are untouched even for an auto-approved request. Every other table and counter is stated unchanged. |
| Maintenance.ApproveMaintenanceRequest | app/services/maintenance_service.py:48-71 | The request becomes `ApprovedRow` and the vehicles `SendToMaintenance`; events gain one APPROVE audit (old and new status) and one notification to the requester. Every other table and counter is stated unchanged. |
| Maintenance.RejectMaintenanceRequest | app/services/maintenance_service.py:73-89 | The request becomes `RejectedRow` and the vehicles are untouched; events gain one REJECT audit (old and new status, reason) and one notification to the requester. Every other table and counter is stated unchanged. |
| Admin.TicketCheck | app/api/v1/admin.py:468-504 | A missing trip is refused with 404 before any other check; a pass implies the trip exists and the seat is free |
| Admin.CapacityBeforeSeat | app/api/v1/admin.py:491-504 | For a caller allowed to issue for the trip (ADMIN, or the DRIVER who drives it), a full bus is refused as full, whatever the seat |
| Admin.RequestMeetingChecksPasses | app/api/v1/admin.py:468-511 | A request whose trip exists, whose caller may issue for it, whose vehicle is stored, whose bus has room and whose seat is free passes every check, so the ticket is issued |
| Admin.DriverIssuesOwnTripsOnly | app/api/v1/admin.py:473-478 | A DRIVER caller passes only for a trip whose driver is the caller's own driver row |
| Admin.AdminSkipsOwnership | app/api/v1/admin.py:22 | For the ADMIN caller the router admits, the driver table is not consulted and the ownership errors never occur |
| Admin.IssueRespectsCapacity | app/api/v1/admin.py:492-496 | A successful issue adds exactly one ticket to the trip and leaves it at or below its vehicle's capacity |
| Admin.IssueKeepsSeatsUnique | app/api/v1/admin.py:498-504 | Issuing a free seat keeps the seats of every trip distinct |
| Admin.Issue | app/api/v1/admin.py:506-511 | Appends exactly one ticket with the next id and the request's fields, keeping store integrity. Every other table and counter is stated unchanged. |
| Admin.CreateTicket | app/api/v1/admin.py:459-513 | A refusal returns `TicketCheck`'s error and changes nothing; a pass appends exactly one ticket and no audit. Every other table and counter is stated unchanged. |
| Admin.DeletedDriverLeavesPool | app/api/v1/admin.py:213 | After the soft delete the driver pool is the old pool without that driver, and every other driver stays |
| Admin.DeletedVehicleLeavesPool | app/api/v1/admin.py:260 | After the soft delete the vehicle pool is the old pool without that vehicle, and every other vehicle stays |
| Admin.DeletedRouteLeavesSchedule | app/api/v1/admin.py:316 | After the soft delete the active routes are the old ones without that route |
| Admin.DeleteDriver | app/api/v1/admin.py:207-216 | An unknown id is a 404 and changes nothing; otherwise only that row becomes OFF_DUTY and one DELETE audit is appended. Every other table and counter is stated unchanged. |
| Admin.DeleteVehicle | app/api/v1/admin.py:254-263 | An unknown id is a 404 and changes nothing; otherwise only that row becomes OUT_OF_SERVICE and one DELETE audit is appended. Every other table and counter is stated unchanged. |
| Admin.DeleteRoute | app/api/v1/admin.py:310-319 | An unknown id is a 404 and changes nothing; otherwise only that row is deactivated and one DELETE audit is appended. Every other table and counter is stated unchanged. |
| Admin.Endpoints | app/api/v1/admin.py:434-435 | The origin and destination are the route's two ends; an OUTBOUND trip leaves from the route's start, an INBOUND trip arrives there |
| Admin.EndpointsSwap | app/api/v1/admin.py:434-435 | OUTBOUND runs start to end; INBOUND is the same pair swapped |
| Admin.RowOf | app/api/v1/admin.py:437-446 | A row's origin and destination follow the direction rule, and it keeps the trip's id, direction and start |
| Admin.SerializeTrips | app/api/v1/admin.py:431-450 | The loop returns one row per trip, in order, each the trip's `RowOf` |
| Admin.MessageAsWritten | app/api/v1/admin.py:348-353 | As written: a failure iff generation failed, "already exists" iff the result is empty and no regeneration was asked, otherwise the action and the count |
| Admin.Message | app/api/v1/admin.py:348-353 | The corrected message says "already exists" iff the date had trips and no regeneration was asked; it reports a failure iff generation failed; otherwise it reports "Generated" or "Regenerated" as asked, with the count |
| Admin.MessageAsWrittenOnExisting | app/api/v1/admin.py:349-351 | When the guard fired, the message as written is right |
| Admin.MessageAsWrittenMisreports | app/api/v1/admin.py:349-351 | On an empty store the message as written says "already exists" although the date has no trip |
| Admin.ForceGenerateSchedule | app/api/v1/admin.py:335-353 | As written: the store ends in `Generate`'s state, the other tables and counters are unchanged, and the answer is `MessageAsWritten` of the generator's result |
| Admin.ForceGenerateScheduleCorrected | app/api/v1/admin.py:335-353 | As intended: the same run, answered with `Message`, which says "already exists" iff the date had trips before the call |

## Findings

| source | as written | input that shows it | evidently intended | confidence | as-written member | corrected member |
|---|---|---|---|---|---|---|
| app/api/v1/admin.py:349-351 | An empty trip list without regeneration is reported as "Schedule already exists" | Any store without a non-OFF_DUTY driver (or without a usable vehicle or route) and no trip today: the generator returns [] and the handler (`Admin.ForceGenerateSchedule`) says the schedule exists, although none does | Report "already exists" only when the guard found trips on the date | not executed | Admin.MessageAsWrittenMisreports | Admin.Message |

## Where the description of the system and the code differ (the model follows the code)

- Pool slices do not wrap around. `all_drivers[idx:idx+3]` stops at the end of the pool, so a route near the end gets a short slice and is skipped. Once one route is skipped, every later route is skipped as well (`Rotation.SkippedRouteEndsAllocation`).
- `start_break` does not look at the driver's status. A driver who is already ON_BREAK can open a second BreakLog, so "one open log per driver" is not kept (`Breaks.SecondStartOpensSecondLog`).
- The generator's guard looks only at trips on the date. An assignment of a processed route left on the date without trips makes the next generation fail on uix_rotation_assignment (without regeneration), and nothing is committed.
- The assignment constraint is checked at each route's flush, against the session: the assignments already stored (after the regeneration deletes, when asked) and those of the routes processed before.
- An approved maintenance request sets its vehicle to MAINTENANCE, and the generator's pool only excludes OUT_OF_SERVICE. The vehicle therefore stays schedulable (`Maintenance.MaintenanceStaysInPool`).
- A REGULAR request is created APPROVED, but its vehicle is not sent to maintenance; only an explicit approval does that.

## Left out

- Floating-point minutes: break budgets, durations, estimated and turnaround times are whole minutes (`int`). `(now − start).total_seconds() / 60` becomes the integer difference of two minute instants.
- The clock: `datetime.now()` and `date.today()` are the `now` and `today` parameters.
- Authentication and roles: the role dependencies are preconditions. `Admin.CreateTicket` requires a caller that is not a MANAGER, which is the handler's own dependency. The router in front of it (app/api/v1/admin.py:22, with app/api/deps.py:44-48) admits ADMIN users only, so the DRIVER branch (`NoDriverProfile`, `NotTripDriver`, `Admin.DriverIssuesOwnTripsOnly`) is modelled as the handler is written but cannot be reached through that router (`Admin.AdminSkipsOwnership`). The delete endpoints are modelled for an admin caller.
- Audit logging and notifications are abstract events appended to `Store.events`; their delivery, timestamps and message texts are not modelled.
- `get_trips`: the date filter, the ordering by start, and the driver name and vehicle plate columns (joins through users and vehicles) are left out. `Admin.SerializeTrips` takes the selected (trip, route) rows in query order.
- The ticket endpoint's `hasattr(vehicle, 'capacity')` fallback of 50 is not modelled, because the Vehicle entity always has a capacity. A DRIVER caller without a driver row (where `scalar_one()` raises) is modelled as the error `NoDriverProfile`.
- Maintenance.ApproveMaintenanceRequest: reads `request.vehicle` (app/services/maintenance_service.py:58) as a lookup of the vehicle row by `vehicle_id`. The lazy relationship loading behind it (app/models/models.py:304, a request fetched with a bare `get`, an asynchronous session in app/core/database.py:13-18) is not modelled. An asynchronous session may refuse that implicit load and raise before the commit, which would leave the store unchanged. The model does not capture that failure.
- Foreign keys are not enforced by the store; rows refer to each other by id only.
- Autoincrement ids are a counter per table that only rises on insert. Ids burned by a rolled-back flush are not modelled.
- Concurrency between requests and transaction isolation: one writer; an early return leaves the store as it was.
- `Rotation.TripNumbersCollide` and the other trip-number lemmas work on a structured trip number (`TripNo`) whose string is `TripNumber`. Upper-casing is ASCII only.
- Breaks.LatestOpenLog: among open logs with the same start, the first in table order is taken; the database's choice among such ties is unspecified.
- The break replacement (DRIVER_3 matching) exists only as comments in the source and is not modelled.
- Route stops beyond their uniqueness constraint, users, garages, reports, crowding, GPS ingestion and the remaining CRUD endpoints are not part of this model.
