/**
 * Maintenance requests, app/services/maintenance_service.py: filing a
 * request, and a manager approving or rejecting it. Approval takes the
 * vehicle out of service for maintenance; every step is audited, and a
 * decision notifies the requester.
 */
module Maintenance {
  import opened Wrappers
  import opened Tables
  import opened Models
  import opened Database
  import opened Rotation

  /** The priority a request gets when the caller gives none. */
  const DefaultPriority: int := 3

  /** REGULAR requests are approved on creation; EMERGENCY ones wait for a manager. */
  function InitialStatus(kind: MaintenanceType): (s: MaintenanceStatus)
    ensures s == MaintenanceStatus.Approved <==> kind == Regular
    ensures s == MaintenanceStatus.Pending <==> kind == MaintenanceType.Emergency
  {
    if kind.Regular? then MaintenanceStatus.Approved else MaintenanceStatus.Pending
  }

  /** The row a new request is stored as. */
  function NewRequest(id: Id, vehicleId: Id, userId: Id, kind: MaintenanceType, title: string,
      description: Option<string> := None, priority: int := DefaultPriority): (m: MaintenanceRequest)
    ensures m.id == id && m.vehicleId == vehicleId && m.requestedById == userId && m.kind == kind
    ensures m.title == title && m.description == description && m.priority == priority
    ensures m.status == InitialStatus(kind)
    ensures m.approvedById.None? && m.rejectionReason.None?
  {
    MaintenanceRequest(id, vehicleId, userId, None, kind, InitialStatus(kind), priority, title, description, None)
  }

  /** A request filed without a priority or a description gets priority 3 and no description. */
  lemma DefaultRequestFields(id: Id, vehicleId: Id, userId: Id, kind: MaintenanceType, title: string)
    ensures NewRequest(id, vehicleId, userId, kind, title).priority == 3
    ensures NewRequest(id, vehicleId, userId, kind, title).description.None?
  {
  }

  /** An approved request: APPROVED, by `managerId`. */
  function ApprovedRow(m: MaintenanceRequest, managerId: Id): (a: MaintenanceRequest)
    ensures a.status == MaintenanceStatus.Approved && a.approvedById == Some(managerId)
    ensures a == m.(status := a.status, approvedById := a.approvedById)
  {
    m.(status := MaintenanceStatus.Approved, approvedById := Some(managerId))
  }

  /** A rejected request: REJECTED, with the reason, by `managerId` (kept in the approver column). */
  function RejectedRow(m: MaintenanceRequest, managerId: Id, reason: string): (x: MaintenanceRequest)
    ensures x.status == Rejected && x.rejectionReason == Some(reason) && x.approvedById == Some(managerId)
    ensures x == m.(status := x.status, rejectionReason := x.rejectionReason, approvedById := x.approvedById)
  {
    m.(status := Rejected, rejectionReason := Some(reason), approvedById := Some(managerId))
  }

  /**
   * The vehicle table once the vehicle `vehicleId` is sent to maintenance:
   * that row, when it exists, is MAINTENANCE; no other row changes.
   */
  function SendToMaintenance(vehicles: seq<Vehicle>, vehicleId: Id): (r: seq<Vehicle>)
    ensures |r| == |vehicles|
    ensures forall j :: 0 <= j < |r| ==> r[j].id == vehicles[j].id && r[j].capacity == vehicles[j].capacity
    ensures forall j :: 0 <= j < |r| && vehicles[j].id != vehicleId ==> r[j] == vehicles[j]
    ensures UniqueOn(vehicles, VehicleId) ==>
      forall j :: 0 <= j < |r| && vehicles[j].id == vehicleId ==> r[j].status == VehicleStatus.Maintenance
  {
    match IndexOf(vehicles, VehicleId, vehicleId)
    case None => vehicles
    case Some(k) => vehicles[k := vehicles[k].(status := VehicleStatus.Maintenance)]
  }

  /** Neither approval nor rejection looks at the status it overwrites. */
  lemma DecisionIgnoresStatus(m: MaintenanceRequest, s: MaintenanceStatus, managerId: Id, reason: string)
    ensures ApprovedRow(m.(status := s), managerId) == ApprovedRow(m, managerId)
    ensures RejectedRow(m.(status := s), managerId, reason) == RejectedRow(m, managerId, reason)
  {
  }

  /** A request approved and then rejected ends REJECTED, with the rejecting manager as approver. */
  lemma RejectAfterApprove(m: MaintenanceRequest, approver: Id, rejecter: Id, reason: string)
    ensures RejectedRow(ApprovedRow(m, approver), rejecter, reason) == RejectedRow(m, rejecter, reason)
  {
  }

  /**
   * Sending a vehicle to maintenance never takes anything out of the
   * generator's vehicle pool: the pool only excludes OUT_OF_SERVICE, so a
   * MAINTENANCE vehicle is still handed out by the next generation.
   */
  lemma MaintenanceStaysInPool(vehicles: seq<Vehicle>, vehicleId: Id)
    ensures forall j :: 0 <= j < |vehicles| && InVehiclePool(vehicles[j]) ==> InVehiclePool(SendToMaintenance(vehicles, vehicleId)[j])
    ensures UniqueOn(vehicles, VehicleId) ==>
      forall j :: 0 <= j < |vehicles| && vehicles[j].id == vehicleId ==> InVehiclePool(SendToMaintenance(vehicles, vehicleId)[j])
  {
  }

  /** The audit record of a review: the status before and the status after. */
  function ReviewAudit(managerId: Id, action: string, m: MaintenanceRequest, after: MaintenanceStatus, reason: Option<string>): Event {
    Audit(managerId, action, "MaintenanceRequest", m.id, StatusChanged(m.status, after, reason))
  }

  /**
   * `create_maintenance_request`: stores the request with the next id, the
   * status its type gives it and the caller's fields, and audits it. The
   * vehicle is not touched, even for an auto-approved REGULAR request.
   */
  method CreateMaintenanceRequest(db: Store, vehicleId: Id, userId: Id, kind: MaintenanceType, title: string,
      description: Option<string> := None, priority: int := DefaultPriority)
    returns (m: MaintenanceRequest)
    requires db.Valid()
    modifies db
    ensures db.Valid()
    ensures m == NewRequest(old(db.nextRequestId), vehicleId, userId, kind, title, description, priority)
    ensures db.requests == old(db.requests) + [m] && db.nextRequestId == old(db.nextRequestId) + 1
    ensures db.events == old(db.events) + [Audit(userId, "CREATE", "MaintenanceRequest", m.id, RequestCreated(title, kind))]
    ensures db.vehicles == old(db.vehicles) && db.drivers == old(db.drivers) && db.routes == old(db.routes)
    ensures db.trips == old(db.trips) && db.tickets == old(db.tickets) && db.breakLogs == old(db.breakLogs)
    ensures db.assignments == old(db.assignments)
    ensures db.gpsRows == old(db.gpsRows) && db.exchanges == old(db.exchanges)
    ensures db.nextAssignmentId == old(db.nextAssignmentId) && db.nextTripId == old(db.nextTripId)
    ensures db.nextTicketId == old(db.nextTicketId) && db.nextBreakLogId == old(db.nextBreakLogId)
  {
    var status := MaintenanceStatus.Pending;
    if kind == Regular {
      status := MaintenanceStatus.Approved;
    }
    m := MaintenanceRequest(db.nextRequestId, vehicleId, userId, None, kind, status, priority, title, description, None);
    InsertFresh(db.requests, m, RequestId, db.nextRequestId);
    db.requests := db.requests + [m];
    db.nextRequestId := db.nextRequestId + 1;
    db.events := db.events + [Audit(userId, "CREATE", "MaintenanceRequest", m.id, RequestCreated(title, kind))];
  }

  /**
   * `approve_maintenance_request` on the request at position `k`, whatever
   * its status: APPROVED by the manager, its vehicle (if the row exists)
   * MAINTENANCE, one audit record with the old and new status and one
   * notification to the requester. The `request.vehicle` relationship is
   * read as a lookup of the vehicle row by its id.
   */
  method ApproveMaintenanceRequest(db: Store, k: nat, managerId: Id) returns (m: MaintenanceRequest)
    requires db.Valid() && k < |db.requests|
    modifies db
    ensures db.Valid()
    ensures m == ApprovedRow(old(db.requests[k]), managerId)
    ensures db.requests == old(db.requests)[k := m]
    ensures db.vehicles == SendToMaintenance(old(db.vehicles), m.vehicleId)
    ensures db.events == old(db.events) + [
      ReviewAudit(managerId, "APPROVE", old(db.requests[k]), MaintenanceStatus.Approved, None),
      Notify(m.requestedById, "Maintenance Approved", "MAINTENANCE")]
    ensures db.drivers == old(db.drivers) && db.routes == old(db.routes) && db.trips == old(db.trips)
    ensures db.tickets == old(db.tickets) && db.breakLogs == old(db.breakLogs) && db.assignments == old(db.assignments)
    ensures db.nextRequestId == old(db.nextRequestId)
    ensures db.gpsRows == old(db.gpsRows) && db.exchanges == old(db.exchanges)
    ensures db.nextAssignmentId == old(db.nextAssignmentId) && db.nextTripId == old(db.nextTripId)
    ensures db.nextTicketId == old(db.nextTicketId) && db.nextBreakLogId == old(db.nextBreakLogId)
  {
    var request := db.requests[k];
    var oldStatus := request.status;
    m := request.(status := MaintenanceStatus.Approved, approvedById := Some(managerId));
    db.SetRequest(k, m);
    var vehicle := IndexOf(db.vehicles, VehicleId, m.vehicleId);
    if vehicle.Some? {
      var v := vehicle.value;
      db.SetVehicle(v, db.vehicles[v].(status := VehicleStatus.Maintenance));
    }
    db.events := db.events + [
      Audit(managerId, "APPROVE", "MaintenanceRequest", m.id, StatusChanged(oldStatus, MaintenanceStatus.Approved, None)),
      Notify(m.requestedById, "Maintenance Approved", "MAINTENANCE")];
  }

  /**
   * `reject_maintenance_request` on the request at position `k`, whatever
   * its status: REJECTED with the reason, the manager in the approver
   * column, the vehicle untouched, one audit record and one notification.
   */
  method RejectMaintenanceRequest(db: Store, k: nat, managerId: Id, reason: string) returns (m: MaintenanceRequest)
    requires db.Valid() && k < |db.requests|
    modifies db
    ensures db.Valid()
    ensures m == RejectedRow(old(db.requests[k]), managerId, reason)
    ensures db.requests == old(db.requests)[k := m]
    ensures db.events == old(db.events) + [
      ReviewAudit(managerId, "REJECT", old(db.requests[k]), Rejected, Some(reason)),
      Notify(m.requestedById, "Maintenance Rejected", "MAINTENANCE")]
    ensures db.vehicles == old(db.vehicles) && db.drivers == old(db.drivers) && db.routes == old(db.routes)
    ensures db.trips == old(db.trips) && db.tickets == old(db.tickets) && db.breakLogs == old(db.breakLogs)
    ensures db.assignments == old(db.assignments) && db.nextRequestId == old(db.nextRequestId)
    ensures db.gpsRows == old(db.gpsRows) && db.exchanges == old(db.exchanges)
    ensures db.nextAssignmentId == old(db.nextAssignmentId) && db.nextTripId == old(db.nextTripId)
    ensures db.nextTicketId == old(db.nextTicketId) && db.nextBreakLogId == old(db.nextBreakLogId)
  {
    var request := db.requests[k];
    var oldStatus := request.status;
    m := request.(status := Rejected, rejectionReason := Some(reason), approvedById := Some(managerId));
    db.SetRequest(k, m);
    db.events := db.events + [
      Audit(managerId, "REJECT", "MaintenanceRequest", m.id, StatusChanged(oldStatus, Rejected, Some(reason))),
      Notify(m.requestedById, "Maintenance Rejected", "MAINTENANCE")];
  }
}
