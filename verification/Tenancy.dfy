/** Contracts, occupancies and move requests: the tables and every operation that
    changes them (contracts.service.ts, lease-lifecycle.service.ts, leases.service.ts,
    occupancies.service.ts, org-user-lifecycle.service.ts). */
module Tenancy {
  import opened Wrappers
  import opened H = LeaseHistory

  datatype Error = NotFound | Forbidden | Unauthorized | Conflict | BadRequest

  // ------------------------------------------------------------------ the tables

  /** A stay; it is ACTIVE while it has no end. */
  datatype Occupancy = Occupancy(building: Id, unit: Id, resident: Id, startAt: Time, endAt: Option<Time>) {
    predicate Active() {
      endAt.None?
    }
  }

  datatype LeaseStatus = Draft | Active | Ended | Cancelled

  datatype Lease = Lease(
    building: Id,
    unit: Id,
    occupancy: Option<Id>,
    resident: Option<Id>,
    status: LeaseStatus,
    startAt: Time,
    endAt: Time,
    columns: Columns)
  {
    /** The tracked columns of the row. */
    function Row(): Columns {
      columns[Field.Status := Text(StatusName(status))][LeaseStartDate := Date(startAt)][LeaseEndDate := Date(endAt)]
    }

    predicate HasIjari() {
      IjariId in columns && columns[IjariId].Text? && columns[IjariId].text != ""
    }
  }

  function StatusName(s: LeaseStatus): string {
    match s
    case Draft => "DRAFT"
    case Active => "ACTIVE"
    case Ended => "ENDED"
    case Cancelled => "CANCELLED"
  }

  datatype MoveStatus = PendingReview | Approved | Rejected | Withdrawn | Completed

  datatype MoveRequest = MoveRequest(lease: Id, resident: Id, status: MoveStatus, moveAt: Time, reviewedAt: Option<Time>) {
    predicate Open() {
      status in {PendingReview, Approved}
    }
  }

  /** Move requests are listed in order of creation. */
  datatype Estate = Estate(
    occupancies: map<Id, Occupancy>,
    leases: map<Id, Lease>,
    moveIns: seq<MoveRequest>,
    moveOuts: seq<MoveRequest>,
    history: seq<HistoryRow>)
  {
    predicate UnitTaken(unit: Id) {
      exists o :: o in occupancies && occupancies[o].Active() && occupancies[o].unit == unit
    }

    predicate ResidentHoused(resident: Id) {
      exists o :: o in occupancies && occupancies[o].Active() && occupancies[o].resident == resident
    }

    /** Linked to an occupancy that is ACTIVE. */
    predicate Occupied(l: Lease) {
      l.occupancy.Some? && l.occupancy.value in occupancies && occupancies[l.occupancy.value].Active()
    }

    /** The contract's resident: named on it, or else the linked occupancy's. */
    function ResidentOf(l: Lease): Option<Id> {
      if l.resident.Some? then l.resident
      else if l.occupancy.Some? && l.occupancy.value in occupancies then Some(occupancies[l.occupancy.value].resident)
      else None
    }
  }

  const EMPTY := Estate(map[], map[], [], [], [])

  // ------------------------------------------------------------------ operations

  datatype Patch = Patch(startAt: Option<Time>, endAt: Option<Time>, columns: Columns)

  /** What the move-out form states; columns left out are cleared. */
  datatype MoveOutForm = MoveOutForm(movedOutAt: Time, columns: Columns, totalDeductions: Option<real>, netRefund: Option<real>)

  datatype GrantMode = Add | Move | Leave

  datatype Op =
    | DraftContract(id: Id, building: Id, unit: Id, unitInBuilding: bool, resident: Id, residentInOrg: bool, startAt: Time, endAt: Time, terms: Columns, onRecord: Columns)
    | UpdateContract(id: Id, patch: Patch)
    | UpdateLease(id: Id, patch: Patch)
    | ActivateContract(id: Id)
    | CancelContract(id: Id, now: Time)
    | MoveIn(id: Id, building: Id, unit: Id, unitInBuilding: bool, resident: Id, residentInOrg: bool, stay: Id, startAt: Time, endAt: Time, terms: Columns)
    | MoveOut(id: Id, building: Id, form: MoveOutForm)
    | RequestMoveIn(id: Id, user: Id, moveAt: Time)
    | RequestMoveOut(id: Id, user: Id, moveAt: Time)
    | ReviewMoveIn(request: nat, approve: bool, permitted: bool, now: Time)
    | ReviewMoveOut(request: nat, approve: bool, permitted: bool, now: Time)
    | ExecuteMoveIn(id: Id, permitted: bool, stay: Id, now: Time)
    | ExecuteMoveOut(id: Id, permitted: bool)
    | CreateOccupancy(building: Id, unit: Id, unitInBuilding: bool, resident: Id, residentInOrg: bool, stay: Id, now: Time)
    | GrantResidence(mode: GrantMode, user: Id, building: Id, unit: Id, unitInBuilding: bool, stay: Id, now: Time)

  /** The fields that updateContract locks on an active contract with an Ejari number. */
  const LEGAL_COLUMNS: set<Field> := {
    AnnualRent, PaymentFrequency, NumberOfCheques, SecurityDepositAmount, ContractValue, PaymentModeText, IjariId,
    ContractDate, PropertyUsage, OwnerNameSnapshot, LandlordNameSnapshot, TenantNameSnapshot, TenantEmailSnapshot,
    LandlordEmailSnapshot, TenantPhoneSnapshot, LandlordPhoneSnapshot, BuildingNameSnapshot, LocationCommunity,
    PropertySizeSqm, PropertyTypeLabel, PropertyNumber, PremisesNoDewa, PlotNo}

  const CONTRACT_COLUMNS: set<Field> := LEGAL_COLUMNS + {Notes}

  const LEASE_COLUMNS: set<Field> := {
    TenancyRegistrationExpiry, NoticeGivenDate, AnnualRent, PaymentFrequency, NumberOfCheques, SecurityDepositAmount,
    InternetTvProvider, ServiceChargesPaidBy, VatApplicable, Notes, FirstPaymentReceived, FirstPaymentAmount,
    DepositReceived, DepositReceivedAmount}

  const MOVE_OUT_COLUMNS: set<Field> := {
    ForwardingPhone, ForwardingEmail, ForwardingAddress, FinalElectricityReading, FinalWaterReading, FinalGasReading,
    WallsCondition, FloorCondition, KitchenCondition, BathroomCondition, DoorsLocksCondition, KeysReturned,
    AccessCardsReturnedCount, ParkingStickersReturned, DamageDescription, DamageCharges, PendingRent,
    PendingUtilities, PendingServiceFines, InspectionDoneBy, InspectionDate, ManagerApproval, RefundMethod,
    RefundDate, AdminNotes}

  function Only(columns: Columns, allowed: set<Field>): Columns {
    map f | f in columns && f in allowed :: columns[f]
  }

  /** A history row for the difference, or none if there is no difference. */
  function Recorded(history: seq<HistoryRow>, id: Id, action: Action, previous: Lease, current: Lease): seq<HistoryRow> {
    var changes := ChangeSet(TRACKED, previous.Row(), current.Row());
    if changes == map[] then history else history + [HistoryRow(id, action, changes)]
  }

  function CreationRecorded(history: seq<HistoryRow>, id: Id, current: Lease): seq<HistoryRow> {
    history + [HistoryRow(id, Created, ChangeSet(TRACKED, map[], current.Row()))]
  }

  function Patched(l: Lease, p: Patch, allowed: set<Field>): Lease {
    l.(startAt := if p.startAt.Some? then p.startAt.value else l.startAt,
       endAt := if p.endAt.Some? then p.endAt.value else l.endAt,
       columns := l.columns + Only(p.columns, allowed))
  }

  // ----------------------------------------------------- contracts and their terms

  /** What a draft takes from the resident, the unit and the building if it is not stated. */
  const SNAPSHOT_COLUMNS: set<Field> := {
    TenantNameSnapshot, TenantEmailSnapshot, TenantPhoneSnapshot, BuildingNameSnapshot, LocationCommunity,
    PropertyTypeLabel, PropertyNumber}

  /** The agreed value defaults to the annual rent, the snapshots to what is on record. */
  function DraftColumns(terms: Columns, onRecord: Columns): Columns {
    var snapshots := Only(onRecord, SNAPSHOT_COLUMNS) + terms;
    if ContractValue !in terms && AnnualRent in terms then snapshots[ContractValue := terms[AnnualRent]] else snapshots
  }

  function Drafted(op: Op): Lease
    requires op.DraftContract?
  {
    Lease(op.building, op.unit, None, Some(op.resident), Draft, op.startAt, op.endAt, DraftColumns(op.terms, op.onRecord))
  }

  predicate UnitUnderContract(s: Estate, unit: Id) {
    exists l :: l in s.leases && s.leases[l].unit == unit && s.leases[l].status == Active
  }

  function DraftStep(s: Estate, op: Op): Result<Estate, Error>
    requires op.DraftContract?
  {
    if !op.unitInBuilding || !op.residentInOrg || op.endAt <= op.startAt then Failure(BadRequest)
    else if UnitUnderContract(s, op.unit) || op.id in s.leases then Failure(Conflict)
    else Success(s.(leases := s.leases[op.id := Drafted(op)], history := CreationRecorded(s.history, op.id, Drafted(op))))
  }

  predicate TouchesLegalTerms(p: Patch) {
    p.startAt.Some? || p.endAt.Some? || exists f :: f in p.columns && f in LEGAL_COLUMNS
  }

  function UpdateStep(s: Estate, id: Id, p: Patch, allowed: set<Field>): Estate
    requires id in s.leases
  {
    var next := Patched(s.leases[id], p, allowed);
    s.(leases := s.leases[id := next], history := Recorded(s.history, id, Updated, s.leases[id], next))
  }

  function UpdateContractStep(s: Estate, id: Id, p: Patch): Result<Estate, Error> {
    if id !in s.leases then Failure(NotFound)
    else if s.leases[id].status == Active && s.leases[id].HasIjari() && TouchesLegalTerms(p) then Failure(Conflict)
    else
      var next := Patched(s.leases[id], p, CONTRACT_COLUMNS);
      if (p.startAt.Some? || p.endAt.Some?) && next.endAt <= next.startAt then Failure(BadRequest)
      else Success(UpdateStep(s, id, p, CONTRACT_COLUMNS))
  }

  function UpdateLeaseStep(s: Estate, id: Id, p: Patch): Result<Estate, Error> {
    if id !in s.leases then Failure(NotFound)
    else if p.startAt.None? && p.endAt.None? && Only(p.columns, LEASE_COLUMNS) == map[] then Failure(BadRequest)
    else
      var next := Patched(s.leases[id], p, LEASE_COLUMNS);
      if next.endAt <= next.startAt then Failure(BadRequest)
      else Success(UpdateStep(s, id, p, LEASE_COLUMNS))
  }

  function ActivateStep(s: Estate, id: Id): Result<Estate, Error> {
    if id !in s.leases then Failure(NotFound)
    else if s.leases[id].status == Ended then Failure(Conflict)
    else Success(s.(leases := s.leases[id := s.leases[id].(status := Active)]))
  }

  /** Pending and approved requests of a lease are withdrawn. */
  function WithdrawOpen(requests: seq<MoveRequest>, lease: Id): (r: seq<MoveRequest>)
    ensures |r| == |requests|
  {
    seq(|requests|, i requires 0 <= i < |requests| =>
      if requests[i].lease == lease && requests[i].Open() then requests[i].(status := Withdrawn) else requests[i])
  }

  function CancelStep(s: Estate, id: Id, now: Time): Result<Estate, Error> {
    if id !in s.leases then Failure(NotFound)
    else if s.leases[id].status == Ended then Failure(Conflict)
    else
      var left := if s.leases[id].status == Active && s.leases[id].occupancy.Some?
                  then MovedOutStep(s, id, MoveOutForm(now, map[], None, None)) else s;
      Success(left.(
        leases := left.leases[id := left.leases[id].(status := Cancelled)],
        moveIns := WithdrawOpen(left.moveIns, id),
        moveOuts := WithdrawOpen(left.moveOuts, id)))
  }

  // ------------------------------------------------------------ moving in and out

  function MovedIn(op: Op): Lease
    requires op.MoveIn?
  {
    Lease(op.building, op.unit, Some(op.stay), None, Active, op.startAt, op.endAt, op.terms)
  }

  function MoveInStep(s: Estate, op: Op): Result<Estate, Error>
    requires op.MoveIn?
  {
    if !op.unitInBuilding then Failure(BadRequest)
    else if !op.residentInOrg then Failure(NotFound)
    else if s.UnitTaken(op.unit) || s.ResidentHoused(op.resident) || op.stay in s.occupancies || op.id in s.leases then Failure(Conflict)
    else Success(s.(
      occupancies := s.occupancies[op.stay := Occupancy(op.building, op.unit, op.resident, op.startAt, None)],
      leases := s.leases[op.id := MovedIn(op)],
      history := CreationRecorded(s.history, op.id, MovedIn(op))))
  }

  function AmountIn(columns: Columns, f: Field): Option<real> {
    if f in columns && columns[f].Decimal? then Some(columns[f].amount) else None
  }

  /** The deductions stated on the form, or those on the lease, or none. */
  function Deductions(l: Lease, form: MoveOutForm): real {
    if form.totalDeductions.Some? then form.totalDeductions.value
    else if AmountIn(l.columns, TotalDeductions).Some? then AmountIn(l.columns, TotalDeductions).value
    else 0.0
  }

  /** The refund stated on the form, or what is left of the deposit. */
  function Refund(l: Lease, form: MoveOutForm): (r: real)
    ensures form.netRefund.None? && AmountIn(l.columns, SecurityDepositAmount).Some? ==>
              var deposit := AmountIn(l.columns, SecurityDepositAmount).value;
              if deposit <= Deductions(l, form) then r == 0.0 else r > 0.0 && r + Deductions(l, form) == deposit
  {
    var deposit := if AmountIn(l.columns, SecurityDepositAmount).Some? then AmountIn(l.columns, SecurityDepositAmount).value else 0.0;
    if form.netRefund.Some? then form.netRefund.value
    else if AmountIn(l.columns, SecurityDepositAmount).Some? && deposit - Deductions(l, form) > 0.0 then deposit - Deductions(l, form)
    else 0.0
  }

  function Settled(l: Lease, form: MoveOutForm): Lease {
    l.(status := Ended, columns := l.columns + FormColumns(form) + Totals(form.movedOutAt, Deductions(l, form), Refund(l, form)))
  }

  /** What the form leaves out is cleared. */
  function FormColumns(form: MoveOutForm): Columns {
    map f | f in MOVE_OUT_COLUMNS :: if f in form.columns then form.columns[f] else Null
  }

  function Totals(movedOutAt: Time, deductions: real, refund: real): Columns {
    map[ActualMoveOutDate := Date(movedOutAt), TotalDeductions := Decimal(deductions), NetRefund := Decimal(refund)]
  }

  function StayEnded(occupancies: map<Id, Occupancy>, stay: Id, at: Time): map<Id, Occupancy> {
    if stay in occupancies then occupancies[stay := occupancies[stay].(endAt := Some(at))] else occupancies
  }

  /** The effect of a move-out that has passed its checks. */
  function MovedOutStep(s: Estate, id: Id, form: MoveOutForm): Estate
    requires id in s.leases && s.leases[id].occupancy.Some?
  {
    var l := s.leases[id];
    s.(occupancies := StayEnded(s.occupancies, l.occupancy.value, form.movedOutAt),
       leases := s.leases[id := Settled(l, form)],
       history := Recorded(s.history, id, MovedOut, l, Settled(l, form)))
  }

  function MoveOutStep(s: Estate, id: Id, building: Id, form: MoveOutForm): Result<Estate, Error> {
    if id !in s.leases || s.leases[id].building != building then Failure(NotFound)
    else if s.leases[id].status != Active || s.leases[id].occupancy.None? then Failure(Conflict)
    else Success(MovedOutStep(s, id, form))
  }

  // ----------------------------------------------------------------- move requests

  predicate HasOpen(requests: seq<MoveRequest>, lease: Id) {
    exists k :: 0 <= k < |requests| && requests[k].lease == lease && requests[k].Open()
  }

  /** assertContractResidentOwnership */
  predicate Owns(s: Estate, id: Id, user: Id)
    requires id in s.leases
  {
    s.ResidentOf(s.leases[id]) == Some(user)
  }

  function RequestMoveInStep(s: Estate, id: Id, user: Id, moveAt: Time): Result<Estate, Error> {
    if id !in s.leases then Failure(NotFound)
    else if !Owns(s, id, user) then Failure(Unauthorized)
    else if s.leases[id].status != Active then Failure(BadRequest)
    else if s.leases[id].occupancy.Some? || HasOpen(s.moveIns, id) then Failure(Conflict)
    else Success(s.(moveIns := s.moveIns + [MoveRequest(id, user, PendingReview, moveAt, None)]))
  }

  function RequestMoveOutStep(s: Estate, id: Id, user: Id, moveAt: Time): Result<Estate, Error> {
    if id !in s.leases then Failure(NotFound)
    else if !Owns(s, id, user) then Failure(Unauthorized)
    else if s.leases[id].status != Active then Failure(BadRequest)
    else if !s.Occupied(s.leases[id]) || HasOpen(s.moveOuts, id) then Failure(Conflict)
    else Success(s.(moveOuts := s.moveOuts + [MoveRequest(id, user, PendingReview, moveAt, None)]))
  }

  function Reviewed(requests: seq<MoveRequest>, k: nat, approve: bool, permitted: bool, now: Time): Result<seq<MoveRequest>, Error> {
    if k >= |requests| then Failure(NotFound)
    else if !permitted then Failure(Forbidden)
    else if requests[k].status != PendingReview then Failure(Conflict)
    else Success(requests[k := requests[k].(status := if approve then Approved else Rejected, reviewedAt := Some(now))])
  }

  /** a before b when approved requests are ordered by review time, then by creation */
  predicate ReviewedBefore(a: MoveRequest, b: MoveRequest) {
    a.reviewedAt.Some? && (b.reviewedAt.None? || a.reviewedAt.value <= b.reviewedAt.value)
  }

  /** The approved request an execution picks: reviewed first, and among equals created first. */
  function FirstApproved(requests: seq<MoveRequest>, lease: Id): (r: Option<nat>)
    ensures r.Some? ==> r.value < |requests| && requests[r.value].lease == lease && requests[r.value].status == Approved
    ensures r.None? ==> forall k :: 0 <= k < |requests| && requests[k].lease == lease ==> requests[k].status != Approved
  {
    if requests == [] then None
    else
      var k := |requests| - 1;
      var best := FirstApproved(requests[..k], lease);
      if requests[k].lease != lease || requests[k].status != Approved then best
      else if best.None? || !ReviewedBefore(requests[best.value], requests[k]) then Some(k)
      else best
  }

  function ExecuteMoveInStep(s: Estate, id: Id, permitted: bool, stay: Id, now: Time): Result<Estate, Error> {
    if id !in s.leases then Failure(NotFound)
    else if !permitted then Failure(Forbidden)
    else
      var l := s.leases[id];
      var picked := FirstApproved(s.moveIns, id);
      if l.status != Active then Failure(BadRequest)
      else if l.occupancy.Some? || l.resident.None? || picked.None? then Failure(Conflict)
      else if s.UnitTaken(l.unit) || s.ResidentHoused(l.resident.value) || stay in s.occupancies then Failure(Conflict)
      else Success(s.(
        occupancies := s.occupancies[stay := Occupancy(l.building, l.unit, l.resident.value, now, None)],
        leases := s.leases[id := l.(occupancy := Some(stay))],
        moveIns := s.moveIns[picked.value := s.moveIns[picked.value].(status := Completed)]))
  }

  /** A move-out on the date the request names; a contract left early is cancelled. */
  function LeftByRequest(s: Estate, id: Id, k: nat): Estate
    requires id in s.leases && s.leases[id].occupancy.Some? && k < |s.moveOuts|
  {
    var moveAt := s.moveOuts[k].moveAt;
    var left := MovedOutStep(s, id, MoveOutForm(moveAt, map[], None, None));
    left.(
      leases := if moveAt < s.leases[id].endAt then left.leases[id := left.leases[id].(status := Cancelled)] else left.leases,
      moveOuts := s.moveOuts[k := s.moveOuts[k].(status := Completed)])
  }

  function ExecuteMoveOutStep(s: Estate, id: Id, permitted: bool): Result<Estate, Error> {
    if id !in s.leases then Failure(NotFound)
    else if !permitted then Failure(Forbidden)
    else
      var l := s.leases[id];
      var picked := FirstApproved(s.moveOuts, id);
      if l.occupancy.None? || picked.None? || l.status != Active then Failure(Conflict)
      else Success(LeftByRequest(s, id, picked.value))
  }

  // ------------------------------------------------ occupancies without a contract

  function CreateOccupancyStep(s: Estate, op: Op): Result<Estate, Error>
    requires op.CreateOccupancy?
  {
    if !op.unitInBuilding || !op.residentInOrg then Failure(BadRequest)
    else if s.UnitTaken(op.unit) || s.ResidentHoused(op.resident) || op.stay in s.occupancies then Failure(Conflict)
    else Success(s.(occupancies := s.occupancies[op.stay := Occupancy(op.building, op.unit, op.resident, op.now, None)]))
  }

  predicate Leaves(o: Occupancy, user: Id, building: Id, keep: Option<Id>) {
    o.resident == user && o.building == building && o.Active() && keep != Some(o.unit)
  }

  /** The user's active stays in a building end, except in the unit to keep. */
  function StaysLeft(occupancies: map<Id, Occupancy>, user: Id, building: Id, keep: Option<Id>, now: Time): map<Id, Occupancy> {
    map o | o in occupancies ::
      if Leaves(occupancies[o], user, building, keep) then occupancies[o].(endAt := Some(now)) else occupancies[o]
  }

  /** applyResidentGrant; the last check is the database's unique index on active stays. */
  function GrantStep(s: Estate, op: Op): Result<Estate, Error>
    requires op.GrantResidence?
  {
    if op.mode == Leave then
      Success(s.(occupancies := StaysLeft(s.occupancies, op.user, op.building, None, op.now)))
    else if !op.unitInBuilding then Failure(BadRequest)
    else if exists o :: o in s.occupancies && s.occupancies[o].Active() && s.occupancies[o].unit == op.unit && s.occupancies[o].resident != op.user then
      Failure(Conflict)
    else if op.mode == Add && exists o :: o in s.occupancies && s.occupancies[o].Active() && s.occupancies[o].resident == op.user && s.occupancies[o].unit != op.unit then
      Failure(Conflict)
    else
      var left := if op.mode == Move then s.(occupancies := StaysLeft(s.occupancies, op.user, op.building, Some(op.unit), op.now)) else s;
      if s.UnitTaken(op.unit) then Success(left)
      else if left.ResidentHoused(op.user) || op.stay in s.occupancies then Failure(Conflict)
      else Success(left.(occupancies := left.occupancies[op.stay := Occupancy(op.building, op.unit, op.user, op.now, None)]))
  }

  // ---------------------------------------------------------------------- one step

  function Step(s: Estate, op: Op): Result<Estate, Error> {
    match op
    case DraftContract(_, _, _, _, _, _, _, _, _, _) => DraftStep(s, op)
    case UpdateContract(id, patch) => UpdateContractStep(s, id, patch)
    case UpdateLease(id, patch) => UpdateLeaseStep(s, id, patch)
    case ActivateContract(id) => ActivateStep(s, id)
    case CancelContract(id, now) => CancelStep(s, id, now)
    case MoveIn(_, _, _, _, _, _, _, _, _, _) => MoveInStep(s, op)
    case MoveOut(id, building, form) => MoveOutStep(s, id, building, form)
    case RequestMoveIn(id, user, moveAt) => RequestMoveInStep(s, id, user, moveAt)
    case RequestMoveOut(id, user, moveAt) => RequestMoveOutStep(s, id, user, moveAt)
    case ReviewMoveIn(k, approve, permitted, now) =>
      var r := Reviewed(s.moveIns, k, approve, permitted, now);
      if r.Success? then Success(s.(moveIns := r.value)) else Failure(r.error)
    case ReviewMoveOut(k, approve, permitted, now) =>
      var r := Reviewed(s.moveOuts, k, approve, permitted, now);
      if r.Success? then Success(s.(moveOuts := r.value)) else Failure(r.error)
    case ExecuteMoveIn(id, permitted, stay, now) => ExecuteMoveInStep(s, id, permitted, stay, now)
    case ExecuteMoveOut(id, permitted) => ExecuteMoveOutStep(s, id, permitted)
    case CreateOccupancy(_, _, _, _, _, _, _) => CreateOccupancyStep(s, op)
    case GrantResidence(_, _, _, _, _, _, _) => GrantStep(s, op)
  }

  /** A run: the operations in order, those that are refused changing nothing. */
  function Run(s: Estate, ops: seq<Op>): Estate
    decreases ops
  {
    if ops == [] then s
    else
      var r := Step(s, ops[0]);
      Run(if r.Success? then r.value else s, ops[1..])
  }
}
