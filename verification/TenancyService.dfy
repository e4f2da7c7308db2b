/** The contract and lease services as the program has them: methods that check the
    tables step by step and update them in place. Each is proved to do what the step
    of the operation it implements does. */
module TenancyService {
  import opened Wrappers
  import H = LeaseHistory
  import opened Tenancy
  import TenancyInvariants

  type Id = H.Id
  type Time = H.Time

  /** An accepted operation takes the tables to the next state, a refused one leaves
      them alone and says why. */
  ghost predicate Did(before: Estate, op: Op, after: Estate, error: Option<Error>) {
    match Step(before, op)
    case Success(next) => error == None && after == next
    case Failure(e) => error == Some(e) && after == before
  }

  lemma ServiceKeepsConsistent(before: Estate, op: Op, after: Estate, error: Option<Error>)
    requires TenancyInvariants.Consistent(before)
    requires Did(before, op, after, error)
    ensures TenancyInvariants.Consistent(after)
  {
    if Step(before, op).Success? {
      TenancyInvariants.StepKeeps(before, op);
    }
  }

  /** moveOut accepts leases of the building that are ACTIVE and linked to a stay. */
  predicate CanMoveOut(s: Estate, id: Id, building: Id) {
    id in s.leases && s.leases[id].building == building && s.leases[id].status == Active && s.leases[id].occupancy.Some?
  }

  lemma MoveOutTouchesNoRequest(s: Estate, id: Id, form: MoveOutForm)
    requires id in s.leases && s.leases[id].occupancy.Some?
    ensures id in MovedOutStep(s, id, form).leases
    ensures MovedOutStep(s, id, form).moveIns == s.moveIns && MovedOutStep(s, id, form).moveOuts == s.moveOuts
  {
  }

  class TenancyTables {
    var occupancies: map<Id, Occupancy>
    var leases: map<Id, Lease>
    var moveIns: seq<MoveRequest>
    var moveOuts: seq<MoveRequest>
    var history: seq<H.HistoryRow>

    function State(): Estate
      reads this
    {
      Estate(occupancies, leases, moveIns, moveOuts, history)
    }

    constructor ()
      ensures State() == EMPTY
    {
      occupancies, leases, moveIns, moveOuts, history := map[], map[], [], [], [];
    }

    // ------------------------------------------------------------------ lookups

    method ActiveStayInUnit(unit: Id) returns (found: bool)
      ensures found == State().UnitTaken(unit)
    {
      found := exists o :: o in occupancies && occupancies[o].Active() && occupancies[o].unit == unit;
    }

    method ActiveStayOf(resident: Id) returns (found: bool)
      ensures found == State().ResidentHoused(resident)
    {
      found := exists o :: o in occupancies && occupancies[o].Active() && occupancies[o].resident == resident;
    }

    /** leaseHistoryRepo.create with the change set, unless there is no change */
    method RecordChange(id: Id, action: H.Action, previous: Lease, current: Lease)
      modifies this`history
      ensures history == Recorded(old(history), id, action, previous, current)
    {
      var changes := H.BuildLeaseChangeSet(previous.Row(), current.Row());
      if changes != map[] {
        history := history + [H.HistoryRow(id, action, changes)];
      }
    }

    method RecordCreation(id: Id, lease: Lease)
      modifies this`history
      ensures history == CreationRecorded(old(history), id, lease)
    {
      var changes := H.BuildLeaseChangeSet(map[], lease.Row());
      history := history + [H.HistoryRow(id, H.Created, changes)];
    }

    // ---------------------------------------------------------------- contracts

    method CreateDraftContract(id: Id, building: Id, unit: Id, unitInBuilding: bool, resident: Id, residentInOrg: bool,
                               startAt: Time, endAt: Time, terms: H.Columns, onRecord: H.Columns)
      returns (error: Option<Error>)
      modifies this
      ensures Did(old(State()), DraftContract(id, building, unit, unitInBuilding, resident, residentInOrg, startAt, endAt, terms, onRecord),
                  State(), error)
    {
      if !unitInBuilding {
        return Some(BadRequest);
      }
      if !residentInOrg {
        return Some(BadRequest);
      }
      if endAt <= startAt {
        return Some(BadRequest);
      }
      if exists l :: l in leases && leases[l].unit == unit && leases[l].status == Active {
        return Some(Conflict);
      }
      if id in leases {
        return Some(Conflict);
      }
      var columns := Only(onRecord, SNAPSHOT_COLUMNS) + terms;
      if H.ContractValue !in terms && H.AnnualRent in terms {
        columns := columns[H.ContractValue := terms[H.AnnualRent]];
      }
      var lease := Lease(building, unit, None, Some(resident), Draft, startAt, endAt, columns);
      leases := leases[id := lease];
      RecordCreation(id, lease);
      error := None;
    }

    method UpdateContractTerms(id: Id, patch: Patch) returns (error: Option<Error>)
      modifies this
      ensures Did(old(State()), UpdateContract(id, patch), State(), error)
    {
      if id !in leases {
        return Some(NotFound);
      }
      var before := leases[id];
      if before.status == Active && before.HasIjari() {
        if TouchesLegalTerms(patch) {
          return Some(Conflict);
        }
      }
      if patch.startAt.Some? || patch.endAt.Some? {
        var startAt := if patch.startAt.Some? then patch.startAt.value else before.startAt;
        var endAt := if patch.endAt.Some? then patch.endAt.value else before.endAt;
        if endAt <= startAt {
          return Some(BadRequest);
        }
      }
      var lease := Patched(before, patch, CONTRACT_COLUMNS);
      leases := leases[id := lease];
      RecordChange(id, H.Updated, before, lease);
      error := None;
    }

    method UpdateLeaseTerms(id: Id, patch: Patch) returns (error: Option<Error>)
      modifies this
      ensures Did(old(State()), UpdateLease(id, patch), State(), error)
    {
      if id !in leases {
        return Some(NotFound);
      }
      var before := leases[id];
      if patch.startAt.None? && patch.endAt.None? && Only(patch.columns, LEASE_COLUMNS) == map[] {
        return Some(BadRequest);
      }
      var updated := Patched(before, patch, LEASE_COLUMNS);
      if updated.endAt <= updated.startAt {
        return Some(BadRequest);
      }
      leases := leases[id := updated];
      RecordChange(id, H.Updated, before, updated);
      error := None;
    }

    method Activate(id: Id) returns (error: Option<Error>)
      modifies this
      ensures Did(old(State()), ActivateContract(id), State(), error)
    {
      if id !in leases {
        return Some(NotFound);
      }
      var existing := leases[id];
      if existing.status == Ended {
        return Some(Conflict);
      }
      if existing.status == Active {
        assert leases == leases[id := existing.(status := Active)];
        return None;
      }
      leases := leases[id := existing.(status := Active)];
      error := None;
    }

    method Cancel(id: Id, now: Time) returns (error: Option<Error>)
      modifies this
      ensures Did(old(State()), CancelContract(id, now), State(), error)
    {
      if id !in leases {
        return Some(NotFound);
      }
      var existing := leases[id];
      if existing.status == Ended {
        return Some(Conflict);
      }
      if existing.status == Active && existing.occupancy.Some? {
        var form := MoveOutForm(now, map[], None, None);
        MoveOutTouchesNoRequest(State(), id, form);
        var _ := DoMoveOut(id, existing.building, form);
      }
      WithdrawAndCancel(id);
      error := None;
    }

    /** cancelContract's transaction */
    method WithdrawAndCancel(id: Id)
      requires id in leases
      modifies this
      ensures State() == old(State()).(
                leases := old(leases)[id := old(leases)[id].(status := Cancelled)],
                moveIns := WithdrawOpen(old(moveIns), id),
                moveOuts := WithdrawOpen(old(moveOuts), id))
    {
      moveIns := WithdrawOpen(moveIns, id);
      moveOuts := WithdrawOpen(moveOuts, id);
      leases := leases[id := leases[id].(status := Cancelled)];
    }

    // ------------------------------------------------------- moving in and out

    method DoMoveIn(id: Id, building: Id, unit: Id, unitInBuilding: bool, resident: Id, residentInOrg: bool, stay: Id,
                    startAt: Time, endAt: Time, terms: H.Columns)
      returns (error: Option<Error>)
      modifies this
      ensures Did(old(State()), MoveIn(id, building, unit, unitInBuilding, resident, residentInOrg, stay, startAt, endAt, terms),
                  State(), error)
    {
      if !unitInBuilding {
        return Some(BadRequest);
      }
      if !residentInOrg {
        return Some(NotFound);
      }
      var unitActive := ActiveStayInUnit(unit);
      if unitActive {
        return Some(Conflict);
      }
      var residentActive := ActiveStayOf(resident);
      if residentActive {
        return Some(Conflict);
      }
      if stay in occupancies || id in leases {
        return Some(Conflict);
      }
      occupancies := occupancies[stay := Occupancy(building, unit, resident, startAt, None)];
      var lease := Lease(building, unit, Some(stay), None, Active, startAt, endAt, terms);
      leases := leases[id := lease];
      RecordCreation(id, lease);
      error := None;
    }

    method DoMoveOut(id: Id, building: Id, form: MoveOutForm) returns (error: Option<Error>)
      modifies this
      ensures Did(old(State()), MoveOut(id, building, form), State(), error)
      ensures if CanMoveOut(old(State()), id, building) then error == None && State() == MovedOutStep(old(State()), id, form)
              else error.Some? && State() == old(State())
    {
      if id !in leases || leases[id].building != building {
        return Some(NotFound);
      }
      var lease := leases[id];
      if lease.status != Active {
        return Some(Conflict);
      }
      if lease.occupancy.None? {
        return Some(Conflict);
      }
      EndTenancy(id, form);
      error := None;
    }

    /** moveOut's transaction */
    method EndTenancy(id: Id, form: MoveOutForm)
      requires id in leases && leases[id].occupancy.Some?
      modifies this
      ensures State() == MovedOutStep(old(State()), id, form)
    {
      var lease := leases[id];
      var stay := lease.occupancy.value;
      if stay in occupancies {
        occupancies := occupancies[stay := occupancies[stay].(endAt := Some(form.movedOutAt))];
      }
      var updated := Settled(lease, form);
      leases := leases[id := updated];
      RecordChange(id, H.MovedOut, lease, updated);
    }

    // ------------------------------------------------------------ move requests

    method CreateMoveInRequest(id: Id, user: Id, moveAt: Time) returns (error: Option<Error>)
      modifies this
      ensures Did(old(State()), RequestMoveIn(id, user, moveAt), State(), error)
    {
      if id !in leases {
        return Some(NotFound);
      }
      if !Owns(State(), id, user) {
        return Some(Unauthorized);
      }
      var contract := leases[id];
      if contract.status != Active {
        return Some(BadRequest);
      }
      if contract.occupancy.Some? {
        return Some(Conflict);
      }
      if HasOpen(moveIns, id) {
        return Some(Conflict);
      }
      moveIns := moveIns + [MoveRequest(id, user, PendingReview, moveAt, None)];
      error := None;
    }

    method CreateMoveOutRequest(id: Id, user: Id, moveAt: Time) returns (error: Option<Error>)
      modifies this
      ensures Did(old(State()), RequestMoveOut(id, user, moveAt), State(), error)
    {
      if id !in leases {
        return Some(NotFound);
      }
      if !Owns(State(), id, user) {
        return Some(Unauthorized);
      }
      var contract := leases[id];
      if contract.status != Active {
        return Some(BadRequest);
      }
      if contract.occupancy.None? || contract.occupancy.value !in occupancies || !occupancies[contract.occupancy.value].Active() {
        return Some(Conflict);
      }
      if HasOpen(moveOuts, id) {
        return Some(Conflict);
      }
      moveOuts := moveOuts + [MoveRequest(id, user, PendingReview, moveAt, None)];
      error := None;
    }

    method Review(requests: seq<MoveRequest>, k: nat, approve: bool, permitted: bool, now: Time)
      returns (updated: seq<MoveRequest>, error: Option<Error>)
      ensures match Reviewed(requests, k, approve, permitted, now)
              case Success(next) => updated == next && error == None
              case Failure(e) => updated == requests && error == Some(e)
    {
      updated := requests;
      if k >= |requests| {
        return updated, Some(NotFound);
      }
      if !permitted {
        return updated, Some(Forbidden);
      }
      if requests[k].status != PendingReview {
        return updated, Some(Conflict);
      }
      var verdict := if approve then Approved else Rejected;
      updated := updated[k := requests[k].(status := verdict, reviewedAt := Some(now))];
      error := None;
    }

    method ReviewMoveInRequest(k: nat, approve: bool, permitted: bool, now: Time) returns (error: Option<Error>)
      modifies this
      ensures Did(old(State()), ReviewMoveIn(k, approve, permitted, now), State(), error)
    {
      moveIns, error := Review(moveIns, k, approve, permitted, now);
    }

    method ReviewMoveOutRequest(k: nat, approve: bool, permitted: bool, now: Time) returns (error: Option<Error>)
      modifies this
      ensures Did(old(State()), ReviewMoveOut(k, approve, permitted, now), State(), error)
    {
      moveOuts, error := Review(moveOuts, k, approve, permitted, now);
    }

    method ExecuteApprovedMoveIn(id: Id, permitted: bool, stay: Id, now: Time) returns (error: Option<Error>)
      modifies this
      ensures Did(old(State()), ExecuteMoveIn(id, permitted, stay, now), State(), error)
    {
      if id !in leases {
        return Some(NotFound);
      }
      if !permitted {
        return Some(Forbidden);
      }
      var contract := leases[id];
      if contract.status != Active {
        return Some(BadRequest);
      }
      if contract.occupancy.Some? {
        return Some(Conflict);
      }
      if contract.resident.None? {
        return Some(Conflict);
      }
      var approved := FirstApproved(moveIns, id);
      if approved.None? {
        return Some(Conflict);
      }
      var unitActive := ActiveStayInUnit(contract.unit);
      if unitActive {
        return Some(Conflict);
      }
      var residentActive := ActiveStayOf(contract.resident.value);
      if residentActive {
        return Some(Conflict);
      }
      if stay in occupancies {
        return Some(Conflict);
      }
      occupancies := occupancies[stay := Occupancy(contract.building, contract.unit, contract.resident.value, now, None)];
      leases := leases[id := contract.(occupancy := Some(stay), status := Active)];
      moveIns := moveIns[approved.value := moveIns[approved.value].(status := Completed)];
      error := None;
    }

    method ExecuteApprovedMoveOut(id: Id, permitted: bool) returns (error: Option<Error>)
      modifies this
      ensures Did(old(State()), ExecuteMoveOut(id, permitted), State(), error)
    {
      if id !in leases {
        return Some(NotFound);
      }
      if !permitted {
        return Some(Forbidden);
      }
      var contract := leases[id];
      if contract.occupancy.None? {
        return Some(Conflict);
      }
      var approved := FirstApproved(moveOuts, id);
      if approved.None? {
        return Some(Conflict);
      }
      if contract.status != Active {
        return Some(Conflict);
      }
      LeaveByRequest(id, approved.value);
      error := None;
    }

    /** The move-out, then the transaction that completes the request. */
    method LeaveByRequest(id: Id, k: nat)
      requires id in leases && leases[id].status == Active && leases[id].occupancy.Some? && k < |moveOuts|
      modifies this
      ensures State() == LeftByRequest(old(State()), id, k)
    {
      var contract, moveAt := leases[id], moveOuts[k].moveAt;
      var form := MoveOutForm(moveAt, map[], None, None);
      MoveOutTouchesNoRequest(State(), id, form);
      var _ := DoMoveOut(id, contract.building, form);
      CompleteMoveOut(id, k, moveAt < contract.endAt);
    }

    /** The second transaction of an executed move-out: a contract left early is cancelled. */
    method CompleteMoveOut(id: Id, k: nat, early: bool)
      requires id in leases && k < |moveOuts|
      modifies this
      ensures State() == old(State()).(
                leases := if early then old(leases)[id := old(leases)[id].(status := Cancelled)] else old(leases),
                moveOuts := old(moveOuts)[k := old(moveOuts)[k].(status := Completed)])
    {
      moveOuts := moveOuts[k := moveOuts[k].(status := Completed)];
      if early {
        leases := leases[id := leases[id].(status := Cancelled)];
      }
    }

    // ---------------------------------------------------- without a contract

    method CreateStay(building: Id, unit: Id, unitInBuilding: bool, resident: Id, residentInOrg: bool, stay: Id, now: Time)
      returns (error: Option<Error>)
      modifies this
      ensures Did(old(State()), CreateOccupancy(building, unit, unitInBuilding, resident, residentInOrg, stay, now), State(), error)
    {
      if !unitInBuilding {
        return Some(BadRequest);
      }
      if !residentInOrg {
        return Some(BadRequest);
      }
      var unitActive := ActiveStayInUnit(unit);
      if unitActive {
        return Some(Conflict);
      }
      var residentActive := ActiveStayOf(resident);
      if residentActive {
        return Some(Conflict);
      }
      if stay in occupancies {
        return Some(Conflict);
      }
      occupancies := occupancies[stay := Occupancy(building, unit, resident, now, None)];
      error := None;
    }

    /** applyResidentGrant; a refused insert rolls the ended stays back */
    method ApplyResidentGrant(mode: GrantMode, user: Id, building: Id, unit: Id, unitInBuilding: bool, stay: Id, now: Time)
      returns (error: Option<Error>)
      modifies this
      ensures Did(old(State()), GrantResidence(mode, user, building, unit, unitInBuilding, stay, now), State(), error)
    {
      if mode == Leave {
        occupancies := StaysLeft(occupancies, user, building, None, now);
        return None;
      }
      if !unitInBuilding {
        return Some(BadRequest);
      }
      if exists o :: o in occupancies && occupancies[o].Active() && occupancies[o].unit == unit && occupancies[o].resident != user {
        return Some(Conflict);
      }
      if mode == Add {
        if exists o :: o in occupancies && occupancies[o].Active() && occupancies[o].resident == user && occupancies[o].unit != unit {
          return Some(Conflict);
        }
      }
      var before := occupancies;
      var taken := ActiveStayInUnit(unit);
      if mode == Move {
        occupancies := StaysLeft(occupancies, user, building, Some(unit), now);
      }
      if taken {
        return None;
      }
      var housed := ActiveStayOf(user);
      if housed || stay in before {
        occupancies := before;
        return Some(Conflict);
      }
      occupancies := occupancies[stay := Occupancy(building, unit, user, now, None)];
      error := None;
    }
  }
}
