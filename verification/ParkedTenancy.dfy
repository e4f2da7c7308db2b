/** Parking and tenancy in one state: move-ins take slots, move-outs give them back, and in
    between the slots of a stay depend on its lease (lease-lifecycle.service.ts,
    parking.service.ts). */
module ParkedTenancy {
  import opened Wrappers
  import opened T = Tenancy
  import opened TenancyInvariants
  import opened TenancyProperties
  import opened TenancyExpectations
  import opened TenancyStays
  import H = LeaseHistory
  import P = Parking

  type Id = H.Id
  type Time = H.Time

  datatype Town = Town(estate: Estate, lot: P.Lot)

  const NO_TOWN := Town(EMPTY, P.Lot(map[], []))

  /** An operation on the tenancy, which takes the slots asked for if it is a move-in, or
      one on the parking lot. */
  datatype TownOp =
    | Tenant(op: T.Op, slots: seq<Id>)
    | PutSlot(slot: Id, row: P.Slot)
    | Allocate(building: Id, holder: P.Holder, wanted: seq<Id>, now: Time)
    | AllocateAny(building: Id, holder: P.Holder, listed: seq<Id>, count: nat, now: Time)
    | EndOne(k: nat, at: Time)
    | EndAll(holder: P.Holder, at: Time)

  /** assertActiveLeaseContextForOccupancy: what is wrong with the lease of a stay. */
  function ContextError(e: Estate, stay: Id): Option<P.Error> {
    if stay !in e.occupancies then Some(P.NotFound)
    else if !e.occupancies[stay].Active() then Some(P.BadRequest)
    else if exists l :: l in e.leases && e.leases[l].occupancy == Some(stay) && e.leases[l].status == Active then None
    else Some(P.BadRequest)
  }

  function HolderError(e: Estate, holder: P.Holder): Option<P.Error> {
    if holder.Stay? then ContextError(e, holder.occupancy) else None
  }

  /** Slots of a building go to stays of that building. */
  predicate MayHold(e: Estate, building: Id, holder: P.Holder) {
    holder.Stay? ==> ContextError(e, holder.occupancy).None? && e.occupancies[holder.occupancy].building == building
  }

  /** The slots a tenancy operation takes and gives back; none if a slot is refused, which
      rolls the whole move-in back. */
  function LotAfter(w: Town, op: T.Op, slots: seq<Id>): Option<P.Lot> {
    if op.MoveIn? && slots != [] then
      var r := P.AllocateStep(w.lot, op.building, P.Stay(op.stay), slots, op.startAt);
      if r.Success? then Some(r.value) else None
    else if EndedBy(w.estate, op).Some? then
      var e := EndedBy(w.estate, op).value;
      Some(w.lot.(allocations := P.Ended(w.lot.allocations, P.Stay(e.stay), e.at)))
    else Some(w.lot)
  }

  function Lotted(w: Town, r: Result<P.Lot, P.Error>): Option<Town> {
    if r.Success? then Some(w.(lot := r.value)) else None
  }

  /** The next state, or none if the operation is refused. */
  function Next(w: Town, op: TownOp): Option<Town> {
    match op
    case Tenant(t, slots) =>
      if T.Step(w.estate, t).Success? && LotAfter(w, t, slots).Some?
      then Some(Town(T.Step(w.estate, t).value, LotAfter(w, t, slots).value)) else None
    case PutSlot(slot, row) => Lotted(w, P.Step(w.lot, P.Op.PutSlot(slot, row)))
    case Allocate(building, holder, wanted, now) =>
      if MayHold(w.estate, building, holder) then Lotted(w, P.Step(w.lot, P.AllocateThese(building, holder, wanted, now))) else None
    case AllocateAny(building, holder, listed, count, now) =>
      if MayHold(w.estate, building, holder) then Lotted(w, P.Step(w.lot, P.Op.AllocateAny(building, holder, listed, count, now))) else None
    case EndOne(k, at) =>
      if k < |w.lot.allocations|
      then Lotted(w, P.Step(w.lot, P.Op.EndOne(k, HolderError(w.estate, w.lot.allocations[k].holder), at))) else None
    case EndAll(holder, at) =>
      if HolderError(w.estate, holder).None? then Lotted(w, P.Step(w.lot, P.Op.EndAll(holder, at))) else None
  }

  function Run(w: Town, ops: seq<TownOp>): Town
    decreases |ops|
  {
    if ops == [] then w
    else
      var r := Next(w, ops[0]);
      Run(if r.Some? then r.value else w, ops[1..])
  }

  // ------------------------------------------------------------- what a run keeps

  /** The allocation is open, and held by a stay. */
  predicate Parks(a: P.Allocation) {
    a.endAt.None? && a.holder.Stay?
  }

  predicate LinkedActive(leases: map<Id, Lease>, stay: Id) {
    exists l :: l in leases && leases[l].occupancy == Some(stay) && leases[l].status == Active
  }

  /** Whoever holds a slot has an ACTIVE lease. */
  ghost predicate Anchored(leases: map<Id, Lease>, allocations: seq<P.Allocation>) {
    forall k :: 0 <= k < |allocations| && Parks(allocations[k]) ==> LinkedActive(leases, allocations[k].holder.occupancy)
  }

  ghost predicate Good(w: Town) {
    Consistent(w.estate) && P.HeldOnce(w.lot.allocations) && Anchored(w.estate.leases, w.lot.allocations)
  }

  /** No operation but the one that moves out of it takes an ACTIVE lease from its stay. */
  lemma AnchorHolds(s: Estate, op: T.Op, l: Id)
    requires l in s.leases && s.leases[l].status == Active && s.leases[l].occupancy.Some? && T.Step(s, op).Success?
    requires EndedBy(s, op).Some? ==> EndedBy(s, op).value.stay != s.leases[l].occupancy.value
    ensures l in T.Step(s, op).value.leases
    ensures T.Step(s, op).value.leases[l].status == Active && T.Step(s, op).value.leases[l].occupancy == s.leases[l].occupancy
  {
    StepKeepsEndings(s, op, l);
    if op.CancelContract? || op.MoveOut? || op.ExecuteMoveOut? {
      EndingSparesTheOthers(s, op, l);
    }
  }

  lemma EndingSparesTheOthers(s: Estate, op: T.Op, l: Id)
    requires l in s.leases && T.Step(s, op).Success? && (op.CancelContract? || op.MoveOut? || op.ExecuteMoveOut?) && op.id != l
    ensures l in T.Step(s, op).value.leases && T.Step(s, op).value.leases[l] == s.leases[l]
  {
    match op {
      case CancelContract(id, now) =>
        if s.leases[id].status == Active && s.leases[id].occupancy.Some? {
          MoveOutLasts(s, id, MoveOutForm(now, map[], None, None), l);
        }
      case MoveOut(id, _, form) => MoveOutLasts(s, id, form, l);
      case ExecuteMoveOut(id, _) =>
        MoveOutLasts(s, id, MoveOutForm(s.moveOuts[FirstApproved(s.moveOuts, id).value].moveAt, map[], None, None), l);
    }
  }

  lemma LinkHolds(s: Estate, op: T.Op, stay: Id)
    requires LinkedActive(s.leases, stay) && T.Step(s, op).Success?
    requires EndedBy(s, op).Some? ==> EndedBy(s, op).value.stay != stay
    ensures LinkedActive(T.Step(s, op).value.leases, stay)
  {
    var l :| l in s.leases && s.leases[l].occupancy == Some(stay) && s.leases[l].status == Active;
    AnchorHolds(s, op, l);
  }

  lemma MoveInAnchors(s: Estate, op: T.Op)
    requires op.MoveIn? && T.Step(s, op).Success?
    ensures LinkedActive(T.Step(s, op).value.leases, op.stay)
  {
    assert T.Step(s, op).value.leases[op.id] == MovedIn(op);
  }

  lemma TenantKeepsAnchors(w: Town, op: T.Op, slots: seq<Id>)
    requires Good(w) && Next(w, Tenant(op, slots)).Some?
    ensures Anchored(Next(w, Tenant(op, slots)).value.estate.leases, Next(w, Tenant(op, slots)).value.lot.allocations)
  {
    var leases, allocations := T.Step(w.estate, op).value.leases, LotAfter(w, op, slots).value.allocations;
    forall k | 0 <= k < |allocations| && Parks(allocations[k])
      ensures LinkedActive(leases, allocations[k].holder.occupancy)
    {
      if k < |w.lot.allocations| {
        assert Parks(w.lot.allocations[k]) && allocations[k] == w.lot.allocations[k];
        LinkHolds(w.estate, op, allocations[k].holder.occupancy);
      } else {
        MoveInAnchors(w.estate, op);
      }
    }
  }

  lemma TenantKeepsHolders(w: Town, op: T.Op, slots: seq<Id>)
    requires P.HeldOnce(w.lot.allocations) && LotAfter(w, op, slots).Some?
    ensures P.HeldOnce(LotAfter(w, op, slots).value.allocations)
  {
    if op.MoveIn? && slots != [] {
      P.StepKeeps(w.lot, P.AllocateThese(op.building, P.Stay(op.stay), slots, op.startAt));
    }
  }

  /** Operations on the lot open slots only for stays whose lease is ACTIVE. */
  lemma LotKeepsAnchors(w: Town, op: TownOp)
    requires Good(w) && !op.Tenant? && Next(w, op).Some?
    ensures Anchored(w.estate.leases, Next(w, op).value.lot.allocations)
  {
    var allocations := Next(w, op).value.lot.allocations;
    forall k | 0 <= k < |allocations| && Parks(allocations[k])
      ensures LinkedActive(w.estate.leases, allocations[k].holder.occupancy)
    {
      if k < |w.lot.allocations| {
        assert Parks(w.lot.allocations[k]) && w.lot.allocations[k].holder == allocations[k].holder;
      } else {
        assert MayHold(w.estate, op.building, op.holder) && allocations[k].holder == op.holder;
      }
    }
  }

  lemma LotKeepsHolders(w: Town, op: TownOp)
    requires P.HeldOnce(w.lot.allocations) && !op.Tenant? && Next(w, op).Some?
    ensures P.HeldOnce(Next(w, op).value.lot.allocations) && Next(w, op).value.estate == w.estate
  {
    match op {
      case PutSlot(slot, row) => P.StepKeeps(w.lot, P.Op.PutSlot(slot, row));
      case Allocate(building, holder, wanted, now) => P.StepKeeps(w.lot, P.AllocateThese(building, holder, wanted, now));
      case AllocateAny(building, holder, listed, count, now) => P.StepKeeps(w.lot, P.Op.AllocateAny(building, holder, listed, count, now));
      case EndOne(k, at) => P.StepKeeps(w.lot, P.Op.EndOne(k, HolderError(w.estate, w.lot.allocations[k].holder), at));
      case EndAll(holder, at) => P.StepKeeps(w.lot, P.Op.EndAll(holder, at));
    }
  }

  lemma StepKeepsGood(w: Town, op: TownOp)
    requires Good(w) && Next(w, op).Some?
    ensures Good(Next(w, op).value)
  {
    if op.Tenant? {
      StepKeeps(w.estate, op.op);
      TenantKeepsAnchors(w, op.op, op.slots);
      TenantKeepsHolders(w, op.op, op.slots);
    } else {
      LotKeepsAnchors(w, op);
      LotKeepsHolders(w, op);
    }
  }

  /** Over every run of the tenancy and the parking lot, one holder at a time holds a slot,
      and a stay that holds one has an ACTIVE lease. */
  lemma {:induction false} RunKeepsGood(w: Town, ops: seq<TownOp>)
    requires Good(w)
    ensures Good(Run(w, ops))
    decreases |ops|
  {
    if ops != [] {
      var r := Next(w, ops[0]);
      if r.Some? {
        StepKeepsGood(w, ops[0]);
        RunKeepsGood(r.value, ops[1..]);
      } else {
        RunKeepsGood(w, ops[1..]);
      }
    }
  }

  // -------------------------------------------------- slots of stays that are over

  /** Whoever holds a slot lives there. */
  ghost predicate HoldersLive(occupancies: map<Id, Occupancy>, allocations: seq<P.Allocation>) {
    forall k :: 0 <= k < |allocations| && Parks(allocations[k]) ==> Lives(occupancies, allocations[k].holder.occupancy)
  }

  /** The step is a grant that ends a stay which holds a slot. */
  predicate Evicts(w: Town, op: TownOp) {
    && op.Tenant?
    && exists k :: 0 <= k < |w.lot.allocations| && Parks(w.lot.allocations[k]) && w.lot.allocations[k].holder.occupancy in w.estate.occupancies
                   && LeftBy(op.op, w.estate.occupancies[w.lot.allocations[k].holder.occupancy])
  }

  lemma GrantKeepsTheLot(w: Town, op: T.Op, slots: seq<Id>)
    requires op.GrantResidence?
    ensures LotAfter(w, op, slots) == Some(w.lot)
  {
  }

  lemma EvictionBreaks(w: Town, op: TownOp)
    requires Next(w, op).Some? && Evicts(w, op)
    ensures !HoldersLive(Next(w, op).value.estate.occupancies, Next(w, op).value.lot.allocations)
  {
    var k :| 0 <= k < |w.lot.allocations| && Parks(w.lot.allocations[k]) && w.lot.allocations[k].holder.occupancy in w.estate.occupancies
             && LeftBy(op.op, w.estate.occupancies[w.lot.allocations[k].holder.occupancy]);
    var stay := w.lot.allocations[k].holder.occupancy;
    GrantKeepsTheLot(w, op.op, op.slots);
    StayLivesOnExactly(w.estate, op.op, stay);
    assert Next(w, op).value.lot.allocations[k] == w.lot.allocations[k];
    assert !Lives(Next(w, op).value.estate.occupancies, stay);
  }

  /** What a tenancy operation leaves open was open, or is the move-in's own. */
  lemma TenantLeavesOpen(w: Town, op: T.Op, slots: seq<Id>, k: nat)
    requires LotAfter(w, op, slots).Some? && k < |LotAfter(w, op, slots).value.allocations|
    requires Parks(LotAfter(w, op, slots).value.allocations[k])
    ensures var a := LotAfter(w, op, slots).value.allocations[k];
            if k < |w.lot.allocations|
            then a == w.lot.allocations[k] && (EndedBy(w.estate, op).Some? ==> a.holder.occupancy != EndedBy(w.estate, op).value.stay)
            else op.MoveIn? && a.holder == P.Stay(op.stay)
  {
  }

  lemma TenantKeepsHoldersLiving(w: Town, op: TownOp)
    requires HoldersLive(w.estate.occupancies, w.lot.allocations) && op.Tenant? && Next(w, op).Some? && !Evicts(w, op)
    ensures HoldersLive(Next(w, op).value.estate.occupancies, Next(w, op).value.lot.allocations)
  {
    var occupancies, allocations := Next(w, op).value.estate.occupancies, Next(w, op).value.lot.allocations;
    forall k | 0 <= k < |allocations| && Parks(allocations[k])
      ensures Lives(occupancies, allocations[k].holder.occupancy)
    {
      TenantLeavesOpen(w, op.op, op.slots, k);
      if k < |w.lot.allocations| {
        assert Lives(w.estate.occupancies, w.lot.allocations[k].holder.occupancy);
        StayLivesOnExactly(w.estate, op.op, allocations[k].holder.occupancy);
      } else {
        StepOnStays(w.estate, op.op);
      }
    }
  }

  lemma LotKeepsHoldersLiving(w: Town, op: TownOp)
    requires HoldersLive(w.estate.occupancies, w.lot.allocations) && !op.Tenant? && Next(w, op).Some?
    ensures HoldersLive(Next(w, op).value.estate.occupancies, Next(w, op).value.lot.allocations)
  {
    var allocations := Next(w, op).value.lot.allocations;
    forall k | 0 <= k < |allocations| && Parks(allocations[k])
      ensures Lives(w.estate.occupancies, allocations[k].holder.occupancy)
    {
      if k < |w.lot.allocations| {
        assert Parks(w.lot.allocations[k]) && w.lot.allocations[k].holder == allocations[k].holder;
      } else {
        assert MayHold(w.estate, op.building, op.holder) && allocations[k].holder == op.holder;
      }
    }
  }

  /** A step of any operation leaves every slot with a stay that is ACTIVE exactly when it
      is no grant that ends a stay which holds one. */
  lemma StepKeepsHoldersLivingExactly(w: Town, op: TownOp)
    requires HoldersLive(w.estate.occupancies, w.lot.allocations) && Next(w, op).Some?
    ensures HoldersLive(Next(w, op).value.estate.occupancies, Next(w, op).value.lot.allocations) <==> !Evicts(w, op)
  {
    if Evicts(w, op) {
      EvictionBreaks(w, op);
    } else if op.Tenant? {
      TenantKeepsHoldersLiving(w, op);
    } else {
      LotKeepsHoldersLiving(w, op);
    }
  }

  /** An open slot of a stay can be given back by itself exactly while the stay is ACTIVE. */
  lemma GivenBackExactlyWhileLiving(w: Town, k: nat, at: Time)
    requires Good(w) && k < |w.lot.allocations| && Parks(w.lot.allocations[k])
    ensures Next(w, EndOne(k, at)).Some? <==> Lives(w.estate.occupancies, w.lot.allocations[k].holder.occupancy)
  {
    assert LinkedActive(w.estate.leases, w.lot.allocations[k].holder.occupancy);
  }

  /** Once the stay is over, a step gives its slot back exactly when it moves the lease of
      the stay out: by a move-out, a cancellation, or an executed move-out. */
  lemma FreedExactlyByMovingOut(w: Town, op: TownOp, k: nat)
    requires Good(w) && Next(w, op).Some?
    requires k < |w.lot.allocations| && Parks(w.lot.allocations[k]) && !Lives(w.estate.occupancies, w.lot.allocations[k].holder.occupancy)
    ensures k < |Next(w, op).value.lot.allocations|
    ensures Next(w, op).value.lot.allocations[k].endAt.Some?
       <==> (op.Tenant? && EndedBy(w.estate, op.op).Some? && EndedBy(w.estate, op.op).value.stay == w.lot.allocations[k].holder.occupancy)
  {
    if op.EndOne? && op.k == k {
      GivenBackExactlyWhileLiving(w, k, op.at);
    }
  }

  lemma MoveOutIsAccepted(s: Estate, op: T.Op)
    requires op.MoveOut? && op.id in s.leases && s.leases[op.id].status == Active && s.leases[op.id].occupancy.Some?
    requires op.building == s.leases[op.id].building
    ensures T.Step(s, op).Success? && EndedBy(s, op) == Some(Ending(s.leases[op.id].occupancy.value, op.form.movedOutAt))
  {
  }

  /** And it is never lost: from every reachable state one accepted move-out gives it back. */
  lemma EverySlotCanBeGivenBack(w: Town, k: nat, form: MoveOutForm) returns (op: TownOp)
    requires Good(w) && k < |w.lot.allocations| && Parks(w.lot.allocations[k])
    ensures op.Tenant? && op.op.MoveOut? && Next(w, op).Some?
    ensures k < |Next(w, op).value.lot.allocations| && Next(w, op).value.lot.allocations[k].endAt.Some?
  {
    var stay := w.lot.allocations[k].holder.occupancy;
    assert LinkedActive(w.estate.leases, stay);
    var l :| l in w.estate.leases && w.estate.leases[l].occupancy == Some(stay) && w.estate.leases[l].status == Active;
    op := Tenant(MoveOut(l, w.estate.leases[l].building, form), []);
    MoveOutIsAccepted(w.estate, op.op);
  }

  // ------------------------------------------------------------------- a witness

  lemma RunOne(w: Town, ops: seq<TownOp>)
    requires ops != [] && Next(w, ops[0]).Some?
    ensures Run(w, ops) == Run(Next(w, ops[0]).value, ops[1..])
  {
  }

  lemma ParkedMoveIn(w: Town, op: T.Op, slot: Id)
    requires w.estate == EMPTY && w.lot.allocations == [] && MovesIn(op)
    requires w.lot.Usable(slot, op.building)
    ensures Next(w, Tenant(op, [slot])).Some?
    ensures Next(w, Tenant(op, [slot])).value == Town(T.Step(EMPTY, op).value, w.lot.(allocations := P.Opened([slot], P.Stay(op.stay), op.startAt)))
  {
    FirstMoveIn(op);
    P.RowsMatchExactly(w.lot, op.building, [slot]);
    assert forall s :: !w.lot.Held(s);
    assert [] + P.Opened([slot], P.Stay(op.stay), op.startAt) == P.Opened([slot], P.Stay(op.stay), op.startAt);
  }

  /** A resident moved in with a slot who loses the residence leaves the slot held by a stay
      that is over, and giving it back is refused. */
  lemma HeldByAPastStayIsReachable(slot: Id, moveIn: T.Op, leave: T.Op, at: Time)
    requires MovesIn(moveIn) && leave.GrantResidence? && leave.mode == Leave
    requires leave.user == moveIn.resident && leave.building == moveIn.building
    ensures var w := Run(NO_TOWN, [PutSlot(slot, P.Slot(moveIn.building, true)), Tenant(moveIn, [slot]), Tenant(leave, [])]);
            && !HoldersLive(w.estate.occupancies, w.lot.allocations)
            && w.lot.Held(slot) && Next(w, EndOne(0, at)).None?
  {
    var ops := [PutSlot(slot, P.Slot(moveIn.building, true)), Tenant(moveIn, [slot]), Tenant(leave, [])];
    var w1 := Next(NO_TOWN, ops[0]).value;
    ParkedMoveIn(w1, moveIn, slot);
    var w2 := Next(w1, ops[1]).value;
    FirstMoveIn(moveIn);
    LeavingIsAccepted(w2.estate, leave);
    GrantKeepsTheLot(w2, leave, []);
    var w3 := Next(w2, ops[2]).value;
    RunOne(NO_TOWN, ops);
    RunOne(w1, ops[1..]);
    RunOne(w2, ops[2..]);
    assert w3.lot.allocations[0] == P.Allocation(slot, P.Stay(moveIn.stay), moveIn.startAt, None);
    assert Parks(w3.lot.allocations[0]);
    assert !w3.estate.occupancies[moveIn.stay].Active();
  }
}
