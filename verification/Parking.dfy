/** Parking slots and who holds them (allocateParkingSlots in lease-lifecycle.service.ts,
    parking.service.ts and parking.repo.ts). */
module Parking {
  import opened Wrappers

  type Id = nat
  type Time = int

  datatype Error = NotFound | Conflict | BadRequest

  datatype Slot = Slot(building: Id, active: bool)

  datatype Holder = Stay(occupancy: Id) | Unit(unit: Id)

  datatype Allocation = Allocation(slot: Id, holder: Holder, startAt: Time, endAt: Option<Time>)

  datatype Lot = Lot(slots: map<Id, Slot>, allocations: seq<Allocation>) {
    predicate Held(slot: Id) {
      exists k :: 0 <= k < |allocations| && allocations[k].slot == slot && allocations[k].endAt.None?
    }

    predicate Usable(slot: Id, building: Id) {
      slot in slots && slots[slot].building == building && slots[slot].active
    }
  }

  datatype Op =
    | PutSlot(slot: Id, row: Slot)
    | AllocateThese(building: Id, holder: Holder, wanted: seq<Id>, now: Time)
    | AllocateAny(building: Id, holder: Holder, listed: seq<Id>, count: nat, now: Time)
    | EndOne(k: nat, context: Option<Error>, at: Time)
    | EndAll(holder: Holder, at: Time)

  /** findManyByIds: each row once, however often it is asked for. */
  function Rows(lot: Lot, building: Id, wanted: seq<Id>): set<Id> {
    set slot | slot in wanted && lot.Usable(slot, building)
  }

  /** findAvailableSlots, over the building's slots as they are listed. */
  function Available(lot: Lot, building: Id, listed: seq<Id>): (r: seq<Id>)
    ensures forall slot :: slot in r ==> lot.Usable(slot, building) && !lot.Held(slot) && slot in listed
    ensures NoRepeats(listed) ==> NoRepeats(r)
  {
    if listed == [] then []
    else
      var n := |listed| - 1;
      var rest := Available(lot, building, listed[..n]);
      if lot.Usable(listed[n], building) && !lot.Held(listed[n]) then rest + [listed[n]] else rest
  }

  predicate NoRepeats(ids: seq<Id>) {
    forall i, j :: 0 <= i < j < |ids| ==> ids[i] != ids[j]
  }

  function Opened(wanted: seq<Id>, holder: Holder, now: Time): seq<Allocation> {
    seq(|wanted|, k requires 0 <= k < |wanted| => Allocation(wanted[k], holder, now, None))
  }

  function AllocateStep(lot: Lot, building: Id, holder: Holder, wanted: seq<Id>, now: Time): Result<Lot, Error> {
    if |Rows(lot, building, wanted)| != |wanted| then Failure(NotFound)
    else if exists slot :: slot in wanted && lot.Held(slot) then Failure(Conflict)
    else Success(lot.(allocations := lot.allocations + Opened(wanted, holder, now)))
  }

  function AllocateAnyStep(lot: Lot, building: Id, holder: Holder, listed: seq<Id>, count: nat, now: Time): Result<Lot, Error> {
    var available := Available(lot, building, listed);
    if |available| < count then Failure(Conflict)
    else Success(lot.(allocations := lot.allocations + Opened(available[..count], holder, now)))
  }

  function Ended(allocations: seq<Allocation>, holder: Holder, at: Time): (r: seq<Allocation>)
    ensures |r| == |allocations|
  {
    seq(|allocations|, k requires 0 <= k < |allocations| =>
      if allocations[k].holder == holder && allocations[k].endAt.None? then allocations[k].(endAt := Some(at)) else allocations[k])
  }

  /** A listing of slots names each slot once. */
  function Step(lot: Lot, op: Op): Result<Lot, Error> {
    match op
    case PutSlot(slot, row) => Success(lot.(slots := lot.slots[slot := row]))
    case AllocateThese(building, holder, wanted, now) => AllocateStep(lot, building, holder, wanted, now)
    case AllocateAny(building, holder, listed, count, now) =>
      if NoRepeats(listed) then AllocateAnyStep(lot, building, holder, listed, count, now) else Failure(BadRequest)
    case EndOne(k, context, at) =>
      if k >= |lot.allocations| then Failure(NotFound)
      else if lot.allocations[k].endAt.Some? then Failure(BadRequest)
      else if lot.allocations[k].holder.Stay? && context.Some? then Failure(context.value)
      else Success(lot.(allocations := lot.allocations[k := lot.allocations[k].(endAt := Some(at))]))
    case EndAll(holder, at) => Success(lot.(allocations := Ended(lot.allocations, holder, at)))
  }

  function Run(lot: Lot, ops: seq<Op>): Lot
    decreases |ops|
  {
    if ops == [] then lot
    else
      var r := Step(lot, ops[0]);
      Run(if r.Success? then r.value else lot, ops[1..])
  }

  // ----------------------------------------------------------------- counting rows

  function Members(ids: seq<Id>): set<Id> {
    set id | id in ids
  }

  lemma {:induction false} MembersCount(ids: seq<Id>)
    ensures |Members(ids)| <= |ids|
    ensures |Members(ids)| == |ids| <==> NoRepeats(ids)
  {
    if ids != [] {
      var n := |ids| - 1;
      var init := ids[..n];
      MembersCount(init);
      assert ids == init + [ids[n]];
      assert Members(ids) == Members(init) + {ids[n]};
      if ids[n] in init {
        assert Members(ids) == Members(init);
        var k :| 0 <= k < n && init[k] == ids[n];
        assert ids[k] == ids[n];
      } else {
        assert forall k :: 0 <= k < n ==> init[k] in init;
      }
      assert NoRepeats(ids) <==> NoRepeats(init) && ids[n] !in init;
    }
  }

  /** As many rows come back as were asked for exactly when every slot asked for is an
      active one of the building and none is asked for twice. */
  lemma RowsMatchExactly(lot: Lot, building: Id, wanted: seq<Id>)
    ensures |Rows(lot, building, wanted)| == |wanted| <==>
            NoRepeats(wanted) && forall slot :: slot in wanted ==> lot.Usable(slot, building)
  {
    MembersCount(wanted);
    var rows, all := Rows(lot, building, wanted), Members(wanted);
    assert rows <= all;
    Subset(rows, all);
    assert rows == all <==> forall slot :: slot in wanted ==> lot.Usable(slot, building) by {
      assert forall slot :: slot in wanted <==> slot in all;
    }
  }

  lemma {:induction false} Subset(a: set<Id>, b: set<Id>)
    requires a <= b
    ensures |a| <= |b| && (|a| == |b| ==> a == b)
  {
    if a != {} {
      var x :| x in a;
      Subset(a - {x}, b - {x});
      assert a == (a - {x}) + {x} && b == (b - {x}) + {x};
    }
  }

  // ---------------------------------------------------------------- over all runs

  /** No slot is held twice. */
  ghost predicate HeldOnce(allocations: seq<Allocation>) {
    forall i, j :: 0 <= i < j < |allocations| && allocations[i].endAt.None? && allocations[j].endAt.None? ==>
      allocations[i].slot != allocations[j].slot
  }

  lemma OpeningKeeps(lot: Lot, wanted: seq<Id>, holder: Holder, now: Time)
    requires HeldOnce(lot.allocations) && NoRepeats(wanted) && forall slot :: slot in wanted ==> !lot.Held(slot)
    ensures HeldOnce(lot.allocations + Opened(wanted, holder, now))
  {
    assert forall k :: 0 <= k < |wanted| ==> wanted[k] in wanted;
  }

  lemma StepKeeps(lot: Lot, op: Op)
    requires HeldOnce(lot.allocations) && Step(lot, op).Success?
    ensures HeldOnce(Step(lot, op).value.allocations)
  {
    match op {
      case AllocateThese(building, holder, wanted, now) =>
        RowsMatchExactly(lot, building, wanted);
        OpeningKeeps(lot, wanted, holder, now);
      case AllocateAny(building, holder, listed, count, now) =>
        OpeningKeeps(lot, Available(lot, building, listed)[..count], holder, now);
      case _ =>
    }
  }

  /** Whatever is allocated and given back, by move-ins, move-outs or managers, a slot is
      held by one holder at a time. */
  lemma {:induction false} SlotsAreHeldOnce(lot: Lot, ops: seq<Op>)
    requires HeldOnce(lot.allocations)
    ensures HeldOnce(Run(lot, ops).allocations)
    decreases |ops|
  {
    if ops != [] {
      var r := Step(lot, ops[0]);
      if r.Success? {
        StepKeeps(lot, ops[0]);
        SlotsAreHeldOnce(r.value, ops[1..]);
      } else {
        SlotsAreHeldOnce(lot, ops[1..]);
      }
    }
  }

  /** An accepted allocation leaves exactly the slots asked for newly held, by the holder. */
  lemma AllocationHoldsExactly(lot: Lot, building: Id, holder: Holder, wanted: seq<Id>, now: Time, slot: Id)
    requires AllocateStep(lot, building, holder, wanted, now).Success?
    ensures AllocateStep(lot, building, holder, wanted, now).value.Held(slot) <==> lot.Held(slot) || slot in wanted
    ensures slot in wanted ==> !lot.Held(slot) && lot.Usable(slot, building)
  {
    RowsMatchExactly(lot, building, wanted);
    var next := AllocateStep(lot, building, holder, wanted, now).value;
    if lot.Held(slot) {
      var k :| 0 <= k < |lot.allocations| && lot.allocations[k].slot == slot && lot.allocations[k].endAt.None?;
      assert next.allocations[k] == lot.allocations[k];
    }
    if slot in wanted {
      var k :| 0 <= k < |wanted| && wanted[k] == slot;
      assert next.allocations[|lot.allocations| + k] == Allocation(slot, holder, now, None);
    }
  }

  /** A move-out frees every slot of the stay, and no other. */
  lemma EndingFreesExactly(lot: Lot, holder: Holder, at: Time, k: nat)
    requires k < |lot.allocations|
    ensures var after := Ended(lot.allocations, holder, at);
            && (after[k].endAt.None? <==> (lot.allocations[k].endAt.None? && lot.allocations[k].holder != holder))
            && (lot.allocations[k].endAt.Some? ==> after[k] == lot.allocations[k])
  {
  }

  // --------------------------------------------------------------------- the tables

  class ParkingTables {
    var slots: map<Id, Slot>
    var allocations: seq<Allocation>

    function State(): Lot
      reads this
    {
      Lot(slots, allocations)
    }

    constructor ()
      ensures State() == Lot(map[], [])
    {
      slots, allocations := map[], [];
    }

    /** allocateParkingSlots of a move-in, and allocate with chosen slots */
    method AllocateParkingSlots(building: Id, holder: Holder, wanted: seq<Id>, now: Time) returns (error: Option<Error>)
      modifies this`allocations
      ensures match AllocateStep(old(State()), building, holder, wanted, now)
              case Success(next) => error == None && State() == next
              case Failure(e) => error == Some(e) && State() == old(State())
    {
      var rows := Rows(State(), building, wanted);
      if |rows| != |wanted| {
        return Some(NotFound);
      }
      var active := set k | 0 <= k < |allocations| && allocations[k].slot in wanted && allocations[k].endAt.None? :: k;
      assert active == {} <==> !exists slot :: slot in wanted && State().Held(slot) by {
        if exists slot :: slot in wanted && State().Held(slot) {
          var slot :| slot in wanted && State().Held(slot);
          var k :| 0 <= k < |allocations| && allocations[k].slot == slot && allocations[k].endAt.None?;
          assert k in active;
        }
        if active != {} {
          var k :| k in active;
          assert State().Held(allocations[k].slot);
        }
      }
      if |active| > 0 {
        return Some(Conflict);
      }
      allocations := allocations + Opened(wanted, holder, now);
      error := None;
    }

    /** allocate with a count */
    method AllocateByCount(building: Id, holder: Holder, listed: seq<Id>, count: nat, now: Time) returns (error: Option<Error>)
      modifies this`allocations
      ensures match AllocateAnyStep(old(State()), building, holder, listed, count, now)
              case Success(next) => error == None && State() == next
              case Failure(e) => error == Some(e) && State() == old(State())
    {
      var available := Available(State(), building, listed);
      if |available| < count {
        return Some(Conflict);
      }
      allocations := allocations + Opened(available[..count], holder, now);
      error := None;
    }

    /** endAllocation; context is what is wrong with the lease of the stay, if anything */
    method EndAllocation(k: nat, context: Option<Error>, at: Time) returns (error: Option<Error>)
      modifies this`allocations
      ensures match Step(old(State()), EndOne(k, context, at))
              case Success(next) => error == None && State() == next
              case Failure(e) => error == Some(e) && State() == old(State())
    {
      if k >= |allocations| {
        return Some(NotFound);
      }
      if allocations[k].endAt.Some? {
        return Some(BadRequest);
      }
      if allocations[k].holder.Stay? && context.Some? {
        return context;
      }
      allocations := allocations[k := allocations[k].(endAt := Some(at))];
      error := None;
    }

    /** endAllForOccupancy, endAllForUnit, and the move-out */
    method EndAllFor(holder: Holder, at: Time)
      modifies this`allocations
      ensures slots == old(slots) && |allocations| == |old(allocations)|
      ensures forall k :: 0 <= k < |allocations| ==>
                var before := old(allocations)[k];
                && (allocations[k].endAt.None? <==> before.endAt.None? && before.holder != holder)
                && allocations[k] == if before.endAt.None? == allocations[k].endAt.None? then before else before.(endAt := Some(at))
      ensures forall slot :: State().Held(slot) <==>
                exists k :: 0 <= k < |old(allocations)| && old(allocations)[k].slot == slot
                  && old(allocations)[k].endAt.None? && old(allocations)[k].holder != holder
      ensures Step(old(State()), EndAll(holder, at)) == Success(State())
    {
      allocations := Ended(allocations, holder, at);
      assert forall k :: 0 <= k < |allocations| ==> allocations[k].slot == old(allocations)[k].slot;
    }
  }
}
