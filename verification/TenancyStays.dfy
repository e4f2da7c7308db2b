/** What each operation does to the stays, and when it keeps a resident's stays in a unit
    apart, which is what inferring the occupancy of a past moment relies on. */
module TenancyStays {
  import opened Wrappers
  import opened H = LeaseHistory
  import opened Tenancy
  import opened TenancyInvariants
  import opened TenancyProperties
  import opened TenancyExpectations
  import RC = RequestContexts

  // ------------------------------------------------------ begun, ended and left stays

  datatype Ending = Ending(stay: Id, at: Time)

  datatype Beginning = Beginning(stay: Id, o: Occupancy)

  /** The stay that an accepted operation moves out of, if any. */
  function EndedBy(s: Estate, op: Op): Option<Ending> {
    match op
    case MoveOut(id, _, form) =>
      if id in s.leases && s.leases[id].occupancy.Some? then Some(Ending(s.leases[id].occupancy.value, form.movedOutAt)) else None
    case CancelContract(id, now) =>
      if id in s.leases && s.leases[id].status == Active && s.leases[id].occupancy.Some?
      then Some(Ending(s.leases[id].occupancy.value, now)) else None
    case ExecuteMoveOut(id, _) =>
      if id in s.leases && s.leases[id].occupancy.Some? && FirstApproved(s.moveOuts, id).Some?
      then Some(Ending(s.leases[id].occupancy.value, s.moveOuts[FirstApproved(s.moveOuts, id).value].moveAt)) else None
    case _ => None
  }

  /** The stay that an accepted operation begins, if any. */
  function BegunBy(s: Estate, op: Op): Option<Beginning> {
    match op
    case MoveIn(_, building, unit, _, resident, _, stay, startAt, _, _) => Some(Beginning(stay, Occupancy(building, unit, resident, startAt, None)))
    case ExecuteMoveIn(id, _, stay, now) =>
      if id in s.leases && s.leases[id].resident.Some?
      then Some(Beginning(stay, Occupancy(s.leases[id].building, s.leases[id].unit, s.leases[id].resident.value, now, None))) else None
    case CreateOccupancy(building, unit, _, resident, _, stay, now) => Some(Beginning(stay, Occupancy(building, unit, resident, now, None)))
    case GrantResidence(mode, user, building, unit, _, stay, now) =>
      if mode == Leave || s.UnitTaken(unit) then None else Some(Beginning(stay, Occupancy(building, unit, user, now, None)))
    case _ => None
  }

  /** A grant ends this stay. */
  predicate LeftBy(op: Op, o: Occupancy) {
    op.GrantResidence? && op.mode != Add && Leaves(o, op.user, op.building, if op.mode == Leave then None else Some(op.unit))
  }

  function AfterLeaving(s: Estate, op: Op): map<Id, Occupancy> {
    if op.GrantResidence? && op.mode != Add
    then StaysLeft(s.occupancies, op.user, op.building, if op.mode == Leave then None else Some(op.unit), op.now)
    else s.occupancies
  }

  function AfterEnding(occupancies: map<Id, Occupancy>, e: Option<Ending>): map<Id, Occupancy> {
    if e.Some? then StayEnded(occupancies, e.value.stay, e.value.at) else occupancies
  }

  function AfterBeginning(occupancies: map<Id, Occupancy>, b: Option<Beginning>): map<Id, Occupancy> {
    if b.Some? then occupancies[b.value.stay := b.value.o] else occupancies
  }

  function StaysAfter(s: Estate, op: Op): map<Id, Occupancy> {
    AfterBeginning(AfterEnding(AfterLeaving(s, op), EndedBy(s, op)), BegunBy(s, op))
  }

  lemma EndingOperation(s: Estate, op: Op)
    requires Step(s, op).Success? && (op.CancelContract? || op.MoveOut? || op.ExecuteMoveOut?)
    ensures Step(s, op).value.occupancies == StaysAfter(s, op) && BegunBy(s, op).None?
  {
  }

  lemma BeginningOperation(s: Estate, op: Op)
    requires Step(s, op).Success? && (op.MoveIn? || op.ExecuteMoveIn? || op.CreateOccupancy?)
    ensures Step(s, op).value.occupancies == StaysAfter(s, op) && EndedBy(s, op).None?
    ensures BegunBy(s, op).Some? && BegunBy(s, op).value.stay !in s.occupancies
  {
  }

  lemma GrantOperation(s: Estate, op: Op)
    requires Step(s, op).Success? && op.GrantResidence?
    ensures Step(s, op).value.occupancies == StaysAfter(s, op) && EndedBy(s, op).None?
    ensures BegunBy(s, op).Some? ==> BegunBy(s, op).value.stay !in s.occupancies
  {
  }

  /** An accepted operation leaves stays, ends one, and begins one, each only as stated. */
  lemma StepOnStays(s: Estate, op: Op)
    requires Step(s, op).Success?
    ensures Step(s, op).value.occupancies == StaysAfter(s, op)
    ensures BegunBy(s, op).Some? ==> EndedBy(s, op).None? && BegunBy(s, op).value.o.Active() && BegunBy(s, op).value.stay !in s.occupancies
  {
    if op.CancelContract? || op.MoveOut? || op.ExecuteMoveOut? {
      EndingOperation(s, op);
    } else if op.MoveIn? || op.ExecuteMoveIn? || op.CreateOccupancy? {
      BeginningOperation(s, op);
    } else if op.GrantResidence? {
      GrantOperation(s, op);
    }
  }

  /** A stay is ACTIVE after an operation exactly when it was, and is neither moved out of
      nor left. */
  lemma StayLivesOnExactly(s: Estate, op: Op, stay: Id)
    requires Step(s, op).Success? && stay in s.occupancies
    ensures stay in Step(s, op).value.occupancies
    ensures Step(s, op).value.occupancies[stay].Active()
       <==> (&& s.occupancies[stay].Active() && !LeftBy(op, s.occupancies[stay])
             && !(EndedBy(s, op).Some? && EndedBy(s, op).value.stay == stay))
  {
    StepOnStays(s, op);
  }

  // ------------------------------------------------------------------- stays apart

  predicate SameHome(a: Occupancy, b: Occupancy) {
    a.unit == b.unit && a.resident == b.resident
  }

  /** Two stays share a moment, the ends included. */
  predicate ShareAMoment(a: Occupancy, b: Occupancy) {
    (a.endAt.None? || b.startAt <= a.endAt.value) && (b.endAt.None? || a.startAt <= b.endAt.value)
  }

  ghost predicate Apart(occupancies: map<Id, Occupancy>) {
    forall a, b :: a in occupancies && b in occupancies && a != b && SameHome(occupancies[a], occupancies[b]) ==>
                     !ShareAMoment(occupancies[a], occupancies[b])
  }

  /** A stay begins no later than an earlier one of the resident in the unit ends. */
  predicate BeginsTooEarly(occupancies: map<Id, Occupancy>, b: Beginning) {
    exists a :: a in occupancies && SameHome(occupancies[a], b.o) && (occupancies[a].endAt.None? || b.o.startAt <= occupancies[a].endAt.value)
  }

  /** A stay that is over already is given an end after a later one has begun. */
  predicate EndsTooLate(occupancies: map<Id, Occupancy>, e: Ending) {
    && e.stay in occupancies && occupancies[e.stay].endAt.Some?
    && exists b :: b in occupancies && b != e.stay && SameHome(occupancies[b], occupancies[e.stay])
                   && occupancies[e.stay].endAt.value < occupancies[b].startAt <= e.at
                   && (occupancies[b].endAt.None? || occupancies[e.stay].startAt <= occupancies[b].endAt.value)
  }

  /** A grant only shortens stays. */
  lemma LeavingKeepsApart(occupancies: map<Id, Occupancy>, user: Id, building: Id, keep: Option<Id>, now: Time)
    requires Apart(occupancies)
    ensures Apart(StaysLeft(occupancies, user, building, keep, now))
  {
    var left := StaysLeft(occupancies, user, building, keep, now);
    forall a, b | a in left && b in left && a != b && SameHome(left[a], left[b])
      ensures !ShareAMoment(left[a], left[b])
    {
      assert SameHome(occupancies[a], occupancies[b]);
      assert !ShareAMoment(occupancies[a], occupancies[b]);
    }
  }

  lemma EndingKeepsApartExactly(occupancies: map<Id, Occupancy>, e: Ending)
    requires Apart(occupancies) && e.stay in occupancies
    ensures Apart(StayEnded(occupancies, e.stay, e.at)) <==> !EndsTooLate(occupancies, e)
  {
    var o := occupancies[e.stay];
    var ended := StayEnded(occupancies, e.stay, e.at);
    if EndsTooLate(occupancies, e) {
      var b :| b in occupancies && b != e.stay && SameHome(occupancies[b], o) && o.endAt.value < occupancies[b].startAt <= e.at
               && (occupancies[b].endAt.None? || o.startAt <= occupancies[b].endAt.value);
      assert ended[b] == occupancies[b] && ended[e.stay] == o.(endAt := Some(e.at));
      assert SameHome(ended[e.stay], ended[b]) && ShareAMoment(ended[e.stay], ended[b]);
    } else {
      forall a, b | a in ended && b in ended && a != b && SameHome(ended[a], ended[b])
        ensures !ShareAMoment(ended[a], ended[b])
      {
        assert SameHome(occupancies[a], occupancies[b]);
        assert !ShareAMoment(occupancies[a], occupancies[b]);
      }
    }
  }

  lemma BeginningKeepsApartExactly(occupancies: map<Id, Occupancy>, b: Beginning)
    requires Apart(occupancies) && b.stay !in occupancies && b.o.Active()
    ensures Apart(occupancies[b.stay := b.o]) <==> !BeginsTooEarly(occupancies, b)
  {
    var begun := occupancies[b.stay := b.o];
    if BeginsTooEarly(occupancies, b) {
      var a :| a in occupancies && SameHome(occupancies[a], b.o) && (occupancies[a].endAt.None? || b.o.startAt <= occupancies[a].endAt.value);
      assert begun[a] == occupancies[a] && begun[b.stay] == b.o;
      assert SameHome(begun[a], begun[b.stay]) && ShareAMoment(begun[a], begun[b.stay]);
    } else {
      forall x, y | x in begun && y in begun && x != y && SameHome(begun[x], begun[y])
        ensures !ShareAMoment(begun[x], begun[y])
      {
        if x != b.stay && y != b.stay {
          assert SameHome(occupancies[x], occupancies[y]);
        } else {
          var other := if x == b.stay then y else x;
          assert SameHome(occupancies[other], b.o);
        }
      }
    }
  }

  /** What the operation begins or ends runs into another stay of the resident in the unit. */
  predicate RunsInto(s: Estate, op: Op) {
    || (BegunBy(s, op).Some? && BeginsTooEarly(AfterLeaving(s, op), BegunBy(s, op).value))
    || (EndedBy(s, op).Some? && EndsTooLate(s.occupancies, EndedBy(s, op).value))
  }

  lemma EndedStayExists(s: Estate, op: Op)
    requires Consistent(s) && EndedBy(s, op).Some?
    ensures EndedBy(s, op).value.stay in s.occupancies && (op.CancelContract? || op.MoveOut? || op.ExecuteMoveOut?)
  {
    assert LinkAgrees(s.occupancies, s.leases[op.id]);
  }

  lemma LeavingStepKeepsApart(s: Estate, op: Op)
    requires Apart(s.occupancies)
    ensures Apart(AfterLeaving(s, op))
  {
    if op.GrantResidence? && op.mode != Add {
      LeavingKeepsApart(s.occupancies, op.user, op.building, if op.mode == Leave then None else Some(op.unit), op.now);
    }
  }

  /** A step of any operation keeps every resident's stays in every unit apart exactly when
      it neither begins a stay by the end of an earlier one, as a move-in dated back to the
      start of the lease can, nor moves an end past the beginning of a later one, as a
      move-out of a lease whose stay was ended by a grant can. */
  lemma StepKeepsStaysApartExactly(s: Estate, op: Op)
    requires Consistent(s) && Apart(s.occupancies) && Step(s, op).Success?
    ensures Apart(Step(s, op).value.occupancies) <==> !RunsInto(s, op)
  {
    StepOnStays(s, op);
    LeavingStepKeepsApart(s, op);
    if EndedBy(s, op).Some? {
      EndedStayExists(s, op);
      EndingKeepsApartExactly(s.occupancies, EndedBy(s, op).value);
    } else if BegunBy(s, op).Some? {
      assert BegunBy(s, op).value.stay !in AfterLeaving(s, op);
      BeginningKeepsApartExactly(AfterLeaving(s, op), BegunBy(s, op).value);
    }
  }

  /** No step of the run runs into another stay. */
  predicate NeverRunsInto(s: Estate, ops: seq<Op>)
    decreases ops
  {
    ops == [] ||
    var r := Step(s, ops[0]);
    if r.Success? then !RunsInto(s, ops[0]) && NeverRunsInto(r.value, ops[1..]) else NeverRunsInto(s, ops[1..])
  }

  lemma {:induction false} RunsKeepStaysApart(s: Estate, ops: seq<Op>)
    requires Consistent(s) && Apart(s.occupancies) && NeverRunsInto(s, ops)
    ensures Apart(Run(s, ops).occupancies)
    decreases ops
  {
    if ops != [] {
      var r := Step(s, ops[0]);
      if r.Success? {
        StepKeepsStaysApartExactly(s, ops[0]);
        StepKeeps(s, ops[0]);
        RunsKeepStaysApart(r.value, ops[1..]);
      } else {
        RunsKeepStaysApart(s, ops[1..]);
      }
    }
  }

  // ------------------------------------------------ and the inferred occupancy is right

  /** The rows an enricher reads about one resident picture stays of that resident. */
  ghost predicate Pictures(occupancies: map<Id, Occupancy>, resident: Id, ids: seq<Id>, rows: seq<RC.Stay>) {
    && |ids| == |rows|
    && (forall i, j :: 0 <= i < j < |ids| ==> ids[i] != ids[j])
    && (forall k :: 0 <= k < |ids| ==>
          && ids[k] in occupancies && occupancies[ids[k]].resident == resident
          && rows[k].startAt == occupancies[ids[k]].startAt && rows[k].endAt == occupancies[ids[k]].endAt)
    && (forall i, j :: 0 <= i < |ids| && 0 <= j < |ids| && rows[i].unitId == rows[j].unitId ==> occupancies[ids[i]].unit == occupancies[ids[j]].unit)
  }

  /** While a resident's stays are apart, the occupancy inferred for a request of a given
      unit is the resident's stay there at that moment, and there is one exactly if the
      resident had one. */
  lemma InferenceIsRightWhileApart(occupancies: map<Id, Occupancy>, resident: Id, ids: seq<Id>, rows: seq<RC.Stay>, source: RC.Source)
    requires Apart(occupancies) && Pictures(occupancies, resident, ids, rows) && RC.Given(source.unitId)
    ensures forall k :: 0 <= k < |rows| && RC.StayCovers(source)(rows[k]) ==> RC.InferOccupancyIdAtCreation(source, rows) == Some(rows[k].id)
    ensures RC.InferOccupancyIdAtCreation(source, rows).Some? <==> exists k :: 0 <= k < |rows| && RC.StayCovers(source)(rows[k])
  {
    forall i, j | 0 <= i < j < |rows| && rows[i].unitId == source.unitId.value && rows[j].unitId == source.unitId.value
      ensures !RC.Overlap(rows[i], rows[j])
    {
      assert SameHome(occupancies[ids[i]], occupancies[ids[j]]);
      assert !ShareAMoment(occupancies[ids[i]], occupancies[ids[j]]);
    }
    RC.InferredStayIsTheCoveringOne(source, rows);
  }

  lemma MoveInBesideEndedStays(s: Estate, op: Op)
    requires MovesIn(op) && op.id !in s.leases && op.stay !in s.occupancies
    requires forall o :: o in s.occupancies ==> !s.occupancies[o].Active()
    ensures Step(s, op).Success?
  {
  }

  /** A resident who left and is moved in again under a lease that began before overlaps
      with the first stay. */
  lemma OverlappingStaysAreReachable(first: Op, leave: Op, again: Op)
    requires MovesIn(first) && MovesIn(again) && first.id != again.id && first.stay != again.stay
    requires first.unit == again.unit && first.resident == again.resident
    requires leave.GrantResidence? && leave.mode == Leave && leave.user == first.resident && leave.building == first.building
    requires first.startAt <= again.startAt <= leave.now
    ensures !Apart(Run(EMPTY, [first, leave, again]).occupancies)
  {
    var ops := [first, leave, again];
    FirstMoveIn(first);
    var s1 := Step(EMPTY, first).value;
    LeavingIsAccepted(s1, leave);
    var s2 := Step(s1, leave).value;
    assert s2.occupancies.Keys == {first.stay};
    MoveInBesideEndedStays(s2, again);
    StepOnStays(s2, again);
    var t := Step(s2, again).value;
    RunOne(EMPTY, ops);
    RunOne(s1, ops[1..]);
    RunOne(s2, ops[2..]);
    assert SameHome(t.occupancies[first.stay], t.occupancies[again.stay]) && ShareAMoment(t.occupancies[first.stay], t.occupancies[again.stay]);
  }
}
