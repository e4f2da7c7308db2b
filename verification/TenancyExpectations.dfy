/** Expectations of the tenancy tables that the code does not meet, each with the exact
    condition under which a step, whichever operation takes it, meets them. */
module TenancyExpectations {
  import opened Wrappers
  import opened H = LeaseHistory
  import opened Tenancy
  import opened TenancyInvariants
  import opened TenancyProperties

  // ---------------------------------------------- one active contract per unit

  ghost predicate OneActiveContractPerUnit(leases: map<Id, Lease>) {
    forall a, b :: a in leases && b in leases && a != b && leases[a].status == Active && leases[b].status == Active ==>
                     leases[a].unit != leases[b].unit
  }

  predicate AnotherActive(s: Estate, id: Id)
    requires id in s.leases
  {
    exists l :: l in s.leases && l != id && s.leases[l].unit == s.leases[id].unit && s.leases[l].status == Active
  }

  /** Activation checks nothing about the unit, and a direct move-in only its stays. */
  predicate Clashes(s: Estate, op: Op) {
    match op
    case ActivateContract(id) => id in s.leases && AnotherActive(s, id)
    case MoveIn(_, _, unit, _, _, _, _, _, _, _) => UnitUnderContract(s, unit)
    case _ => false
  }

  lemma ActivationClashes(s: Estate, id: Id)
    requires OneActiveContractPerUnit(s.leases) && ActivateStep(s, id).Success?
    ensures OneActiveContractPerUnit(ActivateStep(s, id).value.leases) <==> !AnotherActive(s, id)
  {
    var leases := ActivateStep(s, id).value.leases;
    if AnotherActive(s, id) {
      var l :| l in s.leases && l != id && s.leases[l].unit == s.leases[id].unit && s.leases[l].status == Active;
      assert leases[l] == s.leases[l] && leases[id].status == Active;
    }
  }

  lemma MoveInClashes(s: Estate, op: Op)
    requires OneActiveContractPerUnit(s.leases) && op.MoveIn? && MoveInStep(s, op).Success?
    ensures OneActiveContractPerUnit(MoveInStep(s, op).value.leases) <==> !UnitUnderContract(s, op.unit)
  {
    var leases := MoveInStep(s, op).value.leases;
    if UnitUnderContract(s, op.unit) {
      var l :| l in s.leases && s.leases[l].unit == op.unit && s.leases[l].status == Active;
      assert leases[l] == s.leases[l] && leases[op.id].status == Active;
    }
  }

  lemma NoEndingActivates(s: Estate, op: Op, l: Id)
    requires Step(s, op).Success? && (op.CancelContract? || op.MoveOut? || op.ExecuteMoveOut?)
    requires l in Step(s, op).value.leases && Step(s, op).value.leases[l].status == Active
    ensures l in s.leases && s.leases[l].status == Active && s.leases[l].unit == Step(s, op).value.leases[l].unit
  {
    assert l in s.leases;
    match op {
      case CancelContract(id, now) => CancelLasts(s, id, now, l);
      case MoveOut(id, _, form) => MoveOutLasts(s, id, form, l);
      case ExecuteMoveOut(id, permitted) => ExecutionLasts(s, id, permitted, l);
    }
  }

  /** No other operation makes a lease ACTIVE or moves it to another unit. */
  lemma NothingElseActivates(s: Estate, op: Op, l: Id)
    requires Step(s, op).Success? && !op.ActivateContract? && !op.MoveIn?
    requires l in Step(s, op).value.leases && Step(s, op).value.leases[l].status == Active
    ensures l in s.leases && s.leases[l].status == Active && s.leases[l].unit == Step(s, op).value.leases[l].unit
  {
    if op.CancelContract? || op.MoveOut? || op.ExecuteMoveOut? {
      NoEndingActivates(s, op, l);
    }
  }

  /** A step of any operation keeps one active contract per unit exactly when it is
      neither an activation nor a move-in beside another active contract of the unit. */
  lemma StepKeepsOneContractExactly(s: Estate, op: Op)
    requires OneActiveContractPerUnit(s.leases) && Step(s, op).Success?
    ensures OneActiveContractPerUnit(Step(s, op).value.leases) <==> !Clashes(s, op)
  {
    match op {
      case ActivateContract(id) => ActivationClashes(s, id);
      case MoveIn(_, _, _, _, _, _, _, _, _, _) => MoveInClashes(s, op);
      case _ =>
        var leases := Step(s, op).value.leases;
        forall l | l in leases && leases[l].status == Active
          ensures l in s.leases && s.leases[l].status == Active && s.leases[l].unit == leases[l].unit
        {
          NothingElseActivates(s, op, l);
        }
    }
  }

  /** No step of the run clashes. */
  predicate ClashFree(s: Estate, ops: seq<Op>)
    decreases ops
  {
    ops == [] ||
    var r := Step(s, ops[0]);
    if r.Success? then !Clashes(s, ops[0]) && ClashFree(r.value, ops[1..]) else ClashFree(s, ops[1..])
  }

  /** So a unit has at most one active contract over every run without a clash. */
  lemma {:induction false} ClashFreeRunsKeepOneContract(s: Estate, ops: seq<Op>)
    requires OneActiveContractPerUnit(s.leases) && ClashFree(s, ops)
    ensures OneActiveContractPerUnit(Run(s, ops).leases)
    decreases ops
  {
    if ops != [] {
      var r := Step(s, ops[0]);
      if r.Success? {
        StepKeepsOneContractExactly(s, ops[0]);
        ClashFreeRunsKeepOneContract(r.value, ops[1..]);
      } else {
        ClashFreeRunsKeepOneContract(s, ops[1..]);
      }
    }
  }

  predicate Draftable(op: Op) {
    op.DraftContract? && op.unitInBuilding && op.residentInOrg && op.startAt < op.endAt
  }

  lemma DraftIsAccepted(s: Estate, op: Op)
    requires Draftable(op) && op.id !in s.leases && forall l :: l in s.leases ==> s.leases[l].status != Active
    ensures Step(s, op).Success? && Step(s, op).value.leases == s.leases[op.id := Drafted(op)]
    ensures Step(s, op).value.occupancies == s.occupancies
  {
  }

  lemma ActivationIsAccepted(s: Estate, id: Id)
    requires id in s.leases && s.leases[id].status != Ended
    ensures Step(s, ActivateContract(id)).Success?
    ensures Step(s, ActivateContract(id)).value.leases == s.leases[id := s.leases[id].(status := Active)]
    ensures Step(s, ActivateContract(id)).value.occupancies == s.occupancies
  {
  }

  /** Any two drafts of one unit can both be activated, one after the other. */
  lemma TwoActiveContractsAreReachable(a: Op, b: Op)
    requires Draftable(a) && Draftable(b) && a.id != b.id && a.unit == b.unit
    ensures !OneActiveContractPerUnit(Run(EMPTY, [a, b, ActivateContract(a.id), ActivateContract(b.id)]).leases)
  {
    var ops := [a, b, ActivateContract(a.id), ActivateContract(b.id)];
    DraftIsAccepted(EMPTY, a);
    var s1 := Step(EMPTY, a).value;
    DraftIsAccepted(s1, b);
    var s2 := Step(s1, b).value;
    ActivationIsAccepted(s2, a.id);
    var s3 := Step(s2, ActivateContract(a.id)).value;
    ActivationIsAccepted(s3, b.id);
    var s4 := Step(s3, ActivateContract(b.id)).value;
    RunOne(EMPTY, ops);
    RunOne(s1, ops[1..]);
    RunOne(s2, ops[2..]);
    RunOne(s3, ops[3..]);
    assert s4.leases[a.id].status == Active && s4.leases[b.id].status == Active && s4.leases[a.id].unit == s4.leases[b.id].unit;
  }

  predicate MovesIn(op: Op) {
    op.MoveIn? && op.unitInBuilding && op.residentInOrg
  }

  lemma MoveInIsAccepted(s: Estate, op: Op)
    requires MovesIn(op) && s.occupancies == map[] && op.id !in s.leases
    ensures Step(s, op).Success? && Step(s, op).value.leases == s.leases[op.id := MovedIn(op)]
  {
  }

  /** And anyone can be moved into the unit of an active contract nobody lives under. */
  lemma MoveInBesideAContractIsReachable(a: Op, b: Op)
    requires Draftable(a) && MovesIn(b) && a.id != b.id && a.unit == b.unit
    ensures !OneActiveContractPerUnit(Run(EMPTY, [a, ActivateContract(a.id), b]).leases)
  {
    var ops := [a, ActivateContract(a.id), b];
    DraftIsAccepted(EMPTY, a);
    var s1 := Step(EMPTY, a).value;
    ActivationIsAccepted(s1, a.id);
    var s2 := Step(s1, ActivateContract(a.id)).value;
    MoveInIsAccepted(s2, b);
    var s3 := Step(s2, b).value;
    RunOne(EMPTY, ops);
    RunOne(s1, ops[1..]);
    RunOne(s2, ops[2..]);
    assert s3.leases[a.id].status == Active && s3.leases[b.id].status == Active && s3.leases[a.id].unit == s3.leases[b.id].unit;
  }

  // ------------------------------------------- a live stay behind every active lease

  predicate Lives(occupancies: map<Id, Occupancy>, stay: Id) {
    stay in occupancies && occupancies[stay].Active()
  }

  /** The stay linked from an ACTIVE lease is ACTIVE. */
  ghost predicate LiveLinks(occupancies: map<Id, Occupancy>, leases: map<Id, Lease>) {
    forall id :: id in leases && leases[id].status == Active && leases[id].occupancy.Some? ==> Lives(occupancies, leases[id].occupancy.value)
  }

  /** A grant ends a stay that a lease is linked to. */
  predicate EndsALinkedStay(s: Estate, user: Id, building: Id, keep: Option<Id>) {
    exists id :: id in s.leases && s.leases[id].occupancy.Some? && s.leases[id].occupancy.value in s.occupancies
                 && Leaves(s.occupancies[s.leases[id].occupancy.value], user, building, keep)
  }

  /** The steps that leave an ACTIVE lease without its stay: reviving the lease but not
      the stay, and ending the stay but not the lease. */
  predicate Strands(s: Estate, op: Op) {
    match op
    case ActivateContract(id) => id in s.leases && s.leases[id].status != Active && s.leases[id].occupancy.Some?
    case GrantResidence(mode, user, building, unit, _, _, _) =>
      (mode == Leave && EndsALinkedStay(s, user, building, None)) || (mode == Move && EndsALinkedStay(s, user, building, Some(unit)))
    case _ => false
  }

  lemma ActivationStrands(s: Estate, id: Id)
    requires Consistent(s) && LiveLinks(s.occupancies, s.leases) && ActivateStep(s, id).Success?
    ensures LiveLinks(s.occupancies, ActivateStep(s, id).value.leases) <==> s.leases[id].status == Active || s.leases[id].occupancy.None?
  {
    var leases := ActivateStep(s, id).value.leases;
    assert LinkAgrees(s.occupancies, s.leases[id]);
    assert leases[id].status == Active && leases[id].occupancy == s.leases[id].occupancy;
  }

  lemma LeavingStrands(s: Estate, user: Id, building: Id, keep: Option<Id>, now: Time)
    requires Consistent(s) && LiveLinks(s.occupancies, s.leases)
    ensures LiveLinks(StaysLeft(s.occupancies, user, building, keep, now), s.leases) <==> !EndsALinkedStay(s, user, building, keep)
  {
    var left := StaysLeft(s.occupancies, user, building, keep, now);
    if EndsALinkedStay(s, user, building, keep) {
      var id :| id in s.leases && s.leases[id].occupancy.Some? && s.leases[id].occupancy.value in s.occupancies
                && Leaves(s.occupancies[s.leases[id].occupancy.value], user, building, keep);
      assert LinkAgrees(s.occupancies, s.leases[id]);
      assert !Lives(left, s.leases[id].occupancy.value);
    } else {
      forall id | id in s.leases && s.leases[id].status == Active && s.leases[id].occupancy.Some?
        ensures Lives(left, s.leases[id].occupancy.value)
      {
        assert Lives(s.occupancies, s.leases[id].occupancy.value);
      }
    }
  }

  /** A stay that is new is linked from nowhere, so it neither mends nor breaks a link. */
  lemma NewStayIsNobodys(occupancies: map<Id, Occupancy>, leases: map<Id, Lease>, stay: Id, o: Occupancy)
    requires stay !in occupancies && forall id :: id in leases ==> leases[id].occupancy != Some(stay)
    ensures LiveLinks(occupancies[stay := o], leases) <==> LiveLinks(occupancies, leases)
  {
    forall id | id in leases && leases[id].occupancy.Some?
      ensures Lives(occupancies[stay := o], leases[id].occupancy.value) <==> Lives(occupancies, leases[id].occupancy.value)
    {
    }
  }

  lemma NoLinkToANewStay(s: Estate, stay: Id)
    requires Consistent(s) && stay !in s.occupancies
    ensures forall id :: id in s.leases ==> s.leases[id].occupancy != Some(stay)
  {
    forall id | id in s.leases
      ensures s.leases[id].occupancy != Some(stay)
    {
      assert LinkAgrees(s.occupancies, s.leases[id]);
    }
  }

  lemma GrantStrands(s: Estate, op: Op)
    requires Consistent(s) && LiveLinks(s.occupancies, s.leases) && op.GrantResidence? && GrantStep(s, op).Success?
    ensures LiveLinks(GrantStep(s, op).value.occupancies, s.leases) <==> !Strands(s, op)
  {
    var keep := if op.mode == Leave then None else Some(op.unit);
    var left := if op.mode == Add then s.occupancies else StaysLeft(s.occupancies, op.user, op.building, keep, op.now);
    LeavingStrands(s, op.user, op.building, keep, op.now);
    if GrantStep(s, op).value.occupancies != left {
      NoLinkToANewStay(s, op.stay);
      NewStayIsNobodys(left, s.leases, op.stay, Occupancy(op.building, op.unit, op.user, op.now, None));
    }
  }

  /** A lease that ends with its stay, which no other lease is linked to. */
  lemma EndingBothStrandsNobody(occupancies: map<Id, Occupancy>, leases: map<Id, Lease>, id: Id, next: Lease, at: Time)
    requires SingleLinks(leases) && LiveLinks(occupancies, leases)
    requires id in leases && leases[id].occupancy.Some? && next.status != Active
    ensures LiveLinks(StayEnded(occupancies, leases[id].occupancy.value, at), leases[id := next])
  {
    var ended := StayEnded(occupancies, leases[id].occupancy.value, at);
    forall k | k in leases && k != id && leases[k].status == Active && leases[k].occupancy.Some?
      ensures Lives(ended, leases[k].occupancy.value)
    {
      assert Lives(occupancies, leases[k].occupancy.value);
    }
  }

  lemma LeaseChangeStrandsNobody(occupancies: map<Id, Occupancy>, leases: map<Id, Lease>, id: Id, next: Lease)
    requires LiveLinks(occupancies, leases)
    requires next.status == Active && next.occupancy.Some? ==> Lives(occupancies, next.occupancy.value)
    ensures LiveLinks(occupancies, leases[id := next])
  {
  }

  lemma MoveOutStrandsNobody(s: Estate, id: Id, form: MoveOutForm)
    requires Consistent(s) && LiveLinks(s.occupancies, s.leases) && id in s.leases && s.leases[id].occupancy.Some?
    ensures LiveLinks(MovedOutStep(s, id, form).occupancies, MovedOutStep(s, id, form).leases)
  {
    EndingBothStrandsNobody(s.occupancies, s.leases, id, Settled(s.leases[id], form), form.movedOutAt);
  }

  lemma CancelStrandsNobody(s: Estate, id: Id, now: Time)
    requires Consistent(s) && LiveLinks(s.occupancies, s.leases) && CancelStep(s, id, now).Success?
    ensures LiveLinks(CancelStep(s, id, now).value.occupancies, CancelStep(s, id, now).value.leases)
  {
    var form := MoveOutForm(now, map[], None, None);
    var left := if s.leases[id].status == Active && s.leases[id].occupancy.Some? then MovedOutStep(s, id, form) else s;
    if s.leases[id].status == Active && s.leases[id].occupancy.Some? {
      MoveOutStrandsNobody(s, id, form);
    }
    LeaseChangeStrandsNobody(left.occupancies, left.leases, id, left.leases[id].(status := Cancelled));
  }

  lemma ExecutionStrandsNobody(s: Estate, id: Id, permitted: bool)
    requires Consistent(s) && LiveLinks(s.occupancies, s.leases) && ExecuteMoveOutStep(s, id, permitted).Success?
    ensures LiveLinks(ExecuteMoveOutStep(s, id, permitted).value.occupancies, ExecuteMoveOutStep(s, id, permitted).value.leases)
  {
    var form := MoveOutForm(s.moveOuts[FirstApproved(s.moveOuts, id).value].moveAt, map[], None, None);
    MoveOutStrandsNobody(s, id, form);
    var left := MovedOutStep(s, id, form);
    LeaseChangeStrandsNobody(left.occupancies, left.leases, id, left.leases[id].(status := Cancelled));
  }

  lemma HousingStrandsNobody(s: Estate, stay: Id, o: Occupancy, id: Id, l: Lease)
    requires Consistent(s) && LiveLinks(s.occupancies, s.leases)
    requires stay !in s.occupancies && o.Active() && (l.occupancy == Some(stay) || (id in s.leases && l == s.leases[id]))
    ensures LiveLinks(s.occupancies[stay := o], s.leases[id := l])
  {
    NoLinkToANewStay(s, stay);
    NewStayIsNobodys(s.occupancies, s.leases, stay, o);
    LeaseChangeStrandsNobody(s.occupancies[stay := o], s.leases, id, l);
  }

  lemma UpdateStrandsNobody(s: Estate, id: Id, p: Patch, allowed: set<Field>)
    requires LiveLinks(s.occupancies, s.leases) && id in s.leases
    ensures LiveLinks(UpdateStep(s, id, p, allowed).occupancies, UpdateStep(s, id, p, allowed).leases)
  {
    LeaseChangeStrandsNobody(s.occupancies, s.leases, id, Patched(s.leases[id], p, allowed));
  }

  lemma EndingsStrandNobody(s: Estate, op: Op)
    requires Consistent(s) && LiveLinks(s.occupancies, s.leases) && Step(s, op).Success?
    requires op.CancelContract? || op.MoveOut? || op.ExecuteMoveOut?
    ensures LiveLinks(Step(s, op).value.occupancies, Step(s, op).value.leases)
  {
    match op {
      case CancelContract(id, now) => CancelStrandsNobody(s, id, now);
      case MoveOut(id, _, form) => MoveOutStrandsNobody(s, id, form);
      case ExecuteMoveOut(id, permitted) => ExecutionStrandsNobody(s, id, permitted);
    }
  }

  lemma HousingsStrandNobody(s: Estate, op: Op)
    requires Consistent(s) && LiveLinks(s.occupancies, s.leases) && Step(s, op).Success?
    requires op.MoveIn? || op.ExecuteMoveIn? || op.CreateOccupancy?
    ensures LiveLinks(Step(s, op).value.occupancies, Step(s, op).value.leases)
  {
    match op {
      case MoveIn(id, building, unit, _, resident, _, stay, startAt, _, _) =>
        HousingStrandsNobody(s, stay, Occupancy(building, unit, resident, startAt, None), id, MovedIn(op));
      case ExecuteMoveIn(id, _, stay, now) =>
        var l := s.leases[id];
        HousingStrandsNobody(s, stay, Occupancy(l.building, l.unit, l.resident.value, now, None), id, l.(occupancy := Some(stay)));
      case CreateOccupancy(building, unit, _, resident, _, stay, now) =>
        NoLinkToANewStay(s, stay);
        NewStayIsNobodys(s.occupancies, s.leases, stay, Occupancy(building, unit, resident, now, None));
    }
  }

  lemma TermsStrandNobody(s: Estate, op: Op)
    requires Consistent(s) && LiveLinks(s.occupancies, s.leases) && Step(s, op).Success?
    requires op.DraftContract? || op.UpdateContract? || op.UpdateLease?
    ensures LiveLinks(Step(s, op).value.occupancies, Step(s, op).value.leases)
  {
    match op {
      case DraftContract(id, _, _, _, _, _, _, _, _, _) => LeaseChangeStrandsNobody(s.occupancies, s.leases, id, Drafted(op));
      case UpdateContract(id, patch) => UpdateStrandsNobody(s, id, patch, CONTRACT_COLUMNS);
      case UpdateLease(id, patch) => UpdateStrandsNobody(s, id, patch, LEASE_COLUMNS);
    }
  }

  lemma NothingElseStrands(s: Estate, op: Op)
    requires Consistent(s) && LiveLinks(s.occupancies, s.leases) && Step(s, op).Success?
    requires !op.ActivateContract? && !op.GrantResidence?
    ensures LiveLinks(Step(s, op).value.occupancies, Step(s, op).value.leases)
  {
    if op.DraftContract? || op.UpdateContract? || op.UpdateLease? {
      TermsStrandNobody(s, op);
    } else if op.CancelContract? || op.MoveOut? || op.ExecuteMoveOut? {
      EndingsStrandNobody(s, op);
    } else if op.MoveIn? || op.ExecuteMoveIn? || op.CreateOccupancy? {
      HousingsStrandNobody(s, op);
    }
  }

  /** A step of any operation leaves a live stay behind every active lease exactly when it
      neither revives a lease whose stay is over nor ends a stay that a lease lives by. */
  lemma StepKeepsLiveLinksExactly(s: Estate, op: Op)
    requires Consistent(s) && LiveLinks(s.occupancies, s.leases) && Step(s, op).Success?
    ensures LiveLinks(Step(s, op).value.occupancies, Step(s, op).value.leases) <==> !Strands(s, op)
  {
    if op.ActivateContract? {
      ActivationStrands(s, op.id);
    } else if op.GrantResidence? {
      GrantStrands(s, op);
    } else {
      NothingElseStrands(s, op);
    }
  }

  lemma FirstMoveIn(op: Op)
    requires MovesIn(op)
    ensures Step(EMPTY, op).Success?
    ensures Step(EMPTY, op).value.leases == map[op.id := MovedIn(op)]
    ensures Step(EMPTY, op).value.occupancies == map[op.stay := Occupancy(op.building, op.unit, op.resident, op.startAt, None)]
  {
  }

  lemma LeavingIsAccepted(s: Estate, op: Op)
    requires op.GrantResidence? && op.mode == Leave
    ensures Step(s, op).Success? && Step(s, op).value.leases == s.leases
    ensures Step(s, op).value.occupancies == StaysLeft(s.occupancies, op.user, op.building, None, op.now)
  {
  }

  /** Whoever is moved in and then loses the residence leaves an ACTIVE lease without a stay. */
  lemma StrandedLeaseIsReachable(moveIn: Op, leave: Op)
    requires MovesIn(moveIn) && leave.GrantResidence? && leave.mode == Leave
    requires leave.user == moveIn.resident && leave.building == moveIn.building
    ensures var t := Run(EMPTY, [moveIn, leave]);
            && moveIn.id in t.leases && t.leases[moveIn.id].status == Active
            && !LiveLinks(t.occupancies, t.leases)
  {
    var ops := [moveIn, leave];
    FirstMoveIn(moveIn);
    var s1 := Step(EMPTY, moveIn).value;
    LeavingIsAccepted(s1, leave);
    RunOne(EMPTY, ops);
    RunOne(s1, ops[1..]);
    var t := Step(s1, leave).value;
    assert !Lives(t.occupancies, moveIn.stay);
    assert t.leases[moveIn.id].occupancy == Some(moveIn.stay);
  }

  // ------------------------------------------------------------- a replayable status

  predicate StatusReplays(history: seq<HistoryRow>, id: Id, status: LeaseStatus) {
    ValueOf(Replay(history, id), Field.Status) == TextValue(StatusName(status))
  }

  lemma StatusNamesDiffer(a: LeaseStatus, b: LeaseStatus)
    ensures StatusName(a) == StatusName(b) <==> a == b
  {
    assert StatusName(a)[0] == StatusName(b)[0] <==> a == b;
  }

  lemma StatusIsTracked()
    ensures Field.Status in TRACKED
  {
    assert TRACKED[0] == Field.Status;
  }

  /** What a row for a change does to the replayed status of its lease, and of others. */
  lemma StatusAfterARow(history: seq<HistoryRow>, id: Id, action: Action, l: Lease, next: Lease, other: Id)
    ensures ValueOf(Replay(Recorded(history, id, action, l, next), other), Field.Status)
         == if other == id && l.status != next.status then TextValue(StatusName(next.status)) else ValueOf(Replay(history, other), Field.Status)
  {
    var changes := ChangeSet(TRACKED, l.Row(), next.Row());
    StatusIsTracked();
    StatusNamesDiffer(l.status, next.status);
    assert Normal(l.Row(), Field.Status) == TextValue(StatusName(l.status));
    assert Normal(next.Row(), Field.Status) == TextValue(StatusName(next.status));
    ReplayOneMore(history, HistoryRow(id, action, changes), other);
  }

  lemma StatusAfterCreation(history: seq<HistoryRow>, id: Id, l: Lease, other: Id)
    ensures ValueOf(Replay(CreationRecorded(history, id, l), other), Field.Status)
         == if other == id then TextValue(StatusName(l.status)) else ValueOf(Replay(history, other), Field.Status)
  {
    StatusIsTracked();
    assert Normal(l.Row(), Field.Status) == TextValue(StatusName(l.status));
    ReplayOneMore(history, HistoryRow(id, Created, ChangeSet(TRACKED, map[], l.Row())), other);
  }

  /** The steps that set the status of the lease and write no history row for it. */
  predicate SkipsHistory(s: Estate, op: Op, id: Id)
    requires id in s.leases
  {
    match op
    case ActivateContract(l) => l == id && s.leases[id].status != Active
    case CancelContract(l, _) => l == id && s.leases[id].status != Cancelled
    case ExecuteMoveOut(l, _) =>
      l == id && FirstApproved(s.moveOuts, id).Some? && s.moveOuts[FirstApproved(s.moveOuts, id).value].moveAt < s.leases[id].endAt
    case _ => false
  }

  /** A move-out is recorded, so it sets the replayed status right whatever it was. */
  lemma MoveOutMendsTheReplay(s: Estate, moved: Id, form: MoveOutForm, id: Id)
    requires moved in s.leases && s.leases[moved].status == Active && s.leases[moved].occupancy.Some? && id in s.leases
    ensures var t := MovedOutStep(s, moved, form);
            ValueOf(Replay(t.history, id), Field.Status)
            == if id == moved then TextValue(StatusName(Ended)) else ValueOf(Replay(s.history, id), Field.Status)
  {
    StatusAfterARow(s.history, moved, MovedOut, s.leases[moved], Settled(s.leases[moved], form), id);
  }

  lemma CancelSkipsHistory(s: Estate, cancelled: Id, now: Time, id: Id)
    requires id in s.leases && StatusReplays(s.history, id, s.leases[id].status) && CancelStep(s, cancelled, now).Success?
    ensures id in CancelStep(s, cancelled, now).value.leases
    ensures var t := CancelStep(s, cancelled, now).value;
            StatusReplays(t.history, id, t.leases[id].status) <==> cancelled != id || s.leases[id].status == Cancelled
  {
    var t := CancelStep(s, cancelled, now).value;
    StatusNamesDiffer(s.leases[id].status, Cancelled);
    StatusNamesDiffer(Ended, Cancelled);
    if s.leases[cancelled].status == Active && s.leases[cancelled].occupancy.Some? {
      var form := MoveOutForm(now, map[], None, None);
      MoveOutLasts(s, cancelled, form, id);
      MoveOutMendsTheReplay(s, cancelled, form, id);
      assert t.history == MovedOutStep(s, cancelled, form).history;
    }
  }

  lemma LeavingByRequest(s: Estate, left: Id, k: nat, id: Id)
    requires left in s.leases && s.leases[left].status == Active && s.leases[left].occupancy.Some? && k < |s.moveOuts| && id in s.leases
    ensures var t, early := LeftByRequest(s, left, k), s.moveOuts[k].moveAt < s.leases[left].endAt;
            && id in t.leases
            && t.leases[id].status == (if id != left then s.leases[id].status else if early then Cancelled else Ended)
            && ValueOf(Replay(t.history, id), Field.Status)
               == if id == left then TextValue(StatusName(Ended)) else ValueOf(Replay(s.history, id), Field.Status)
  {
    var form := MoveOutForm(s.moveOuts[k].moveAt, map[], None, None);
    MoveOutLasts(s, left, form, id);
    MoveOutMendsTheReplay(s, left, form, id);
    assert LeftByRequest(s, left, k).history == MovedOutStep(s, left, form).history;
  }

  lemma ExecutionSkipsHistory(s: Estate, left: Id, k: nat, id: Id)
    requires left in s.leases && s.leases[left].status == Active && s.leases[left].occupancy.Some? && k < |s.moveOuts|
    requires id in s.leases && StatusReplays(s.history, id, s.leases[id].status)
    ensures id in LeftByRequest(s, left, k).leases
    ensures StatusReplays(LeftByRequest(s, left, k).history, id, LeftByRequest(s, left, k).leases[id].status)
       <==> !(left == id && s.moveOuts[k].moveAt < s.leases[id].endAt)
  {
    StatusNamesDiffer(Ended, Cancelled);
    LeavingByRequest(s, left, k, id);
  }

  lemma ActivationSkipsHistory(s: Estate, activated: Id, id: Id)
    requires id in s.leases && StatusReplays(s.history, id, s.leases[id].status) && ActivateStep(s, activated).Success?
    ensures var t := ActivateStep(s, activated).value;
            StatusReplays(t.history, id, t.leases[id].status) <==> activated != id || s.leases[id].status == Active
  {
    StatusNamesDiffer(s.leases[id].status, Active);
  }

  lemma UpdateKeepsTheReplay(s: Estate, updated: Id, p: Patch, allowed: set<Field>, id: Id)
    requires id in s.leases && StatusReplays(s.history, id, s.leases[id].status) && updated in s.leases
    ensures var t := UpdateStep(s, updated, p, allowed);
            StatusReplays(t.history, id, t.leases[id].status)
  {
    StatusAfterARow(s.history, updated, Updated, s.leases[updated], Patched(s.leases[updated], p, allowed), id);
  }

  /** The replayed status of a lease survives a step of any operation exactly when the step
      is none of the three that change the status unrecorded: activating a contract that is
      not ACTIVE, cancelling one that is not CANCELLED, and leaving one early. */
  lemma StepKeepsTheStatusReplayExactly(s: Estate, op: Op, id: Id)
    requires id in s.leases && StatusReplays(s.history, id, s.leases[id].status) && Step(s, op).Success?
    ensures id in Step(s, op).value.leases
    ensures StatusReplays(Step(s, op).value.history, id, Step(s, op).value.leases[id].status) <==> !SkipsHistory(s, op, id)
  {
    match op {
      case DraftContract(l, _, _, _, _, _, _, _, _, _) => StatusAfterCreation(s.history, l, Drafted(op), id);
      case MoveIn(l, _, _, _, _, _, _, _, _, _) => StatusAfterCreation(s.history, l, MovedIn(op), id);
      case UpdateContract(l, patch) => UpdateKeepsTheReplay(s, l, patch, CONTRACT_COLUMNS, id);
      case UpdateLease(l, patch) => UpdateKeepsTheReplay(s, l, patch, LEASE_COLUMNS, id);
      case ActivateContract(l) => ActivationSkipsHistory(s, l, id);
      case CancelContract(l, now) => CancelSkipsHistory(s, l, now, id);
      case MoveOut(l, _, form) => MoveOutLasts(s, l, form, id); MoveOutMendsTheReplay(s, l, form, id);
      case ExecuteMoveOut(l, _) => ExecutionSkipsHistory(s, l, FirstApproved(s.moveOuts, l).value, id);
      case _ =>
    }
  }

  lemma NothingElseAddsALease(s: Estate, op: Op, id: Id)
    requires Step(s, op).Success? && !op.DraftContract? && !op.MoveIn? && id in Step(s, op).value.leases
    ensures id in s.leases
  {
  }

  /** And the status of every new lease replays from its creation. */
  lemma NewLeasesReplay(s: Estate, op: Op, id: Id)
    requires Step(s, op).Success? && id !in s.leases && id in Step(s, op).value.leases
    ensures StatusReplays(Step(s, op).value.history, id, Step(s, op).value.leases[id].status)
  {
    if op.DraftContract? {
      StatusAfterCreation(s.history, op.id, Drafted(op), id);
    } else if op.MoveIn? {
      StatusAfterCreation(s.history, op.id, MovedIn(op), id);
    } else {
      NothingElseAddsALease(s, op, id);
    }
  }

  lemma ActivationWritesNoRow(s: Estate, op: Op)
    requires op.ActivateContract? && op.id in s.leases && s.leases[op.id].status != Ended
    ensures Step(s, op).Success? && Step(s, op).value.history == s.history
    ensures Step(s, op).value.leases == s.leases[op.id := s.leases[op.id].(status := Active)]
  {
  }

  /** An activated draft is ACTIVE, and its history says DRAFT. */
  lemma UnreplayableStatusIsReachable(draft: Op, activate: Op)
    requires Draftable(draft) && activate.ActivateContract? && activate.id == draft.id
    ensures var t := Run(EMPTY, [draft, activate]);
            && draft.id in t.leases && t.leases[draft.id].status == Active
            && StatusReplays(t.history, draft.id, Draft) && !StatusReplays(t.history, draft.id, Active)
  {
    var ops := [draft, activate];
    DraftIsAccepted(EMPTY, draft);
    var s1 := Step(EMPTY, draft).value;
    NewLeasesReplay(EMPTY, draft, draft.id);
    ActivationWritesNoRow(s1, activate);
    RunOne(EMPTY, ops);
    RunOne(s1, ops[1..]);
    StatusNamesDiffer(Draft, Active);
  }

  // ------------------------------------------------- requests that nothing can settle

  /** An approved move-out request of a lease that has ended. */
  predicate Stuck(s: Estate, id: Id, k: nat) {
    && id in s.leases && s.leases[id].status == Ended
    && k < |s.moveOuts| && s.moveOuts[k].lease == id && s.moveOuts[k].status == Approved
  }

  lemma StuckRequestsStay(s: Estate, op: Op, id: Id, k: nat)
    requires Stuck(s, id, k) && Step(s, op).Success?
    ensures Stuck(Step(s, op).value, id, k)
  {
    StepKeepsEndings(s, op, id);
    StepLeavesTheRequest(s, op, id, k);
  }

  lemma StepLeavesTheRequest(s: Estate, op: Op, id: Id, k: nat)
    requires Stuck(s, id, k) && Step(s, op).Success?
    ensures k < |Step(s, op).value.moveOuts| && Step(s, op).value.moveOuts[k] == s.moveOuts[k]
  {
    match op {
      case CancelContract(l, now) => CancelWithdrawsItsOwn(s, l, now);
      case MoveOut(l, _, form) => MoveOutKeepsRequests(s, l, form);
      case ExecuteMoveOut(l, permitted) =>
        MoveOutKeepsRequests(s, l, MoveOutForm(s.moveOuts[FirstApproved(s.moveOuts, l).value].moveAt, map[], None, None));
      case _ =>
    }
  }

  lemma MoveOutKeepsRequests(s: Estate, id: Id, form: MoveOutForm)
    requires id in s.leases && s.leases[id].occupancy.Some?
    ensures MovedOutStep(s, id, form).moveOuts == s.moveOuts && MovedOutStep(s, id, form).moveIns == s.moveIns
  {
  }

  lemma CancelWithdrawsItsOwn(s: Estate, id: Id, now: Time)
    requires CancelStep(s, id, now).Success?
    ensures CancelStep(s, id, now).value.moveOuts == WithdrawOpen(s.moveOuts, id)
    ensures CancelStep(s, id, now).value.moveIns == WithdrawOpen(s.moveIns, id)
  {
    if s.leases[id].status == Active && s.leases[id].occupancy.Some? {
      MoveOutKeepsRequests(s, id, MoveOutForm(now, map[], None, None));
    }
  }

  /** An approved move-out request of an ended lease is settled by no run, and neither
      executing it nor cancelling its contract is ever accepted again. */
  lemma {:induction false} StuckForGood(s: Estate, ops: seq<Op>, id: Id, k: nat, permitted: bool, now: Time)
    requires Stuck(s, id, k)
    ensures var t := Run(s, ops);
            && Stuck(t, id, k)
            && ExecuteMoveOutStep(t, id, permitted).Failure?
            && CancelStep(t, id, now).Failure?
    decreases ops
  {
    if ops != [] {
      var r := Step(s, ops[0]);
      if r.Success? {
        StuckRequestsStay(s, ops[0], id, k);
        StuckForGood(r.value, ops[1..], id, k, permitted, now);
      } else {
        StuckForGood(s, ops[1..], id, k, permitted, now);
      }
    }
  }

  /** A move-out beside an approved request gets it stuck: a plain one, and also the one
      that a cancellation or the execution itself commits before it crashes. */
  lemma MoveOutLeavesTheRequestStuck(s: Estate, id: Id, form: MoveOutForm, k: nat, ops: seq<Op>)
    requires id in s.leases && s.leases[id].status == Active && s.leases[id].occupancy.Some?
    requires k < |s.moveOuts| && s.moveOuts[k].lease == id && s.moveOuts[k].status == Approved
    ensures Stuck(Run(MovedOutStep(s, id, form), ops), id, k)
  {
    MoveOutLasts(s, id, form, id);
    MoveOutKeepsRequests(s, id, form);
    StuckForGood(MovedOutStep(s, id, form), ops, id, k, true, form.movedOutAt);
  }

  predicate SettlesMoveOut(s: Estate, ops: seq<Op>, k: nat) {
    k < |Run(s, ops).moveOuts| && !Run(s, ops).moveOuts[k].Open()
  }

  lemma RunOneOnly(s: Estate, op: Op)
    requires Step(s, op).Success?
    ensures Run(s, [op]) == Step(s, op).value
  {
    RunOne(s, [op]);
    assert [op][1..] == [];
  }

  lemma RejectionSettles(s: Estate, k: nat, now: Time)
    requires k < |s.moveOuts| && s.moveOuts[k].status == PendingReview
    ensures SettlesMoveOut(s, [ReviewMoveOut(k, false, true, now)], k)
  {
    RunOneOnly(s, ReviewMoveOut(k, false, true, now));
  }

  lemma CancellationSettles(s: Estate, op: Op)
    requires op.CancelContract? && op.id in s.leases && s.leases[op.id].status != Ended
    ensures var t := Run(s, [op]);
            t.moveOuts == WithdrawOpen(s.moveOuts, op.id) && t.moveIns == WithdrawOpen(s.moveIns, op.id)
  {
    CancelWithdrawsItsOwn(s, op.id, op.now);
    RunOneOnly(s, op);
  }

  /** An open move-out request can still be settled exactly when it is not stuck. */
  lemma SettledBySomeRunExactly(s: Estate, k: nat, now: Time)
    requires k < |s.moveOuts| && s.moveOuts[k].Open() && s.moveOuts[k].lease in s.leases
    ensures (exists ops :: SettlesMoveOut(s, ops, k)) <==> !Stuck(s, s.moveOuts[k].lease, k)
  {
    var id := s.moveOuts[k].lease;
    if Stuck(s, id, k) {
      forall ops
        ensures !SettlesMoveOut(s, ops, k)
      {
        StuckForGood(s, ops, id, k, true, now);
      }
    } else if s.leases[id].status == Ended {
      RejectionSettles(s, k, now);
      assert SettlesMoveOut(s, [ReviewMoveOut(k, false, true, now)], k);
    } else {
      CancellationSettles(s, CancelContract(id, now));
      assert SettlesMoveOut(s, [CancelContract(id, now)], k);
    }
  }

  /** An open move-in request can always be settled. */
  lemma MoveInsCanBeSettled(s: Estate, k: nat, now: Time)
    requires Consistent(s) && k < |s.moveIns| && s.moveIns[k].Open()
    ensures exists ops :: k < |Run(s, ops).moveIns| && !Run(s, ops).moveIns[k].Open()
  {
    var id := s.moveIns[k].lease;
    assert LinkAgrees(s.occupancies, s.leases[id]);
    CancellationSettles(s, CancelContract(id, now));
    assert k < |Run(s, [CancelContract(id, now)]).moveIns| && !Run(s, [CancelContract(id, now)]).moveIns[k].Open();
  }
}
