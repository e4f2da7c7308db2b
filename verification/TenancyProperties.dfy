/** What the consistency of the tenancy tables means for residents and managers, and what
    the operations bring about. */
module TenancyProperties {
  import opened Wrappers
  import opened H = LeaseHistory
  import opened Tenancy
  import opened TenancyInvariants

  // ----------------------------------------- advertised actions and accepted ones

  /** The status of a lease's newest request. */
  function LatestStatus(requests: seq<MoveRequest>, lease: Id): Option<MoveStatus> {
    if requests == [] then None
    else if requests[|requests| - 1].lease == lease then Some(requests[|requests| - 1].status)
    else LatestStatus(requests[..|requests| - 1], lease)
  }

  predicate Blocks(latest: Option<MoveStatus>) {
    latest in {Some(PendingReview), Some(Approved)}
  }

  /** getLatestContractSummaryForResident */
  predicate CanRequestMoveIn(s: Estate, id: Id)
    requires id in s.leases
  {
    s.leases[id].status == Active && !s.Occupied(s.leases[id]) && !Blocks(LatestStatus(s.moveIns, id))
  }

  predicate CanRequestMoveOut(s: Estate, id: Id)
    requires id in s.leases
  {
    s.leases[id].status == Active && s.Occupied(s.leases[id]) && !Blocks(LatestStatus(s.moveOuts, id))
  }

  /** The contracts among which a resident's latest one is chosen. */
  predicate ShownTo(s: Estate, id: Id, user: Id)
    requires id in s.leases
  {
    var l := s.leases[id];
    || l.resident == Some(user)
    || (l.occupancy.Some? && l.occupancy.value in s.occupancies && s.occupancies[l.occupancy.value].resident == user)
  }

  /** Looking at the newest request is as good as looking for an open one. */
  lemma {:induction false} NewestTellsOpen(leases: map<Id, Lease>, requests: seq<MoveRequest>, id: Id)
    requires OnlyNewestOpen(leases, requests)
    ensures HasOpen(requests, id) <==> Blocks(LatestStatus(requests, id))
  {
    if requests != [] {
      var n := |requests| - 1;
      var rest := requests[..n];
      NewestTellsOpen(leases, rest, id);
      if requests[n].lease == id {
        assert forall k :: 0 <= k < n && requests[k].lease == id ==> !requests[k].Open();
      } else if HasOpen(requests, id) {
        var k :| 0 <= k < |requests| && requests[k].lease == id && requests[k].Open();
        assert rest[k] == requests[k];
      }
    }
  }

  lemma ShownContractsAreOwned(s: Estate, id: Id, user: Id)
    requires Consistent(s) && id in s.leases && ShownTo(s, id, user)
    ensures Owns(s, id, user)
  {
    assert LinkAgrees(s.occupancies, s.leases[id]);
  }

  /** For every contract shown to a resident, a move-out can be requested exactly when
      it is advertised. */
  lemma AdvertisedMoveOutIsAccepted(s: Estate, id: Id, user: Id, moveAt: Time)
    requires Consistent(s) && id in s.leases && ShownTo(s, id, user)
    ensures Step(s, RequestMoveOut(id, user, moveAt)).Success? <==> CanRequestMoveOut(s, id)
  {
    ShownContractsAreOwned(s, id, user);
    NewestTellsOpen(s.leases, s.moveOuts, id);
    assert Step(s, RequestMoveOut(id, user, moveAt)) == RequestMoveOutStep(s, id, user, moveAt);
  }

  /** A move-in can be requested exactly when it is advertised and the contract was never
      moved into. */
  lemma AdvertisedMoveInIsAccepted(s: Estate, id: Id, user: Id, moveAt: Time)
    requires Consistent(s) && id in s.leases && ShownTo(s, id, user)
    ensures Step(s, RequestMoveIn(id, user, moveAt)).Success? <==> CanRequestMoveIn(s, id) && s.leases[id].occupancy.None?
  {
    ShownContractsAreOwned(s, id, user);
    NewestTellsOpen(s.leases, s.moveIns, id);
    assert Step(s, RequestMoveIn(id, user, moveAt)) == RequestMoveInStep(s, id, user, moveAt);
  }

  /** A moved-in contract that is cancelled and activated again advertises a move-in
      that is then refused, to whoever asks. */
  lemma ReactivatedContractAdvertisesInVain(s: Estate, id: Id, now: Time, user: Id, moveAt: Time)
    requires Consistent(s) && id in s.leases && s.leases[id].status == Active && s.leases[id].occupancy.Some?
    ensures var u := CancelStep(s, id, now);
            && u.Success?
            && var t := ActivateStep(u.value, id);
            && t.Success?
            && id in t.value.leases
            && CanRequestMoveIn(t.value, id)
            && RequestMoveInStep(t.value, id, user, moveAt).Failure?
  {
    CancelKeeps(s, id, now);
    var u := CancelStep(s, id, now).value;
    assert LinkAgrees(u.occupancies, u.leases[id]);
    ActivateKeeps(u, id);
    var t := ActivateStep(u, id).value;
    NewestTellsOpen(t.leases, t.moveIns, id);
  }

  lemma RunOne(s: Estate, ops: seq<Op>)
    requires ops != [] && Step(s, ops[0]).Success?
    ensures Run(s, ops) == Run(Step(s, ops[0]).value, ops[1..])
  {
  }

  // ------------------------------------------------------- the approved request

  /** At most one request of a lease is approved, so it does not matter in which order
      an execution looks for it. */
  lemma ApprovedRequestIsForced(s: Estate, requests: seq<MoveRequest>, id: Id, k: nat)
    requires Consistent(s) && requests in {s.moveIns, s.moveOuts}
    requires k < |requests| && requests[k].lease == id && requests[k].status == Approved
    ensures FirstApproved(requests, id) == Some(k)
    ensures forall j :: 0 <= j < |requests| && requests[j].lease == id && requests[j].Open() ==> j == k
  {
    assert requests[k].Open();
    var best := FirstApproved(requests, id);
    assert best.Some?;
    assert requests[best.value].Open();
  }

  // ------------------------------------------------------------- what is for good

  /** What no operation takes back from a lease. */
  predicate Lasts(before: Lease, after: Lease) {
    && (before.status == Ended ==> after.status == Ended)
    && (before.occupancy.Some? ==> after.occupancy == before.occupancy)
    && after.building == before.building && after.unit == before.unit && after.resident == before.resident
  }

  lemma MoveOutLasts(s: Estate, moved: Id, form: MoveOutForm, id: Id)
    requires moved in s.leases && s.leases[moved].status == Active && s.leases[moved].occupancy.Some? && id in s.leases
    ensures id in MovedOutStep(s, moved, form).leases && Lasts(s.leases[id], MovedOutStep(s, moved, form).leases[id])
    ensures id != moved ==> MovedOutStep(s, moved, form).leases[id] == s.leases[id]
    ensures moved in MovedOutStep(s, moved, form).leases && MovedOutStep(s, moved, form).leases[moved].status == Ended
  {
  }

  lemma CancelLasts(s: Estate, cancelled: Id, now: Time, id: Id)
    requires id in s.leases && CancelStep(s, cancelled, now).Success?
    ensures id in CancelStep(s, cancelled, now).value.leases && Lasts(s.leases[id], CancelStep(s, cancelled, now).value.leases[id])
  {
    if s.leases[cancelled].status == Active && s.leases[cancelled].occupancy.Some? {
      MoveOutLasts(s, cancelled, MoveOutForm(now, map[], None, None), id);
    }
  }

  lemma ExecutionLasts(s: Estate, left: Id, permitted: bool, id: Id)
    requires id in s.leases && ExecuteMoveOutStep(s, left, permitted).Success?
    ensures id in ExecuteMoveOutStep(s, left, permitted).value.leases
    ensures Lasts(s.leases[id], ExecuteMoveOutStep(s, left, permitted).value.leases[id])
  {
    var moveAt := s.moveOuts[FirstApproved(s.moveOuts, left).value].moveAt;
    MoveOutLasts(s, left, MoveOutForm(moveAt, map[], None, None), id);
  }

  lemma StepKeepsEndings(s: Estate, op: Op, id: Id)
    requires id in s.leases && Step(s, op).Success?
    ensures id in Step(s, op).value.leases && Lasts(s.leases[id], Step(s, op).value.leases[id])
  {
    match op {
      case CancelContract(cancelled, now) => CancelLasts(s, cancelled, now, id);
      case MoveOut(moved, _, form) => MoveOutLasts(s, moved, form, id);
      case ExecuteMoveOut(left, permitted) => ExecutionLasts(s, left, permitted, id);
      case _ =>
    }
  }

  /** An ENDED lease stays ENDED; a link, once made, is never changed, and neither is the
      unit or the named resident. */
  lemma {:induction false} EndedLeasesStayEnded(s: Estate, ops: seq<Op>, id: Id)
    requires id in s.leases
    ensures id in Run(s, ops).leases && Lasts(s.leases[id], Run(s, ops).leases[id])
    decreases ops
  {
    if ops != [] {
      var r := Step(s, ops[0]);
      if r.Success? {
        StepKeepsEndings(s, ops[0], id);
        EndedLeasesStayEnded(r.value, ops[1..], id);
      } else {
        EndedLeasesStayEnded(s, ops[1..], id);
      }
    }
  }

  // ------------------------------------------------------ what operations bring about

  /** The settled lease is ENDED and carries the form: what the form leaves out is cleared,
      and no column but the form's, the date, the deductions and the refund is touched. */
  lemma SettlementWritesTheForm(l: Lease, form: MoveOutForm, f: Field)
    ensures var after := Settled(l, form);
            && after.status == Ended && after.startAt == l.startAt && after.endAt == l.endAt
            && after.occupancy == l.occupancy && after.resident == l.resident
            && Normal(after.columns, f) ==
               if f == ActualMoveOutDate then IsoValue(form.movedOutAt)
               else if f == TotalDeductions then DigitsValue(Deductions(l, form))
               else if f == NetRefund then DigitsValue(Refund(l, form))
               else if f in MOVE_OUT_COLUMNS then Normal(form.columns, f)
               else Normal(l.columns, f)
  {
    var totals := Totals(form.movedOutAt, Deductions(l, form), Refund(l, form));
    TotalsHold(form.movedOutAt, Deductions(l, form), Refund(l, form), f);
    FormHolds(form, f);
    TopLayerWins(l.columns, FormColumns(form), totals, f);
  }

  lemma FormHolds(form: MoveOutForm, f: Field)
    ensures f in FormColumns(form) <==> f in MOVE_OUT_COLUMNS
    ensures f in FormColumns(form) ==> Normal(FormColumns(form), f) == Normal(form.columns, f)
  {
    if f in MOVE_OUT_COLUMNS && f in form.columns {
      SameColumn(FormColumns(form), form.columns, f);
    }
  }

  lemma TotalsHold(movedOutAt: Time, deductions: real, refund: real, f: Field)
    ensures var totals := Totals(movedOutAt, deductions, refund);
            && (f in totals <==> f in {ActualMoveOutDate, TotalDeductions, NetRefund})
            && (f == ActualMoveOutDate ==> Normal(totals, f) == IsoValue(movedOutAt))
            && (f == TotalDeductions ==> Normal(totals, f) == DigitsValue(deductions))
            && (f == NetRefund ==> Normal(totals, f) == DigitsValue(refund))
  {
  }

  lemma TopLayerWins(base: Columns, middle: Columns, top: Columns, f: Field)
    ensures Normal(base + middle + top, f) == Normal(if f in top then top else if f in middle then middle else base, f)
  {
    var all := base + middle + top;
    var layer := if f in top then top else if f in middle then middle else base;
    assert f in all <==> f in layer;
    if f in all {
      assert all[f] == layer[f];
    }
    SameColumn(all, layer, f);
  }

  lemma SameColumn(a: Columns, b: Columns, f: Field)
    requires (f in a <==> f in b) && (f in a ==> a[f] == b[f])
    ensures Normal(a, f) == Normal(b, f)
  {
  }

  /** An accepted move-out settles its lease, ends the stay linked from it on the date of
      the form and adds one row to the history; no other lease, stay or request changes. */
  lemma MoveOutEndsOneTenancy(s: Estate, op: Op)
    requires Consistent(s) && op.MoveOut? && Step(s, op).Success?
    ensures var t := Step(s, op).value;
            var l := s.leases[op.id];
            && l.status == Active && l.occupancy.Some? && l.occupancy.value in s.occupancies
            && t.leases == s.leases[op.id := Settled(l, op.form)]
            && t.occupancies == s.occupancies[l.occupancy.value := s.occupancies[l.occupancy.value].(endAt := Some(op.form.movedOutAt))]
            && t.moveIns == s.moveIns && t.moveOuts == s.moveOuts
            && |t.history| == |s.history| + 1 && t.history[..|s.history|] == s.history && t.history[|s.history|].lease == op.id
  {
    var l := s.leases[op.id];
    assert LinkAgrees(s.occupancies, l);
    RecordingAChange(s.history, op.id, MovedOut, l, Settled(l, op.form));
    StatusChangeIsRecorded(l, Settled(l, op.form));
  }

  /** Two statuses have two names, and the status is tracked. */
  lemma StatusChangeIsRecorded(a: Lease, b: Lease)
    requires a.status == Active && b.status == Ended
    ensures ChangeSet(TRACKED, a.Row(), b.Row()) != map[]
  {
    assert TRACKED[0] == Field.Status;
    assert Normal(a.Row(), Field.Status) == TextValue("ACTIVE") && Normal(b.Row(), Field.Status) == TextValue("ENDED");
    assert "ACTIVE"[0] != "ENDED"[0];
    assert Field.Status in ChangeSet(TRACKED, a.Row(), b.Row());
  }

  /** Withdrawing leaves no request of the contract open; settled requests, and those of
      other contracts, stay as they were. */
  lemma WithdrawingLeavesNothingOpen(requests: seq<MoveRequest>, id: Id)
    ensures !HasOpen(WithdrawOpen(requests, id), id)
    ensures forall k :: 0 <= k < |requests| && (requests[k].lease != id || !requests[k].Open()) ==> WithdrawOpen(requests, id)[k] == requests[k]
  {
  }

  /** Cancelling leaves nobody housed by the contract and none of its requests open. */
  lemma CancelLeavesNothingOpen(s: Estate, id: Id, now: Time)
    requires Consistent(s) && CancelStep(s, id, now).Success?
    ensures var t := CancelStep(s, id, now).value;
            && t.leases[id].status == Cancelled && !t.Occupied(t.leases[id])
            && t.moveIns == WithdrawOpen(s.moveIns, id) && !HasOpen(t.moveIns, id)
            && t.moveOuts == WithdrawOpen(s.moveOuts, id) && !HasOpen(t.moveOuts, id)
  {
    assert LinkAgrees(s.occupancies, s.leases[id]);
    if s.leases[id].status == Active && s.leases[id].occupancy.Some? {
      MovedOutKeeps(s, id, MoveOutForm(now, map[], None, None));
    }
    WithdrawingLeavesNothingOpen(s.moveIns, id);
    WithdrawingLeavesNothingOpen(s.moveOuts, id);
  }

  /** An executed move-in houses the contract's resident in the contract's unit from now
      on and completes the one request that was open; nothing else changes. */
  lemma ExecutionMovesIn(s: Estate, op: Op)
    requires Consistent(s) && op.ExecuteMoveIn? && Step(s, op).Success?
    ensures var t := Step(s, op).value;
            var l := s.leases[op.id];
            && l.resident.Some? && FirstApproved(s.moveIns, op.id).Some?
            && var k := FirstApproved(s.moveIns, op.id).value;
            && t.occupancies == s.occupancies[op.stay := Occupancy(l.building, l.unit, l.resident.value, op.now, None)]
            && t.leases == s.leases[op.id := l.(occupancy := Some(op.stay))]
            && t.moveIns == s.moveIns[k := s.moveIns[k].(status := Completed)]
            && t.moveOuts == s.moveOuts && t.history == s.history
            && !HasOpen(t.moveIns, op.id)
  {
    var k := FirstApproved(s.moveIns, op.id).value;
    ApprovedRequestIsForced(s, s.moveIns, op.id, k);
  }
}
