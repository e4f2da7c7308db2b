/** No request gets stuck: from any open request a privileged manager can finish
    within five operations, with one exception, which is characterised exactly. */
module RequestProgress {
  import opened Wrappers
  import opened Policy
  import opened Requests

  predicate Privileged(a: Actor) {
    !a.StaffOnly() && a.canOverride
  }

  /** The triage flags and the intake: what the policy reads, besides amount,
      estimate and approval. */
  predicate SameFacts(a: Request, b: Request) {
    && a.unit == b.unit
    && a.intake == b.intake
    && a.signals == b.signals
    && a.triage.isEmergency == b.triage.isEmergency
    && a.triage.likeForLike == b.triage.likeForLike
    && a.triage.upgrade == b.triage.upgrade
    && a.triage.majorReplacement == b.triage.majorReplacement
    && a.triage.disputed == b.triage.disputed
  }

  /** A request that needs the owner for what it is, but has no unit and hence no
      owner, and no approval that an estimate will not take away again. */
  predicate Ownerless(row: Request) {
    && row.unit.None?
    && row.PolicyView().ChangesTheProperty()
    && !row.PolicyView().Urgent()
    && (row.approval.status in {NotRequired, Rejected} || row.estimate.status == Requested)
  }

  // --------------------------------------------------------------------- plans

  function Override(boss: Actor, now: Time): Op {
    OverrideApproval(boss, EmergencyOverride, "urgent", now)
  }

  function Submit(boss: Actor, price: real, now: Time): Op {
    SubmitEstimate(boss, price, NO_TRIAGE_CHANGE, None, None, now)
  }

  /** At most two operations that leave nothing blocking execution. */
  function UnlockPlan(boss: Actor, row: Request, price: real, now: Time): seq<Op> {
    if row.Unlocked() then []
    else if row.estimate.status != Requested && row.approval.status == Pending then
      [Override(boss, now)]
    else if row.estimate.status != Requested && row.unit.Some? then
      [RequireApproval(boss, Stated("policy"), NO_TRIAGE_CHANGE, None), Override(boss, now)]
    else if SubmissionNeedsOwner(price, NO_TRIAGE_CHANGE, row) then
      [Submit(boss, price, now), Override(boss, now)]
    else
      [Submit(boss, price, now)]
  }

  /** The remaining status changes. */
  function FinishPlan(boss: Actor, status: Status, now: Time): seq<Op> {
    match status
    case Open => [ChangeStatus(boss, Assigned, now), ChangeStatus(boss, InProgress, now), ChangeStatus(boss, Completed, now)]
    case Assigned => [ChangeStatus(boss, InProgress, now), ChangeStatus(boss, Completed, now)]
    case InProgress => [ChangeStatus(boss, Completed, now)]
    case Completed => []
    case Canceled => []
  }

  function CompletionPlan(boss: Actor, row: Request, price: real, now: Time): seq<Op> {
    UnlockPlan(boss, row, price, now) + FinishPlan(boss, row.status, now)
  }

  // -------------------------------------------------------------- plans succeed

  lemma {:induction false} RunConcat(rec: Record, a: seq<Op>, b: seq<Op>)
    ensures Run(rec, a + b) == Run(Run(rec, a), b)
    ensures AllAccepted(rec, a + b) <==> AllAccepted(rec, a) && AllAccepted(Run(rec, a), b)
    decreases a
  {
    if a == [] {
      assert a + b == b;
    } else {
      assert (a + b)[0] == a[0] && (a + b)[1..] == a[1..] + b;
      var r := Apply(rec, a[0]);
      RunConcat(if r.Success? then r.value else rec, a[1..], b);
    }
  }

  lemma OneStep(rec: Record, op: Op)
    requires Apply(rec, op).Success?
    ensures AllAccepted(rec, [op]) && Run(rec, [op]) == Apply(rec, op).value
  {
    assert [op][1..] == [];
  }

  lemma TwoSteps(rec: Record, p: Op, q: Op)
    requires Apply(rec, p).Success? && Apply(Apply(rec, p).value, q).Success?
    ensures AllAccepted(rec, [p, q])
    ensures Run(rec, [p, q]) == Apply(Apply(rec, p).value, q).value
  {
    OneStep(rec, p);
    OneStep(Apply(rec, p).value, q);
    RunConcat(rec, [p], [q]);
    assert [p] + [q] == [p, q];
  }

  lemma SubmissionOutcome(boss: Actor, price: real, now: Time, row: Request)
    requires row.unit.Some? || (price <= APPROVAL_THRESHOLD && !Ownerless(row))
    requires row.estimate.status == Requested || row.approval.status in {NotRequired, Rejected}
    ensures var after := Effect(Submit(boss, price, now), row);
            && SameFacts(row, after)
            && after.status == row.status
            && after.estimate.status == EstimateStatus.Submitted
            && if SubmissionNeedsOwner(price, NO_TRIAGE_CHANGE, row) then after.approval.status == Pending else after.Unlocked()
  {
  }

  /** Nothing blocks execution any more, and nothing else that matters has changed. */
  predicate Freed(before: Request, after: Request) {
    after.Unlocked() && after.status == before.status && SameFacts(before, after)
  }

  lemma OverrideFrees(boss: Actor, rec: Record, now: Time)
    requires Privileged(boss) && !rec.row.Closed() && rec.row.approval.status == Pending && rec.row.estimate.status != Requested
    ensures var r := Apply(rec, Override(boss, now));
            r.Success? && Freed(rec.row, r.value.row) && r.value.row.triage == rec.row.triage
  {
  }

  lemma RequirementIsAccepted(boss: Actor, rec: Record)
    requires Privileged(boss) && !rec.row.Closed() && rec.row.unit.Some? && rec.row.estimate.status != Requested && !rec.row.Unlocked()
    requires rec.row.approval.status != Pending
    ensures var r := Apply(rec, RequireApproval(boss, Stated("policy"), NO_TRIAGE_CHANGE, None));
            && r.Success?
            && r.value.row.approval.status == Pending && r.value.row.status == rec.row.status && r.value.row.triage == rec.row.triage
            && r.value.row.estimate == rec.row.estimate && SameFacts(rec.row, r.value.row)
  {
  }

  lemma SubmissionIsAccepted(boss: Actor, rec: Record, price: real, now: Time)
    requires Privileged(boss) && !rec.row.Closed() && !Ownerless(rec.row)
    requires rec.row.unit.Some? || price <= APPROVAL_THRESHOLD
    requires rec.row.estimate.status == Requested || rec.row.approval.status in {NotRequired, Rejected}
    ensures Apply(rec, Submit(boss, price, now)).Success?
    ensures Apply(rec, Submit(boss, price, now)).value.row == Effect(Submit(boss, price, now), rec.row)
  {
    SubmissionOutcome(boss, price, now, rec.row);
  }

  lemma UnlockPlanWorks(boss: Actor, rec: Record, price: real, now: Time)
    requires Privileged(boss) && !rec.row.Closed() && !Ownerless(rec.row)
    requires rec.row.unit.Some? || price <= APPROVAL_THRESHOLD
    ensures var plan := UnlockPlan(boss, rec.row, price, now);
            var after := Run(rec, plan).row;
            && |plan| <= 2
            && AllAccepted(rec, plan)
            && Freed(rec.row, after)
            && (rec.row.unit.Some? && rec.row.estimate.status != Requested ==> after.triage == rec.row.triage)
  {
    var row := rec.row;
    var plan := UnlockPlan(boss, row, price, now);
    if row.Unlocked() {
    } else if row.estimate.status != Requested && row.approval.status == Pending {
      OverrideFrees(boss, rec, now);
      OneStep(rec, plan[0]);
    } else if row.estimate.status != Requested && row.unit.Some? {
      RequirementIsAccepted(boss, rec);
      OverrideFrees(boss, Apply(rec, plan[0]).value, now);
      TwoSteps(rec, plan[0], plan[1]);
    } else {
      SubmissionOutcome(boss, price, now, row);
      SubmissionIsAccepted(boss, rec, price, now);
      if SubmissionNeedsOwner(price, NO_TRIAGE_CHANGE, row) {
        OverrideFrees(boss, Apply(rec, plan[0]).value, now);
        TwoSteps(rec, plan[0], plan[1]);
      } else {
        OneStep(rec, plan[0]);
      }
    }
  }

  lemma MoveIsAccepted(boss: Actor, rec: Record, next: Status, now: Time)
    requires Privileged(boss) && rec.row.Unlocked() && next in Transitions(rec.row.status)
    ensures var r := Apply(rec, ChangeStatus(boss, next, now));
            r.Success? && r.value.row == Moved(rec.row, next, now) && r.value.row.Unlocked()
  {
  }

  lemma {:induction false} FinishPlanWorks(boss: Actor, rec: Record, now: Time)
    requires Privileged(boss) && !rec.row.Closed() && rec.row.Unlocked()
    ensures var plan := FinishPlan(boss, rec.row.status, now);
            var after := Run(rec, plan).row;
            && |plan| <= 3
            && AllAccepted(rec, plan)
            && after.status == Completed
            && SameFacts(rec.row, after) && after.triage == rec.row.triage
    decreases |FinishPlan(boss, rec.row.status, now)|
  {
    var plan := FinishPlan(boss, rec.row.status, now);
    var next := match rec.row.status case Open => Assigned case Assigned => InProgress case InProgress => Completed case _ => Canceled;
    MoveIsAccepted(boss, rec, next, now);
    var after := Apply(rec, plan[0]).value;
    assert plan[1..] == FinishPlan(boss, after.row.status, now);
    if next != Completed {
      FinishPlanWorks(boss, after, now);
    }
  }

  /** No deadlock: every request that is not closed and not ownerless is completed
      by at most five accepted operations of a privileged manager, at whatever price
      if it has a unit, and without touching a triage flag. */
  lemma CompletionWithinFiveSteps(boss: Actor, rec: Record, price: real, now: Time)
    requires Privileged(boss) && !rec.row.Closed() && !Ownerless(rec.row)
    requires rec.row.unit.Some? || price <= APPROVAL_THRESHOLD
    ensures var plan := CompletionPlan(boss, rec.row, price, now);
            var after := Run(rec, plan).row;
            && |plan| <= 5
            && AllAccepted(rec, plan)
            && after.status == Completed
            && SameFacts(rec.row, after)
            && (rec.row.unit.Some? && rec.row.estimate.status != Requested ==> after.triage == rec.row.triage)
  {
    var unlock := UnlockPlan(boss, rec.row, price, now);
    UnlockPlanWorks(boss, rec, price, now);
    FinishPlanWorks(boss, Run(rec, unlock), now);
    RunConcat(rec, unlock, FinishPlan(boss, rec.row.status, now));
  }

  lemma {:induction false} UnitIsKept(rec: Record, ops: seq<Op>)
    ensures Run(rec, ops).row.unit == rec.row.unit
    decreases ops
  {
    if ops != [] {
      var r := Apply(rec, ops[0]);
      UnitIsKept(if r.Success? then r.value else rec, ops[1..]);
    }
  }

  /** Residents report from the unit they live in, so every request that the service
      can reach and that is not closed can be completed in at most five operations. */
  lemma ReachableRequestsCanBeCompleted(
    resident: Id, unit: Id, intake: Intake, isEmergency: Option<bool>, signals: seq<Signal>, created: Time,
    ops: seq<Op>, boss: Actor, price: real, now: Time)
    requires Privileged(boss)
    requires !Run(Created(resident, unit, intake, isEmergency, signals, created), ops).row.Closed()
    ensures var rec := Run(Created(resident, unit, intake, isEmergency, signals, created), ops);
            var plan := CompletionPlan(boss, rec.row, price, now);
            |plan| <= 5 && AllAccepted(rec, plan) && Run(rec, plan).row.status == Completed
  {
    var start := Created(resident, unit, intake, isEmergency, signals, created);
    UnitIsKept(start, ops);
    CompletionWithinFiveSteps(boss, Run(start, ops), price, now);
  }

  // ------------------------------------------------------------- the exception

  predicate LeavesFlags(c: TriageChange) {
    c.isEmergency.None? && c.likeForLike.None? && c.upgrade.None? && c.majorReplacement.None? && c.disputed.None?
  }

  predicate LeavesFacts(op: Op) {
    match op
    case EditByResident(_, _) => false
    case RequireApproval(_, _, change, _) => LeavesFlags(change)
    case AskOwnerNow(_, _, change, _, _) => LeavesFlags(change)
    case UpdateTriage(_, change) => LeavesFlags(change)
    case SubmitEstimate(_, _, change, _, _, _) => LeavesFlags(change)
    case SubmitEstimateByProvider(_, _, change, _, _, _) => LeavesFlags(change)
    case _ => true
  }

  lemma StepKeepsOwnerless(op: Op, row: Request)
    requires Ownerless(row) && row.status != Completed
    requires LeavesFacts(op) && Refusal(op, row).None?
    ensures Ownerless(Effect(op, row)) && Effect(op, row).status != Completed
  {
    assert !row.Unlocked();
  }

  lemma {:induction false} OwnerlessIsNeverCompleted(rec: Record, ops: seq<Op>)
    requires Ownerless(rec.row) && rec.row.status != Completed
    requires forall op :: op in ops ==> LeavesFacts(op)
    ensures Run(rec, ops).row.status != Completed
    decreases ops
  {
    if ops != [] {
      var r := Apply(rec, ops[0]);
      if r.Success? {
        StepKeepsOwnerless(ops[0], rec.row);
        OwnerlessIsNeverCompleted(r.value, ops[1..]);
      } else {
        OwnerlessIsNeverCompleted(rec, ops[1..]);
      }
    }
  }

  /** A run that completes the request and leaves what is said about the work alone. */
  ghost predicate Completes(rec: Record, ops: seq<Op>) {
    && (forall op :: op in ops ==> LeavesFacts(op))
    && Run(rec, ops).row.status == Completed
  }

  lemma PlanLeavesFacts(boss: Actor, row: Request, price: real, now: Time)
    ensures forall op :: op in CompletionPlan(boss, row, price, now) ==> LeavesFacts(op)
  {
    forall op | op in UnlockPlan(boss, row, price, now)
      ensures LeavesFacts(op)
    {
    }
    forall op | op in FinishPlan(boss, row.status, now)
      ensures LeavesFacts(op)
    {
    }
  }

  /** An open request can be completed without changing what is said about the work
      exactly when it is not ownerless; and then five operations are enough. */
  lemma CompletableExactlyUnlessOwnerless(boss: Actor, rec: Record, now: Time)
    requires Privileged(boss) && !rec.row.Closed()
    ensures !Ownerless(rec.row) <==> exists ops :: Completes(rec, ops)
    ensures !Ownerless(rec.row) ==> exists ops :: Completes(rec, ops) && |ops| <= 5 && AllAccepted(rec, ops)
  {
    if Ownerless(rec.row) {
      forall ops | Completes(rec, ops)
        ensures false
      {
        OwnerlessIsNeverCompleted(rec, ops);
      }
    } else {
      CompletionWithinFiveSteps(boss, rec, 0.0, now);
      PlanLeavesFacts(boss, rec.row, 0.0, now);
      assert Completes(rec, CompletionPlan(boss, rec.row, 0.0, now));
    }
  }

  /** The way out of the exception: an estimate that declares an emergency unlocks any
      request that is not closed, in one operation. */
  lemma DeclaringAnEmergencyUnlocks(boss: Actor, rec: Record, price: real, now: Time)
    requires Privileged(boss) && !rec.row.Closed()
    ensures var r := Apply(rec, SubmitEstimate(boss, price, NO_TRIAGE_CHANGE.(isEmergency := Some(true)), None, None, now));
            r.Success? && r.value.row.Unlocked() && r.value.row.status == rec.row.status
  {
  }
}
