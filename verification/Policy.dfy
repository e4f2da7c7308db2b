/** The maintenance-request policy: which route a request takes, and which work
    queue shows it (maintenance-request-policy.ts). */
module Policy {
  import opened Wrappers

  type Time = int  // milliseconds

  datatype Status = Open | Assigned | InProgress | Completed | Canceled

  datatype ApprovalStatus = NotRequired | Pending | Approved | Rejected

  datatype EstimateStatus = NotRequested | Requested | Submitted

  datatype Signal = ActiveLeak | NoPower | SafetyRisk | NoCooling

  datatype Route = DirectAssign | EmergencyDispatch | NeedsEstimate | OwnerApprovalRequired

  datatype Queue =
    | NewRequests | WantsEstimate | AwaitingEstimate | AwaitingOwner | ReadyToAssign
    | AssignedWork | WorkInProgress | Overdue

  /** Title, description, type and priority, reduced to the two verdicts that the
      keyword tables reach about them. */
  datatype Intake = Intake(soundsUrgent: bool, soundsRoutine: bool)

  datatype PolicyInput = PolicyInput(
    status: Option<Status>,
    approval: Option<ApprovalStatus>,
    estimate: Option<EstimateStatus>,
    amount: Option<real>,
    isEmergency: Option<bool>,
    signals: Option<seq<Signal>>,
    likeForLike: Option<bool>,
    upgrade: Option<bool>,
    majorReplacement: Option<bool>,
    disputed: Option<bool>,
    createdAt: Option<Time>,
    intake: Intake)
  {
    function ApprovalOrDefault(): ApprovalStatus {
      if approval.Some? then approval.value else NotRequired
    }

    function EstimateOrDefault(): EstimateStatus {
      if estimate.Some? then estimate.value else NotRequested
    }

    predicate Urgent() {
      || isEmergency == Some(true)
      || (signals.Some? && |signals.value| > 0)
      || intake.soundsUrgent
    }

    predicate ChangesTheProperty() {
      || upgrade == Some(true)
      || majorReplacement == Some(true)
      || disputed == Some(true)
      || likeForLike == Some(false)
    }
  }

  const APPROVAL_THRESHOLD: real := 1000.0

  const OVERDUE_AFTER: Time := 72 * 60 * 60 * 1000

  function RouteOf(i: PolicyInput): Route {
    if i.EstimateOrDefault() == Requested then
      NeedsEstimate
    else if i.ApprovalOrDefault() in {Pending, Rejected} then
      OwnerApprovalRequired
    else if i.ApprovalOrDefault() == Approved then
      if i.Urgent() then EmergencyDispatch else DirectAssign
    else if i.Urgent() then
      EmergencyDispatch
    else if i.upgrade == Some(true) || i.majorReplacement == Some(true) || i.disputed == Some(true) then
      OwnerApprovalRequired
    else if i.likeForLike == Some(false) then
      OwnerApprovalRequired
    else if i.amount.Some? then
      if i.amount.value > APPROVAL_THRESHOLD then OwnerApprovalRequired else DirectAssign
    else if i.likeForLike == Some(true) || i.intake.soundsRoutine then
      DirectAssign
    else
      NeedsEstimate
  }

  /** When each route is taken, read off the flags at once instead of in order. */
  lemma RoutesExactly(i: PolicyInput)
    ensures RouteOf(i) == OwnerApprovalRequired <==>
            (&& i.EstimateOrDefault() != Requested
             && (|| i.ApprovalOrDefault() in {Pending, Rejected}
                 || (i.ApprovalOrDefault() == NotRequired && !i.Urgent()
                     && (i.ChangesTheProperty() || (i.amount.Some? && i.amount.value > APPROVAL_THRESHOLD)))))
    ensures RouteOf(i) == EmergencyDispatch <==>
            i.EstimateOrDefault() != Requested && i.ApprovalOrDefault() in {NotRequired, Approved} && i.Urgent()
    ensures RouteOf(i) == NeedsEstimate <==>
            (|| i.EstimateOrDefault() == Requested
             || (i.ApprovalOrDefault() == NotRequired && !i.Urgent() && !i.ChangesTheProperty() && i.amount.None?
                 && i.likeForLike != Some(true) && !i.intake.soundsRoutine))
  {
  }

  /** A dearer estimate never takes the need for approval away, and an approval always
      settles it, unless an estimate is outstanding. */
  lemma ApprovalSettlesAndPricesOnlyRaise(i: PolicyInput, price: real, dearer: real)
    requires price <= dearer
    ensures RouteOf(i.(amount := Some(price))) == OwnerApprovalRequired ==> RouteOf(i.(amount := Some(dearer))) == OwnerApprovalRequired
    ensures RouteOf(i.(approval := Some(Approved))) in {DirectAssign, EmergencyDispatch} <==> i.EstimateOrDefault() != Requested
  {
  }

  predicate IsOverdue(i: PolicyInput, now: Time) {
    && i.createdAt.Some?
    && i.status.Some?
    && i.status.value in {Open, Assigned, InProgress}
    && i.createdAt.value <= now - OVERDUE_AFTER
  }

  predicate Matches(q: Queue, i: PolicyInput, now: Time) {
    var route := RouteOf(i);
    var approval := i.ApprovalOrDefault();
    var estimate := i.EstimateOrDefault();
    match q
    case NewRequests =>
      && i.status == Some(Open)
      && approval == NotRequired
      && route != NeedsEstimate
      && route !in {DirectAssign, EmergencyDispatch}
    case WantsEstimate =>
      && approval == NotRequired
      && route == NeedsEstimate
      && estimate != Requested
      && i.status == Some(Open)
    case AwaitingEstimate =>
      && approval == NotRequired
      && route == NeedsEstimate
      && estimate == Requested
    case AwaitingOwner =>
      approval == Pending
    case ReadyToAssign =>
      && i.status == Some(Open)
      && approval != Pending
      && approval != Rejected
      && route in {DirectAssign, EmergencyDispatch}
    case AssignedWork =>
      i.status == Some(Assigned)
    case WorkInProgress =>
      i.status == Some(InProgress)
    case Overdue =>
      IsOverdue(i, now)
  }

  /** The order in which the queues are tried for a request. */
  const QUEUE_PRIORITY: seq<Queue> := [
    Overdue, AwaitingOwner, AwaitingEstimate, WantsEstimate,
    WorkInProgress, AssignedWork, ReadyToAssign, NewRequests]

  function PrimaryQueue(i: PolicyInput, now: Time): (r: Option<Queue>)
    ensures r.None? ==> forall q :: !Matches(q, i, now)
    ensures r.Some? ==>
              exists k :: 0 <= k < |QUEUE_PRIORITY| && r.value == QUEUE_PRIORITY[k]
                          && Matches(QUEUE_PRIORITY[k], i, now)
                          && forall j :: 0 <= j < k ==> !Matches(QUEUE_PRIORITY[j], i, now)
  {
    if Matches(Overdue, i, now) then
      assert QUEUE_PRIORITY[0] == Overdue;
      Some(Overdue)
    else if Matches(AwaitingOwner, i, now) then
      assert QUEUE_PRIORITY[1] == AwaitingOwner;
      Some(AwaitingOwner)
    else if Matches(AwaitingEstimate, i, now) then
      assert QUEUE_PRIORITY[2] == AwaitingEstimate;
      Some(AwaitingEstimate)
    else if Matches(WantsEstimate, i, now) then
      assert QUEUE_PRIORITY[3] == WantsEstimate;
      Some(WantsEstimate)
    else if Matches(WorkInProgress, i, now) then
      assert QUEUE_PRIORITY[4] == WorkInProgress;
      Some(WorkInProgress)
    else if Matches(AssignedWork, i, now) then
      assert QUEUE_PRIORITY[5] == AssignedWork;
      Some(AssignedWork)
    else if Matches(ReadyToAssign, i, now) then
      assert QUEUE_PRIORITY[6] == ReadyToAssign;
      Some(ReadyToAssign)
    else if Matches(NewRequests, i, now) then
      assert QUEUE_PRIORITY[7] == NewRequests;
      Some(NewRequests)
    else
      None
  }

  /** The five queues that sort requests before work starts. */
  const INTAKE_QUEUES: set<Queue> :=
    {NewRequests, WantsEstimate, AwaitingEstimate, AwaitingOwner, ReadyToAssign}

  /** The two situations in which no intake queue shows an open request. */
  predicate Unlisted(i: PolicyInput) {
    || i.ApprovalOrDefault() == Rejected
    || (i.ApprovalOrDefault() == Approved && i.EstimateOrDefault() == Requested)
  }

  /** The intake queues never overlap, whatever the input. */
  lemma IntakeQueuesAreDisjoint(i: PolicyInput, now: Time, p: Queue, q: Queue)
    requires p in INTAKE_QUEUES && q in INTAKE_QUEUES
    requires Matches(p, i, now) && Matches(q, i, now)
    ensures p == q
  {
  }

  /** An open request is shown by an intake queue, and by one only, exactly when it
      is neither rejected by the owner nor approved with an estimate outstanding. */
  lemma OpenRequestsAreShownOnce(i: PolicyInput, now: Time)
    requires i.status == Some(Open)
    ensures (exists q :: q in INTAKE_QUEUES && Matches(q, i, now)) <==> !Unlisted(i)
    ensures forall p, q | p in INTAKE_QUEUES && q in INTAKE_QUEUES && Matches(p, i, now) && Matches(q, i, now) :: p == q
  {
    if !Unlisted(i) {
      var q := SoleQueue(i);
      assert q in INTAKE_QUEUES && Matches(q, i, now);
    }
  }

  /** The intake queue that an open, listed request belongs to. */
  function SoleQueue(i: PolicyInput): (q: Queue)
    ensures q in INTAKE_QUEUES
    ensures i.status == Some(Open) && !Unlisted(i) ==> forall now :: Matches(q, i, now)
  {
    if i.ApprovalOrDefault() == Pending then AwaitingOwner
    else match RouteOf(i)
         case NeedsEstimate => if i.EstimateOrDefault() == Requested then AwaitingEstimate else WantsEstimate
         case OwnerApprovalRequired => NewRequests
         case DirectAssign => ReadyToAssign
         case EmergencyDispatch => ReadyToAssign
  }

  /** Exactly the requests that filtering the list by queue can never show. */
  lemma NoPrimaryQueueExactly(i: PolicyInput, now: Time)
    ensures PrimaryQueue(i, now).None? <==>
            (&& !IsOverdue(i, now)
             && i.ApprovalOrDefault() != Pending
             && !(i.ApprovalOrDefault() == NotRequired && i.EstimateOrDefault() == Requested)
             && (i.status.None? || i.status.value.Completed? || i.status.value.Canceled?
                 || (i.status.value.Open? && Unlisted(i))))
  {
    if PrimaryQueue(i, now).None? {
      assert !Matches(SoleQueue(i), i, now);
      assert !Matches(Overdue, i, now) && !Matches(AwaitingOwner, i, now) && !Matches(AwaitingEstimate, i, now);
      assert !Matches(AssignedWork, i, now) && !Matches(WorkInProgress, i, now);
    }
  }

  /** Until it is overdue, the one intake queue of an open request is also its
      primary queue. */
  lemma IntakeQueueIsPrimary(i: PolicyInput, now: Time, q: Queue)
    requires i.status == Some(Open) && !IsOverdue(i, now)
    requires q in INTAKE_QUEUES
    ensures Matches(q, i, now) <==> PrimaryQueue(i, now) == Some(q)
  {
  }
}
