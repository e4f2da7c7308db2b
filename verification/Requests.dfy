/** One maintenance request and everything that can happen to it: the row, its
    owner-approval audit, the events it emits, and the guarded operations of
    maintenance-requests.service.ts, owner-portfolio-scope.service.ts and the
    estimate monitor. Each operation is described aspect by aspect: who may call
    it, when it is refused, what it writes, what it audits, what it announces. */
module Requests {
  import opened Wrappers
  import opened Policy

  type Id = nat

  datatype Error = NotFound | Forbidden | Conflict | BadRequest

  // ---------------------------------------------------------------- the row

  datatype DecisionSource = DecidedByOwner | ManagementOverride | EmergencyOverride

  /** Why approval is needed: the caller's words, or one of the automatic texts. */
  datatype Reason = Stated(text: string) | Upgrade | MajorReplacement | Dispute | NotLikeForLike | OverThreshold | Other

  datatype Approval = Approval(
    status: ApprovalStatus,
    requestedAt: Option<Time>,
    requestedBy: Option<Id>,
    deadlineAt: Option<Time>,
    requiredReason: Option<Reason>,
    ownerReason: Option<string>,
    decidedAt: Option<Time>,
    decidedBy: Option<Id>,
    source: Option<DecisionSource>,
    overrideReason: Option<string>,
    overriddenBy: Option<Id>)

  const NO_APPROVAL := Approval(NotRequired, None, None, None, None, None, None, None, None, None, None)

  datatype Estimate = Estimate(
    status: EstimateStatus,
    requestedAt: Option<Time>,
    requestedBy: Option<Id>,
    dueAt: Option<Time>,
    reminderSentAt: Option<Time>,
    submittedAt: Option<Time>,
    submittedBy: Option<Id>)

  const NO_ESTIMATE := Estimate(NotRequested, None, None, None, None, None, None)

  /** Who carries the work out: a staff member, or a provider and its worker. */
  datatype Executor = Executor(staff: Option<Id>, provider: Option<Id>, worker: Option<Id>, assignedAt: Option<Time>)

  const NO_EXECUTOR := Executor(None, None, None, None)

  datatype Triage = Triage(
    amount: Option<real>,
    currency: Option<string>,
    isEmergency: bool,
    likeForLike: Option<bool>,
    upgrade: Option<bool>,
    majorReplacement: Option<bool>,
    disputed: Option<bool>)

  datatype Request = Request(
    unit: Option<Id>,
    createdBy: Id,
    createdAt: Time,
    intake: Intake,
    signals: seq<Signal>,
    status: Status,
    executor: Executor,
    estimate: Estimate,
    approval: Approval,
    triage: Triage,
    completedAt: Option<Time>,
    canceledAt: Option<Time>)
  {
    function PolicyView(): PolicyInput {
      PolicyInput(Some(status), Some(approval.status), Some(estimate.status), triage.amount,
                  Some(triage.isEmergency), Some(signals), triage.likeForLike, triage.upgrade,
                  triage.majorReplacement, triage.disputed, Some(createdAt), intake)
    }

    function Route(): Route {
      RouteOf(PolicyView())
    }

    predicate Closed() {
      status in {Completed, Canceled}
    }

    predicate OpenOrAssigned() {
      status in {Open, Assigned}
    }

    /** assertExecutionUnlocked */
    predicate Unlocked() {
      && approval.status !in {Pending, Rejected}
      && estimate.status != Requested
      && Route() != OwnerApprovalRequired
    }
  }

  /** MAINTENANCE_STATUS_TRANSITIONS */
  function Transitions(s: Status): set<Status> {
    match s
    case Open => {Assigned}
    case Assigned => {InProgress}
    case InProgress => {Completed}
    case Completed => {}
    case Canceled => {}
  }

  // ---------------------------------------------------- what goes with the row

  datatype AuditAction = Required | AskedOwner | Resent | OwnerApproved | OwnerRejected | Overridden

  datatype AuditRow = AuditRow(
    action: AuditAction,
    actor: Id,
    from: ApprovalStatus,
    to: ApprovalStatus,
    reason: Option<Reason>,
    source: Option<DecisionSource>)

  datatype EventKind =
    | CreatedEvent | AssignedEvent | StatusChangedEvent | CanceledEvent | EstimateReminderEvent
    | ApprovalRequestedEvent | ApprovalReminderEvent | OwnerApprovedEvent | OwnerRejectedEvent | OverriddenEvent

  datatype Event = Event(kind: EventKind, request: Request, previous: Option<Request>, actor: Id)

  datatype Record = Record(row: Request, audits: seq<AuditRow>, events: seq<Event>) {
    function Extended(next: Request, newAudits: seq<AuditRow>, newEvents: seq<Event>): Record {
      Record(next, audits + newAudits, events + newEvents)
    }
  }

  // ------------------------------------------------------------- operations

  /** The caller, with what the permission lookups say about them. */
  datatype Actor = Actor(
    id: Id,
    hasBuildingAccess: bool,
    canAssign: bool,
    canUpdateStatusAnywhere: bool,
    canOverride: bool,
    livesHere: bool,
    ownsUnit: bool,
    providers: set<Id>,
    managedProviders: set<Id>)
  {
    predicate StaffOnly() {
      hasBuildingAccess && !canAssign
    }
  }

  const SYSTEM_ACTOR: Id := 0

  /** What a call says about the work. A flag is left out, cleared by an explicit null
      (Some(None)), or set; the emergency flag and the amount cannot be cleared. */
  datatype TriageChange = TriageChange(
    amount: Option<real>,
    currency: Option<string>,
    isEmergency: Option<bool>,
    likeForLike: Option<Option<bool>>,
    upgrade: Option<Option<bool>>,
    majorReplacement: Option<Option<bool>>,
    disputed: Option<Option<bool>>)

  const NO_TRIAGE_CHANGE := TriageChange(None, None, None, None, None, None, None)

  datatype ResidentEdit = ResidentEdit(intake: Option<Intake>, isEmergency: Option<bool>, signals: Option<seq<Signal>>)

  datatype Op =
    | EditByResident(actor: Actor, edit: ResidentEdit)
    | CancelByResident(actor: Actor, now: Time)
    | CancelByManagement(actor: Actor, now: Time)
    | AssignStaff(actor: Actor, staff: Id, staffMember: bool, now: Time)
    | AssignProvider(actor: Actor, provider: Id, providerLinked: bool, now: Time)
    | AskProviderForEstimate(actor: Actor, provider: Id, providerLinked: bool, now: Time, ttl: Time)
    | AssignWorker(actor: Actor, worker: Id, providerActive: bool, workerActive: bool, now: Time)
    | AssignWorkerByProvider(actor: Actor, worker: Id, workerActive: bool, now: Time)
    | UnassignProvider(actor: Actor)
    | ChangeStatus(actor: Actor, next: Status, now: Time)
    | ChangeStatusByProvider(actor: Actor, next: Status, now: Time)
    | RequireApproval(actor: Actor, reason: Reason, change: TriageChange, deadline: Option<Time>)
    | AskOwnerNow(actor: Actor, reason: Reason, change: TriageChange, deadline: Option<Time>, now: Time)
    | AskOwner(actor: Actor, now: Time)
    | AskOwnerAgain(actor: Actor, now: Time)
    | UpdateTriage(actor: Actor, change: TriageChange)
    | SubmitEstimate(actor: Actor, amount: real, change: TriageChange, statedReason: Option<Reason>, deadline: Option<Time>, now: Time)
    | SubmitEstimateByProvider(actor: Actor, amount: real, change: TriageChange, statedReason: Option<Reason>, deadline: Option<Time>, now: Time)
    | OverrideApproval(actor: Actor, source: DecisionSource, overrideReason: string, now: Time)
    | ApproveByOwner(actor: Actor, ownerReason: Option<string>, now: Time)
    | RejectByOwner(actor: Actor, ownerReason: Option<string>, now: Time)
    | RemindProvider(listed: Request, now: Time)

  /** buildPolicyTriageUpdateData */
  function Merge(c: TriageChange, t: Triage, fallbackCurrency: Option<string>): Triage {
    Triage(
      if c.amount.Some? then c.amount else t.amount,
      if c.currency.Some? then c.currency
      else if c.amount.Some? then (if t.currency.Some? then t.currency else fallbackCurrency)
      else t.currency,
      if c.isEmergency.Some? then c.isEmergency.value else t.isEmergency,
      if c.likeForLike.Some? then c.likeForLike.value else t.likeForLike,
      if c.upgrade.Some? then c.upgrade.value else t.upgrade,
      if c.majorReplacement.Some? then c.majorReplacement.value else t.majorReplacement,
      if c.disputed.Some? then c.disputed.value else t.disputed)
  }

  function WithoutRepeats(signals: seq<Signal>): (r: seq<Signal>)
    ensures forall s :: s in r <==> s in signals
    ensures forall i, j :: 0 <= i < j < |r| ==> r[i] != r[j]
  {
    if signals == [] then []
    else
      var rest := WithoutRepeats(signals[..|signals| - 1]);
      var last := signals[|signals| - 1];
      assert signals == signals[..|signals| - 1] + [last];
      if last in rest then rest else rest + [last]
  }

  // ------------------------------------------------------- an estimate arrives

  function EstimatedTriage(amount: real, c: TriageChange, row: Request): Triage {
    Merge(c.(amount := Some(amount)), row.triage, Some("AED"))
  }

  /** The route the submission decides on: the merged triage, with the estimate
      counted as submitted and no approval yet. */
  function SubmissionRoute(amount: real, c: TriageChange, row: Request): Route {
    row.(triage := EstimatedTriage(amount, c, row),
         approval := row.approval.(status := NotRequired),
         estimate := row.estimate.(status := Submitted)).Route()
  }

  predicate SubmissionNeedsOwner(amount: real, c: TriageChange, row: Request) {
    SubmissionRoute(amount, c, row) == OwnerApprovalRequired && row.unit.Some?
  }

  predicate AlreadyAsked(row: Request) {
    row.approval.status == Pending && row.approval.requestedAt.Some?
  }

  /** buildAutomaticApprovalReason */
  function AutomaticReason(amount: real, c: TriageChange): Reason {
    if c.upgrade == Some(Some(true)) then Upgrade
    else if c.majorReplacement == Some(Some(true)) then MajorReplacement
    else if c.disputed == Some(Some(true)) then Dispute
    else if c.likeForLike == Some(Some(false)) then NotLikeForLike
    else if amount > APPROVAL_THRESHOLD then OverThreshold
    else Other
  }

  function SubmissionReason(amount: real, c: TriageChange, reason: Option<Reason>): Reason {
    if reason.Some? then reason.value else AutomaticReason(amount, c)
  }

  /** A fresh round of approval: no decision left over from an earlier one. */
  function FreshApproval(requestedAt: Option<Time>, requestedBy: Option<Id>, deadline: Option<Time>, was: Approval, reason: Reason): Approval {
    Approval(Pending, requestedAt, requestedBy, if deadline.Some? then deadline else was.deadlineAt,
             Some(reason), None, None, None, None, None, None)
  }

  function WithEstimate(actor: Id, amount: real, c: TriageChange, reason: Option<Reason>, deadline: Option<Time>, now: Time, row: Request): Request {
    var a := row.approval;
    row.(triage := EstimatedTriage(amount, c, row),
         estimate := row.estimate.(status := EstimateStatus.Submitted, submittedAt := Some(now), submittedBy := Some(actor), reminderSentAt := None),
         approval :=
           if SubmissionNeedsOwner(amount, c, row) then
             FreshApproval(
               if AlreadyAsked(row) then a.requestedAt else Some(now),
               if AlreadyAsked(row) && a.requestedBy.Some? then a.requestedBy else Some(actor),
               deadline, a, SubmissionReason(amount, c, reason))
           else NO_APPROVAL)
  }

  // -------------------------------------------------------------- who may call

  function AccessError(op: Op): Option<Error> {
    match op
    case EditByResident(actor, _) => if actor.livesHere then None else Some(Forbidden)
    case CancelByResident(actor, _) => if actor.livesHere then None else Some(Forbidden)
    case CancelByManagement(actor, _) =>
      if (!actor.hasBuildingAccess && !actor.canUpdateStatusAnywhere) || actor.StaffOnly() then Some(Forbidden) else None
    case OverrideApproval(actor, _, _, _) => if actor.canOverride then None else Some(Forbidden)
    case ChangeStatus(_, _, _) => None
    case ChangeStatusByProvider(_, _, _) => None
    case AssignWorkerByProvider(_, _, _, _) => None
    case SubmitEstimateByProvider(_, _, _, _, _, _) => None
    case ApproveByOwner(_, _, _) => None
    case RejectByOwner(_, _, _) => None
    case RemindProvider(_, _) => None
    case UpdateTriage(actor, change) =>
      if change == NO_TRIAGE_CHANGE then Some(BadRequest)
      else if actor.StaffOnly() then Some(Forbidden) else None
    case _ => if op.actor.StaffOnly() then Some(Forbidden) else None
  }

  /** assertProviderRequestWriteAccess, behind the lookup by the caller's providers */
  function ProviderAccessError(actor: Actor, row: Request): Option<Error> {
    var p := row.executor.provider;
    if p.None? || p.value !in actor.providers then Some(NotFound)
    else if p.value in actor.managedProviders || row.executor.worker == Some(actor.id) then None
    else Some(Forbidden)
  }

  function StatusError(next: Status, row: Request): Option<Error> {
    if next !in Transitions(row.status) then Some(Conflict) else None
  }

  function First(a: Option<Error>, b: Option<Error>): Option<Error> {
    if a.Some? then a else b
  }

  function Check(ok: bool, e: Error): Option<Error> {
    if ok then None else Some(e)
  }

  // ------------------------------------------------------------ when is it refused

  /** The first failing check of an operation, in the order the service makes them. */
  function Refusal(op: Op, row: Request): Option<Error> {
    match op
    case EditByResident(actor, edit) =>
      First(Check(row.createdBy == actor.id, NotFound),
            First(Check(row.status == Open, Conflict),
                  Check(edit != ResidentEdit(None, None, None), BadRequest)))
    case CancelByResident(actor, _) =>
      First(Check(row.createdBy == actor.id, NotFound), Check(!row.Closed(), Conflict))
    case CancelByManagement(_, _) =>
      Check(!row.Closed(), Conflict)
    case AssignStaff(_, _, staffMember, _) =>
      First(Check(row.OpenOrAssigned() && row.Unlocked(), Conflict), Check(staffMember, BadRequest))
    case AssignProvider(_, _, providerLinked, _) =>
      First(Check(row.OpenOrAssigned() && row.Unlocked(), Conflict), Check(providerLinked, BadRequest))
    case AskProviderForEstimate(_, _, providerLinked, _, _) =>
      First(Check(&& row.OpenOrAssigned()
                  && row.approval.status != Pending
                  && (row.Route() == NeedsEstimate || row.approval.status == Rejected), Conflict),
            Check(providerLinked, BadRequest))
    case AssignWorker(_, _, providerActive, workerActive, _) =>
      First(Check(row.OpenOrAssigned() && row.Unlocked() && row.executor.provider.Some?, Conflict),
            Check(providerActive && workerActive, BadRequest))
    case AssignWorkerByProvider(actor, _, workerActive, _) =>
      var p := row.executor.provider;
      First(Check(p.Some? && p.value in actor.providers, NotFound),
            First(Check(p.Some? && p.value in actor.managedProviders, Forbidden),
                  First(Check(row.OpenOrAssigned() && row.Unlocked(), Conflict), Check(workerActive, BadRequest))))
    case UnassignProvider(_) =>
      Check(row.OpenOrAssigned() && row.executor.provider.Some? && row.Unlocked(), Conflict)
    case ChangeStatus(actor, next, _) =>
      First(StatusError(next, row),
            First(Check(actor.StaffOnly() ==> row.executor.staff == Some(actor.id), Forbidden),
                  Check(row.Unlocked(), Conflict)))
    case ChangeStatusByProvider(actor, next, _) =>
      First(ProviderAccessError(actor, row), First(StatusError(next, row), Check(row.Unlocked(), Conflict)))
    case RequireApproval(_, _, _, _) =>
      Check(row.unit.Some? && !row.Closed(), Conflict)
    case AskOwnerNow(_, _, _, _, _) =>
      Check(row.unit.Some? && !row.Closed() && !AlreadyAsked(row), Conflict)
    case AskOwner(_, _) =>
      Check(row.approval.status == Pending && row.approval.requestedAt.None?, Conflict)
    case AskOwnerAgain(_, _) =>
      Check(AlreadyAsked(row), Conflict)
    case UpdateTriage(_, _) =>
      Check(!row.Closed(), Conflict)
    case SubmitEstimate(_, _, _, _, _, _) =>
      Check(!row.Closed(), Conflict)
    case SubmitEstimateByProvider(actor, _, _, _, _, _) =>
      First(ProviderAccessError(actor, row), Check(!row.Closed(), Conflict))
    case OverrideApproval(_, source, _, now) =>
      Check(&& row.approval.status == Pending
            && (source == ManagementOverride ==> row.approval.deadlineAt.Some? && row.approval.deadlineAt.value <= now),
            Conflict)
    case ApproveByOwner(actor, _, _) =>
      Check(actor.ownsUnit && row.approval.status == Pending, NotFound)
    case RejectByOwner(actor, _, _) =>
      Check(actor.ownsUnit && row.approval.status == Pending, NotFound)
    case RemindProvider(_, now) =>
      Check(ReminderDue(row, now), Conflict)
  }

  /** The filter shared by the monitor's list query and its compare-and-set. */
  predicate ReminderDue(row: Request, now: Time) {
    && row.estimate.status == Requested
    && row.estimate.dueAt.Some?
    && row.estimate.dueAt.value <= now
    && row.estimate.reminderSentAt.None?
    && !row.Closed()
  }

  // ------------------------------------------------------------- what is written

  function Moved(row: Request, next: Status, now: Time): Request {
    row.(status := next, completedAt := if next == Completed then Some(now) else row.completedAt)
  }

  function WithWorker(row: Request, worker: Id, now: Time): Request {
    row.(status := Assigned,
         executor := row.executor.(
           staff := None,
           worker := Some(worker),
           assignedAt := if row.executor.assignedAt.Some? then row.executor.assignedAt else Some(now)))
  }

  function Effect(op: Op, row: Request): Request {
    match op
    case EditByResident(_, edit) =>
      var signals := if edit.signals.Some? then WithoutRepeats(edit.signals.value) else row.signals;
      row.(intake := if edit.intake.Some? then edit.intake.value else row.intake,
           signals := signals,
           triage := row.triage.(isEmergency :=
             if edit.isEmergency.Some? || edit.signals.Some? then edit.isEmergency == Some(true) || |signals| > 0
             else row.triage.isEmergency))
    case CancelByResident(_, now) => row.(status := Canceled, canceledAt := Some(now))
    case CancelByManagement(_, now) => row.(status := Canceled, canceledAt := Some(now))
    case AssignStaff(_, staff, _, now) =>
      row.(status := Assigned, executor := Executor(Some(staff), None, None, Some(now)))
    case AssignProvider(_, provider, _, now) =>
      row.(status := Assigned, executor := Executor(None, Some(provider), None, Some(now)))
    case AskProviderForEstimate(actor, provider, _, now, ttl) =>
      row.(status := Open,
           executor := Executor(None, Some(provider), None, None),
           estimate := Estimate(Requested, Some(now), Some(actor.id), Some(now + ttl), None, None, None),
           triage := row.triage.(amount := None, currency := None),
           approval := NO_APPROVAL)
    case AssignWorker(_, worker, _, _, now) => WithWorker(row, worker, now)
    case AssignWorkerByProvider(_, worker, _, now) => WithWorker(row, worker, now)
    case UnassignProvider(_) =>
      var freed := row.(status := Open, executor := row.executor.(provider := None, worker := None, assignedAt := None));
      if row.estimate.status == Requested then
        freed.(estimate := NO_ESTIMATE, triage := row.triage.(amount := None, currency := None))
      else freed
    case ChangeStatus(_, next, now) => Moved(row, next, now)
    case ChangeStatusByProvider(_, next, now) => Moved(row, next, now)
    case RequireApproval(_, reason, change, deadline) =>
      row.(triage := Merge(change, row.triage, None),
           approval := FreshApproval(None, None, deadline, row.approval, reason))
    case AskOwnerNow(actor, reason, change, deadline, now) =>
      row.(triage := Merge(change, row.triage, None),
           approval := FreshApproval(Some(now), Some(actor.id), deadline, row.approval, reason))
    case AskOwner(actor, now) =>
      row.(approval := row.approval.(requestedAt := Some(now), requestedBy := Some(actor.id)))
    case AskOwnerAgain(actor, now) =>
      row.(approval := row.approval.(requestedAt := Some(now), requestedBy := Some(actor.id)))
    case UpdateTriage(_, change) => row.(triage := Merge(change, row.triage, None))
    case SubmitEstimate(actor, amount, change, reason, deadline, now) =>
      WithEstimate(actor.id, amount, change, reason, deadline, now, row)
    case SubmitEstimateByProvider(actor, amount, change, reason, deadline, now) =>
      WithEstimate(actor.id, amount, change, reason, deadline, now, row)
    case OverrideApproval(actor, source, overrideReason, now) =>
      row.(approval := row.approval.(
             status := Approved, decidedAt := Some(now), decidedBy := None, ownerReason := None,
             source := Some(source), overrideReason := Some(overrideReason), overriddenBy := Some(actor.id)))
    case ApproveByOwner(actor, ownerReason, now) => row.(approval := Decided(row.approval, Approved, actor.id, ownerReason, now))
    case RejectByOwner(actor, ownerReason, now) => row.(approval := Decided(row.approval, Rejected, actor.id, ownerReason, now))
    case RemindProvider(_, now) => row.(estimate := row.estimate.(reminderSentAt := Some(now)))
  }

  function Decided(a: Approval, verdict: ApprovalStatus, owner: Id, ownerReason: Option<string>, now: Time): Approval {
    a.(status := verdict, decidedAt := Some(now), decidedBy := Some(owner), ownerReason := ownerReason,
       source := Some(DecidedByOwner), overrideReason := None, overriddenBy := None)
  }

  // ------------------------------------------------------------- what is audited

  function RequiredRow(actor: Id, row: Request, reason: Reason): seq<AuditRow> {
    if row.approval.status == Pending then []
    else [AuditRow(Required, actor, row.approval.status, Pending, Some(reason), None)]
  }

  function AskedRow(actor: Id, reason: Reason): seq<AuditRow> {
    [AuditRow(AskedOwner, actor, Pending, Pending, Some(reason), None)]
  }

  function SubmissionAudits(actor: Id, amount: real, c: TriageChange, reason: Option<Reason>, row: Request): seq<AuditRow> {
    var why := SubmissionReason(amount, c, reason);
    if !SubmissionNeedsOwner(amount, c, row) then []
    else RequiredRow(actor, row, why) + if AlreadyAsked(row) then [] else AskedRow(actor, why)
  }

  function OwnersReason(r: Option<string>): Option<Reason> {
    if r.Some? then Some(Stated(r.value)) else None
  }

  function AuditsOf(op: Op, row: Request): seq<AuditRow> {
    match op
    case RequireApproval(actor, reason, _, _) =>
      [AuditRow(Required, actor.id, row.approval.status, Pending, Some(reason), None)]
    case AskOwnerNow(actor, reason, _, _, _) => RequiredRow(actor.id, row, reason) + AskedRow(actor.id, reason)
    case AskOwner(actor, _) =>
      [AuditRow(AskedOwner, actor.id, Pending, Pending, row.approval.requiredReason, None)]
    case AskOwnerAgain(actor, _) =>
      [AuditRow(Resent, actor.id, Pending, Pending, row.approval.requiredReason, None)]
    case SubmitEstimate(actor, amount, change, reason, _, _) => SubmissionAudits(actor.id, amount, change, reason, row)
    case SubmitEstimateByProvider(actor, amount, change, reason, _, _) => SubmissionAudits(actor.id, amount, change, reason, row)
    case OverrideApproval(actor, source, overrideReason, _) =>
      [AuditRow(Overridden, actor.id, row.approval.status, Approved, Some(Stated(overrideReason)), Some(source))]
    case ApproveByOwner(actor, ownerReason, _) =>
      [AuditRow(OwnerApproved, actor.id, row.approval.status, Approved, OwnersReason(ownerReason), Some(DecidedByOwner))]
    case RejectByOwner(actor, ownerReason, _) =>
      [AuditRow(OwnerRejected, actor.id, row.approval.status, Rejected, OwnersReason(ownerReason), Some(DecidedByOwner))]
    case _ => []
  }

  // ----------------------------------------------------------- what is announced

  datatype Announcement = Nothing | Plain(kind: EventKind) | WithPrevious(kind: EventKind)

  /** Which event an operation emits, and whether it carries the row as it was. */
  function AnnouncementOf(op: Op, row: Request): Announcement {
    match op
    case CancelByResident(_, _) => Plain(CanceledEvent)
    case CancelByManagement(_, _) => Plain(CanceledEvent)
    case AssignStaff(_, _, _, _) => WithPrevious(AssignedEvent)
    case AssignProvider(_, _, _, _) => WithPrevious(AssignedEvent)
    case AskProviderForEstimate(_, _, _, _, _) => WithPrevious(AssignedEvent)
    case AssignWorker(_, _, _, _, _) => WithPrevious(AssignedEvent)
    case AssignWorkerByProvider(_, _, _, _) => WithPrevious(AssignedEvent)
    case UnassignProvider(_) => WithPrevious(StatusChangedEvent)
    case ChangeStatus(_, _, _) => Plain(StatusChangedEvent)
    case ChangeStatusByProvider(_, _, _) => WithPrevious(StatusChangedEvent)
    case AskOwnerNow(_, _, _, _, _) => Plain(ApprovalRequestedEvent)
    case AskOwner(_, _) => Plain(ApprovalRequestedEvent)
    case AskOwnerAgain(_, _) => Plain(ApprovalReminderEvent)
    case SubmitEstimate(_, amount, change, _, _, _) =>
      if SubmissionNeedsOwner(amount, change, row) && !AlreadyAsked(row) then Plain(ApprovalRequestedEvent) else Nothing
    case SubmitEstimateByProvider(_, amount, change, _, _, _) =>
      if SubmissionNeedsOwner(amount, change, row) && !AlreadyAsked(row) then Plain(ApprovalRequestedEvent) else Nothing
    case OverrideApproval(_, _, _, _) => Plain(OverriddenEvent)
    case ApproveByOwner(_, _, _) => Plain(OwnerApprovedEvent)
    case RejectByOwner(_, _, _) => Plain(OwnerRejectedEvent)
    case RemindProvider(_, _) => Plain(EstimateReminderEvent)
    case _ => Nothing
  }

  /** The reminder shows the row as the monitor listed it; every other event shows
      the row as just written. */
  function EventsOf(op: Op, row: Request): seq<Event> {
    match AnnouncementOf(op, row)
    case Nothing => []
    case Plain(kind) =>
      if op.RemindProvider? then [Event(kind, op.listed, None, SYSTEM_ACTOR)]
      else [Event(kind, Effect(op, row), None, op.actor.id)]
    case WithPrevious(kind) =>
      if op.RemindProvider? then [] else [Event(kind, Effect(op, row), Some(row), op.actor.id)]
  }

  // ------------------------------------------------------------------ one step

  function Apply(rec: Record, op: Op): Result<Record, Error> {
    if AccessError(op).Some? then Failure(AccessError(op).value)
    else if Refusal(op, rec.row).Some? then Failure(Refusal(op, rec.row).value)
    else Success(rec.Extended(Effect(op, rec.row), AuditsOf(op, rec.row), EventsOf(op, rec.row)))
  }

  /** createResidentRequest, once the resident's active occupancy is known */
  function Created(resident: Id, unit: Id, intake: Intake, isEmergency: Option<bool>, signals: seq<Signal>, now: Time): Record {
    var kept := WithoutRepeats(signals);
    var row := Request(Some(unit), resident, now, intake, kept, Open, NO_EXECUTOR, NO_ESTIMATE, NO_APPROVAL,
                       Triage(None, None, isEmergency == Some(true) || |kept| > 0, None, None, None, None), None, None);
    Record(row, [], [Event(CreatedEvent, row, None, resident)])
  }

  /** A run: the operations in order, those that are refused changing nothing. */
  function Run(rec: Record, ops: seq<Op>): Record
    decreases ops
  {
    if ops == [] then rec
    else
      var r := Apply(rec, ops[0]);
      Run(if r.Success? then r.value else rec, ops[1..])
  }

  /** A run in which nothing is refused. */
  predicate AllAccepted(rec: Record, ops: seq<Op>)
    decreases ops
  {
    ops == [] || (Apply(rec, ops[0]).Success? && AllAccepted(Apply(rec, ops[0]).value, ops[1..]))
  }
}
