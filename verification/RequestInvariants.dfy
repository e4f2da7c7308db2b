/** What every run of operations on a maintenance request keeps. */
module RequestInvariants {
  import opened Wrappers
  import opened Policy
  import opened Requests

  // ---------------------------------------------------------- what is promised

  /** completedAt and canceledAt are set in COMPLETED and CANCELED, and only there. */
  predicate StampsMatchStatus(row: Request) {
    && (row.completedAt.Some? <==> row.status == Completed)
    && (row.canceledAt.Some? <==> row.status == Canceled)
  }

  /** Nothing is completed against the policy. */
  predicate CompletionRespectsPolicy(row: Request) {
    row.status == Completed ==>
      && row.approval.status in {NotRequired, Approved}
      && row.estimate.status != Requested
      && row.Route() != OwnerApprovalRequired
  }

  /** A staff member excludes a provider and its worker; a worker needs a provider. */
  predicate ExclusiveExecutor(row: Request) {
    && (row.executor.staff.Some? ==> row.executor.provider.None? && row.executor.worker.None?)
    && (row.executor.worker.Some? ==> row.executor.provider.Some?)
  }

  /** While an estimate is outstanding the request is parked with one provider. */
  predicate Parked(row: Request) {
    row.estimate.status == Requested ==>
      && row.status in {Open, Canceled}
      && row.executor.provider.Some?
      && row.executor.staff.None?
      && row.executor.worker.None?
      && row.executor.assignedAt.None?
      && row.estimate.dueAt.Some?
  }

  /** No approval, no trace of one; undecided, no decision; decided, by an owner or
      by an override but not both, and rejected only by an owner. */
  predicate DecisionMatchesStatus(a: Approval) {
    match a.status
    case NotRequired => a == NO_APPROVAL
    case Pending => a.decidedAt.None? && a.decidedBy.None? && a.overriddenBy.None? && a.source.None?
    case Approved => a.decidedAt.Some? && (a.decidedBy.Some? <==> a.overriddenBy.None?)
    case Rejected => a.decidedAt.Some? && a.decidedBy.Some? && a.overriddenBy.None?
  }

  /** Each audit row starts where the previous one ended, or afresh. */
  ghost predicate Linked(audits: seq<AuditRow>) {
    forall k :: 0 <= k < |audits| ==>
      audits[k].from == NotRequired || (k > 0 && audits[k].from == audits[k - 1].to)
  }

  /** The audit ends at the current status, unless approval was since dropped. */
  predicate EndsAt(audits: seq<AuditRow>, status: ApprovalStatus) {
    status == NotRequired || (|audits| > 0 && audits[|audits| - 1].to == status)
  }

  function CountAudits(audits: seq<AuditRow>, action: AuditAction): nat {
    if audits == [] then 0
    else CountAudits(audits[..|audits| - 1], action) + if audits[|audits| - 1].action == action then 1 else 0
  }

  function CountEvents(events: seq<Event>, kind: EventKind): nat {
    if events == [] then 0
    else CountEvents(events[..|events| - 1], kind) + if events[|events| - 1].kind == kind then 1 else 0
  }

  /** The audit actions that are announced, each with its event. */
  const ANNOUNCED: map<AuditAction, EventKind> := map[
    AskedOwner := ApprovalRequestedEvent,
    Resent := ApprovalReminderEvent,
    Overridden := OverriddenEvent,
    OwnerApproved := OwnerApprovedEvent,
    OwnerRejected := OwnerRejectedEvent]

  ghost predicate AuditsMatchEvents(rec: Record) {
    forall a :: a in ANNOUNCED ==> CountAudits(rec.audits, a) == CountEvents(rec.events, ANNOUNCED[a])
  }

  predicate GoodRow(row: Request) {
    && StampsMatchStatus(row)
    && CompletionRespectsPolicy(row)
    && ExclusiveExecutor(row)
    && Parked(row)
    && DecisionMatchesStatus(row.approval)
  }

  ghost predicate Good(rec: Record) {
    && GoodRow(rec.row)
    && Linked(rec.audits)
    && EndsAt(rec.audits, rec.row.approval.status)
    && AuditsMatchEvents(rec)
  }

  // -------------------------------------------------------- one step keeps it

  lemma StepKeepsStamps(op: Op, row: Request)
    requires StampsMatchStatus(row) && Refusal(op, row).None?
    ensures StampsMatchStatus(Effect(op, row))
  {
  }

  /** A completed request refuses every operation but those on a pending approval,
      and it has none. */
  lemma CompletedRefusesAll(op: Op, row: Request)
    requires row.status == Completed && CompletionRespectsPolicy(row)
    ensures Refusal(op, row).Some?
  {
  }

  lemma StepKeepsCompletion(op: Op, row: Request)
    requires CompletionRespectsPolicy(row) && Refusal(op, row).None?
    ensures CompletionRespectsPolicy(Effect(op, row))
  {
    if row.status == Completed {
      CompletedRefusesAll(op, row);
    }
  }

  lemma StepKeepsExecutor(op: Op, row: Request)
    requires ExclusiveExecutor(row) && Refusal(op, row).None?
    ensures ExclusiveExecutor(Effect(op, row))
  {
  }

  lemma StepKeepsParked(op: Op, row: Request)
    requires Parked(row) && Refusal(op, row).None?
    ensures Parked(Effect(op, row))
  {
  }

  lemma StepKeepsDecision(op: Op, row: Request)
    requires DecisionMatchesStatus(row.approval) && Refusal(op, row).None?
    ensures DecisionMatchesStatus(Effect(op, row).approval)
  {
  }

  lemma StepKeepsRow(op: Op, row: Request)
    requires GoodRow(row) && Refusal(op, row).None?
    ensures GoodRow(Effect(op, row))
  {
    StepKeepsStamps(op, row);
    StepKeepsCompletion(op, row);
    StepKeepsExecutor(op, row);
    StepKeepsParked(op, row);
    StepKeepsDecision(op, row);
  }

  /** What an operation audits leads from the old approval status to the new one;
      if it audits nothing, the status stays or is dropped. */
  lemma StepAuditsTheChange(op: Op, row: Request)
    requires Refusal(op, row).None?
    ensures var added := AuditsOf(op, row);
            var next := Effect(op, row).approval.status;
            if added == [] then next == row.approval.status || next == NotRequired
            else
              && added[0].from == row.approval.status
              && (forall k :: 0 < k < |added| ==> added[k].from == added[k - 1].to)
              && added[|added| - 1].to == next
  {
  }

  lemma CountAuditsOfConcat(a: seq<AuditRow>, b: seq<AuditRow>, action: AuditAction)
    ensures CountAudits(a + b, action) == CountAudits(a, action) + CountAudits(b, action)
  {
    if b == [] {
      assert a + b == a;
    } else {
      assert (a + b)[..|a + b| - 1] == a + b[..|b| - 1];
      CountAuditsOfConcat(a, b[..|b| - 1], action);
    }
  }

  lemma CountEventsOfConcat(a: seq<Event>, b: seq<Event>, kind: EventKind)
    ensures CountEvents(a + b, kind) == CountEvents(a, kind) + CountEvents(b, kind)
  {
    if b == [] {
      assert a + b == a;
    } else {
      assert (a + b)[..|a + b| - 1] == a + b[..|b| - 1];
      CountEventsOfConcat(a, b[..|b| - 1], kind);
    }
  }

  lemma ShortAudits(audits: seq<AuditRow>, action: AuditAction)
    requires |audits| <= 2
    ensures CountAudits(audits, action) ==
            (if |audits| > 0 && audits[0].action == action then 1 else 0)
            + (if |audits| > 1 && audits[1].action == action then 1 else 0)
  {
    if |audits| == 1 {
      assert audits[..0] == [];
    } else if |audits| == 2 {
      ShortAudits(audits[..1], action);
    }
  }

  lemma ShortEvents(events: seq<Event>, kind: EventKind)
    requires |events| <= 1
    ensures CountEvents(events, kind) == if |events| > 0 && events[0].kind == kind then 1 else 0
  {
    if |events| == 1 {
      assert events[..0] == [];
    }
  }

  predicate Announces(op: Op, row: Request, kind: EventKind) {
    match AnnouncementOf(op, row)
    case Nothing => false
    case Plain(k) => k == kind
    case WithPrevious(k) => k == kind
  }

  lemma EventsAreAnnounced(op: Op, row: Request, kind: EventKind)
    ensures CountEvents(EventsOf(op, row), kind) == if Announces(op, row, kind) then 1 else 0
  {
    ShortEvents(EventsOf(op, row), kind);
  }

  lemma SubmissionAsksOnce(actor: Id, amount: real, change: TriageChange, reason: Option<Reason>, row: Request, action: AuditAction)
    requires action in ANNOUNCED
    ensures CountAudits(SubmissionAudits(actor, amount, change, reason, row), action)
         == if action == AskedOwner && SubmissionNeedsOwner(amount, change, row) && !AlreadyAsked(row) then 1 else 0
  {
    ShortAudits(SubmissionAudits(actor, amount, change, reason, row), action);
  }

  lemma OnlyAskingAnnouncesARequest(action: AuditAction)
    requires action in ANNOUNCED
    ensures ANNOUNCED[action] == ApprovalRequestedEvent <==> action == AskedOwner
  {
  }

  lemma SubmissionAuditsAre(op: Op, row: Request)
    requires op.SubmitEstimate? || op.SubmitEstimateByProvider?
    ensures AuditsOf(op, row) == SubmissionAudits(op.actor.id, op.amount, op.change, op.statedReason, row)
  {
  }

  lemma SubmissionAnnounces(op: Op, row: Request, kind: EventKind)
    requires op.SubmitEstimate? || op.SubmitEstimateByProvider?
    ensures Announces(op, row, kind)
       <==> (kind == ApprovalRequestedEvent && SubmissionNeedsOwner(op.amount, op.change, row) && !AlreadyAsked(row))
  {
  }

  lemma SubmissionAnnouncesWhatItAudits(op: Op, row: Request, action: AuditAction)
    requires op.SubmitEstimate? || op.SubmitEstimateByProvider?
    requires action in ANNOUNCED
    ensures CountAudits(AuditsOf(op, row), action) == if Announces(op, row, ANNOUNCED[action]) then 1 else 0
  {
    OnlyAskingAnnouncesARequest(action);
    SubmissionAuditsAre(op, row);
    SubmissionAsksOnce(op.actor.id, op.amount, op.change, op.statedReason, row, action);
    SubmissionAnnounces(op, row, ANNOUNCED[action]);
  }

  lemma OperationAnnouncesWhatItAudits(op: Op, row: Request, action: AuditAction)
    requires !op.SubmitEstimate? && !op.SubmitEstimateByProvider?
    requires action in ANNOUNCED
    ensures CountAudits(AuditsOf(op, row), action) == if Announces(op, row, ANNOUNCED[action]) then 1 else 0
  {
    ShortAudits(AuditsOf(op, row), action);
  }

  /** One operation audits an announced action exactly when it emits its event. */
  lemma StepAnnouncesWhatItAudits(op: Op, row: Request, action: AuditAction)
    requires action in ANNOUNCED
    ensures CountAudits(AuditsOf(op, row), action) == CountEvents(EventsOf(op, row), ANNOUNCED[action])
  {
    EventsAreAnnounced(op, row, ANNOUNCED[action]);
    if op.SubmitEstimate? || op.SubmitEstimateByProvider? {
      SubmissionAnnouncesWhatItAudits(op, row, action);
    } else {
      OperationAnnouncesWhatItAudits(op, row, action);
    }
  }

  lemma StepKeepsGood(rec: Record, op: Op)
    requires Good(rec)
    requires Apply(rec, op).Success?
    ensures Good(Apply(rec, op).value)
  {
    var row := rec.row;
    var next := Apply(rec, op).value;
    StepKeepsRow(op, row);
    StepAuditsTheChange(op, row);
    forall a | a in ANNOUNCED
      ensures CountAudits(next.audits, a) == CountEvents(next.events, ANNOUNCED[a])
    {
      CountAuditsOfConcat(rec.audits, AuditsOf(op, row), a);
      CountEventsOfConcat(rec.events, EventsOf(op, row), ANNOUNCED[a]);
      StepAnnouncesWhatItAudits(op, row, a);
    }
  }

  lemma CreatedIsGood(resident: Id, unit: Id, intake: Intake, isEmergency: Option<bool>, signals: seq<Signal>, now: Time)
    ensures Good(Created(resident, unit, intake, isEmergency, signals, now))
  {
    var rec := Created(resident, unit, intake, isEmergency, signals, now);
    assert rec.events[..0] == [];
  }

  // --------------------------------------------------------------- over all runs

  lemma {:induction false} RunKeepsGood(rec: Record, ops: seq<Op>)
    requires Good(rec)
    ensures Good(Run(rec, ops))
    decreases ops
  {
    if ops != [] {
      var r := Apply(rec, ops[0]);
      if r.Success? {
        StepKeepsGood(rec, ops[0]);
        RunKeepsGood(r.value, ops[1..]);
      } else {
        RunKeepsGood(rec, ops[1..]);
      }
    }
  }

  /** The guarantees of the workflow, over every run from the resident's submission. */
  lemma WorkflowGuarantees(resident: Id, unit: Id, intake: Intake, isEmergency: Option<bool>, signals: seq<Signal>, now: Time, ops: seq<Op>)
    ensures var rec := Run(Created(resident, unit, intake, isEmergency, signals, now), ops);
            && StampsMatchStatus(rec.row)
            && CompletionRespectsPolicy(rec.row)
            && ExclusiveExecutor(rec.row)
            && Parked(rec.row)
            && DecisionMatchesStatus(rec.row.approval)
            && Linked(rec.audits)
            && EndsAt(rec.audits, rec.row.approval.status)
            && AuditsMatchEvents(rec)
  {
    CreatedIsGood(resident, unit, intake, isEmergency, signals, now);
    RunKeepsGood(Created(resident, unit, intake, isEmergency, signals, now), ops);
  }

  /** Once completed, nothing about a request ever changes again. */
  lemma {:induction false} CompletedIsFrozen(rec: Record, ops: seq<Op>)
    requires rec.row.status == Completed && CompletionRespectsPolicy(rec.row)
    ensures Run(rec, ops) == rec
    decreases ops
  {
    if ops != [] {
      CompletedRefusesAll(ops[0], rec.row);
      CompletedIsFrozen(rec, ops[1..]);
    }
  }

  /** Once canceled, only an approval that was left pending can still be answered. */
  lemma {:induction false} CanceledOnlySettlesApproval(rec: Record, ops: seq<Op>)
    requires rec.row.status == Canceled
    ensures Run(rec, ops).row == rec.row.(approval := Run(rec, ops).row.approval)
    ensures rec.row.approval.status != Pending ==> Run(rec, ops) == rec
    decreases ops
  {
    if ops != [] {
      var op := ops[0];
      var r := Apply(rec, op);
      if r.Success? {
        assert Effect(op, rec.row) == rec.row.(approval := Effect(op, rec.row).approval);
        CanceledOnlySettlesApproval(r.value, ops[1..]);
      } else {
        CanceledOnlySettlesApproval(rec, ops[1..]);
      }
    }
  }

  /** unassignProvider never finds an outstanding estimate to reset. */
  lemma UnassignNeverResetsAnEstimate(op: Op, row: Request)
    requires op.UnassignProvider? && Refusal(op, row).None?
    ensures Effect(op, row).estimate == row.estimate && Effect(op, row).triage == row.triage
  {
  }

  // ---------------------------------------------------------- estimate reminders

  /** How many times a run asks a provider for an estimate. */
  function EstimatesAskedFor(rec: Record, ops: seq<Op>): nat
    decreases ops
  {
    if ops == [] then 0
    else
      var r := Apply(rec, ops[0]);
      (if r.Success? && ops[0].AskProviderForEstimate? then 1 else 0)
      + EstimatesAskedFor(if r.Success? then r.value else rec, ops[1..])
  }

  function RemindersSent(rec: Record): nat {
    CountEvents(rec.events, EstimateReminderEvent)
  }

  /** One reminder is still owed while an estimate is outstanding and none was sent. */
  function ReminderOwed(row: Request): nat {
    if row.estimate.status == Requested && row.estimate.reminderSentAt.None? then 1 else 0
  }

  lemma StepOwesReminders(op: Op, row: Request)
    requires Refusal(op, row).None?
    ensures (if Announces(op, row, EstimateReminderEvent) then 1 else 0) + ReminderOwed(Effect(op, row))
            <= ReminderOwed(row) + if op.AskProviderForEstimate? then 1 else 0
  {
  }

  lemma StepSpendsWhatIsOwed(rec: Record, op: Op)
    requires Apply(rec, op).Success?
    ensures RemindersSent(Apply(rec, op).value) + ReminderOwed(Apply(rec, op).value.row)
            <= RemindersSent(rec) + ReminderOwed(rec.row) + if op.AskProviderForEstimate? then 1 else 0
  {
    CountEventsOfConcat(rec.events, EventsOf(op, rec.row), EstimateReminderEvent);
    EventsAreAnnounced(op, rec.row, EstimateReminderEvent);
    StepOwesReminders(op, rec.row);
  }

  lemma {:induction false} RemindersAreBounded(rec: Record, ops: seq<Op>)
    ensures RemindersSent(Run(rec, ops)) + ReminderOwed(Run(rec, ops).row)
            <= RemindersSent(rec) + ReminderOwed(rec.row) + EstimatesAskedFor(rec, ops)
    decreases ops
  {
    if ops != [] {
      var r := Apply(rec, ops[0]);
      if r.Success? {
        StepSpendsWhatIsOwed(rec, ops[0]);
        RemindersAreBounded(r.value, ops[1..]);
      } else {
        RemindersAreBounded(rec, ops[1..]);
      }
    }
  }

  /** However the monitors' marks interleave with the other operations, a request is
      never reminded about more often than an estimate was asked for. */
  lemma RemindersNeverExceedEstimates(resident: Id, unit: Id, intake: Intake, isEmergency: Option<bool>, signals: seq<Signal>, now: Time, ops: seq<Op>)
    ensures var rec := Created(resident, unit, intake, isEmergency, signals, now);
            RemindersSent(Run(rec, ops)) <= EstimatesAskedFor(rec, ops)
  {
    var rec := Created(resident, unit, intake, isEmergency, signals, now);
    ShortEvents(rec.events, EstimateReminderEvent);
    RemindersAreBounded(rec, ops);
  }

  // ------------------------------------------------------- estimate submissions

  /** The row stored by an estimate submission has the route the submission decided
      on, so approval is open exactly when that route asks for it and there is a unit. */
  lemma SubmissionStoresItsRoute(actor: Id, amount: real, c: TriageChange, reason: Option<Reason>, deadline: Option<Time>, now: Time, row: Request)
    ensures var after := WithEstimate(actor, amount, c, reason, deadline, now, row);
            && after.Route() == SubmissionRoute(amount, c, row)
            && (after.approval.status == Pending <==> after.Route() == OwnerApprovalRequired && row.unit.Some?)
            && (after.Unlocked() <==> after.Route() != OwnerApprovalRequired)
  {
  }
}
