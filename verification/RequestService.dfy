/** The maintenance-request service as the program has it: methods that look a row up,
    check it step by step and write it back. Each is proved to do what the operation
    it implements is described to do. */
module RequestService {
  import opened Wrappers
  import opened Policy
  import opened Requests
  import RequestInvariants

  /** What an operation on the request table amounts to. */
  function Serve(table: map<Id, Record>, id: Id, op: Op): Result<Record, Error> {
    if AccessError(op).Some? then Failure(AccessError(op).value)
    else if id !in table then Failure(NotFound)
    else Apply(table[id], op)
  }

  /** An accepted operation replaces one record and returns its row; a refused one
      changes nothing. */
  ghost predicate Served(before: map<Id, Record>, id: Id, op: Op, after: map<Id, Record>, outcome: Result<Request, Error>) {
    match Serve(before, id, op)
    case Success(rec) => outcome == Success(rec.row) && after == before[id := rec]
    case Failure(e) => outcome == Failure(e) && after == before
  }

  ghost predicate AllGood(table: map<Id, Record>) {
    forall id :: id in table ==> RequestInvariants.Good(table[id])
  }

  /** So every service call keeps the guarantees of the workflow, for every request. */
  lemma ServiceKeepsGuarantees(before: map<Id, Record>, id: Id, op: Op, after: map<Id, Record>, outcome: Result<Request, Error>)
    requires AllGood(before)
    requires Served(before, id, op, after, outcome)
    ensures AllGood(after)
  {
    if Serve(before, id, op).Success? {
      RequestInvariants.StepKeepsGood(before[id], op);
    }
  }

  class MaintenanceRequests {
    var requests: map<Id, Record>

    constructor ()
      ensures requests == map[]
    {
      requests := map[];
    }

    method Save(id: Id, row: Request, audits: seq<AuditRow>, events: seq<Event>)
      requires id in requests
      modifies this
      ensures requests == old(requests)[id := old(requests)[id].Extended(row, audits, events)]
    {
      var rec := requests[id];
      requests := requests[id := Record(row, rec.audits + audits, rec.events + events)];
    }

    method CreateResidentRequest(resident: Id, livesIn: Option<Id>, id: Id, intake: Intake, isEmergency: Option<bool>, signals: seq<Signal>, now: Time)
      returns (outcome: Result<Request, Error>)
      requires id !in requests  // a fresh random identifier
      modifies this
      ensures livesIn.None? ==> outcome == Failure(Forbidden) && requests == old(requests)
      ensures livesIn.Some? ==>
                && outcome == Success(Created(resident, livesIn.value, intake, isEmergency, signals, now).row)
                && requests == old(requests)[id := Created(resident, livesIn.value, intake, isEmergency, signals, now)]
    {
      if livesIn.None? {
        return Failure(Forbidden);
      }
      var kept := WithoutRepeats(signals);
      var row := Request(Some(livesIn.value), resident, now, intake, kept, Open, NO_EXECUTOR, NO_ESTIMATE, NO_APPROVAL,
                         Triage(None, None, isEmergency == Some(true) || |kept| > 0, None, None, None, None), None, None);
      requests := requests[id := Record(row, [], [Event(CreatedEvent, row, None, resident)])];
      outcome := Success(row);
    }

    method UpdateResidentRequest(actor: Actor, id: Id, edit: ResidentEdit) returns (outcome: Result<Request, Error>)
      modifies this
      ensures Served(old(requests), id, EditByResident(actor, edit), requests, outcome)
    {
      if !actor.livesHere {
        return Failure(Forbidden);
      }
      if id !in requests || requests[id].row.createdBy != actor.id {
        return Failure(NotFound);
      }
      var request := requests[id].row;
      if request.status != Open {
        return Failure(Conflict);
      }
      if edit.intake.None? && edit.isEmergency.None? && edit.signals.None? {
        return Failure(BadRequest);
      }
      var signals := request.signals;
      if edit.signals.Some? {
        signals := WithoutRepeats(edit.signals.value);
      }
      var isEmergency := request.triage.isEmergency;
      if edit.isEmergency.Some? || edit.signals.Some? {
        isEmergency := edit.isEmergency == Some(true) || |signals| > 0;
      }
      var updated := request.(
        intake := if edit.intake.Some? then edit.intake.value else request.intake,
        signals := signals,
        triage := request.triage.(isEmergency := isEmergency));
      Save(id, updated, [], []);
      outcome := Success(updated);
    }

    method CancelResidentRequest(actor: Actor, id: Id, now: Time) returns (outcome: Result<Request, Error>)
      modifies this
      ensures Served(old(requests), id, CancelByResident(actor, now), requests, outcome)
    {
      if !actor.livesHere {
        return Failure(Forbidden);
      }
      if id !in requests || requests[id].row.createdBy != actor.id {
        return Failure(NotFound);
      }
      outcome := Cancel(actor, id, now);
    }

    method CancelBuildingRequest(actor: Actor, id: Id, now: Time) returns (outcome: Result<Request, Error>)
      modifies this
      ensures Served(old(requests), id, CancelByManagement(actor, now), requests, outcome)
    {
      if !actor.hasBuildingAccess && !actor.canUpdateStatusAnywhere {
        return Failure(Forbidden);
      }
      if actor.StaffOnly() {
        return Failure(Forbidden);
      }
      if id !in requests {
        return Failure(NotFound);
      }
      outcome := Cancel(actor, id, now);
    }

    method Cancel(actor: Actor, id: Id, now: Time) returns (outcome: Result<Request, Error>)
      requires id in requests
      modifies this
      ensures var row := old(requests)[id].row;
              if row.Closed() then outcome == Failure(Conflict) && requests == old(requests)
              else
                var after := row.(status := Canceled, canceledAt := Some(now));
                && outcome == Success(after)
                && requests == old(requests)[id := old(requests)[id].Extended(after, [], [Event(CanceledEvent, after, None, actor.id)])]
    {
      var request := requests[id].row;
      if request.Closed() {
        return Failure(Conflict);
      }
      var updated := request.(status := Canceled, canceledAt := Some(now));
      Save(id, updated, [], [Event(CanceledEvent, updated, None, actor.id)]);
      outcome := Success(updated);
    }

    method AssignRequest(actor: Actor, id: Id, staff: Id, staffMember: bool, now: Time) returns (outcome: Result<Request, Error>)
      modifies this
      ensures Served(old(requests), id, AssignStaff(actor, staff, staffMember, now), requests, outcome)
    {
      if actor.StaffOnly() {
        return Failure(Forbidden);
      }
      if id !in requests {
        return Failure(NotFound);
      }
      var request := requests[id].row;
      if !request.OpenOrAssigned() {
        return Failure(Conflict);
      }
      if !request.Unlocked() {
        return Failure(Conflict);
      }
      if !staffMember {
        return Failure(BadRequest);
      }
      var updated := request.(executor := Executor(Some(staff), None, None, Some(now)), status := Assigned);
      Save(id, updated, [], [Event(AssignedEvent, updated, Some(request), actor.id)]);
      outcome := Success(updated);
    }

    method AssignServiceProvider(actor: Actor, id: Id, provider: Id, providerLinked: bool, now: Time) returns (outcome: Result<Request, Error>)
      modifies this
      ensures Served(old(requests), id, AssignProvider(actor, provider, providerLinked, now), requests, outcome)
    {
      if actor.StaffOnly() {
        return Failure(Forbidden);
      }
      if id !in requests {
        return Failure(NotFound);
      }
      var request := requests[id].row;
      if !request.OpenOrAssigned() {
        return Failure(Conflict);
      }
      if !request.Unlocked() {
        return Failure(Conflict);
      }
      if !providerLinked {
        return Failure(BadRequest);
      }
      var updated := request.(executor := Executor(None, Some(provider), None, Some(now)), status := Assigned);
      Save(id, updated, [], [Event(AssignedEvent, updated, Some(request), actor.id)]);
      outcome := Success(updated);
    }

    method RequestEstimateFromProvider(actor: Actor, id: Id, provider: Id, providerLinked: bool, now: Time, ttl: Time)
      returns (outcome: Result<Request, Error>)
      modifies this
      ensures Served(old(requests), id, AskProviderForEstimate(actor, provider, providerLinked, now, ttl), requests, outcome)
    {
      if actor.StaffOnly() {
        return Failure(Forbidden);
      }
      if id !in requests {
        return Failure(NotFound);
      }
      var request := requests[id].row;
      if !request.OpenOrAssigned() {
        return Failure(Conflict);
      }
      var route := RouteOf(request.PolicyView());
      if request.approval.status == Pending {
        return Failure(Conflict);
      }
      if route != NeedsEstimate && request.approval.status != Rejected {
        return Failure(Conflict);
      }
      if !providerLinked {
        return Failure(BadRequest);
      }
      var updated := request.(
        executor := Executor(None, Some(provider), None, None),
        estimate := Estimate(Requested, Some(now), Some(actor.id), Some(now + ttl), None, None, None),
        triage := request.triage.(amount := None, currency := None),
        approval := NO_APPROVAL,
        status := Open);
      Save(id, updated, [], [Event(AssignedEvent, updated, Some(request), actor.id)]);
      outcome := Success(updated);
    }

    method AssignProviderWorker(actor: Actor, id: Id, worker: Id, providerActive: bool, workerActive: bool, now: Time)
      returns (outcome: Result<Request, Error>)
      modifies this
      ensures Served(old(requests), id, AssignWorker(actor, worker, providerActive, workerActive, now), requests, outcome)
    {
      if actor.StaffOnly() {
        return Failure(Forbidden);
      }
      if id !in requests {
        return Failure(NotFound);
      }
      var request := requests[id].row;
      if !request.OpenOrAssigned() {
        return Failure(Conflict);
      }
      if !request.Unlocked() {
        return Failure(Conflict);
      }
      if request.executor.provider.None? {
        return Failure(Conflict);
      }
      if !providerActive || !workerActive {
        return Failure(BadRequest);
      }
      outcome := PutWorker(actor, id, worker, now);
    }

    method AssignProviderWorkerFromProvider(actor: Actor, id: Id, worker: Id, workerActive: bool, now: Time)
      returns (outcome: Result<Request, Error>)
      modifies this
      ensures Served(old(requests), id, AssignWorkerByProvider(actor, worker, workerActive, now), requests, outcome)
    {
      if id !in requests || requests[id].row.executor.provider.None? || requests[id].row.executor.provider.value !in actor.providers {
        return Failure(NotFound);
      }
      var request := requests[id].row;
      if request.executor.provider.value !in actor.managedProviders {
        return Failure(Forbidden);
      }
      if !request.OpenOrAssigned() {
        return Failure(Conflict);
      }
      if !request.Unlocked() {
        return Failure(Conflict);
      }
      if !workerActive {
        return Failure(BadRequest);
      }
      outcome := PutWorker(actor, id, worker, now);
    }

    method PutWorker(actor: Actor, id: Id, worker: Id, now: Time) returns (outcome: Result<Request, Error>)
      requires id in requests
      modifies this
      ensures var after := WithWorker(old(requests)[id].row, worker, now);
              && outcome == Success(after)
              && requests == old(requests)[id := old(requests)[id].Extended(
                   after, [], [Event(AssignedEvent, after, Some(old(requests)[id].row), actor.id)])]
    {
      var request := requests[id].row;
      var assignedAt := request.executor.assignedAt;
      if assignedAt.None? {
        assignedAt := Some(now);
      }
      var updated := request.(
        executor := Executor(None, request.executor.provider, Some(worker), assignedAt),
        status := Assigned);
      Save(id, updated, [], [Event(AssignedEvent, updated, Some(request), actor.id)]);
      outcome := Success(updated);
    }

    method UnassignServiceProvider(actor: Actor, id: Id) returns (outcome: Result<Request, Error>)
      modifies this
      ensures Served(old(requests), id, UnassignProvider(actor), requests, outcome)
    {
      if actor.StaffOnly() {
        return Failure(Forbidden);
      }
      if id !in requests {
        return Failure(NotFound);
      }
      var request := requests[id].row;
      if !request.OpenOrAssigned() {
        return Failure(Conflict);
      }
      if request.executor.provider.None? {
        return Failure(Conflict);
      }
      if !request.Unlocked() {
        return Failure(Conflict);
      }
      var updated := request.(
        executor := request.executor.(provider := None, worker := None, assignedAt := None),
        status := Open);
      if request.estimate.status == Requested {
        updated := updated.(estimate := NO_ESTIMATE, triage := request.triage.(amount := None, currency := None));
      }
      Save(id, updated, [], [Event(StatusChangedEvent, updated, Some(request), actor.id)]);
      outcome := Success(updated);
    }

    method UpdateRequestStatus(actor: Actor, id: Id, next: Status, now: Time) returns (outcome: Result<Request, Error>)
      modifies this
      ensures Served(old(requests), id, ChangeStatus(actor, next, now), requests, outcome)
    {
      if id !in requests {
        return Failure(NotFound);
      }
      var request := requests[id].row;
      if next !in Transitions(request.status) {
        return Failure(Conflict);
      }
      if actor.StaffOnly() {
        if request.executor.staff != Some(actor.id) {
          return Failure(Forbidden);
        }
      }
      if !request.Unlocked() {
        return Failure(Conflict);
      }
      var updated := request.(status := next);
      if next == Completed {
        updated := updated.(completedAt := Some(now));
      }
      Save(id, updated, [], [Event(StatusChangedEvent, updated, None, actor.id)]);
      outcome := Success(updated);
    }

    method UpdateProviderRequestStatus(actor: Actor, id: Id, next: Status, now: Time) returns (outcome: Result<Request, Error>)
      modifies this
      ensures Served(old(requests), id, ChangeStatusByProvider(actor, next, now), requests, outcome)
    {
      if id !in requests {
        return Failure(NotFound);
      }
      var request := requests[id].row;
      var denied := ProviderAccessError(actor, request);
      if denied.Some? {
        return Failure(denied.value);
      }
      if next !in Transitions(request.status) {
        return Failure(Conflict);
      }
      if !request.Unlocked() {
        return Failure(Conflict);
      }
      var updated := request.(status := next);
      if next == Completed {
        updated := updated.(completedAt := Some(now));
      }
      Save(id, updated, [], [Event(StatusChangedEvent, updated, Some(request), actor.id)]);
      outcome := Success(updated);
    }

    method RequireOwnerApproval(actor: Actor, id: Id, reason: Reason, change: TriageChange, deadline: Option<Time>)
      returns (outcome: Result<Request, Error>)
      modifies this
      ensures Served(old(requests), id, RequireApproval(actor, reason, change, deadline), requests, outcome)
    {
      if actor.StaffOnly() {
        return Failure(Forbidden);
      }
      if id !in requests {
        return Failure(NotFound);
      }
      var request := requests[id].row;
      if request.unit.None? || request.Closed() {
        return Failure(Conflict);
      }
      var previous := request.approval.status;
      var updated := request.(
        triage := Merge(change, request.triage, None),
        approval := FreshApproval(None, None, deadline, request.approval, reason));
      Save(id, updated, [AuditRow(Required, actor.id, previous, Pending, Some(reason), None)], []);
      outcome := Success(updated);
    }

    method RequestOwnerApprovalNow(actor: Actor, id: Id, reason: Reason, change: TriageChange, deadline: Option<Time>, now: Time)
      returns (outcome: Result<Request, Error>)
      modifies this
      ensures Served(old(requests), id, AskOwnerNow(actor, reason, change, deadline, now), requests, outcome)
    {
      if actor.StaffOnly() {
        return Failure(Forbidden);
      }
      if id !in requests {
        return Failure(NotFound);
      }
      var request := requests[id].row;
      if request.unit.None? || request.Closed() {
        return Failure(Conflict);
      }
      if request.approval.status == Pending && request.approval.requestedAt.Some? {
        return Failure(Conflict);
      }
      var previous := request.approval.status;
      var updated := request.(
        triage := Merge(change, request.triage, None),
        approval := FreshApproval(Some(now), Some(actor.id), deadline, request.approval, reason));
      var audits := [];
      if previous != Pending {
        audits := [AuditRow(Required, actor.id, previous, Pending, Some(reason), None)];
      }
      audits := audits + [AuditRow(AskedOwner, actor.id, Pending, Pending, Some(reason), None)];
      Save(id, updated, audits, [Event(ApprovalRequestedEvent, updated, None, actor.id)]);
      outcome := Success(updated);
    }

    method RequestOwnerApproval(actor: Actor, id: Id, now: Time) returns (outcome: Result<Request, Error>)
      modifies this
      ensures Served(old(requests), id, AskOwner(actor, now), requests, outcome)
    {
      outcome := MarkOwnerApprovalRequested(actor, id, false, now);
    }

    method ResendOwnerApprovalRequest(actor: Actor, id: Id, now: Time) returns (outcome: Result<Request, Error>)
      modifies this
      ensures Served(old(requests), id, AskOwnerAgain(actor, now), requests, outcome)
    {
      outcome := MarkOwnerApprovalRequested(actor, id, true, now);
    }

    method MarkOwnerApprovalRequested(actor: Actor, id: Id, resend: bool, now: Time) returns (outcome: Result<Request, Error>)
      modifies this
      ensures Served(old(requests), id, if resend then AskOwnerAgain(actor, now) else AskOwner(actor, now), requests, outcome)
    {
      if actor.StaffOnly() {
        return Failure(Forbidden);
      }
      if id !in requests {
        return Failure(NotFound);
      }
      var request := requests[id].row;
      if request.approval.status != Pending {
        return Failure(Conflict);
      }
      if resend && request.approval.requestedAt.None? {
        return Failure(Conflict);
      }
      if !resend && request.approval.requestedAt.Some? {
        return Failure(Conflict);
      }
      var updated := request.(approval := request.approval.(requestedAt := Some(now), requestedBy := Some(actor.id)));
      Save(id, updated,
           [AuditRow(if resend then Resent else AskedOwner, actor.id, request.approval.status, request.approval.status,
                     request.approval.requiredReason, None)],
           [Event(if resend then ApprovalReminderEvent else ApprovalRequestedEvent, updated, None, actor.id)]);
      outcome := Success(updated);
    }

    method UpdateRequestPolicyTriage(actor: Actor, id: Id, change: TriageChange) returns (outcome: Result<Request, Error>)
      modifies this
      ensures Served(old(requests), id, UpdateTriage(actor, change), requests, outcome)
    {
      if change == NO_TRIAGE_CHANGE {
        return Failure(BadRequest);
      }
      if actor.StaffOnly() {
        return Failure(Forbidden);
      }
      if id !in requests {
        return Failure(NotFound);
      }
      var request := requests[id].row;
      if request.Closed() {
        return Failure(Conflict);
      }
      var updated := request.(triage := Merge(change, request.triage, None));
      Save(id, updated, [], []);
      outcome := Success(updated);
    }

    method SubmitRequestEstimate(actor: Actor, id: Id, amount: real, change: TriageChange, reason: Option<Reason>, deadline: Option<Time>, now: Time)
      returns (outcome: Result<Request, Error>)
      modifies this
      ensures Served(old(requests), id, SubmitEstimate(actor, amount, change, reason, deadline, now), requests, outcome)
    {
      if actor.StaffOnly() {
        return Failure(Forbidden);
      }
      if id !in requests {
        return Failure(NotFound);
      }
      outcome := SubmitInTx(actor, id, amount, change, reason, deadline, now);
    }

    method SubmitProviderRequestEstimate(actor: Actor, id: Id, amount: real, change: TriageChange, reason: Option<Reason>, deadline: Option<Time>, now: Time)
      returns (outcome: Result<Request, Error>)
      modifies this
      ensures Served(old(requests), id, SubmitEstimateByProvider(actor, amount, change, reason, deadline, now), requests, outcome)
    {
      if id !in requests {
        return Failure(NotFound);
      }
      var denied := ProviderAccessError(actor, requests[id].row);
      if denied.Some? {
        return Failure(denied.value);
      }
      outcome := SubmitInTx(actor, id, amount, change, reason, deadline, now);
    }

    /** submitRequestEstimateInTx and the event its two callers emit afterwards */
    method SubmitInTx(actor: Actor, id: Id, amount: real, change: TriageChange, reason: Option<Reason>, deadline: Option<Time>, now: Time)
      returns (outcome: Result<Request, Error>)
      requires id in requests
      modifies this
      ensures var rec := old(requests)[id];
              if rec.row.Closed() then outcome == Failure(Conflict) && requests == old(requests)
              else
                var after := WithEstimate(actor.id, amount, change, reason, deadline, now, rec.row);
                && outcome == Success(after)
                && requests == old(requests)[id := rec.Extended(
                     after,
                     SubmissionAudits(actor.id, amount, change, reason, rec.row),
                     if SubmissionNeedsOwner(amount, change, rec.row) && !AlreadyAsked(rec.row)
                     then [Event(ApprovalRequestedEvent, after, None, actor.id)] else [])]
    {
      var request := requests[id].row;
      if request.Closed() {
        return Failure(Conflict);
      }
      var triage := Merge(change.(amount := Some(amount)), request.triage, Some("AED"));
      var estimate := request.estimate.(
        status := EstimateStatus.Submitted, submittedAt := Some(now), submittedBy := Some(actor.id), reminderSentAt := None);
      var snapshot := request.(
        triage := triage,
        approval := request.approval.(status := NotRequired),
        estimate := request.estimate.(status := EstimateStatus.Submitted));
      var route := RouteOf(snapshot.PolicyView());
      if route == OwnerApprovalRequired && request.unit.Some? {
        var previous := request.approval.status;
        var why := AutomaticReason(amount, change);
        if reason.Some? {
          why := reason.value;
        }
        var hadRequested := previous == Pending && request.approval.requestedAt.Some?;
        var requestedAt, requestedBy := Some(now), Some(actor.id);
        if hadRequested {
          requestedAt := request.approval.requestedAt;
          if request.approval.requestedBy.Some? {
            requestedBy := request.approval.requestedBy;
          }
        }
        var updated := request.(
          triage := triage, estimate := estimate,
          approval := FreshApproval(requestedAt, requestedBy, deadline, request.approval, why));
        var audits := [];
        if previous != Pending {
          audits := [AuditRow(Required, actor.id, previous, Pending, Some(why), None)];
        }
        var events := [];
        if !hadRequested {
          audits := audits + [AuditRow(AskedOwner, actor.id, Pending, Pending, Some(why), None)];
          events := [Event(ApprovalRequestedEvent, updated, None, actor.id)];
        }
        assert audits == SubmissionAudits(actor.id, amount, change, reason, request);
        Save(id, updated, audits, events);
        return Success(updated);
      }
      var updated := request.(triage := triage, estimate := estimate, approval := NO_APPROVAL);
      Save(id, updated, [], []);
      outcome := Success(updated);
    }

    method OverrideOwnerApproval(actor: Actor, id: Id, source: DecisionSource, overrideReason: string, now: Time)
      returns (outcome: Result<Request, Error>)
      modifies this
      ensures Served(old(requests), id, OverrideApproval(actor, source, overrideReason, now), requests, outcome)
    {
      if !actor.canOverride {
        return Failure(Forbidden);
      }
      if id !in requests {
        return Failure(NotFound);
      }
      var request := requests[id].row;
      if request.approval.status != Pending {
        return Failure(Conflict);
      }
      if source == ManagementOverride {
        if request.approval.deadlineAt.None? || request.approval.deadlineAt.value > now {
          return Failure(Conflict);
        }
      }
      var updated := request.(approval := request.approval.(
        status := Approved, decidedAt := Some(now), decidedBy := None, ownerReason := None,
        source := Some(source), overrideReason := Some(overrideReason), overriddenBy := Some(actor.id)));
      Save(id, updated,
           [AuditRow(Overridden, actor.id, request.approval.status, Approved, Some(Stated(overrideReason)), Some(source))],
           [Event(OverriddenEvent, updated, None, actor.id)]);
      outcome := Success(updated);
    }

    method ApproveAccessibleRequest(owner: Actor, id: Id, ownerReason: Option<string>, now: Time) returns (outcome: Result<Request, Error>)
      modifies this
      ensures Served(old(requests), id, ApproveByOwner(owner, ownerReason, now), requests, outcome)
    {
      outcome := Decide(owner, id, true, ownerReason, now);
    }

    method RejectAccessibleRequest(owner: Actor, id: Id, ownerReason: Option<string>, now: Time) returns (outcome: Result<Request, Error>)
      modifies this
      ensures Served(old(requests), id, RejectByOwner(owner, ownerReason, now), requests, outcome)
    {
      outcome := Decide(owner, id, false, ownerReason, now);
    }

    method Decide(owner: Actor, id: Id, approve: bool, ownerReason: Option<string>, now: Time) returns (outcome: Result<Request, Error>)
      modifies this
      ensures Served(old(requests), id, if approve then ApproveByOwner(owner, ownerReason, now) else RejectByOwner(owner, ownerReason, now),
                     requests, outcome)
    {
      if id !in requests || !owner.ownsUnit {
        return Failure(NotFound);
      }
      var request := requests[id].row;
      if request.approval.status != Pending {
        return Failure(NotFound);
      }
      var verdict := if approve then Approved else Rejected;
      var updated := request.(approval := request.approval.(
        status := verdict, decidedAt := Some(now), decidedBy := Some(owner.id), ownerReason := ownerReason,
        source := Some(DecidedByOwner), overrideReason := None, overriddenBy := None));
      Save(id, updated,
           [AuditRow(if approve then OwnerApproved else OwnerRejected, owner.id, Pending, verdict,
                     OwnersReason(ownerReason), Some(DecidedByOwner))],
           [Event(if approve then OwnerApprovedEvent else OwnerRejectedEvent, updated, None, owner.id)]);
      outcome := Success(updated);
    }

    // ------------------------------------------------------------ the monitor

    /** markEstimateReminderSentIfPending and the event of a mark that took */
    method MarkAndRemind(id: Id, listed: Request, now: Time) returns (marked: bool)
      modifies this
      ensures marked <==> Serve(old(requests), id, RemindProvider(listed, now)).Success?
      ensures marked ==> requests == old(requests)[id := Serve(old(requests), id, RemindProvider(listed, now)).value]
      ensures marked ==> requests[id] == Reminded(old(requests)[id], listed, now)
      ensures !marked ==> requests == old(requests)
    {
      if id !in requests || !ReminderDue(requests[id].row, now) {
        return false;
      }
      var row := requests[id].row;
      Save(id, row.(estimate := row.estimate.(reminderSentAt := Some(now))), [], [Event(EstimateReminderEvent, listed, None, SYSTEM_ACTOR)]);
      marked := true;
    }

    /** scanAndEmitReminders, over the rows an earlier query listed: it reminds exactly
        the listed requests that are still due, each once, and counts them. */
    method ScanAndEmitReminders(listed: seq<(Id, Request)>, now: Time) returns (emitted: nat)
      requires forall i, j :: 0 <= i < j < |listed| ==> listed[i].0 != listed[j].0
      modifies this
      ensures requests == Scanned(old(requests), listed, now)
      ensures emitted == |Listed(DueIds(old(requests), now), listed)|
    {
      emitted := 0;
      assert requests == Scanned(old(requests), [], now);
      assert Listed(DueIds(old(requests), now), []) == {};
      for k := 0 to |listed|
        invariant requests == Scanned(old(requests), listed[..k], now)
        invariant emitted == |Listed(DueIds(old(requests), now), listed[..k])|
      {
        var (id, row) := listed[k];
        assert listed[..k + 1] == listed[..k] + [(id, row)];
        ScanStep(DueIds(old(requests), now), listed[..k], id, row);
        ScannedStep(old(requests), listed[..k], id, row, now);
        var marked := MarkAndRemind(id, row, now);
        if marked {
          emitted := emitted + 1;
        }
      }
      assert listed[..|listed|] == listed;
    }
  }

  function Reminded(rec: Record, listed: Request, now: Time): Record {
    rec.Extended(rec.row.(estimate := rec.row.estimate.(reminderSentAt := Some(now))), [],
                 [Event(EstimateReminderEvent, listed, None, SYSTEM_ACTOR)])
  }

  /** The table after a scan: who was listed and is still due has been reminded. */
  function Scanned(table: map<Id, Record>, listed: seq<(Id, Request)>, now: Time): map<Id, Record> {
    map id | id in table :: AfterScan(table[id], listed, id, now)
  }

  /** The row under which a request was listed, if it was. */
  function ListedRow(listed: seq<(Id, Request)>, id: Id): Option<Request> {
    if listed == [] then None
    else if listed[|listed| - 1].0 == id then Some(listed[|listed| - 1].1)
    else ListedRow(listed[..|listed| - 1], id)
  }

  function AfterScan(rec: Record, listed: seq<(Id, Request)>, id: Id, now: Time): Record {
    var row := ListedRow(listed, id);
    if row.Some? && ReminderDue(rec.row, now) then Reminded(rec, row.value, now) else rec
  }

  ghost function DueIds(table: map<Id, Record>, now: Time): set<Id> {
    set id | id in table && ReminderDue(table[id].row, now)
  }

  ghost function Listed(ids: set<Id>, listed: seq<(Id, Request)>): set<Id> {
    set id | id in ids && ListedRow(listed, id).Some?
  }

  lemma {:induction false} ListedRowExactly(listed: seq<(Id, Request)>, id: Id)
    ensures ListedRow(listed, id).Some? <==> exists i :: 0 <= i < |listed| && listed[i].0 == id
    ensures ListedRow(listed, id).Some? ==> (id, ListedRow(listed, id).value) in listed
  {
    if listed != [] {
      ListedRowExactly(listed[..|listed| - 1], id);
    }
  }

  lemma ListingOneMore(listed: seq<(Id, Request)>, id: Id, row: Request, other: Id)
    ensures ListedRow(listed + [(id, row)], other) == if other == id then Some(row) else ListedRow(listed, other)
  {
    var more := listed + [(id, row)];
    assert more[..|more| - 1] == listed;
  }

  lemma ScanStep(due: set<Id>, listed: seq<(Id, Request)>, id: Id, row: Request)
    requires forall i :: 0 <= i < |listed| ==> listed[i].0 != id
    ensures forall other :: ListedRow(listed + [(id, row)], other) == if other == id then Some(row) else ListedRow(listed, other)
    ensures ListedRow(listed, id) == None
    ensures |Listed(due, listed + [(id, row)])| == |Listed(due, listed)| + if id in due then 1 else 0
  {
    forall other
      ensures ListedRow(listed + [(id, row)], other) == if other == id then Some(row) else ListedRow(listed, other)
    {
      ListingOneMore(listed, id, row, other);
    }
    ListedRowExactly(listed, id);
    assert Listed(due, listed + [(id, row)]) == Listed(due, listed) + if id in due then {id} else {};
  }

  lemma ScannedStep(table: map<Id, Record>, listed: seq<(Id, Request)>, id: Id, row: Request, now: Time)
    requires ListedRow(listed, id) == None
    requires forall other :: ListedRow(listed + [(id, row)], other) == if other == id then Some(row) else ListedRow(listed, other)
    ensures Scanned(table, listed + [(id, row)], now) ==
            if id in table && ReminderDue(table[id].row, now) then Scanned(table, listed, now)[id := Reminded(table[id], row, now)]
            else Scanned(table, listed, now)
    ensures id in table ==> Scanned(table, listed, now)[id] == table[id]
  {
  }
}
