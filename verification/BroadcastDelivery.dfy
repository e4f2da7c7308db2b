/** Fan-out of a broadcast (broadcast-delivery.service.ts and the platform's retry):
    the attempts on one task as a protocol of steps with crashes between them, and the
    service methods that walk through it. */
module BroadcastDelivery {
  import opened Wrappers
  import opened DeliveryTasks

  // ------------------------------------------------------------------ the protocol

  /** How far the one attempt (or retry) in progress has come. */
  datatype Phase =
    | Idle
    | Loaded                    // found and not done
    | Running(attempts: nat)    // marked as processing, transaction open
    | Thrown(attempts: nat)     // in the catch block
    | Committed(attempts: nat)  // transaction committed, publishing
    | RetryClaimed              // the platform's retry holds the claim

  /** A task, the recipients of the notifications stored for it, and the phase. */
  datatype Machine = Machine(task: Task, stored: seq<Id>, phase: Phase)

  datatype Step =
    | Begin
    | Mark(now: Time)
    | Commit(now: Time)
    | Abort
    | PublishFails
    | Record(error: string, now: Time)
    | Finish
    | Crash
    | Claim
    | Release
    | Replace(successor: Id, now: Time)

  /** A step that is not enabled changes nothing. */
  function Next(m: Machine, step: Step): Machine {
    match (step, m.phase)
    case (Begin, Idle) => if m.task.Done() then m else m.(phase := Loaded)
    case (Mark(now), Loaded) =>
      if m.task.Done() then m.(phase := Idle)
      else m.(task := Started(m.task, now), phase := Running(m.task.attempts + 1))
    case (Commit(now), Running(n)) =>
      if m.task.status == Succeeded then m.(phase := Committed(n))
      else m.(task := Delivered(m.task, now), stored := m.stored + m.task.recipients, phase := Committed(n))
    case (Abort, Running(n)) => m.(phase := Thrown(n))
    case (PublishFails, Committed(n)) => m.(phase := Thrown(n))
    case (Record(error, now), Thrown(n)) =>
      m.(task := if n >= m.task.maxAttempts then GivenUp(m.task, error, now) else Scheduled(m.task, error), phase := Idle)
    case (Finish, Committed(_)) => m.(phase := Idle)
    case (Crash, _) => m.(phase := Idle)
    case (Claim, Idle) => if m.task.Retryable() then m.(task := Claimed(m.task), phase := RetryClaimed) else m
    case (Release, RetryClaimed) => m.(task := Released(m.task), phase := Idle)
    case (Replace(successor, now), RetryClaimed) => m.(task := Replaced(m.task, successor, now), phase := Idle)
    case _ => m
  }

  function Run(m: Machine, steps: seq<Step>): Machine
    decreases steps
  {
    if steps == [] then m else Run(Next(m, steps[0]), steps[1..])
  }

  lemma RunTwo(m: Machine, a: Step, b: Step)
    ensures Run(m, [a, b]) == Next(Next(m, a), b)
  {
    assert [a, b][1..] == [b];
    assert [b][1..] == [];
    assert Run(Next(m, a), [b]) == Run(Next(Next(m, a), b), []);
  }

  lemma RunThree(m: Machine, a: Step, b: Step, c: Step)
    ensures Run(m, [a, b, c]) == Next(Next(Next(m, a), b), c)
  {
    assert [a, b, c][1..] == [b, c];
    RunTwo(Next(m, a), b, c);
  }

  lemma RunFour(m: Machine, a: Step, b: Step, c: Step, d: Step)
    ensures Run(m, [a, b, c, d]) == Next(Next(Next(Next(m, a), b), c), d)
  {
    assert [a, b, c, d][1..] == [b, c, d];
    RunThree(Next(m, a), b, c, d);
  }

  function Fresh(recipients: seq<Id>, maxAttempts: Option<nat>, now: Time): Machine {
    Machine(NewTask(BroadcastFanout, recipients, maxAttempts, now), [], Idle)
  }

  // ------------------------------------------------------------------- its guarantee

  /** All notifications, each once, or none. */
  predicate ExactlyOnce(t: Task, stored: seq<Id>) {
    stored == if t.status == Succeeded then t.recipients else []
  }

  /** A task is given up, and may be replaced, only after its attempts are used up. */
  predicate Exhausted(t: Task) {
    t.attempts >= t.maxAttempts
  }

  predicate Good(m: Machine) {
    && ExactlyOnce(m.task, m.stored)
    && (m.task.status in {Failed, Retried} ==> Exhausted(m.task))
    && (m.task.status == Retried <==> m.task.retriedAt.Some?)
    && (m.task.status == Retried <==> m.task.replacedBy.Some?)
    && match m.phase
       case Idle => true
       case Loaded => !m.task.Done()
       case Running(n) => m.task.status == Processing && n == m.task.attempts
       case Thrown(n) => m.task.status == Processing && n == m.task.attempts
       case Committed(n) => m.task.status == Succeeded
       case RetryClaimed => m.task.status == Processing && Exhausted(m.task)
  }

  lemma StepKeepsGood(m: Machine, step: Step)
    requires Good(m) && !step.PublishFails?
    ensures Good(Next(m, step))
    ensures Next(m, step).task.recipients == m.task.recipients
    ensures m.task.Done() ==> Next(m, step).task == m.task && Next(m, step).stored == m.stored
  {
  }

  lemma {:induction false} RunKeepsGood(m: Machine, steps: seq<Step>)
    requires Good(m) && forall k :: 0 <= k < |steps| ==> !steps[k].PublishFails?
    ensures Good(Run(m, steps))
    ensures Run(m, steps).task.recipients == m.task.recipients
    ensures m.task.Done() ==> Run(m, steps).task == m.task && Run(m, steps).stored == m.stored
    decreases steps
  {
    if steps != [] {
      StepKeepsGood(m, steps[0]);
      RunKeepsGood(Next(m, steps[0]), steps[1..]);
    }
  }

  /** Over any sequence of attempts and retries that do not overlap, queued, inline or
      redelivered, with a crash or a failed transaction anywhere: the notifications
      stored are the full recipient list once if it is SUCCEEDED, and none
      otherwise. */
  lemma ExactlyOnceFanout(recipients: seq<Id>, maxAttempts: Option<nat>, now: Time, steps: seq<Step>)
    requires forall k :: 0 <= k < |steps| ==> !steps[k].PublishFails?
    ensures var m := Run(Fresh(recipients, maxAttempts, now), steps);
            && m.stored == (if m.task.status == Succeeded then recipients else [])
            && (m.task.status in {Failed, Retried} ==> Exhausted(m.task))
  {
    RunKeepsGood(Fresh(recipients, maxAttempts, now), steps);
  }

  /** The one assumption is needed: an error thrown while publishing, after the commit,
      takes the mark back but not the notifications, so the next attempt stores them
      again, exactly when there is someone to notify. */
  lemma PublishFailureRepeats(m: Machine, error: string, now: Time)
    requires Good(m) && m.phase.Committed?
    ensures var again := Run(m, [PublishFails, Record(error, now), Begin, Mark(now), Commit(now)]);
            && again.stored == m.task.recipients + m.task.recipients
            && again.task.status == Succeeded
            && (ExactlyOnce(again.task, again.stored) <==> m.task.recipients == [])
  {
    var s1 := Next(m, PublishFails);
    var s2 := Next(s1, Record(error, now));
    var s3 := Next(s2, Begin);
    var s4 := Next(s3, Mark(now));
    var s5 := Next(s4, Commit(now));
    var steps := [PublishFails, Record(error, now), Begin, Mark(now), Commit(now)];
    assert steps[1..] == [Record(error, now), Begin, Mark(now), Commit(now)];
    RunFour(s1, Record(error, now), Begin, Mark(now), Commit(now));
    assert |s5.stored| == 2 * |m.task.recipients|;
  }

  /** A task that an inline attempt could not deliver is retried by nobody: unless its
      attempts are used up it waits as PENDING, which the platform's retry refuses. */
  lemma FailedInlineAttemptIsRetryableExactly(m: Machine, error: string, now: Time)
    requires Good(m) && m.phase == Idle && !m.task.Done()
    ensures var after := Run(m, [Begin, Mark(now), Abort, Record(error, now)]);
            && (Next(after, Claim).phase == RetryClaimed <==> m.task.attempts + 1 >= m.task.maxAttempts)
            && after.task.status == if m.task.attempts + 1 >= m.task.maxAttempts then Failed else Pending
  {
    var s1 := Next(m, Begin);
    var s2 := Next(s1, Mark(now));
    var s3 := Next(s2, Abort);
    var s4 := Next(s3, Record(error, now));
    RunFour(m, Begin, Mark(now), Abort, Record(error, now));
  }

  // ------------------------------------------------------------------ the service

  datatype Notification = Notification(task: Id, recipient: Id)

  /** The recipients of the notifications a task has stored. */
  function StoredFor(notifications: seq<Notification>, task: Id): seq<Id> {
    if notifications == [] then []
    else
      var before := StoredFor(notifications[..|notifications| - 1], task);
      var last := notifications[|notifications| - 1];
      if last.task == task then before + [last.recipient] else before
  }

  function RowsFor(task: Id, recipients: seq<Id>): (r: seq<Notification>)
    ensures |r| == |recipients|
  {
    seq(|recipients|, i requires 0 <= i < |recipients| => Notification(task, recipients[i]))
  }

  lemma {:induction false} StoringRows(notifications: seq<Notification>, task: Id, recipients: seq<Id>, asked: Id)
    ensures StoredFor(notifications + RowsFor(task, recipients), asked) ==
            StoredFor(notifications, asked) + if asked == task then recipients else []
  {
    if recipients == [] {
      assert notifications + RowsFor(task, recipients) == notifications;
    } else {
      var n := |recipients| - 1;
      var all := notifications + RowsFor(task, recipients);
      assert all[..|all| - 1] == notifications + RowsFor(task, recipients[..n]);
      StoringRows(notifications, task, recipients[..n], asked);
      assert recipients == recipients[..n] + [recipients[n]];
    }
  }

  /** Where an attempt crashes, if it does. */
  datatype CrashPoint = Never | AfterLoad | AfterMark | InCatch | AfterCommit

  datatype Luck = Luck(crash: CrashPoint, transactionFails: bool, pushFails: bool, error: string)

  datatype Outcome = Returned | Threw | Crashed

  /** Whether an attempt on a task that is not done ends with the process. */
  predicate Crashes(luck: Luck) {
    match luck.crash
    case Never => false
    case AfterLoad => true
    case AfterMark => true
    case InCatch => luck.transactionFails
    case AfterCommit => !luck.transactionFails
  }

  /** How an attempt on a task ends for its caller. */
  function OutcomeOf(t: Task, allowThrow: bool, luck: Luck): Outcome {
    if t.Done() then Returned
    else if Crashes(luck) then Crashed
    else if luck.transactionFails && allowThrow then Threw
    else Returned
  }

  /** The steps that one attempt takes. */
  function AttemptSteps(luck: Luck, now: Time): (steps: seq<Step>)
    ensures forall k :: 0 <= k < |steps| ==> !steps[k].PublishFails?
  {
    match luck.crash
    case AfterLoad => [Begin, Crash]
    case AfterMark => [Begin, Mark(now), Crash]
    case InCatch => if luck.transactionFails then [Begin, Mark(now), Abort, Crash] else [Begin, Mark(now), Commit(now), Finish]
    case AfterCommit => if luck.transactionFails then [Begin, Mark(now), Abort, Record(luck.error, now)] else [Begin, Mark(now), Commit(now), Crash]
    case Never => if luck.transactionFails then [Begin, Mark(now), Abort, Record(luck.error, now)] else [Begin, Mark(now), Commit(now), Finish]
  }

  /** What one attempt makes of a task. */
  function AfterAttempt(m: Machine, luck: Luck, now: Time): Machine {
    var t := Started(m.task, now);
    if m.task.Done() || luck.crash == AfterLoad then m
    else if luck.crash == AfterMark || (luck.transactionFails && luck.crash == InCatch) then m.(task := t)
    else if luck.transactionFails then
      m.(task := if t.attempts >= t.maxAttempts then GivenUp(t, luck.error, now) else Scheduled(t, luck.error))
    else m.(task := Delivered(t, now), stored := m.stored + t.recipients)
  }

  lemma AbortedAttemptIsItsSteps(m: Machine, luck: Luck, now: Time)
    requires m.phase == Idle && luck.transactionFails && luck.crash in {InCatch, AfterCommit, Never}
    ensures Run(m, AttemptSteps(luck, now)) == AfterAttempt(m, luck, now)
  {
    FailingAttempt(m, if luck.crash == InCatch then Crash else Record(luck.error, now), now);
  }

  lemma CommittedAttemptIsItsSteps(m: Machine, luck: Luck, now: Time)
    requires m.phase == Idle && !luck.transactionFails && luck.crash in {InCatch, AfterCommit, Never}
    ensures Run(m, AttemptSteps(luck, now)) == AfterAttempt(m, luck, now)
  {
    CommittingAttempt(m, if luck.crash == AfterCommit then Crash else Finish, now);
  }

  /** An attempt is a run of the protocol, whatever its luck. */
  lemma AttemptIsItsSteps(m: Machine, luck: Luck, now: Time)
    requires m.phase == Idle
    ensures Run(m, AttemptSteps(luck, now)) == AfterAttempt(m, luck, now)
  {
    if luck.crash == AfterLoad {
      RunTwo(m, Begin, Crash);
    } else if luck.crash == AfterMark {
      RunThree(m, Begin, Mark(now), Crash);
    } else if luck.transactionFails {
      AbortedAttemptIsItsSteps(m, luck, now);
    } else {
      CommittedAttemptIsItsSteps(m, luck, now);
    }
  }

  lemma FailingAttempt(m: Machine, last: Step, now: Time)
    requires m.phase == Idle
    ensures Run(m, [Begin, Mark(now), Abort, last]) ==
            if m.task.Done() then Next(m, last)
            else Next(m.(task := Started(m.task, now), phase := Thrown(m.task.attempts + 1)), last)
  {
    RunFour(m, Begin, Mark(now), Abort, last);
  }

  lemma CommittingAttempt(m: Machine, last: Step, now: Time)
    requires m.phase == Idle
    ensures Run(m, [Begin, Mark(now), Commit(now), last]) ==
            if m.task.Done() then Next(m, last)
            else Next(Machine(Delivered(Started(m.task, now), now), m.stored + m.task.recipients, Committed(m.task.attempts + 1)), last)
  {
    RunFour(m, Begin, Mark(now), Commit(now), last);
  }

  /** Every broadcast task of the store is in order while nothing is in progress. */
  ghost predicate AllInOrder(store: map<Id, Task>, notifications: seq<Notification>) {
    forall id :: id in store && store[id].kind == BroadcastFanout ==>
      Good(Machine(store[id], StoredFor(notifications, id), Idle))
  }

  class BroadcastDeliveryService {
    const repo: DeliveryTasksRepo
    var notifications: seq<Notification>

    constructor (repo: DeliveryTasksRepo)
      ensures this.repo == repo && notifications == []
    {
      this.repo := repo;
      notifications := [];
    }

    /** A task between attempts. */
    ghost function At(id: Id): Machine
      requires id in repo.store
      reads this, repo
    {
      Machine(repo.store[id], StoredFor(notifications, id), Idle)
    }

    /** processTask: one attempt, which leaves every other task alone. */
    method ProcessTask(id: Id, allowThrow: bool, luck: Luck, now: Time) returns (outcome: Outcome)
      modifies this, repo
      ensures repo.store.Keys == old(repo.store).Keys
      ensures forall other :: other in repo.store && other != id ==> At(other) == old(At(other))
      ensures id in old(repo.store) && old(repo.store)[id].kind == BroadcastFanout ==>
                At(id) == AfterAttempt(old(At(id)), luck, now) && outcome == OutcomeOf(old(repo.store)[id], allowThrow, luck)
      ensures id !in old(repo.store) || old(repo.store)[id].kind != BroadcastFanout ==>
                repo.store == old(repo.store) && notifications == old(notifications) && outcome == Returned
    {
      var task := repo.FindById(id);
      if task.None? || task.value.kind != BroadcastFanout {
        return Returned;
      }
      if task.value.status == Succeeded || task.value.status == Retried {
        return Returned;
      }
      if luck.crash == AfterLoad {
        return Crashed;
      }
      var processing := repo.MarkProcessing(id, now);
      if processing.None? || processing.value.status == Succeeded || processing.value.status == Retried {
        return Returned;
      }
      if luck.crash == AfterMark {
        return Crashed;
      }
      var payload := processing.value.recipients;
      if luck.transactionFails {
        if luck.crash == InCatch {
          return Crashed;
        }
        if processing.value.attempts >= processing.value.maxAttempts {
          var _ := repo.MarkFailed(id, luck.error, now);
        } else {
          var _ := repo.MarkRetryScheduled(id, luck.error);
        }
        return if allowThrow then Threw else Returned;
      }
      var current := repo.FindById(id);
      if current.Some? && current.value.status == Succeeded {
        return Returned;
      }
      forall other
        ensures StoredFor(notifications + RowsFor(id, payload), other) == StoredFor(notifications, other) + if other == id then payload else []
      {
        StoringRows(notifications, id, payload, other);
      }
      notifications := notifications + RowsFor(id, payload);
      var _ := repo.MarkSucceeded(id, now);
      outcome := if luck.crash == AfterCommit then Crashed else Returned;
    }

    /** enqueueFanoutTask: a delivery task is created, then queued, or else attempted inline. */
    method EnqueueFanoutTask(id: Id, recipients: seq<Id>, queued: bool, luck: Luck, now: Time) returns (outcome: Outcome)
      requires id !in repo.store && forall k :: 0 <= k < |notifications| ==> notifications[k].task != id  // a fresh random identifier
      modifies this, repo
      ensures repo.store.Keys == old(repo.store).Keys + {id}
      ensures forall other :: other in old(repo.store) ==> At(other) == old(At(other))
      ensures At(id) == if queued then Fresh(recipients, Some(BROADCAST_ATTEMPTS), now)
                        else AfterAttempt(Fresh(recipients, Some(BROADCAST_ATTEMPTS), now), luck, now)
      ensures outcome == if !queued && Crashes(luck) then Crashed else Returned
    {
      var _ := repo.Create(id, BroadcastFanout, recipients, Some(BROADCAST_ATTEMPTS), now);
      NothingStored(notifications, id);
      if queued {
        return Returned;
      }
      outcome := ProcessTask(id, false, luck, now);
    }

    /** The platform's retry of a failed fan-out: claim, replace by a new delivery task, mark as
        retried; a replacement that cannot be made releases the claim. A crash of the attempt
        made in place of queueing is the retry's own, so it loses the mark. */
    method Retry(id: Id, newId: Id, fate: RetryFate, queued: bool, luck: Luck, now: Time)
      returns (r: Result<Id, RetryError>)
      requires newId !in repo.store && forall k :: 0 <= k < |notifications| ==> notifications[k].task != newId
      requires id in repo.store ==> repo.store[id].kind == BroadcastFanout
      modifies this, repo
      ensures forall other :: other in old(repo.store) && other != id ==> other in repo.store && At(other) == old(At(other))
      ensures id !in old(repo.store) ==> r == Failure(TaskNotFound)
      ensures id in old(repo.store) && !old(repo.store)[id].Retryable() ==> r == Failure(NotRetryable)
      ensures (id !in old(repo.store) || !old(repo.store)[id].Retryable() || fate == NotCreated) ==>
                r.Failure? && repo.store == old(repo.store) && notifications == old(notifications)
      ensures id in old(repo.store) && old(repo.store)[id].Retryable() && fate != NotCreated ==>
                var ending := Ending(fate, queued, luck);
                && r == (match ending case Marked => Success(newId) case MarkLost => Failure(Interrupted) case _ => Failure(ReplacementFailed))
                && id in repo.store && newId in repo.store
                && At(id) == old(At(id)).(task := AfterRetry(old(repo.store)[id], newId, ending, now))
                && var replacement := Fresh(old(repo.store)[id].recipients, Some(BROADCAST_ATTEMPTS), now);
                && At(newId) == if queued then replacement else AfterAttempt(replacement, luck, now)
    {
      var task := repo.FindById(id);
      if task.None? {
        return Failure(TaskNotFound);
      }
      var claimed := repo.ClaimForRetry(id);
      if claimed.None? {
        return Failure(NotRetryable);
      }
      if fate == NotCreated {
        var _ := repo.ReleaseRetryClaim(id);
        return Failure(ReplacementFailed);
      }
      var outcome := EnqueueFanoutTask(newId, claimed.value.recipients, queued, luck, now);
      if outcome == Crashed {
        return Failure(Interrupted);
      }
      if fate == DispatchThrew {
        var _ := repo.ReleaseRetryClaim(id);
        return Failure(ReplacementFailed);
      }
      if fate == MarkLost {
        return Failure(Interrupted);
      }
      var _ := repo.MarkRetried(id, newId, now);
      r := Success(newId);
    }
  }

  /** How a retry that holds the claim ends: the replacement is not created; or it is, and
      then dispatching it throws, or the mark is lost in a crash, or all is well. */
  datatype RetryFate = NotCreated | DispatchThrew | MarkLost | Marked

  /** What becomes of a retry that meant to end so, once its replacement has been dispatched. */
  function Ending(fate: RetryFate, queued: bool, luck: Luck): RetryFate {
    if fate != NotCreated && !queued && Crashes(luck) then MarkLost else fate
  }

  function AfterRetry(t: Task, newId: Id, fate: RetryFate, now: Time): Task {
    match fate
    case NotCreated => Released(Claimed(t))
    case DispatchThrew => Released(Claimed(t))
    case MarkLost => Claimed(t)
    case Marked => Replaced(Claimed(t), newId, now)
  }

  function LastRetryStep(newId: Id, fate: RetryFate, now: Time): Step {
    match fate
    case NotCreated => Release
    case DispatchThrew => Release
    case MarkLost => Crash
    case Marked => Replace(newId, now)
  }

  /** A retry is a run of the protocol on the delivery task it replaces. */
  lemma RetryIsItsSteps(m: Machine, newId: Id, fate: RetryFate, now: Time)
    requires m.phase == Idle && m.task.Retryable()
    ensures Run(m, [Claim, LastRetryStep(newId, fate, now)]) == m.(task := AfterRetry(m.task, newId, fate, now))
  {
    RunTwo(m, Claim, LastRetryStep(newId, fate, now));
  }

  datatype RetryError = TaskNotFound | NotRetryable | ReplacementFailed | Interrupted

  const BROADCAST_ATTEMPTS: nat := 5

  lemma {:induction false} NothingStored(notifications: seq<Notification>, id: Id)
    requires forall k :: 0 <= k < |notifications| ==> notifications[k].task != id
    ensures StoredFor(notifications, id) == []
  {
    if notifications != [] {
      NothingStored(notifications[..|notifications| - 1], id);
    }
  }

  /** So an attempt keeps every task in order, whatever its luck. */
  lemma AttemptKeepsOrder(store: map<Id, Task>, notifications: seq<Notification>, store': map<Id, Task>, notifications': seq<Notification>,
                          id: Id, luck: Luck, now: Time)
    requires AllInOrder(store, notifications)
    requires store'.Keys == store.Keys && id in store && store[id].kind == BroadcastFanout
    requires forall other :: other in store && other != id ==>
               store'[other] == store[other] && StoredFor(notifications', other) == StoredFor(notifications, other)
    requires Machine(store'[id], StoredFor(notifications', id), Idle) == AfterAttempt(Machine(store[id], StoredFor(notifications, id), Idle), luck, now)
    ensures AllInOrder(store', notifications')
  {
    AttemptIsItsSteps(Machine(store[id], StoredFor(notifications, id), Idle), luck, now);
    RunKeepsGood(Machine(store[id], StoredFor(notifications, id), Idle), AttemptSteps(luck, now));
  }
}
