/** Delivery tasks and the repository that moves them between states
    (delivery-tasks.repo.ts, with its in-memory store). */
module DeliveryTasks {
  import opened Wrappers

  type Id = nat
  type Time = int

  datatype Kind = PasswordEmail | PushNotification | BroadcastFanout

  datatype Status = Pending | Processing | Succeeded | Failed | Retried

  datatype Task = Task(
    kind: Kind,
    status: Status,
    recipients: seq<Id>,
    attempts: nat,
    maxAttempts: nat,
    startedAt: Option<Time>,
    lastAttemptAt: Option<Time>,
    completedAt: Option<Time>,
    lastError: Option<string>,
    retriedAt: Option<Time>,
    replacedBy: Option<Id>,
    createdAt: Time)
  {
    /** Nothing is ever processed again. */
    predicate Done() {
      status in {Succeeded, Retried}
    }

    predicate Retryable() {
      status == Failed && retriedAt.None? && replacedBy.None?
    }
  }

  const MAX_ERROR_LENGTH := 2000

  function Truncated(error: string): string {
    if |error| > MAX_ERROR_LENGTH then error[..MAX_ERROR_LENGTH] else error
  }

  function NewTask(kind: Kind, recipients: seq<Id>, maxAttempts: Option<nat>, now: Time): Task {
    Task(kind, Pending, recipients, 0, if maxAttempts.Some? then maxAttempts.value else 5, None, None, None, None, None, None, now)
  }

  /** Every attempt is counted; the first one is remembered. */
  function Started(t: Task, now: Time): Task {
    if t.Done() then t
    else t.(status := Processing, attempts := t.attempts + 1,
            startedAt := if t.startedAt.Some? then t.startedAt else Some(now), lastAttemptAt := Some(now), lastError := None)
  }

  function Claimed(t: Task): Task {
    t.(status := Processing)
  }

  function Released(t: Task): Task {
    t.(status := Failed)
  }

  function Replaced(t: Task, successor: Id, now: Time): Task {
    t.(status := Retried, retriedAt := Some(now), replacedBy := Some(successor), completedAt := Some(now))
  }

  function Scheduled(t: Task, error: string): Task {
    t.(status := Pending, lastError := Some(Truncated(error)))
  }

  function GivenUp(t: Task, error: string, now: Time): Task {
    t.(status := Failed, completedAt := Some(now), lastError := Some(Truncated(error)))
  }

  function Delivered(t: Task, now: Time): Task {
    t.(status := Succeeded, completedAt := Some(now), lastError := None)
  }

  class DeliveryTasksRepo {
    var store: map<Id, Task>

    constructor ()
      ensures store == map[]
    {
      store := map[];
    }

    method Create(id: Id, kind: Kind, recipients: seq<Id>, maxAttempts: Option<nat>, now: Time) returns (task: Task)
      requires id !in store  // a fresh random identifier
      modifies this
      ensures task == NewTask(kind, recipients, maxAttempts, now)
      ensures store == old(store)[id := task]
    {
      var attempts := 5;
      if maxAttempts.Some? {
        attempts := maxAttempts.value;
      }
      task := Task(kind, Pending, recipients, 0, attempts, None, None, None, None, None, None, now);
      store := store[id := task];
    }

    method FindById(id: Id) returns (task: Option<Task>)
      ensures task == if id in store then Some(store[id]) else None
    {
      task := if id in store then Some(store[id]) else None;
    }

    /** The shared update: a missing task stays missing. */
    method Update(id: Id, next: Task) returns (task: Option<Task>)
      modifies this
      ensures id in old(store) ==> store == old(store)[id := next] && task == Some(next)
      ensures id !in old(store) ==> store == old(store) && task == None
    {
      if id !in store {
        return None;
      }
      store := store[id := next];
      task := Some(next);
    }

    method MarkProcessing(id: Id, now: Time) returns (task: Option<Task>)
      modifies this
      ensures id in old(store) ==> store == old(store)[id := Started(old(store)[id], now)] && task == Some(store[id])
      ensures id !in old(store) ==> store == old(store) && task == None
    {
      var existing := FindById(id);
      if existing.None? || existing.value.status == Succeeded || existing.value.status == Retried {
        assert id in store ==> store == store[id := store[id]];
        return existing;
      }
      var t := existing.value;
      var startedAt := t.startedAt;
      if startedAt.None? {
        startedAt := Some(now);
      }
      task := Update(id, t.(status := Processing, attempts := t.attempts + 1, startedAt := startedAt,
                            lastAttemptAt := Some(now), lastError := None));
    }

    method ClaimForRetry(id: Id) returns (task: Option<Task>)
      modifies this
      ensures if id in old(store) && old(store)[id].Retryable()
              then store == old(store)[id := Claimed(old(store)[id])] && task == Some(store[id])
              else store == old(store) && task == None
    {
      if id !in store || store[id].status != Failed || store[id].retriedAt.Some? || store[id].replacedBy.Some? {
        return None;
      }
      var claimed := store[id].(status := Processing);
      store := store[id := claimed];
      task := Some(claimed);
    }

    method ReleaseRetryClaim(id: Id) returns (task: Option<Task>)
      modifies this
      ensures store == if id in old(store) then old(store)[id := Released(old(store)[id])] else old(store)
    {
      if id !in store {
        return None;
      }
      task := Update(id, store[id].(status := Failed));
    }

    method MarkRetried(id: Id, successor: Id, now: Time) returns (task: Option<Task>)
      modifies this
      ensures store == if id in old(store) then old(store)[id := Replaced(old(store)[id], successor, now)] else old(store)
    {
      if id !in store {
        return None;
      }
      task := Update(id, store[id].(status := Retried, retriedAt := Some(now), replacedBy := Some(successor), completedAt := Some(now)));
    }

    method MarkRetryScheduled(id: Id, error: string) returns (task: Option<Task>)
      modifies this
      ensures store == if id in old(store) then old(store)[id := Scheduled(old(store)[id], error)] else old(store)
    {
      if id !in store {
        return None;
      }
      task := Update(id, store[id].(status := Pending, lastError := Some(Truncated(error))));
    }

    method MarkFailed(id: Id, error: string, now: Time) returns (task: Option<Task>)
      modifies this
      ensures store == if id in old(store) then old(store)[id := GivenUp(old(store)[id], error, now)] else old(store)
    {
      if id !in store {
        return None;
      }
      task := Update(id, store[id].(status := Failed, completedAt := Some(now), lastError := Some(Truncated(error))));
    }

    method MarkSucceeded(id: Id, now: Time) returns (task: Option<Task>)
      modifies this
      ensures store == if id in old(store) then old(store)[id := Delivered(old(store)[id], now)] else old(store)
    {
      if id !in store {
        return None;
      }
      task := Update(id, store[id].(status := Succeeded, completedAt := Some(now), lastError := None));
    }

    /** Old finished tasks are counted and, unless it is a dry run, deleted. */
    method CleanupTerminalOlderThan(olderThan: Time, statuses: set<Status>, dryRun: bool) returns (count: nat)
      modifies this
      ensures count == |Expired(old(store), olderThan, statuses)|
      ensures store == if dryRun then old(store) else old(store) - Expired(old(store), olderThan, statuses)
    {
      var ids := Expired(store, olderThan, statuses);
      count := |ids|;
      if !dryRun {
        store := store - ids;
      }
    }
  }

  function Expired(store: map<Id, Task>, olderThan: Time, statuses: set<Status>): set<Id> {
    set id | id in store && store[id].status in statuses && store[id].createdAt < olderThan
  }
}
