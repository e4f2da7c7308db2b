/** One broadcast over the chain of delivery tasks that replace one another: how often its
    notifications are stored when retries lose their mark. */
module BroadcastChain {
  import opened Wrappers
  import opened DeliveryTasks
  import opened BroadcastDelivery

  /** A delivery of the broadcast, and whether the retry that claims it has created a
      replacement that it has not marked yet. */
  datatype Entry = Entry(machine: Machine, spawned: bool)

  /** The deliveries of a broadcast, and how many retries ended between creating the
      replacement and marking it: by a crash, or by giving the claim back. */
  datatype Chain = Chain(entries: seq<Entry>, lostMarks: nat)

  datatype ChainStep =
    | Take(k: nat, step: Step)
    | Spawn(k: nat, now: Time)
    | MarkReplaced(k: nat, successor: Id, now: Time)

  /** A new delivery of the same broadcast. */
  function ReplacementOf(m: Machine, now: Time): Entry {
    Entry(Fresh(m.task.recipients, Some(BROADCAST_ATTEMPTS), now), false)
  }

  /** A step that is not enabled changes nothing. */
  function ChainNext(c: Chain, step: ChainStep): Chain {
    if step.k >= |c.entries| then c
    else
      var e := c.entries[step.k];
      match step
      case Take(k, s) =>
        if s.Replace? then c
        else
          var m := Next(e.machine, s);
          var lost := e.spawned && !m.phase.RetryClaimed?;
          Chain(c.entries[k := Entry(m, e.spawned && !lost)], c.lostMarks + if lost then 1 else 0)
      case Spawn(k, now) =>
        if e.machine.phase.RetryClaimed? && !e.spawned
        then c.(entries := c.entries[k := e.(spawned := true)] + [ReplacementOf(e.machine, now)])
        else c
      case MarkReplaced(k, successor, now) =>
        if e.machine.phase.RetryClaimed? && e.spawned
        then c.(entries := c.entries[k := Entry(Next(e.machine, Replace(successor, now)), false)])
        else c
  }

  function ChainRun(c: Chain, steps: seq<ChainStep>): Chain
    decreases |steps|
  {
    if steps == [] then c else ChainRun(ChainNext(c, steps[0]), steps[1..])
  }

  function NewChain(recipients: seq<Id>, now: Time): Chain {
    Chain([Entry(Fresh(recipients, Some(BROADCAST_ATTEMPTS), now), false)], 0)
  }

  predicate NoPublishFailure(steps: seq<ChainStep>) {
    forall k :: 0 <= k < |steps| ==> !(steps[k].Take? && steps[k].step.PublishFails?)
  }

  /** All notifications stored for the broadcast. */
  function StoredInAll(entries: seq<Entry>): seq<Id> {
    if entries == [] then []
    else StoredInAll(entries[..|entries| - 1]) + entries[|entries| - 1].machine.stored
  }

  function Times(n: nat, recipients: seq<Id>): seq<Id> {
    if n == 0 then [] else Times(n - 1, recipients) + recipients
  }

  // ---------------------------------------------------------------- counting deliveries

  function Succeeds(e: Entry): nat {
    if e.machine.task.status == Succeeded then 1 else 0
  }

  function Deliveries(entries: seq<Entry>): nat {
    if entries == [] then 0 else Deliveries(entries[..|entries| - 1]) + Succeeds(entries[|entries| - 1])
  }

  /** A delivery that can still succeed, or has, and is not about to be replaced. */
  function Counts(e: Entry): nat {
    if e.machine.task.status == Retried || e.spawned then 0 else 1
  }

  function Live(entries: seq<Entry>): nat {
    if entries == [] then 0 else Live(entries[..|entries| - 1]) + Counts(entries[|entries| - 1])
  }

  lemma LiveAppend(entries: seq<Entry>, e: Entry)
    ensures Live(entries + [e]) == Live(entries) + Counts(e)
  {
    assert (entries + [e])[..|entries|] == entries;
  }

  lemma {:induction false} LiveUpdate(entries: seq<Entry>, k: nat, e: Entry)
    requires k < |entries|
    ensures Live(entries[k := e]) == Live(entries) - Counts(entries[k]) + Counts(e)
  {
    var n := |entries| - 1;
    if k == n {
      assert entries[k := e][..n] == entries[..n];
    } else {
      assert entries[k := e][..n] == entries[..n][k := e];
      LiveUpdate(entries[..n], k, e);
    }
  }

  // ----------------------------------------------------------------- what a run keeps

  predicate GoodEntry(e: Entry, recipients: seq<Id>) {
    && Good(e.machine)
    && e.machine.task.recipients == recipients
    && (e.spawned ==> e.machine.phase.RetryClaimed?)
  }

  /** Every delivery is in order, and there is one live one for each lost mark and one more. */
  ghost predicate GoodChain(c: Chain, recipients: seq<Id>) {
    && (forall k :: 0 <= k < |c.entries| ==> GoodEntry(c.entries[k], recipients))
    && Live(c.entries) == 1 + c.lostMarks
  }

  lemma TakeKeepsGood(c: Chain, recipients: seq<Id>, k: nat, s: Step)
    requires GoodChain(c, recipients) && !s.PublishFails?
    ensures GoodChain(ChainNext(c, Take(k, s)), recipients)
  {
    if k < |c.entries| && !s.Replace? {
      var e := c.entries[k];
      StepKeepsGood(e.machine, s);
      var next := ChainNext(c, Take(k, s)).entries[k];
      assert next.machine.task.status == Retried <==> e.machine.task.status == Retried;
      LiveUpdate(c.entries, k, next);
    }
  }

  lemma SpawnKeepsGood(c: Chain, recipients: seq<Id>, k: nat, now: Time)
    requires GoodChain(c, recipients)
    ensures GoodChain(ChainNext(c, Spawn(k, now)), recipients)
  {
    if k < |c.entries| && c.entries[k].machine.phase.RetryClaimed? && !c.entries[k].spawned {
      var claimed := c.entries[k].(spawned := true);
      var replacement := ReplacementOf(c.entries[k].machine, now);
      LiveUpdate(c.entries, k, claimed);
      LiveAppend(c.entries[k := claimed], replacement);
      ReplacementIsGood(c.entries[k].machine, now);
      var entries := c.entries[k := claimed] + [replacement];
      forall i | 0 <= i < |entries|
        ensures GoodEntry(entries[i], recipients)
      {
        assert i != k && i < |c.entries| ==> entries[i] == c.entries[i];
      }
    }
  }

  lemma ReplacementIsGood(m: Machine, now: Time)
    ensures GoodEntry(ReplacementOf(m, now), m.task.recipients) && Counts(ReplacementOf(m, now)) == 1
  {
  }

  lemma MarkKeepsGood(c: Chain, recipients: seq<Id>, k: nat, successor: Id, now: Time)
    requires GoodChain(c, recipients)
    ensures GoodChain(ChainNext(c, MarkReplaced(k, successor, now)), recipients)
  {
    if k < |c.entries| && c.entries[k].machine.phase.RetryClaimed? && c.entries[k].spawned {
      StepKeepsGood(c.entries[k].machine, Replace(successor, now));
      LiveUpdate(c.entries, k, Entry(Next(c.entries[k].machine, Replace(successor, now)), false));
    }
  }

  lemma {:induction false} ChainRunKeepsGood(c: Chain, recipients: seq<Id>, steps: seq<ChainStep>)
    requires GoodChain(c, recipients) && NoPublishFailure(steps)
    ensures GoodChain(ChainRun(c, steps), recipients)
    decreases |steps|
  {
    if steps != [] {
      match steps[0] {
        case Take(k, s) => TakeKeepsGood(c, recipients, k, s);
        case Spawn(k, now) => SpawnKeepsGood(c, recipients, k, now);
        case MarkReplaced(k, successor, now) => MarkKeepsGood(c, recipients, k, successor, now);
      }
      ChainRunKeepsGood(ChainNext(c, steps[0]), recipients, steps[1..]);
    }
  }

  lemma NewChainIsGood(recipients: seq<Id>, now: Time)
    ensures GoodChain(NewChain(recipients, now), recipients)
  {
    assert NewChain(recipients, now).entries[..0] == [];
  }

  /** What is stored is the recipient list, once for each delivery that succeeded. */
  lemma {:induction false} StoredOncePerDelivery(entries: seq<Entry>, recipients: seq<Id>)
    requires forall k :: 0 <= k < |entries| ==> GoodEntry(entries[k], recipients)
    ensures StoredInAll(entries) == Times(Deliveries(entries), recipients)
    ensures Deliveries(entries) <= Live(entries)
  {
    if entries != [] {
      StoredOncePerDelivery(entries[..|entries| - 1], recipients);
      assert GoodEntry(entries[|entries| - 1], recipients);
    }
  }

  /** Over every run of attempts, retries and crashes on all deliveries of a broadcast, its
      notifications are stored once for each delivery that succeeded, and at most once more
      than retries have lost their mark. */
  lemma AtMostOneCopyPerLostMark(recipients: seq<Id>, now: Time, steps: seq<ChainStep>)
    requires NoPublishFailure(steps)
    ensures var c := ChainRun(NewChain(recipients, now), steps);
            && StoredInAll(c.entries) == Times(Deliveries(c.entries), recipients)
            && Deliveries(c.entries) <= 1 + c.lostMarks
  {
    NewChainIsGood(recipients, now);
    ChainRunKeepsGood(NewChain(recipients, now), recipients, steps);
    StoredOncePerDelivery(ChainRun(NewChain(recipients, now), steps).entries, recipients);
  }

  /** So with no mark lost, a broadcast is stored once or not at all. */
  lemma OnceUnlessAMarkIsLost(recipients: seq<Id>, now: Time, steps: seq<ChainStep>)
    requires NoPublishFailure(steps) && ChainRun(NewChain(recipients, now), steps).lostMarks == 0
    ensures StoredInAll(ChainRun(NewChain(recipients, now), steps).entries) in {[], recipients}
  {
    AtMostOneCopyPerLostMark(recipients, now, steps);
    OneTime(recipients);
  }

  lemma OneTime(recipients: seq<Id>)
    ensures Times(0, recipients) == [] && Times(1, recipients) == recipients
  {
    assert Times(1, recipients) == Times(0, recipients) + recipients;
  }

  // ------------------------------------------------------- when a second copy can come

  lemma {:induction false} TimesLength(n: nat, recipients: seq<Id>)
    ensures |Times(n, recipients)| == n * |recipients|
  {
    if n > 0 {
      TimesLength(n - 1, recipients);
    }
  }

  lemma {:induction false} SomeLive(entries: seq<Entry>) returns (k: nat)
    requires Live(entries) >= 1
    ensures k < |entries| && Counts(entries[k]) == 1
  {
    var n := |entries| - 1;
    if Counts(entries[n]) == 1 {
      k := n;
    } else {
      k := SomeLive(entries[..n]);
    }
  }

  lemma {:induction false} TwoLive(entries: seq<Entry>) returns (i: nat, j: nat)
    requires Live(entries) >= 2
    ensures i < j < |entries| && Counts(entries[i]) == 1 && Counts(entries[j]) == 1
  {
    var n := |entries| - 1;
    if Counts(entries[n]) == 1 {
      i := SomeLive(entries[..n]);
      j := n;
    } else {
      i, j := TwoLive(entries[..n]);
    }
  }

  lemma {:induction false} OneSucceeded(entries: seq<Entry>, k: nat)
    requires k < |entries| && Succeeds(entries[k]) == 1
    ensures Deliveries(entries) >= 1
  {
    var n := |entries| - 1;
    if k < n {
      OneSucceeded(entries[..n], k);
    }
  }

  lemma {:induction false} TwoSucceeded(entries: seq<Entry>, i: nat, j: nat)
    requires i < j < |entries| && Succeeds(entries[i]) == 1 && Succeeds(entries[j]) == 1
    ensures Deliveries(entries) >= 2
  {
    var n := |entries| - 1;
    if j < n {
      TwoSucceeded(entries[..n], i, j);
    } else {
      OneSucceeded(entries[..n], i);
    }
  }

  /** Steps of one delivery, taken in the chain. */
  function Takes(k: nat, steps: seq<Step>): (r: seq<ChainStep>)
    ensures |r| == |steps| && forall i :: 0 <= i < |steps| ==> r[i] == Take(k, steps[i])
  {
    seq(|steps|, i requires 0 <= i < |steps| => Take(k, steps[i]))
  }

  lemma {:induction false} TakesRunTheMachine(c: Chain, k: nat, steps: seq<Step>)
    requires k < |c.entries| && !c.entries[k].spawned
    requires forall i :: 0 <= i < |steps| ==> !steps[i].Replace?
    ensures ChainRun(c, Takes(k, steps)) == c.(entries := c.entries[k := Entry(Run(c.entries[k].machine, steps), false)])
    decreases |steps|
  {
    if steps == [] {
      assert c.entries[k := Entry(c.entries[k].machine, false)] == c.entries;
    } else {
      assert Takes(k, steps)[1..] == Takes(k, steps[1..]);
      var next := ChainNext(c, Take(k, steps[0]));
      TakesRunTheMachine(next, k, steps[1..]);
    }
  }

  lemma {:induction false} ChainRunConcat(c: Chain, a: seq<ChainStep>, b: seq<ChainStep>)
    ensures ChainRun(c, a + b) == ChainRun(ChainRun(c, a), b)
    decreases |a|
  {
    if a == [] {
      assert a + b == b;
    } else {
      assert (a + b)[1..] == a[1..] + b;
      ChainRunConcat(ChainNext(c, a[0]), a[1..], b);
    }
  }

  /** A redelivery that goes well, wherever the delivery stands. */
  function Redelivery(m: Machine, now: Time): (r: seq<Step>)
    ensures forall i :: 0 <= i < |r| ==> !r[i].Replace? && !r[i].PublishFails?
  {
    if m.task.status == Succeeded then [] else [Crash, Begin, Mark(now), Commit(now)]
  }

  lemma RedeliverySucceeds(m: Machine, now: Time)
    requires m.task.status != Retried
    ensures Run(m, Redelivery(m, now)).task.status == Succeeded
  {
    if m.task.status != Succeeded {
      RunFour(m, Crash, Begin, Mark(now), Commit(now));
    }
  }

  lemma TwoRedeliveries(c: Chain, i: nat, j: nat, now: Time) returns (steps: seq<ChainStep>)
    requires i < j < |c.entries| && Counts(c.entries[i]) == 1 && Counts(c.entries[j]) == 1
    ensures NoPublishFailure(steps) && ChainRun(c, steps).lostMarks == c.lostMarks
    ensures Deliveries(ChainRun(c, steps).entries) >= 2
  {
    var p, q := c.entries[i].machine, c.entries[j].machine;
    var first, second := Takes(i, Redelivery(p, now)), Takes(j, Redelivery(q, now));
    steps := first + second;
    RedeliverySucceeds(p, now);
    RedeliverySucceeds(q, now);
    TakesRunTheMachine(c, i, Redelivery(p, now));
    TakesRunTheMachine(ChainRun(c, first), j, Redelivery(q, now));
    ChainRunConcat(c, first, second);
    TwoSucceeded(ChainRun(c, steps).entries, i, j);
  }

  /** More than one copy, with no further mark lost. */
  ghost predicate Repeats(c: Chain, recipients: seq<Id>, steps: seq<ChainStep>) {
    && NoPublishFailure(steps)
    && ChainRun(c, steps).lostMarks == c.lostMarks
    && |StoredInAll(ChainRun(c, steps).entries)| > |recipients|
  }

  /** From here on, losing no further mark, a broadcast to somebody can be stored more than
      once exactly when a mark has been lost already. */
  lemma RepeatableExactlyAfterALostMark(c: Chain, recipients: seq<Id>, now: Time)
    requires GoodChain(c, recipients) && recipients != []
    ensures (exists steps :: Repeats(c, recipients, steps)) <==> c.lostMarks >= 1
  {
    if c.lostMarks >= 1 {
      var i, j := TwoLive(c.entries);
      var steps := TwoRedeliveries(c, i, j, now);
      CopiesAreDeliveries(c, recipients, steps);
      assert Repeats(c, recipients, steps);
    } else {
      forall steps | NoPublishFailure(steps) && ChainRun(c, steps).lostMarks == c.lostMarks
        ensures !Repeats(c, recipients, steps)
      {
        CopiesAreDeliveries(c, recipients, steps);
      }
    }
  }

  /** Two deliveries of the broadcast that are not RETRIED. */
  predicate TwoUnreplaced(entries: seq<Entry>) {
    exists i, j :: 0 <= i < j < |entries| && entries[i].machine.task.status != Retried && entries[j].machine.task.status != Retried
  }

  /** While no retry stands between its replacement and its mark, the deliveries on record
      tell: a broadcast to somebody can be stored more than once exactly when two of them
      are not RETRIED. */
  lemma RepeatableExactlyWithTwoUnreplaced(c: Chain, recipients: seq<Id>, now: Time)
    requires GoodChain(c, recipients) && recipients != []
    requires forall k :: 0 <= k < |c.entries| ==> !c.entries[k].spawned
    ensures (exists steps :: Repeats(c, recipients, steps)) <==> TwoUnreplaced(c.entries)
  {
    RepeatableExactlyAfterALostMark(c, recipients, now);
    if c.lostMarks >= 1 {
      var i, j := TwoLive(c.entries);
    } else if TwoUnreplaced(c.entries) {
      var i, j :| 0 <= i < j < |c.entries| && c.entries[i].machine.task.status != Retried && c.entries[j].machine.task.status != Retried;
      LiveFromTwo(c.entries, i, j);
      assert false;
    }
  }

  lemma {:induction false} LiveFromOne(entries: seq<Entry>, k: nat)
    requires k < |entries| && Counts(entries[k]) == 1
    ensures Live(entries) >= 1
  {
    var n := |entries| - 1;
    if k < n {
      LiveFromOne(entries[..n], k);
    }
  }

  lemma {:induction false} LiveFromTwo(entries: seq<Entry>, i: nat, j: nat)
    requires i < j < |entries| && Counts(entries[i]) == 1 && Counts(entries[j]) == 1
    ensures Live(entries) >= 2
  {
    var n := |entries| - 1;
    if j < n {
      LiveFromTwo(entries[..n], i, j);
    } else {
      LiveFromOne(entries[..n], i);
    }
  }

  lemma CopiesAreDeliveries(c: Chain, recipients: seq<Id>, steps: seq<ChainStep>)
    requires GoodChain(c, recipients) && NoPublishFailure(steps) && recipients != []
    ensures var t := ChainRun(c, steps);
            && Deliveries(t.entries) <= 1 + t.lostMarks
            && (|StoredInAll(t.entries)| > |recipients| <==> Deliveries(t.entries) >= 2)
  {
    ChainRunKeepsGood(c, recipients, steps);
    var t := ChainRun(c, steps);
    StoredOncePerDelivery(t.entries, recipients);
    MoreThanOnce(Deliveries(t.entries), recipients);
  }

  lemma MoreThanOnce(n: nat, recipients: seq<Id>)
    requires recipients != []
    ensures |Times(n, recipients)| > |recipients| <==> n >= 2
  {
    TimesLength(n, recipients);
    if n >= 2 {
      assert n * |recipients| >= 2 * |recipients|;
    }
  }

  // ---------------------------------------------------------- a lost mark is reachable

  /** Failing attempt after failing attempt, until they are used up. */
  lemma {:induction false} AttemptsRunOut(m: Machine, error: string, now: Time) returns (steps: seq<Step>)
    requires Good(m) && m.phase == Idle && !m.task.Done()
    ensures Run(m, steps).task.Retryable() && Run(m, steps).phase == Idle
    ensures forall i :: 0 <= i < |steps| ==> !steps[i].Replace? && !steps[i].PublishFails?
    decreases m.task.maxAttempts - m.task.attempts
  {
    steps := [Begin, Mark(now), Abort, Record(error, now)];
    RunFour(m, Begin, Mark(now), Abort, Record(error, now));
    RunKeepsGood(m, steps);
    var after := Run(m, steps);
    if after.task.status != Failed {
      var more := AttemptsRunOut(after, error, now);
      RunsJoin(m, steps, more);
      steps := steps + more;
    }
  }

  lemma {:induction false} RunsJoin(m: Machine, a: seq<Step>, b: seq<Step>)
    ensures Run(m, a + b) == Run(Run(m, a), b)
    decreases |a|
  {
    if a == [] {
      assert a + b == b;
    } else {
      assert (a + b)[1..] == a[1..] + b;
      RunsJoin(Next(m, a[0]), a[1..], b);
    }
  }

  /** The steps of a retry in the chain. */
  function RetrySteps(k: nat, newId: Id, fate: RetryFate, now: Time): (r: seq<ChainStep>)
    ensures NoPublishFailure(r)
  {
    match fate
    case NotCreated => [Take(k, Claim), Take(k, Release)]
    case DispatchThrew => [Take(k, Claim), Spawn(k, now), Take(k, Release)]
    case MarkLost => [Take(k, Claim), Spawn(k, now), Take(k, Crash)]
    case Marked => [Take(k, Claim), Spawn(k, now), MarkReplaced(k, newId, now)]
  }

  lemma ChainRunTwo(c: Chain, a: ChainStep, b: ChainStep)
    ensures ChainRun(c, [a, b]) == ChainNext(ChainNext(c, a), b)
  {
    assert [a, b][1..] == [b] && [b][1..] == [];
    assert ChainRun(ChainNext(c, a), [b]) == ChainRun(ChainNext(ChainNext(c, a), b), []);
  }

  lemma ChainRunThree(c: Chain, a: ChainStep, b: ChainStep, d: ChainStep)
    ensures ChainRun(c, [a, b, d]) == ChainNext(ChainNext(ChainNext(c, a), b), d)
  {
    assert [a, b, d][1..] == [b, d];
    ChainRunTwo(ChainNext(c, a), b, d);
  }

  /** Claiming a delivery for a retry and creating its replacement. */
  function WithReplacement(c: Chain, k: nat, now: Time): Chain
    requires k < |c.entries|
  {
    var m := c.entries[k].machine;
    c.(entries := c.entries[k := Entry(m.(task := Claimed(m.task), phase := RetryClaimed), true)] + [ReplacementOf(m, now)])
  }

  lemma ClaimAndSpawn(c: Chain, k: nat, now: Time)
    requires k < |c.entries| && !c.entries[k].spawned
    requires c.entries[k].machine.phase == Idle && c.entries[k].machine.task.Retryable()
    ensures ChainNext(ChainNext(c, Take(k, Claim)), Spawn(k, now)) == WithReplacement(c, k, now)
  {
    var m := c.entries[k].machine;
    var claimed := m.(task := Claimed(m.task), phase := RetryClaimed);
    var c1 := ChainNext(c, Take(k, Claim));
    assert c1 == c.(entries := c.entries[k := Entry(claimed, false)]);
    assert c1.entries[k := Entry(claimed, true)] == c.entries[k := Entry(claimed, true)];
  }

  lemma ReplacementEnds(c: Chain, k: nat, newId: Id, fate: RetryFate, now: Time)
    requires k < |c.entries| && fate != NotCreated
    ensures var m := c.entries[k].machine;
            var last := if fate == Marked then MarkReplaced(k, newId, now) else Take(k, LastRetryStep(newId, fate, now));
            ChainNext(WithReplacement(c, k, now), last)
            == Chain(c.entries[k := Entry(m.(task := AfterRetry(m.task, newId, fate, now), phase := Idle), false)] + [ReplacementOf(m, now)],
                     c.lostMarks + if fate == Marked then 0 else 1)
  {
    var m := c.entries[k].machine;
    var claimed := Entry(m.(task := Claimed(m.task), phase := RetryClaimed), true);
    var done := Entry(m.(task := AfterRetry(m.task, newId, fate, now), phase := Idle), false);
    assert (c.entries[k := claimed] + [ReplacementOf(m, now)])[k := done] == c.entries[k := done] + [ReplacementOf(m, now)];
  }

  lemma GivenBack(c: Chain, k: nat)
    requires k < |c.entries| && !c.entries[k].spawned
    requires c.entries[k].machine.phase == Idle && c.entries[k].machine.task.Retryable()
    ensures ChainNext(ChainNext(c, Take(k, Claim)), Take(k, Release)) == c
  {
    var m := c.entries[k].machine;
    var c1 := ChainNext(c, Take(k, Claim));
    assert c1 == c.(entries := c.entries[k := Entry(m.(task := Claimed(m.task), phase := RetryClaimed), false)]);
    assert Released(Claimed(m.task)) == m.task;
    assert c1.entries[k := c.entries[k]] == c.entries;
  }

  /** The platform's retry, however it ends, is a run of the chain; it loses its mark when it
      crashes before it, and when dispatching the replacement throws. */
  lemma RetryIsAChainRun(c: Chain, k: nat, newId: Id, fate: RetryFate, now: Time)
    requires k < |c.entries| && !c.entries[k].spawned
    requires c.entries[k].machine.phase == Idle && c.entries[k].machine.task.Retryable()
    ensures var m := c.entries[k].machine;
            var after := c.entries[k := Entry(m.(task := AfterRetry(m.task, newId, fate, now), phase := Idle), false)];
            ChainRun(c, RetrySteps(k, newId, fate, now))
            == if fate == NotCreated then c
               else Chain(after + [ReplacementOf(m, now)], c.lostMarks + if fate == Marked then 0 else 1)
  {
    if fate == NotCreated {
      ChainRunTwo(c, Take(k, Claim), Take(k, Release));
      GivenBack(c, k);
    } else {
      var last := if fate == Marked then MarkReplaced(k, newId, now) else Take(k, LastRetryStep(newId, fate, now));
      ChainRunThree(c, Take(k, Claim), Spawn(k, now), last);
      ClaimAndSpawn(c, k, now);
      ReplacementEnds(c, k, newId, fate, now);
    }
  }

  /** The first delivery of a broadcast, failed for good and retried with the mark lost. */
  lemma AMarkCanBeLost(recipients: seq<Id>, newId: Id, error: string, now: Time) returns (steps: seq<ChainStep>)
    ensures NoPublishFailure(steps) && ChainRun(NewChain(recipients, now), steps).lostMarks == 1
  {
    var c := NewChain(recipients, now);
    var failing := AttemptsRunOut(c.entries[0].machine, error, now);
    var first, retry := Takes(0, failing), RetrySteps(0, newId, MarkLost, now);
    TakesRunTheMachine(c, 0, failing);
    RetryIsAChainRun(ChainRun(c, first), 0, newId, MarkLost, now);
    ChainRunConcat(c, first, retry);
    steps := first + retry;
  }

  /** A broadcast to anybody can be stored twice: its attempts run out, a retry loses its
      mark, and then both deliveries succeed. */
  lemma TwoCopiesAreReachable(recipients: seq<Id>, newId: Id, error: string, now: Time) returns (steps: seq<ChainStep>)
    ensures NoPublishFailure(steps)
    ensures ChainRun(NewChain(recipients, now), steps).lostMarks == 1
    ensures StoredInAll(ChainRun(NewChain(recipients, now), steps).entries) == recipients + recipients
  {
    var c := NewChain(recipients, now);
    var losing := AMarkCanBeLost(recipients, newId, error, now);
    NewChainIsGood(recipients, now);
    ChainRunKeepsGood(c, recipients, losing);
    var i, j := TwoLive(ChainRun(c, losing).entries);
    var both := TwoRedeliveries(ChainRun(c, losing), i, j, now);
    ChainRunConcat(c, losing, both);
    steps := losing + both;
    AtMostOneCopyPerLostMark(recipients, now, steps);
    TwoTimes(recipients);
  }

  lemma TwoTimes(recipients: seq<Id>)
    ensures Times(2, recipients) == recipients + recipients
  {
    OneTime(recipients);
    assert Times(2, recipients) == Times(1, recipients) + recipients;
  }
}
