/** What every run of tenancy operations keeps consistent across the tables. */
module TenancyInvariants {
  import opened Wrappers
  import opened H = LeaseHistory
  import opened Tenancy

  // ------------------------------------------------------------ what is promised

  /** At most one ACTIVE occupancy per unit and per resident. */
  ghost predicate SingleStays(occupancies: map<Id, Occupancy>) {
    forall a, b :: a in occupancies && b in occupancies && a != b && occupancies[a].Active() && occupancies[b].Active() ==>
                     occupancies[a].unit != occupancies[b].unit && occupancies[a].resident != occupancies[b].resident
  }

  /** No occupancy is linked from two leases. */
  ghost predicate SingleLinks(leases: map<Id, Lease>) {
    forall a, b :: a in leases && b in leases && a != b && leases[a].occupancy.Some? ==> leases[a].occupancy != leases[b].occupancy
  }

  /** A link leads to a stay in the lease's own unit and building, of the lease's own
      resident; while that stay is ACTIVE, so is the lease. A lease without a link has
      a named resident; a draft has no link, and an ended lease has one. */
  predicate LinkAgrees(occupancies: map<Id, Occupancy>, l: Lease) {
    && (l.occupancy.None? ==> l.resident.Some?)
    && (l.status == Draft ==> l.occupancy.None?)
    && (l.status == Ended ==> l.occupancy.Some?)
    && (l.occupancy.Some? ==>
          && l.occupancy.value in occupancies
          && var o := occupancies[l.occupancy.value];
          && o.unit == l.unit
          && o.building == l.building
          && (l.resident.Some? ==> l.resident.value == o.resident)
          && (o.Active() ==> l.status == Active))
  }

  ghost predicate LinksAgree(occupancies: map<Id, Occupancy>, leases: map<Id, Lease>) {
    forall id :: id in leases ==> LinkAgrees(occupancies, leases[id])
  }

  /** Requests belong to leases, and of a lease's requests only the newest can be open. */
  ghost predicate OnlyNewestOpen(leases: map<Id, Lease>, requests: seq<MoveRequest>) {
    && (forall k :: 0 <= k < |requests| ==> requests[k].lease in leases)
    && (forall i, j :: 0 <= i < j < |requests| && requests[i].lease == requests[j].lease ==> !requests[i].Open())
  }

  /** A moved-in contract has no open move-in request; a move-in request is completed
      only by moving in, which happens to a lease once. */
  ghost predicate MoveInsSettled(leases: map<Id, Lease>, moveIns: seq<MoveRequest>) {
    && (forall k :: 0 <= k < |moveIns| && moveIns[k].lease in leases ==>
          && (leases[moveIns[k].lease].occupancy.Some? ==> !moveIns[k].Open())
          && (moveIns[k].status == Completed ==> leases[moveIns[k].lease].occupancy.Some?))
    && (forall i, j :: 0 <= i < j < |moveIns| && moveIns[i].lease == moveIns[j].lease ==>
          !(moveIns[i].status == Completed && moveIns[j].status == Completed))
  }

  /** The history of each lease replays to its current row, without gaps. */
  ghost predicate HistoryReplays(history: seq<HistoryRow>, leases: map<Id, Lease>) {
    && Continuous(history)
    && (forall k :: 0 <= k < |history| ==> history[k].lease in leases)
    && (forall id :: id in leases ==> ReplaysTo(history, id, leases[id].Row()))
  }

  ghost predicate Consistent(s: Estate) {
    && SingleStays(s.occupancies)
    && SingleLinks(s.leases)
    && LinksAgree(s.occupancies, s.leases)
    && OnlyNewestOpen(s.leases, s.moveIns)
    && OnlyNewestOpen(s.leases, s.moveOuts)
    && MoveInsSettled(s.leases, s.moveIns)
    && HistoryReplays(s.history, s.leases)
  }

  // ------------------------------------------------------------ building blocks

  /** A new stay in a free unit of an unhoused resident, linked from nowhere yet. */
  lemma AddingAStay(s: Estate, stay: Id, o: Occupancy)
    requires SingleStays(s.occupancies) && LinksAgree(s.occupancies, s.leases)
    requires stay !in s.occupancies && !s.UnitTaken(o.unit) && !s.ResidentHoused(o.resident)
    ensures SingleStays(s.occupancies[stay := o]) && LinksAgree(s.occupancies[stay := o], s.leases)
    ensures forall id :: id in s.leases ==> s.leases[id].occupancy != Some(stay)
  {
    forall id | id in s.leases
      ensures LinkAgrees(s.occupancies[stay := o], s.leases[id]) && s.leases[id].occupancy != Some(stay)
    {
      assert LinkAgrees(s.occupancies, s.leases[id]);
    }
  }

  /** Ending stays, with the leases left as they are. */
  lemma EndingStays(before: map<Id, Occupancy>, after: map<Id, Occupancy>, leases: map<Id, Lease>)
    requires SingleStays(before) && LinksAgree(before, leases)
    requires after.Keys == before.Keys
    requires forall o :: o in after ==> exists e :: after[o] == before[o].(endAt := e) && (before[o].endAt.Some? ==> e.Some?)
    ensures SingleStays(after) && LinksAgree(after, leases)
  {
    forall id | id in leases
      ensures LinkAgrees(after, leases[id])
    {
      assert LinkAgrees(before, leases[id]);
    }
  }

  /** Changing a lease, but for its place and its link, in a way that agrees with its stay. */
  lemma ChangingALease(occupancies: map<Id, Occupancy>, leases: map<Id, Lease>, moveIns: seq<MoveRequest>, moveOuts: seq<MoveRequest>, id: Id, next: Lease)
    requires SingleLinks(leases) && LinksAgree(occupancies, leases) && id in leases
    requires OnlyNewestOpen(leases, moveIns) && OnlyNewestOpen(leases, moveOuts) && MoveInsSettled(leases, moveIns)
    requires next.occupancy == leases[id].occupancy && LinkAgrees(occupancies, next)
    ensures SingleLinks(leases[id := next]) && LinksAgree(occupancies, leases[id := next])
    ensures OnlyNewestOpen(leases[id := next], moveIns) && OnlyNewestOpen(leases[id := next], moveOuts) && MoveInsSettled(leases[id := next], moveIns)
  {
  }

  lemma RecordingAChange(history: seq<HistoryRow>, id: Id, action: Action, l: Lease, next: Lease)
    requires Continuous(history) && ReplaysTo(history, id, l.Row())
    ensures var more := Recorded(history, id, action, l, next);
            && Continuous(more)
            && ReplaysTo(more, id, next.Row())
            && (forall other :: other != id ==> Replay(more, other) == Replay(history, other))
            && (more == history || (|more| == |history| + 1 && more[..|history|] == history && more[|history|].lease == id))
  {
    if ChangeSet(TRACKED, l.Row(), next.Row()) == map[] {
      UnchangedKeepsReplay(history, id, l.Row(), next.Row());
    } else {
      RecordingKeepsReplay(history, id, action, l.Row(), next.Row());
    }
  }

  /** Replacing a lease by one whose tracked columns differ only in what was recorded. */
  lemma ReplacingALease(history: seq<HistoryRow>, leases: map<Id, Lease>, id: Id, next: Lease, action: Action)
    requires HistoryReplays(history, leases) && id in leases
    ensures HistoryReplays(Recorded(history, id, action, leases[id], next), leases[id := next])
  {
    var more := Recorded(history, id, action, leases[id], next);
    RecordingAChange(history, id, action, leases[id], next);
    forall k | k in leases && k != id
      ensures ReplaysTo(more, k, leases[k].Row())
    {
      assert ReplaysTo(history, k, leases[k].Row());
    }
    forall k | 0 <= k < |more|
      ensures more[k].lease in leases
    {
      assert k < |history| ==> more[k] == history[k];
    }
  }

  /** Status, link and resident are not replayed, so changing them needs no record. */
  lemma RelabellingALease(history: seq<HistoryRow>, leases: map<Id, Lease>, id: Id, next: Lease)
    requires HistoryReplays(history, leases) && id in leases
    requires next.startAt == leases[id].startAt && next.endAt == leases[id].endAt && next.columns == leases[id].columns
    ensures HistoryReplays(history, leases[id := next])
  {
    SameTerms(leases[id], next);
    assert ReplaysTo(history, id, leases[id].Row());
  }

  lemma SameTerms(a: Lease, b: Lease)
    requires a.startAt == b.startAt && a.endAt == b.endAt && a.columns == b.columns
    ensures forall f :: f != Field.Status ==> Normal(a.Row(), f) == Normal(b.Row(), f)
  {
  }

  lemma AddingALease(s: Estate, id: Id, l: Lease)
    requires HistoryReplays(s.history, s.leases) && id !in s.leases
    requires OnlyNewestOpen(s.leases, s.moveIns) && OnlyNewestOpen(s.leases, s.moveOuts) && MoveInsSettled(s.leases, s.moveIns)
    ensures HistoryReplays(CreationRecorded(s.history, id, l), s.leases[id := l])
    ensures var leases := s.leases[id := l];
            OnlyNewestOpen(leases, s.moveIns) && OnlyNewestOpen(leases, s.moveOuts) && MoveInsSettled(leases, s.moveIns)
  {
    NoRowsReplayToNothing(s.history, id);
    RecordingKeepsReplay(s.history, id, Created, map[], l.Row());
  }

  lemma WithdrawingKeepsOrder(leases: map<Id, Lease>, requests: seq<MoveRequest>, id: Id)
    requires OnlyNewestOpen(leases, requests)
    ensures OnlyNewestOpen(leases, WithdrawOpen(requests, id))
    ensures MoveInsSettled(leases, requests) ==> MoveInsSettled(leases, WithdrawOpen(requests, id))
  {
  }

  // -------------------------------------------------------------- one step keeps it

  lemma DraftKeeps(s: Estate, op: Op)
    requires Consistent(s) && op.DraftContract? && DraftStep(s, op).Success?
    ensures Consistent(DraftStep(s, op).value)
  {
    AddingALease(s, op.id, Drafted(op));
  }

  lemma UpdateKeeps(s: Estate, id: Id, p: Patch, allowed: set<Field>)
    requires Consistent(s) && id in s.leases
    ensures Consistent(UpdateStep(s, id, p, allowed))
  {
    var next := Patched(s.leases[id], p, allowed);
    ReplacingALease(s.history, s.leases, id, next, Updated);
    assert LinkAgrees(s.occupancies, s.leases[id]);
    ChangingALease(s.occupancies, s.leases, s.moveIns, s.moveOuts, id, next);
  }

  lemma ActivateKeeps(s: Estate, id: Id)
    requires Consistent(s) && ActivateStep(s, id).Success?
    ensures Consistent(ActivateStep(s, id).value)
  {
    var next := s.leases[id].(status := Active);
    RelabellingALease(s.history, s.leases, id, next);
    assert LinkAgrees(s.occupancies, s.leases[id]);
    ChangingALease(s.occupancies, s.leases, s.moveIns, s.moveOuts, id, next);
  }

  lemma LinkedStayEnds(occupancies: map<Id, Occupancy>, leases: map<Id, Lease>, id: Id, next: Lease, at: Time)
    requires SingleStays(occupancies) && LinksAgree(occupancies, leases) && id in leases && leases[id].occupancy.Some?
    requires next.status == Ended && next.occupancy == leases[id].occupancy && next.resident == leases[id].resident
    requires next.building == leases[id].building && next.unit == leases[id].unit
    ensures var ended := StayEnded(occupancies, leases[id].occupancy.value, at);
            && SingleStays(ended) && LinksAgree(ended, leases) && LinkAgrees(ended, next)
            && leases[id].occupancy.value in ended && !ended[leases[id].occupancy.value].Active()
  {
    assert LinkAgrees(occupancies, leases[id]);
    EndingStays(occupancies, StayEnded(occupancies, leases[id].occupancy.value, at), leases);
  }

  lemma MovedOutKeeps(s: Estate, id: Id, form: MoveOutForm)
    requires Consistent(s) && id in s.leases && s.leases[id].occupancy.Some?
    ensures Consistent(MovedOutStep(s, id, form))
    ensures !MovedOutStep(s, id, form).Occupied(s.leases[id])
  {
    var next := Settled(s.leases[id], form);
    var ended := StayEnded(s.occupancies, s.leases[id].occupancy.value, form.movedOutAt);
    ReplacingALease(s.history, s.leases, id, next, MovedOut);
    LinkedStayEnds(s.occupancies, s.leases, id, next, form.movedOutAt);
    ChangingALease(ended, s.leases, s.moveIns, s.moveOuts, id, next);
  }

  /** Relabelling a lease CANCELLED, once its stay is no longer ACTIVE. */
  lemma CancellingKeeps(s: Estate, id: Id)
    requires Consistent(s) && id in s.leases && !s.Occupied(s.leases[id])
    ensures Consistent(s.(leases := s.leases[id := s.leases[id].(status := Cancelled)]))
  {
    var next := s.leases[id].(status := Cancelled);
    RelabellingALease(s.history, s.leases, id, next);
    assert LinkAgrees(s.occupancies, s.leases[id]);
    ChangingALease(s.occupancies, s.leases, s.moveIns, s.moveOuts, id, next);
  }

  lemma WithdrawingKeeps(s: Estate, id: Id)
    requires Consistent(s)
    ensures Consistent(s.(moveIns := WithdrawOpen(s.moveIns, id), moveOuts := WithdrawOpen(s.moveOuts, id)))
  {
    WithdrawingKeepsOrder(s.leases, s.moveIns, id);
    WithdrawingKeepsOrder(s.leases, s.moveOuts, id);
  }

  lemma CancelKeeps(s: Estate, id: Id, now: Time)
    requires Consistent(s) && CancelStep(s, id, now).Success?
    ensures Consistent(CancelStep(s, id, now).value)
  {
    var l := s.leases[id];
    assert LinkAgrees(s.occupancies, l);
    var form := MoveOutForm(now, map[], None, None);
    var left := if l.status == Active && l.occupancy.Some? then MovedOutStep(s, id, form) else s;
    if l.status == Active && l.occupancy.Some? {
      MovedOutKeeps(s, id, form);
    }
    CancellingKeeps(left, id);
    WithdrawingKeeps(left.(leases := left.leases[id := left.leases[id].(status := Cancelled)]), id);
  }

  /** The links of the leases once one more is linked to a stay that none is linked to. */
  lemma LinkingAStay(occupancies: map<Id, Occupancy>, leases: map<Id, Lease>, id: Id, l: Lease)
    requires SingleLinks(leases) && LinksAgree(occupancies, leases) && LinkAgrees(occupancies, l)
    requires forall k :: k in leases ==> leases[k].occupancy != l.occupancy
    ensures SingleLinks(leases[id := l]) && LinksAgree(occupancies, leases[id := l])
  {
  }

  lemma MoveInKeeps(s: Estate, op: Op)
    requires Consistent(s) && op.MoveIn? && MoveInStep(s, op).Success?
    ensures Consistent(MoveInStep(s, op).value)
  {
    var stay := Occupancy(op.building, op.unit, op.resident, op.startAt, None);
    AddingAStay(s, op.stay, stay);
    AddingALease(s, op.id, MovedIn(op));
    LinkingAStay(s.occupancies[op.stay := stay], s.leases, op.id, MovedIn(op));
  }

  /** A new request, when none of the lease is open. */
  lemma AskingKeepsOrder(leases: map<Id, Lease>, requests: seq<MoveRequest>, r: MoveRequest)
    requires OnlyNewestOpen(leases, requests) && r.lease in leases && !HasOpen(requests, r.lease)
    ensures OnlyNewestOpen(leases, requests + [r])
  {
  }

  lemma ReviewKeepsOrder(leases: map<Id, Lease>, requests: seq<MoveRequest>, k: nat, approve: bool, permitted: bool, now: Time)
    requires OnlyNewestOpen(leases, requests) && Reviewed(requests, k, approve, permitted, now).Success?
    ensures OnlyNewestOpen(leases, Reviewed(requests, k, approve, permitted, now).value)
  {
    assert requests[k].Open();
  }

  lemma RequestMoveInKeeps(s: Estate, id: Id, user: Id, moveAt: Time)
    requires Consistent(s) && RequestMoveInStep(s, id, user, moveAt).Success?
    ensures Consistent(RequestMoveInStep(s, id, user, moveAt).value)
  {
    AskingKeepsOrder(s.leases, s.moveIns, MoveRequest(id, user, PendingReview, moveAt, None));
  }

  lemma RequestMoveOutKeeps(s: Estate, id: Id, user: Id, moveAt: Time)
    requires Consistent(s) && RequestMoveOutStep(s, id, user, moveAt).Success?
    ensures Consistent(RequestMoveOutStep(s, id, user, moveAt).value)
  {
    AskingKeepsOrder(s.leases, s.moveOuts, MoveRequest(id, user, PendingReview, moveAt, None));
  }

  lemma ReviewMoveInKeeps(s: Estate, k: nat, approve: bool, permitted: bool, now: Time)
    requires Consistent(s) && Reviewed(s.moveIns, k, approve, permitted, now).Success?
    ensures Consistent(s.(moveIns := Reviewed(s.moveIns, k, approve, permitted, now).value))
  {
    ReviewKeepsOrder(s.leases, s.moveIns, k, approve, permitted, now);
    assert s.moveIns[k].Open();
  }

  lemma ReviewMoveOutKeeps(s: Estate, k: nat, approve: bool, permitted: bool, now: Time)
    requires Consistent(s) && Reviewed(s.moveOuts, k, approve, permitted, now).Success?
    ensures Consistent(s.(moveOuts := Reviewed(s.moveOuts, k, approve, permitted, now).value))
  {
    ReviewKeepsOrder(s.leases, s.moveOuts, k, approve, permitted, now);
  }

  lemma CompletingKeepsOrder(leases: map<Id, Lease>, requests: seq<MoveRequest>, k: nat)
    requires OnlyNewestOpen(leases, requests) && k < |requests|
    ensures OnlyNewestOpen(leases, requests[k := requests[k].(status := Completed)])
  {
  }

  /** The lease of an approved move-in request is linked as the request is completed. */
  lemma CompletingAMoveIn(leases: map<Id, Lease>, moveIns: seq<MoveRequest>, k: nat, linked: Lease)
    requires OnlyNewestOpen(leases, moveIns) && MoveInsSettled(leases, moveIns)
    requires k < |moveIns| && moveIns[k].status == Approved && leases[moveIns[k].lease].occupancy.None? && linked.occupancy.Some?
    ensures MoveInsSettled(leases[moveIns[k].lease := linked], moveIns[k := moveIns[k].(status := Completed)])
  {
    assert moveIns[k].Open();
  }

  lemma ExecuteMoveInKeeps(s: Estate, id: Id, permitted: bool, stay: Id, now: Time)
    requires Consistent(s) && ExecuteMoveInStep(s, id, permitted, stay, now).Success?
    ensures Consistent(ExecuteMoveInStep(s, id, permitted, stay, now).value)
  {
    var l := s.leases[id];
    var o := Occupancy(l.building, l.unit, l.resident.value, now, None);
    var linked := l.(occupancy := Some(stay));
    var picked := FirstApproved(s.moveIns, id).value;
    AddingAStay(s, stay, o);
    LinkingAStay(s.occupancies[stay := o], s.leases, id, linked);
    RelabellingALease(s.history, s.leases, id, linked);
    CompletingKeepsOrder(s.leases, s.moveIns, picked);
    CompletingAMoveIn(s.leases, s.moveIns, picked, linked);
  }

  lemma ExecuteMoveOutKeeps(s: Estate, id: Id, permitted: bool)
    requires Consistent(s) && ExecuteMoveOutStep(s, id, permitted).Success?
    ensures Consistent(ExecuteMoveOutStep(s, id, permitted).value)
  {
    var picked := FirstApproved(s.moveOuts, id).value;
    var moveAt := s.moveOuts[picked].moveAt;
    var form := MoveOutForm(moveAt, map[], None, None);
    CompletingKeepsOrder(s.leases, s.moveOuts, picked);
    var done := s.(moveOuts := s.moveOuts[picked := s.moveOuts[picked].(status := Completed)]);
    MovedOutKeeps(done, id, form);
    if moveAt < s.leases[id].endAt {
      CancellingKeeps(MovedOutStep(done, id, form), id);
    }
  }

  lemma CreateOccupancyKeeps(s: Estate, op: Op)
    requires Consistent(s) && op.CreateOccupancy? && CreateOccupancyStep(s, op).Success?
    ensures Consistent(CreateOccupancyStep(s, op).value)
  {
    AddingAStay(s, op.stay, Occupancy(op.building, op.unit, op.resident, op.now, None));
  }

  lemma GrantKeeps(s: Estate, op: Op)
    requires Consistent(s) && op.GrantResidence? && GrantStep(s, op).Success?
    ensures Consistent(GrantStep(s, op).value)
  {
    var keep := if op.mode == Leave then None else Some(op.unit);
    var t := if op.mode == Add then s else s.(occupancies := StaysLeft(s.occupancies, op.user, op.building, keep, op.now));
    if op.mode != Add {
      forall o | o in t.occupancies
        ensures exists e :: t.occupancies[o] == s.occupancies[o].(endAt := e) && (s.occupancies[o].endAt.Some? ==> e.Some?)
      {
        assert t.occupancies[o] == s.occupancies[o].(endAt := t.occupancies[o].endAt);
      }
      EndingStays(s.occupancies, t.occupancies, s.leases);
    }
    if GrantStep(s, op).value != t {
      assert !t.UnitTaken(op.unit);
      AddingAStay(t, op.stay, Occupancy(op.building, op.unit, op.user, op.now, None));
    }
  }

  lemma RequestsKeep(s: Estate, op: Op)
    requires Consistent(s) && Step(s, op).Success?
    requires op.RequestMoveIn? || op.RequestMoveOut? || op.ReviewMoveIn? || op.ReviewMoveOut?
    ensures Consistent(Step(s, op).value)
  {
    match op {
      case RequestMoveIn(id, user, moveAt) => RequestMoveInKeeps(s, id, user, moveAt);
      case RequestMoveOut(id, user, moveAt) => RequestMoveOutKeeps(s, id, user, moveAt);
      case ReviewMoveIn(k, approve, permitted, now) => ReviewMoveInKeeps(s, k, approve, permitted, now);
      case ReviewMoveOut(k, approve, permitted, now) => ReviewMoveOutKeeps(s, k, approve, permitted, now);
    }
  }

  lemma TermsKeep(s: Estate, op: Op)
    requires Consistent(s) && Step(s, op).Success?
    requires op.DraftContract? || op.UpdateContract? || op.UpdateLease? || op.ActivateContract?
    ensures Consistent(Step(s, op).value)
  {
    match op {
      case DraftContract(_, _, _, _, _, _, _, _, _, _) => DraftKeeps(s, op);
      case UpdateContract(id, patch) => UpdateKeeps(s, id, patch, CONTRACT_COLUMNS);
      case UpdateLease(id, patch) => UpdateKeeps(s, id, patch, LEASE_COLUMNS);
      case ActivateContract(id) => ActivateKeeps(s, id);
    }
  }

  lemma EndingsKeep(s: Estate, op: Op)
    requires Consistent(s) && Step(s, op).Success?
    requires op.CancelContract? || op.MoveOut? || op.ExecuteMoveOut?
    ensures Consistent(Step(s, op).value)
  {
    match op {
      case CancelContract(id, now) => CancelKeeps(s, id, now);
      case MoveOut(id, _, form) => MovedOutKeeps(s, id, form);
      case ExecuteMoveOut(id, permitted) => ExecuteMoveOutKeeps(s, id, permitted);
    }
  }

  lemma HousingsKeep(s: Estate, op: Op)
    requires Consistent(s) && Step(s, op).Success?
    requires op.MoveIn? || op.ExecuteMoveIn? || op.CreateOccupancy? || op.GrantResidence?
    ensures Consistent(Step(s, op).value)
  {
    match op {
      case MoveIn(_, _, _, _, _, _, _, _, _, _) => MoveInKeeps(s, op);
      case ExecuteMoveIn(id, permitted, stay, now) => ExecuteMoveInKeeps(s, id, permitted, stay, now);
      case CreateOccupancy(_, _, _, _, _, _, _) => CreateOccupancyKeeps(s, op);
      case GrantResidence(_, _, _, _, _, _, _) => GrantKeeps(s, op);
    }
  }

  lemma StepKeeps(s: Estate, op: Op)
    requires Consistent(s) && Step(s, op).Success?
    ensures Consistent(Step(s, op).value)
  {
    if op.DraftContract? || op.UpdateContract? || op.UpdateLease? || op.ActivateContract? {
      TermsKeep(s, op);
    } else if op.CancelContract? || op.MoveOut? || op.ExecuteMoveOut? {
      EndingsKeep(s, op);
    } else if op.MoveIn? || op.ExecuteMoveIn? || op.CreateOccupancy? || op.GrantResidence? {
      HousingsKeep(s, op);
    } else {
      RequestsKeep(s, op);
    }
  }

  // ------------------------------------------------------------------ over all runs

  lemma {:induction false} RunKeeps(s: Estate, ops: seq<Op>)
    requires Consistent(s)
    ensures Consistent(Run(s, ops))
    decreases ops
  {
    if ops != [] {
      var r := Step(s, ops[0]);
      if r.Success? {
        StepKeeps(s, ops[0]);
        RunKeeps(r.value, ops[1..]);
      } else {
        RunKeeps(s, ops[1..]);
      }
    }
  }

  /** The tables stay consistent over every run of operations from an empty estate. */
  lemma TenancyGuarantees(ops: seq<Op>)
    ensures var s := Run(EMPTY, ops);
            && SingleStays(s.occupancies)
            && SingleLinks(s.leases)
            && LinksAgree(s.occupancies, s.leases)
            && OnlyNewestOpen(s.leases, s.moveIns)
            && OnlyNewestOpen(s.leases, s.moveOuts)
            && MoveInsSettled(s.leases, s.moveIns)
            && HistoryReplays(s.history, s.leases)
  {
    RunKeeps(EMPTY, ops);
  }
}
