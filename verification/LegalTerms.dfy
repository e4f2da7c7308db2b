/** The legal terms of a contract, which are locked while it is active and registered:
    what keeps them, and the two ways around the lock. */
module LegalTerms {
  import opened Wrappers
  import opened H = LeaseHistory
  import opened Tenancy
  import opened TenancyInvariants
  import opened TenancyProperties
  import opened TenancyExpectations

  /** Two versions of a contract have the same period and read the same in every legal column. */
  ghost predicate SameLegalTerms(a: Lease, b: Lease) {
    && a.startAt == b.startAt && a.endAt == b.endAt
    && forall f :: f in LEGAL_COLUMNS ==> Normal(a.columns, f) == Normal(b.columns, f)
  }

  /** The patch gives the legal terms it may set the values they have already. */
  ghost predicate RepeatsLegalTerms(l: Lease, p: Patch, allowed: set<Field>) {
    && (p.startAt.Some? ==> p.startAt.value == l.startAt)
    && (p.endAt.Some? ==> p.endAt.value == l.endAt)
    && forall f :: f in p.columns && f in LEGAL_COLUMNS && f in allowed ==> Normal(l.columns, f) == Normal(p.columns, f)
  }

  /** updateLease knows no lock, and updateContract locks only while the contract is ACTIVE. */
  ghost predicate Rewrites(s: Estate, op: Op, id: Id)
    requires id in s.leases
  {
    match op
    case UpdateLease(l, p) => l == id && !RepeatsLegalTerms(s.leases[id], p, LEASE_COLUMNS)
    case UpdateContract(l, p) => l == id && s.leases[id].status != Active && !RepeatsLegalTerms(s.leases[id], p, CONTRACT_COLUMNS)
    case _ => false
  }

  // ------------------------------------------------------------------- one update

  lemma PatchedColumn(l: Lease, p: Patch, allowed: set<Field>, f: Field)
    ensures Normal(Patched(l, p, allowed).columns, f) == if f in p.columns && f in allowed then Normal(p.columns, f) else Normal(l.columns, f)
  {
    var merged := l.columns + Only(p.columns, allowed);
    if f in p.columns && f in allowed {
      SameColumn(merged, p.columns, f);
    } else {
      SameColumn(merged, l.columns, f);
    }
  }

  lemma PatchKeepsTermsExactly(l: Lease, p: Patch, allowed: set<Field>)
    ensures SameLegalTerms(l, Patched(l, p, allowed)) <==> RepeatsLegalTerms(l, p, allowed)
  {
    forall f {
      PatchedColumn(l, p, allowed, f);
    }
  }

  lemma UpdateKeepsTermsExactly(s: Estate, updated: Id, p: Patch, allowed: set<Field>, id: Id)
    requires updated in s.leases && id in s.leases
    ensures id in UpdateStep(s, updated, p, allowed).leases
    ensures SameLegalTerms(s.leases[id], UpdateStep(s, updated, p, allowed).leases[id])
       <==> (updated == id ==> RepeatsLegalTerms(s.leases[id], p, allowed))
  {
    PatchKeepsTermsExactly(s.leases[updated], p, allowed);
  }

  /** The lock: what is accepted for an active registered contract names no legal term. */
  lemma LockedPatchRepeats(s: Estate, id: Id, p: Patch)
    requires UpdateContractStep(s, id, p).Success? && s.leases[id].status == Active && s.leases[id].HasIjari()
    ensures RepeatsLegalTerms(s.leases[id], p, CONTRACT_COLUMNS)
  {
    assert !TouchesLegalTerms(p);
  }

  // ------------------------------------------------------------ every other operation

  lemma SettlementColumnsAreNotLegal(f: Field)
    requires f in LEGAL_COLUMNS
    ensures f !in MOVE_OUT_COLUMNS && f !in {ActualMoveOutDate, TotalDeductions, NetRefund}
  {
  }

  lemma SettlementKeepsTerms(l: Lease, form: MoveOutForm)
    ensures SameLegalTerms(l, Settled(l, form))
  {
    forall f | f in LEGAL_COLUMNS
      ensures Normal(l.columns, f) == Normal(Settled(l, form).columns, f)
    {
      SettlementColumnsAreNotLegal(f);
      SettlementWritesTheForm(l, form, f);
    }
  }

  lemma MoveOutKeepsTerms(s: Estate, moved: Id, form: MoveOutForm, id: Id)
    requires moved in s.leases && s.leases[moved].occupancy.Some? && id in s.leases
    ensures id in MovedOutStep(s, moved, form).leases && SameLegalTerms(s.leases[id], MovedOutStep(s, moved, form).leases[id])
  {
    SettlementKeepsTerms(s.leases[moved], form);
  }

  lemma CancelKeepsTerms(s: Estate, cancelled: Id, now: Time, id: Id)
    requires id in s.leases && CancelStep(s, cancelled, now).Success?
    ensures id in CancelStep(s, cancelled, now).value.leases
    ensures SameLegalTerms(s.leases[id], CancelStep(s, cancelled, now).value.leases[id])
  {
    if s.leases[cancelled].status == Active && s.leases[cancelled].occupancy.Some? {
      MoveOutKeepsTerms(s, cancelled, MoveOutForm(now, map[], None, None), id);
    }
  }

  lemma LeavingKeepsTerms(s: Estate, left: Id, k: nat, id: Id)
    requires left in s.leases && s.leases[left].occupancy.Some? && k < |s.moveOuts| && id in s.leases
    ensures id in LeftByRequest(s, left, k).leases && SameLegalTerms(s.leases[id], LeftByRequest(s, left, k).leases[id])
  {
    MoveOutKeepsTerms(s, left, MoveOutForm(s.moveOuts[k].moveAt, map[], None, None), id);
  }

  lemma EndingsKeepTerms(s: Estate, op: Op, id: Id)
    requires id in s.leases && Step(s, op).Success? && (op.CancelContract? || op.MoveOut? || op.ExecuteMoveOut?)
    ensures id in Step(s, op).value.leases && SameLegalTerms(s.leases[id], Step(s, op).value.leases[id])
  {
    match op {
      case CancelContract(l, now) => CancelKeepsTerms(s, l, now, id);
      case MoveOut(l, _, form) => MoveOutKeepsTerms(s, l, form, id);
      case ExecuteMoveOut(l, _) => LeavingKeepsTerms(s, l, FirstApproved(s.moveOuts, l).value, id);
    }
  }

  lemma NothingElseTouchesTerms(s: Estate, op: Op, id: Id)
    requires id in s.leases && Step(s, op).Success?
    requires !op.UpdateContract? && !op.UpdateLease? && !op.CancelContract? && !op.MoveOut? && !op.ExecuteMoveOut?
    ensures id in Step(s, op).value.leases && SameLegalTerms(s.leases[id], Step(s, op).value.leases[id])
  {
  }

  /** A step of any operation keeps the legal terms of a registered contract exactly when
      it is no update that gives one of them another value: of the lease, at any time, or
      of the contract while it is not ACTIVE. */
  lemma StepKeepsLegalTermsExactly(s: Estate, op: Op, id: Id)
    requires id in s.leases && s.leases[id].HasIjari() && Step(s, op).Success?
    ensures id in Step(s, op).value.leases
    ensures SameLegalTerms(s.leases[id], Step(s, op).value.leases[id]) <==> !Rewrites(s, op, id)
  {
    if op.UpdateContract? {
      UpdateKeepsTermsExactly(s, op.id, op.patch, CONTRACT_COLUMNS, id);
      if op.id == id && s.leases[id].status == Active {
        LockedPatchRepeats(s, id, op.patch);
      }
    } else if op.UpdateLease? {
      UpdateKeepsTermsExactly(s, op.id, op.patch, LEASE_COLUMNS, id);
    } else if op.CancelContract? || op.MoveOut? || op.ExecuteMoveOut? {
      EndingsKeepTerms(s, op, id);
    } else {
      NothingElseTouchesTerms(s, op, id);
    }
  }

  // ------------------------------------------------------------------- over all runs

  /** No step of the run rewrites the terms of the contract. */
  ghost predicate RewriteFree(s: Estate, ops: seq<Op>, id: Id)
    requires id in s.leases
    decreases ops
  {
    ops == [] ||
    var r := Step(s, ops[0]);
    if r.Success? then !Rewrites(s, ops[0], id) && id in r.value.leases && RewriteFree(r.value, ops[1..], id)
    else RewriteFree(s, ops[1..], id)
  }

  /** The Ejari number is a legal term, so a contract that keeps its terms stays registered. */
  lemma SameTermsStayRegistered(a: Lease, b: Lease)
    requires SameLegalTerms(a, b) && a.HasIjari()
    ensures b.HasIjari()
  {
    assert Normal(a.columns, IjariId) == Normal(b.columns, IjariId);
  }

  /** Over every run without such an update a registered contract stays registered under
      the same legal terms. */
  lemma {:induction false} RewriteFreeRunsKeepTerms(s: Estate, ops: seq<Op>, id: Id)
    requires id in s.leases && s.leases[id].HasIjari() && RewriteFree(s, ops, id)
    ensures id in Run(s, ops).leases && SameLegalTerms(s.leases[id], Run(s, ops).leases[id]) && Run(s, ops).leases[id].HasIjari()
    decreases ops
  {
    if ops != [] {
      var r := Step(s, ops[0]);
      if r.Success? {
        StepKeepsLegalTermsExactly(s, ops[0], id);
        SameTermsStayRegistered(s.leases[id], r.value.leases[id]);
        RewriteFreeRunsKeepTerms(r.value, ops[1..], id);
      } else {
        RewriteFreeRunsKeepTerms(s, ops[1..], id);
      }
    }
  }

  // ------------------------------------------------------------ around the lock

  lemma UpdateIsAccepted(s: Estate, id: Id, p: Patch)
    requires id in s.leases && s.leases[id].status != Active && p.startAt.None? && p.endAt.None?
    ensures UpdateContractStep(s, id, p) == Success(UpdateStep(s, id, p, CONTRACT_COLUMNS))
  {
  }

  lemma CancelWithoutAStay(s: Estate, op: Op)
    requires op.CancelContract? && op.id in s.leases && s.leases[op.id].status != Ended && s.leases[op.id].occupancy.None?
    ensures Step(s, op).Success?
    ensures Step(s, op).value.leases == s.leases[op.id := s.leases[op.id].(status := Cancelled)]
  {
  }

  lemma UpdateWhileCancelled(s: Estate, op: Op)
    requires op.UpdateContract? && op.id in s.leases && s.leases[op.id].status == Cancelled
    requires op.patch.startAt.None? && op.patch.endAt.None?
    ensures Step(s, op).Success?
    ensures Step(s, op).value.leases == s.leases[op.id := Patched(s.leases[op.id], op.patch, CONTRACT_COLUMNS)]
  {
    UpdateIsAccepted(s, op.id, op.patch);
  }

  lemma PatchKeepsRegistration(l: Lease, p: Patch)
    requires l.HasIjari() && IjariId !in p.columns
    ensures Patched(l, p, CONTRACT_COLUMNS).HasIjari()
  {
    PatchedColumn(l, p, CONTRACT_COLUMNS, IjariId);
  }

  /** Cancelled, updated and activated again: the contract is active and registered as
      before, under other legal terms. */
  lemma CancelUpdateActivateRewrites(s: Estate, cancel: Op, update: Op)
    requires cancel.CancelContract? && update.UpdateContract? && update.id == cancel.id && cancel.id in s.leases
    requires s.leases[cancel.id].status == Active && s.leases[cancel.id].HasIjari() && s.leases[cancel.id].occupancy.None?
    requires update.patch.startAt.None? && update.patch.endAt.None? && IjariId !in update.patch.columns
    requires !RepeatsLegalTerms(s.leases[cancel.id], update.patch, CONTRACT_COLUMNS)
    ensures var t := Run(s, [cancel, update, ActivateContract(cancel.id)]);
            && cancel.id in t.leases && t.leases[cancel.id].status == Active && t.leases[cancel.id].HasIjari()
            && !SameLegalTerms(s.leases[cancel.id], t.leases[cancel.id])
  {
    var id, ops := cancel.id, [cancel, update, ActivateContract(cancel.id)];
    CancelWithoutAStay(s, cancel);
    var s1 := Step(s, cancel).value;
    UpdateWhileCancelled(s1, update);
    var s2 := Step(s1, update).value;
    ActivationIsAccepted(s2, id);
    var s3 := Step(s2, ActivateContract(id)).value;
    RunOne(s, ops);
    RunOne(s1, ops[1..]);
    RunOne(s2, ops[2..]);
    PatchKeepsTermsExactly(s.leases[id], update.patch, CONTRACT_COLUMNS);
    PatchKeepsRegistration(s.leases[id], update.patch);
    assert s3.leases[id] == Patched(s.leases[id], update.patch, CONTRACT_COLUMNS);
  }

  /** A contract with a valid period takes any rent through updateLease, locked or not. */
  lemma LeaseUpdateRewrites(s: Estate, op: Op)
    requires op.UpdateLease? && op.id in s.leases && s.leases[op.id].startAt < s.leases[op.id].endAt
    requires op.patch.startAt.None? && op.patch.endAt.None?
    requires AnnualRent in op.patch.columns && Normal(op.patch.columns, AnnualRent) != Normal(s.leases[op.id].columns, AnnualRent)
    ensures Step(s, op).Success? && op.id in Step(s, op).value.leases
    ensures !SameLegalTerms(s.leases[op.id], Step(s, op).value.leases[op.id])
  {
    assert AnnualRent in Only(op.patch.columns, LEASE_COLUMNS);
    PatchKeepsTermsExactly(s.leases[op.id], op.patch, LEASE_COLUMNS);
  }

  predicate RegistersRent(op: Op) {
    Draftable(op) && IjariId in op.terms && op.terms[IjariId].Text? && op.terms[IjariId].text != "" && AnnualRent in op.terms
  }

  lemma DraftIsRegistered(op: Op)
    requires RegistersRent(op)
    ensures Drafted(op).HasIjari() && Normal(Drafted(op).columns, AnnualRent) == Normal(op.terms, AnnualRent)
  {
    assert IjariId in Drafted(op).columns && Drafted(op).columns[IjariId] == op.terms[IjariId];
    SameColumn(Drafted(op).columns, op.terms, AnnualRent);
  }

  /** Both ways lead from the empty tables to an active registered contract whose rent is
      not the one it was activated with. */
  lemma TheLockIsBypassedFromEmpty(draft: Op, cancel: Op, update: Op, rent: Raw)
    requires RegistersRent(draft) && Normal(map[AnnualRent := rent], AnnualRent) != Normal(draft.terms, AnnualRent)
    requires cancel.CancelContract? && cancel.id == draft.id
    requires (update.UpdateContract? || update.UpdateLease?) && update.id == draft.id && update.patch == Patch(None, None, map[AnnualRent := rent])
    ensures var s := Run(EMPTY, [draft, ActivateContract(draft.id)]);
            var t := Run(s, if update.UpdateLease? then [update] else [cancel, update, ActivateContract(draft.id)]);
            && draft.id in s.leases && s.leases[draft.id].status == Active && s.leases[draft.id].HasIjari()
            && draft.id in t.leases && t.leases[draft.id].status == Active
            && !SameLegalTerms(s.leases[draft.id], t.leases[draft.id])
  {
    var id, ops := draft.id, [draft, ActivateContract(draft.id)];
    DraftIsAccepted(EMPTY, draft);
    var s1 := Step(EMPTY, draft).value;
    ActivationIsAccepted(s1, id);
    RunOne(EMPTY, ops);
    RunOne(s1, ops[1..]);
    var s := Run(EMPTY, ops);
    assert s.leases[id] == Drafted(draft).(status := Active);
    DraftIsRegistered(draft);
    if update.UpdateLease? {
      LeaseUpdateRewrites(s, update);
      RunOneOnly(s, update);
    } else {
      assert AnnualRent in update.patch.columns && AnnualRent in LEGAL_COLUMNS && AnnualRent in CONTRACT_COLUMNS;
      CancelUpdateActivateRewrites(s, cancel, update);
    }
  }
}
