/** The repository's transactions and the services above them (auth.repo.ts,
    auth-password-delivery.service.ts, auth.service.ts), proved to take the steps of
    PasswordTokens and nothing else. */
module PasswordService {
  import opened Wrappers
  import opened PasswordTokens
  import D = DeliveryTasks

  /** What a password e-mail task carries, the user and organisation it is filed under included. */
  datatype Payload = Payload(
    userId: Option<Id>,
    orgId: Option<Id>,
    email: string,
    expiresAt: Time,
    purpose: Purpose,
    issuedByUserId: Option<Id>,
    tokenHash: Hash,
    residentInviteTokenHash: Option<Hash>)

  datatype RetryError = NoUserReference | UserNotFound | UserInactive

  /** How one delivery goes: whether the e-mail is accepted, whether marking it SUCCEEDED
      then is, and the complaint if either is not. */
  datatype Delivery = Delivery(sent: bool, marked: bool, error: string)

  const EMAIL_ATTEMPTS: nat := 5

  function Attempted(t: D.Task, d: Delivery, now: Time): D.Task {
    if t.kind != D.PasswordEmail || t.Done() then t
    else
      var started := D.Started(t, now);
      if d.sent && d.marked then D.Delivered(started, now)
      else if started.attempts >= started.maxAttempts then D.GivenUp(started, d.error, now)
      else D.Scheduled(started, d.error)
  }

  /** Giving up the last attempt also gives up the invite that the e-mail carried. */
  function AttemptSteps(t: D.Task, p: Payload, d: Delivery, now: Time): seq<Op> {
    if Attempted(t, d, now).status == D.Failed && !t.Done() && t.kind == D.PasswordEmail && p.residentInviteTokenHash.Some?
    then [FailInvite(p.residentInviteTokenHash.value, d.error, now)]
    else []
  }

  /** The steps that put a new token, and for a resident a new invite, in place. */
  function IssueSteps(userId: Id, user: User, orgId: Option<Id>, hash: Hash, expiresAt: Time, purpose: Purpose, issuedBy: Option<Id>): seq<Op> {
    [IssueToken(userId, hash, expiresAt, purpose)]
    + if purpose == ResidentInvite && orgId.Some? then [SendInvite(hash, orgId.value, userId, issuedBy, user.email, expiresAt)] else []
  }

  function NewPayload(userId: Id, user: User, orgId: Option<Id>, hash: Hash, expiresAt: Time, purpose: Purpose, issuedBy: Option<Id>): Payload {
    Payload(Some(userId), orgId, user.email, expiresAt, purpose, issuedBy, hash, if purpose == ResidentInvite then Some(hash) else None)
  }

  lemma RunOne(w: World, op: Op)
    ensures Run(w, [op]) == Do(w, op)
  {
    assert [op][1..] == [];
  }

  lemma {:induction false} RunAppend(w: World, a: seq<Op>, b: seq<Op>)
    ensures Run(w, a + b) == Run(Run(w, a), b)
    decreases |a|
  {
    if a == [] {
      assert a + b == b;
    } else {
      assert (a + b)[1..] == a[1..] + b;
      RunAppend(Do(w, a[0]), a[1..], b);
    }
  }

  lemma ActivatedUpTo(was: seq<Grant>, pending: seq<nat>, k: nat, now: Time, userId: Id)
    requires k < |pending| && Ascending(pending, |was|)
    ensures var before := ActivateOwners(was, pending[..k], now);
            var g := pending[k];
            && ActivateOwners(was, pending[..k + 1], now) == before[g := OwnerActivated(before[g], now)]
            && AuditsOf(was, pending[..k + 1], now) == AuditsOf(was, pending[..k], now) + [AuditOf(before, g, now)]
            && NoticesOf(was, pending[..k + 1], userId) == NoticesOf(was, pending[..k], userId) + [NoticeOf(before, g, userId)]
  {
    assert pending[..k + 1][..k] == pending[..k];
    ActivatedAt(was, pending[..k], now, pending[k]);
    assert pending[k] !in pending[..k];
  }

  class PasswordTables {
    var users: map<Id, User>
    var tokens: map<Hash, Token>
    var invites: map<Hash, Invite>
    var ownerGrants: seq<Grant>
    var providerGrants: seq<Grant>
    var grantAudits: seq<GrantAudit>
    var notifications: seq<Notification>
    var tasks: D.DeliveryTasksRepo
    var payloads: map<D.Id, Payload>
    ghost var events: seq<Event>

    constructor (users: map<Id, User>, ownerGrants: seq<Grant>, providerGrants: seq<Grant>)
      ensures Tables() == World(users, map[], map[], ownerGrants, providerGrants, [], [], [])
      ensures PasswordTokens.Fresh(Tables()) && Valid() && fresh(tasks)
    {
      this.users, this.ownerGrants, this.providerGrants := users, ownerGrants, providerGrants;
      tokens, invites, grantAudits, notifications, payloads, events := map[], map[], [], [], map[], [];
      tasks := new D.DeliveryTasksRepo();
    }

    ghost function Tables(): World
      reads this
    {
      World(users, tokens, invites, ownerGrants, providerGrants, grantAudits, notifications, events)
    }

    ghost predicate Valid()
      reads this, tasks
    {
      forall id :: id in tasks.store && tasks.store[id].kind == D.PasswordEmail ==> id in payloads
    }

    // ------------------------------------------------------------- transactions

    method CreatePasswordResetToken(userId: Id, hash: Hash, expiresAt: Time, purpose: Purpose) returns (ok: bool)
      modifies this`tokens, this`events
      ensures Tables() == Do(old(Tables()), IssueToken(userId, hash, expiresAt, purpose))
      ensures ok == Issuable(old(Tables()), userId, hash)
    {
      var remaining := tokens - TokensOf(tokens, userId);
      if userId !in users || hash in remaining {
        return false;
      }
      tokens := remaining[hash := Token(userId, purpose, expiresAt, None)];
      events := events + [Issued(userId, hash)];
      ok := true;
    }

    method CreateResidentInvite(hash: Hash, orgId: Id, userId: Id, createdByUserId: Option<Id>, email: string, expiresAt: Time)
      modifies this`invites, this`events
      ensures Tables() == Do(old(Tables()), SendInvite(hash, orgId, userId, createdByUserId, email, expiresAt))
    {
      if userId in users && hash !in invites {
        invites := invites[hash := Invite(orgId, userId, createdByUserId, email, expiresAt, Sent, None, None, None)];
        events := events + [InviteSent(hash)];
      }
    }

    method MarkResidentInviteFailed(hash: Hash, reason: string, now: Time)
      modifies this`invites, this`events
      ensures Tables() == Do(old(Tables()), FailInvite(hash, reason, now))
    {
      if hash in invites && invites[hash].status == Sent {
        invites := invites[hash := invites[hash].(status := Failed, failedAt := Some(now), failureReason := Some(Sliced(reason)))];
        events := events + [InviteLeftSent(hash)];
      }
    }

    method AcceptResidentInvite(hash: Hash, now: Time)
      modifies this`invites
      ensures invites == AfterAccept(old(invites), hash, now)
    {
      if hash in invites && invites[hash].status == Sent {
        invites := invites[hash := invites[hash].(status := Accepted, acceptedAt := Some(now), failedAt := None, failureReason := None)];
      }
    }

    method ActivateOwnerGrant(g: nat, userId: Id, now: Time)
      requires g < |ownerGrants|
      modifies this`ownerGrants, this`grantAudits, this`notifications
      ensures ownerGrants == old(ownerGrants)[g := OwnerActivated(old(ownerGrants)[g], now)]
      ensures grantAudits == old(grantAudits) + [AuditOf(old(ownerGrants), g, now)]
      ensures notifications == old(notifications) + [NoticeOf(old(ownerGrants), g, userId)]
    {
      var grant := ownerGrants[g];
      var verification := if grant.verificationMethod.Some? then grant.verificationMethod else Some("OWNER_INVITE");
      var updated := grant.(status := Active, acceptedAt := Some(now), invitedAt := None, inviteEmail := None, disabledAt := None,
                            disabledByUserId := None, verificationMethod := verification);
      ownerGrants := ownerGrants[g := updated];
      grantAudits := grantAudits + [GrantAudit(g, updated.ownerId, Pending, Active, updated.userId, grant.inviteEmail, updated.verificationMethod)];
      notifications := notifications + [OwnerAccessGranted(grant.ownerOrgId, userId, grant.ownerId, g)];
    }

    /** The grants found, one by one: grant, audit row, notification. */
    method ActivateOwnerGrants(pending: seq<nat>, userId: Id, now: Time)
      requires Ascending(pending, |ownerGrants|)
      modifies this`ownerGrants, this`grantAudits, this`notifications
      ensures ownerGrants == ActivateOwners(old(ownerGrants), pending, now)
      ensures grantAudits == old(grantAudits) + AuditsOf(old(ownerGrants), pending, now)
      ensures notifications == old(notifications) + NoticesOf(old(ownerGrants), pending, userId)
    {
      ghost var was := ownerGrants;
      for k := 0 to |pending|
        invariant ownerGrants == ActivateOwners(was, pending[..k], now)
        invariant grantAudits == old(grantAudits) + AuditsOf(was, pending[..k], now)
        invariant notifications == old(notifications) + NoticesOf(was, pending[..k], userId)
      {
        ActivatedUpTo(was, pending, k, now, userId);
        ActivateOwnerGrant(pending[k], userId, now);
      }
      assert pending[..|pending|] == pending;
    }

    method ResetPasswordByToken(hash: Hash, passwordHash: string, now: Time) returns (changed: bool)
      modifies this
      ensures Tables() == Do(old(Tables()), ResetByToken(hash, passwordHash, now))
      ensures changed == Usable(old(Tables()), hash, now)
      ensures tasks == old(tasks) && payloads == old(payloads)
    {
      if hash !in tokens || tokens[hash].usedAt.Some? || tokens[hash].expiresAt <= now
         || tokens[hash].userId !in users || !users[tokens[hash].userId].active
      {
        return false;
      }
      UseToken(hash, passwordHash, now);
      changed := true;
    }

    /** What the purpose of the token opens: the invite, the owner grants, the provider grants. */
    method OpenAccess(token: Token, hash: Hash, now: Time)
      modifies this`invites, this`ownerGrants, this`providerGrants, this`grantAudits, this`notifications
      ensures invites == if token.purpose == ResidentInvite then AfterAccept(old(invites), hash, now) else old(invites)
      ensures var pending := GrantsToActivate(old(ownerGrants), token);
              && ownerGrants == ActivateOwners(old(ownerGrants), pending, now)
              && grantAudits == old(grantAudits) + AuditsOf(old(ownerGrants), pending, now)
              && notifications == old(notifications) + NoticesOf(old(ownerGrants), pending, token.userId)
      ensures providerGrants == if token.purpose == ProviderInvite then ActivateProviders(old(providerGrants), token.userId, now) else old(providerGrants)
    {
      if token.purpose == ResidentInvite {
        AcceptResidentInvite(hash, now);
      }
      var pendingOwnerGrants := GrantsToActivate(ownerGrants, token);
      ActivateOwnerGrants(pendingOwnerGrants, token.userId, now);
      if token.purpose == ProviderInvite {
        providerGrants := ActivateProviders(providerGrants, token.userId, now);
      }
    }

    /** The transaction's writes, once the token has been found to work. */
    method UseToken(hash: Hash, passwordHash: string, now: Time)
      requires Usable(Tables(), hash, now)
      modifies this
      ensures Tables() == AfterReset(old(Tables()), hash, passwordHash, now)
      ensures tasks == old(tasks) && payloads == old(payloads)
    {
      events := events + ResetEvents(Tables(), hash);
      var token := tokens[hash];
      users := users[token.userId := users[token.userId].(passwordHash := passwordHash, mustChangePassword := false, refreshTokenHash := None)];
      tokens := tokens[hash := token.(usedAt := Some(now))];
      OpenAccess(token, hash, now);
      tokens := tokens - (TokensOf(tokens, token.userId) - {hash});
    }

    // ------------------------------------------------------------------ services

    /** processTask: one attempt at a password e-mail. */
    method ProcessTask(id: D.Id, d: Delivery, now: Time)
      requires Valid()
      modifies this`invites, this`events, tasks
      ensures Valid()
      ensures id !in old(tasks.store) ==> tasks.store == old(tasks.store) && Tables() == old(Tables())
      ensures id in old(tasks.store) ==>
                && tasks.store == old(tasks.store)[id := Attempted(old(tasks.store)[id], d, now)]
                && (id in payloads ==> Tables() == Run(old(Tables()), AttemptSteps(old(tasks.store)[id], payloads[id], d, now)))
                && (id !in payloads ==> Tables() == old(Tables()))
    {
      var task := tasks.FindById(id);
      if task.None? || task.value.kind != D.PasswordEmail || task.value.status == D.Succeeded || task.value.status == D.Retried {
        return;
      }
      var processing := tasks.MarkProcessing(id, now);
      var payload := payloads[id];
      if d.sent && d.marked {
        var _ := tasks.MarkSucceeded(id, now);
      } else {
        var exhausted := processing.value.attempts >= processing.value.maxAttempts;
        if exhausted {
          var _ := tasks.MarkFailed(id, d.error, now);
        } else {
          var _ := tasks.MarkRetryScheduled(id, d.error);
        }
        if exhausted && payload.residentInviteTokenHash.Some? {
          RunOne(Tables(), FailInvite(payload.residentInviteTokenHash.value, d.error, now));
          MarkResidentInviteFailed(payload.residentInviteTokenHash.value, d.error, now);
        }
      }
    }

    /** createAndDispatchTask: a delivery task is created, then queued, or else attempted at once. */
    method CreateAndDispatchTask(id: D.Id, payload: Payload, maxAttempts: nat, queued: bool, d: Delivery, now: Time)
      requires Valid() && id !in tasks.store  // a fresh random identifier
      modifies this`payloads, this`invites, this`events, tasks
      ensures Valid()
      ensures payloads == old(payloads)[id := payload]
      ensures var task := D.NewTask(D.PasswordEmail, [], Some(maxAttempts), now);
              && tasks.store == old(tasks.store)[id := if queued then task else Attempted(task, d, now)]
              && Tables() == Run(old(Tables()), if queued then [] else AttemptSteps(task, payload, d, now))
    {
      var _ := tasks.Create(id, D.PasswordEmail, [], Some(maxAttempts), now);
      payloads := payloads[id := payload];
      if !queued {
        ProcessTask(id, d, now);
      }
    }

    /** requestPasswordReset, for the user the address belongs to, if any. The answer does
        not tell whether there was one. */
    method RequestPasswordReset(found: Option<Id>, hash: Hash, expiresAt: Time, purpose: Purpose, issuedBy: Option<Id>,
                                id: D.Id, queued: bool, d: Delivery, now: Time)
      returns (success: bool)
      requires Valid()
      requires found.Some? ==> found.value in users
      requires hash !in tokens && id !in tasks.store  // both drawn at random
      modifies this, tasks
      ensures Valid() && tasks == old(tasks)
      ensures success
      ensures found.None? || !old(users)[found.value].active ==> Tables() == old(Tables()) && tasks.store == old(tasks.store)
      ensures found.Some? && old(users)[found.value].active ==>
                var user := old(users)[found.value];
                var task := D.NewTask(D.PasswordEmail, [], Some(EMAIL_ATTEMPTS), now);
                && payloads == old(payloads)[id := NewPayload(found.value, user, user.orgId, hash, expiresAt, purpose, issuedBy)]
                && tasks.store == old(tasks.store)[id := if queued then task else Attempted(task, d, now)]
                && Tables() == Run(old(Tables()),
                                   IssueSteps(found.value, user, user.orgId, hash, expiresAt, purpose, issuedBy)
                                   + if queued then [] else AttemptSteps(task, payloads[id], d, now))
    {
      if found.None? || !users[found.value].active {
        return true;
      }
      var userId, user := found.value, users[found.value];
      Reissue(userId, user, user.orgId, hash, expiresAt, purpose, issuedBy, id, EMAIL_ATTEMPTS, queued, d, now);
      success := true;
    }

    /** What requesting and retrying share: token, invite, task. */
    method Reissue(userId: Id, user: User, orgId: Option<Id>, hash: Hash, expiresAt: Time, purpose: Purpose, issuedBy: Option<Id>,
                   id: D.Id, maxAttempts: nat, queued: bool, d: Delivery, now: Time)
      requires Valid() && userId in users && users[userId] == user
      requires hash !in tokens && id !in tasks.store
      modifies this`tokens, this`payloads, this`invites, this`events, tasks
      ensures Valid()
      ensures payloads == old(payloads)[id := NewPayload(userId, user, orgId, hash, expiresAt, purpose, issuedBy)]
      ensures var task := D.NewTask(D.PasswordEmail, [], Some(maxAttempts), now);
              && tasks.store == old(tasks.store)[id := if queued then task else Attempted(task, d, now)]
              && Tables() == Run(old(Tables()),
                                 IssueSteps(userId, user, orgId, hash, expiresAt, purpose, issuedBy)
                                 + if queued then [] else AttemptSteps(task, payloads[id], d, now))
    {
      ghost var before := Tables();
      ghost var issue := IssueToken(userId, hash, expiresAt, purpose);
      RunOne(before, issue);
      var _ := CreatePasswordResetToken(userId, hash, expiresAt, purpose);
      if purpose == ResidentInvite && orgId.Some? {
        ghost var send := SendInvite(hash, orgId.value, userId, issuedBy, user.email, expiresAt);
        RunOne(Tables(), send);
        RunAppend(before, [issue], [send]);
        CreateResidentInvite(hash, orgId.value, userId, issuedBy, user.email, expiresAt);
      }
      ghost var steps := IssueSteps(userId, user, orgId, hash, expiresAt, purpose, issuedBy);
      assert Tables() == Run(before, steps) by {
        assert [issue] + [] == [issue];
      }
      var payload := NewPayload(userId, user, orgId, hash, expiresAt, purpose, issuedBy);
      ghost var task := D.NewTask(D.PasswordEmail, [], Some(maxAttempts), now);
      RunAppend(before, steps, if queued then [] else AttemptSteps(task, payload, d, now));
      CreateAndDispatchTask(id, payload, maxAttempts, queued, d, now);
    }

    /** retryTask: a new token and a new task take over from the ones of the failed e-mail. */
    method RetryTask(id: D.Id, newId: D.Id, hash: Hash, expiresAt: Time, queued: bool, d: Delivery, now: Time)
      returns (r: Result<D.Id, RetryError>)
      requires Valid() && id in tasks.store && tasks.store[id].kind == D.PasswordEmail
      requires hash !in tokens && newId !in tasks.store  // both drawn at random
      modifies this`tokens, this`payloads, this`invites, this`events, tasks
      ensures Valid()
      ensures var p := old(payloads)[id];
              r == if p.userId.None? then Failure(NoUserReference)
                   else if p.userId.value !in users then Failure(UserNotFound)
                   else if !users[p.userId.value].active then Failure(UserInactive)
                   else Success(newId)
      ensures r.Failure? ==> Tables() == old(Tables()) && tasks.store == old(tasks.store) && payloads == old(payloads)
      ensures r.Success? ==>
                var p := old(payloads)[id];
                var user := users[p.userId.value];
                var task := D.NewTask(D.PasswordEmail, [], Some(old(tasks.store)[id].maxAttempts), now);
                && payloads == old(payloads)[newId := NewPayload(p.userId.value, user, p.orgId, hash, expiresAt, p.purpose, p.issuedByUserId)]
                && tasks.store == old(tasks.store)[newId := if queued then task else Attempted(task, d, now)]
                && Tables() == Run(old(Tables()),
                                   IssueSteps(p.userId.value, user, p.orgId, hash, expiresAt, p.purpose, p.issuedByUserId)
                                   + if queued then [] else AttemptSteps(task, payloads[newId], d, now))
    {
      var task := tasks.FindById(id);
      var payload := payloads[id];
      if payload.userId.None? {
        return Failure(NoUserReference);
      }
      var userId := payload.userId.value;
      if userId !in users {
        return Failure(UserNotFound);
      }
      if !users[userId].active {
        return Failure(UserInactive);
      }
      Reissue(userId, users[userId], payload.orgId, hash, expiresAt, payload.purpose, payload.issuedByUserId,
              newId, task.value.maxAttempts, queued, d, now);
      r := Success(newId);
    }
  }

  /** After a retry the link of the e-mail before it is dead, for good: no later moment of
      any run accepts its token, unless the very same token is issued again. */
  lemma RetryEndsTheEarlierLink(w: World, userId: Id, user: User, orgId: Option<Id>, earlier: Hash, hash: Hash, expiresAt: Time, purpose: Purpose,
                                issuedBy: Option<Id>, later: seq<Op>, now: Time)
    requires Good(w) && userId in w.users && hash !in w.tokens
    requires earlier in w.tokens && w.tokens[earlier].userId == userId
    requires forall k :: 0 <= k < |later| ==> !Issues(later[k], earlier)
    ensures !Usable(Run(w, IssueSteps(userId, user, orgId, hash, expiresAt, purpose, issuedBy) + later), earlier, now)
  {
    var all := IssueSteps(userId, user, orgId, hash, expiresAt, purpose, issuedBy) + later;
    IssueStartsTheSteps(userId, user, orgId, hash, expiresAt, purpose, issuedBy, later, earlier);
    IssueSpendsTheOthers(w, userId, hash, expiresAt, purpose, earlier);
    SpentStaysSpent(Do(w, all[0]), all[1..], earlier);
  }

  /** The first step is the issue, and no other issues the earlier token. */
  lemma IssueStartsTheSteps(userId: Id, user: User, orgId: Option<Id>, hash: Hash, expiresAt: Time, purpose: Purpose, issuedBy: Option<Id>,
                            later: seq<Op>, earlier: Hash)
    requires forall k :: 0 <= k < |later| ==> !Issues(later[k], earlier)
    ensures var all := IssueSteps(userId, user, orgId, hash, expiresAt, purpose, issuedBy) + later;
            && all != [] && all[0] == IssueToken(userId, hash, expiresAt, purpose)
            && forall k :: 0 <= k < |all[1..]| ==> !Issues(all[1..][k], earlier)
  {
    var steps := IssueSteps(userId, user, orgId, hash, expiresAt, purpose, issuedBy);
    assert (steps + later)[1..] == steps[1..] + later;
  }

  lemma IssueSpendsTheOthers(w: World, userId: Id, hash: Hash, expiresAt: Time, purpose: Purpose, earlier: Hash)
    requires userId in w.users && hash !in w.tokens && earlier in w.tokens && w.tokens[earlier].userId == userId
    ensures Spent(Do(w, IssueToken(userId, hash, expiresAt, purpose)), earlier)
  {
  }
}
