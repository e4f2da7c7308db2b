/** Reset tokens, resident invites and access grants (auth.repo.ts): the rows, the steps the
    repository takes on them, and what every run of those steps keeps. */
module PasswordTokens {
  import opened Wrappers

  type Id = nat
  type Hash = nat
  type Time = int

  datatype Purpose = PasswordReset | ResidentInvite | OwnerInvite | ProviderInvite

  datatype User = User(
    active: bool,
    orgId: Option<Id>,
    email: string,
    passwordHash: string,
    mustChangePassword: bool,
    refreshTokenHash: Option<string>)

  datatype Token = Token(userId: Id, purpose: Purpose, expiresAt: Time, usedAt: Option<Time>)

  datatype InviteStatus = Sent | Failed | Accepted

  datatype Invite = Invite(
    orgId: Id,
    userId: Id,
    createdByUserId: Option<Id>,
    email: string,
    expiresAt: Time,
    status: InviteStatus,
    acceptedAt: Option<Time>,
    failedAt: Option<Time>,
    failureReason: Option<string>)

  datatype GrantStatus = Pending | Active | Disabled

  datatype Grant = Grant(
    userId: Option<Id>,
    ownerId: Id,
    ownerOrgId: Id,
    status: GrantStatus,
    inviteEmail: Option<string>,
    invitedAt: Option<Time>,
    acceptedAt: Option<Time>,
    disabledAt: Option<Time>,
    disabledByUserId: Option<Id>,
    verificationMethod: Option<string>)

  datatype GrantAudit = GrantAudit(
    grant: nat,
    ownerId: Id,
    fromStatus: GrantStatus,
    toStatus: GrantStatus,
    userId: Option<Id>,
    inviteEmail: Option<string>,
    verificationMethod: Option<string>)

  datatype Notification = OwnerAccessGranted(orgId: Id, recipientUserId: Id, ownerId: Id, grant: nat)

  /** What happened so far; kept for the statements only. */
  datatype Event =
    | Issued(userId: Id, hash: Hash)
    | WasReset(userId: Id, hash: Hash)
    | InviteSent(hash: Hash)
    | InviteLeftSent(hash: Hash)

  /** The tables. Tokens and invites are found by their unique hash, grants by position. */
  datatype World = World(
    users: map<Id, User>,
    tokens: map<Hash, Token>,
    invites: map<Hash, Invite>,
    ownerGrants: seq<Grant>,
    providerGrants: seq<Grant>,
    grantAudits: seq<GrantAudit>,
    notifications: seq<Notification>,
    events: seq<Event>)

  datatype Op =
    | IssueToken(userId: Id, hash: Hash, expiresAt: Time, purpose: Purpose)
    | SendInvite(hash: Hash, orgId: Id, userId: Id, createdByUserId: Option<Id>, email: string, expiresAt: Time)
    | FailInvite(hash: Hash, reason: string, now: Time)
    | ResetByToken(hash: Hash, passwordHash: string, now: Time)
      /** Other services: users, grants and their records change freely, no user goes away. */
    | Elsewhere(users: map<Id, User>, ownerGrants: seq<Grant>, providerGrants: seq<Grant>,
                grantAudits: seq<GrantAudit>, notifications: seq<Notification>)

  const MAX_REASON_LENGTH := 1000

  function Sliced(reason: string): string {
    if |reason| > MAX_REASON_LENGTH then reason[..MAX_REASON_LENGTH] else reason
  }

  // -------------------------------------------------------------------- the steps

  function TokensOf(tokens: map<Hash, Token>, userId: Id): set<Hash> {
    set hash | hash in tokens && tokens[hash].userId == userId
  }

  predicate Issuable(w: World, userId: Id, hash: Hash) {
    userId in w.users && (hash in w.tokens ==> w.tokens[hash].userId == userId)
  }

  /** The tokens after a new one replaces all of the user's. */
  function AfterIssue(tokens: map<Hash, Token>, userId: Id, hash: Hash, expiresAt: Time, purpose: Purpose): map<Hash, Token> {
    (tokens - TokensOf(tokens, userId))[hash := Token(userId, purpose, expiresAt, None)]
  }

  predicate Usable(w: World, hash: Hash, now: Time) {
    && hash in w.tokens
    && w.tokens[hash].usedAt.None?
    && now < w.tokens[hash].expiresAt
    && w.tokens[hash].userId in w.users
    && w.users[w.tokens[hash].userId].active
  }

  /** The tokens after a reset: the one used is kept and marked, the user's others go. */
  function AfterUse(tokens: map<Hash, Token>, hash: Hash, now: Time): map<Hash, Token>
    requires hash in tokens
  {
    var used := tokens[hash := tokens[hash].(usedAt := Some(now))];
    used - (TokensOf(used, tokens[hash].userId) - {hash})
  }

  predicate Awaiting(invites: map<Hash, Invite>, hash: Hash) {
    hash in invites && invites[hash].status == Sent
  }

  function AfterAccept(invites: map<Hash, Invite>, hash: Hash, now: Time): map<Hash, Invite> {
    if Awaiting(invites, hash)
    then invites[hash := invites[hash].(status := Accepted, acceptedAt := Some(now), failedAt := None, failureReason := None)]
    else invites
  }

  predicate PendingFor(grant: Grant, userId: Id) {
    grant.userId == Some(userId) && grant.status == Pending
  }

  /** Positions below the bound, each once. */
  predicate Ascending(positions: seq<nat>, bound: nat) {
    && (forall k :: 0 <= k < |positions| ==> positions[k] < bound)
    && (forall i, j :: 0 <= i < j < |positions| ==> positions[i] < positions[j])
  }

  /** findMany: the positions of the user's pending grants. */
  function PendingGrants(grants: seq<Grant>, userId: Id): (r: seq<nat>)
    ensures Ascending(r, |grants|) && forall k :: 0 <= k < |r| ==> PendingFor(grants[r[k]], userId)
  {
    if grants == [] then []
    else
      var n := |grants| - 1;
      if PendingFor(grants[n], userId) then PendingGrants(grants[..n], userId) + [n] else PendingGrants(grants[..n], userId)
  }

  /** Only an owner's invite looks for owner grants. */
  function GrantsToActivate(grants: seq<Grant>, token: Token): (r: seq<nat>)
    ensures Ascending(r, |grants|)
  {
    if token.purpose == OwnerInvite then PendingGrants(grants, token.userId) else []
  }

  function OwnerActivated(grant: Grant, now: Time): Grant {
    grant.(status := Active, acceptedAt := Some(now), invitedAt := None, inviteEmail := None, disabledAt := None, disabledByUserId := None,
           verificationMethod := if grant.verificationMethod.Some? then grant.verificationMethod else Some("OWNER_INVITE"))
  }

  function ProviderActivated(grant: Grant, now: Time): Grant {
    grant.(status := Active, acceptedAt := Some(now), invitedAt := None, inviteEmail := None, disabledAt := None, disabledByUserId := None,
           verificationMethod := Some("PROVIDER_INVITE"))
  }

  /** The grants at the given positions, activated one after the other. */
  function ActivateOwners(grants: seq<Grant>, positions: seq<nat>, now: Time): (r: seq<Grant>)
    requires forall k :: 0 <= k < |positions| ==> positions[k] < |grants|
    ensures |r| == |grants|
  {
    if positions == [] then grants
    else
      var n := |positions| - 1;
      var before := ActivateOwners(grants, positions[..n], now);
      before[positions[n] := OwnerActivated(grants[positions[n]], now)]
  }

  function AuditOf(grants: seq<Grant>, g: nat, now: Time): GrantAudit
    requires g < |grants|
  {
    var updated := OwnerActivated(grants[g], now);
    GrantAudit(g, updated.ownerId, Pending, Active, updated.userId, grants[g].inviteEmail, updated.verificationMethod)
  }

  function AuditsOf(grants: seq<Grant>, positions: seq<nat>, now: Time): seq<GrantAudit>
    requires forall k :: 0 <= k < |positions| ==> positions[k] < |grants|
  {
    seq(|positions|, k requires 0 <= k < |positions| => AuditOf(grants, positions[k], now))
  }

  function NoticeOf(grants: seq<Grant>, g: nat, userId: Id): Notification
    requires g < |grants|
  {
    OwnerAccessGranted(grants[g].ownerOrgId, userId, grants[g].ownerId, g)
  }

  function NoticesOf(grants: seq<Grant>, positions: seq<nat>, userId: Id): seq<Notification>
    requires forall k :: 0 <= k < |positions| ==> positions[k] < |grants|
  {
    seq(|positions|, k requires 0 <= k < |positions| => NoticeOf(grants, positions[k], userId))
  }

  /** updateMany over the user's pending provider grants. */
  function ActivateProviders(grants: seq<Grant>, userId: Id, now: Time): (r: seq<Grant>)
    ensures |r| == |grants|
  {
    seq(|grants|, g requires 0 <= g < |grants| => if PendingFor(grants[g], userId) then ProviderActivated(grants[g], now) else grants[g])
  }

  function AfterReset(w: World, hash: Hash, passwordHash: string, now: Time): World
    requires Usable(w, hash, now)
  {
    var token := w.tokens[hash];
    var pending := GrantsToActivate(w.ownerGrants, token);
    w.(users := w.users[token.userId := w.users[token.userId].(passwordHash := passwordHash, mustChangePassword := false, refreshTokenHash := None)],
       tokens := AfterUse(w.tokens, hash, now),
       invites := if token.purpose == ResidentInvite then AfterAccept(w.invites, hash, now) else w.invites,
       ownerGrants := ActivateOwners(w.ownerGrants, pending, now),
       grantAudits := w.grantAudits + AuditsOf(w.ownerGrants, pending, now),
       notifications := w.notifications + NoticesOf(w.ownerGrants, pending, token.userId),
       providerGrants := if token.purpose == ProviderInvite then ActivateProviders(w.providerGrants, token.userId, now) else w.providerGrants,
       events := w.events + ResetEvents(w, hash))
  }

  function ResetEvents(w: World, hash: Hash): seq<Event>
    requires hash in w.tokens
  {
    var token := w.tokens[hash];
    if token.purpose == ResidentInvite && Awaiting(w.invites, hash)
    then [WasReset(token.userId, hash), InviteLeftSent(hash)]
    else [WasReset(token.userId, hash)]
  }

  /** One committed transaction; what violates a key changes nothing. */
  function Do(w: World, op: Op): World {
    match op
    case IssueToken(userId, hash, expiresAt, purpose) =>
      if Issuable(w, userId, hash)
      then w.(tokens := AfterIssue(w.tokens, userId, hash, expiresAt, purpose), events := w.events + [Issued(userId, hash)])
      else w
    case SendInvite(hash, orgId, userId, createdByUserId, email, expiresAt) =>
      if userId in w.users && hash !in w.invites
      then w.(invites := w.invites[hash := Invite(orgId, userId, createdByUserId, email, expiresAt, Sent, None, None, None)],
              events := w.events + [InviteSent(hash)])
      else w
    case FailInvite(hash, reason, now) =>
      if Awaiting(w.invites, hash)
      then w.(invites := w.invites[hash := w.invites[hash].(status := Failed, failedAt := Some(now), failureReason := Some(Sliced(reason)))],
              events := w.events + [InviteLeftSent(hash)])
      else w
    case ResetByToken(hash, passwordHash, now) =>
      if Usable(w, hash, now) then AfterReset(w, hash, passwordHash, now) else w
    case Elsewhere(users, ownerGrants, providerGrants, grantAudits, notifications) =>
      if w.users.Keys <= users.Keys
      then w.(users := users, ownerGrants := ownerGrants, providerGrants := providerGrants, grantAudits := grantAudits, notifications := notifications)
      else w
  }

  function Run(w: World, ops: seq<Op>): World
    decreases |ops|
  {
    if ops == [] then w else Run(Do(w, ops[0]), ops[1..])
  }

  // -------------------------------------------------------------- what a run keeps

  function Count(events: seq<Event>, event: Event): nat {
    if events == [] then 0
    else
      var n := |events| - 1;
      Count(events[..n], event) + if events[n] == event then 1 else 0
  }

  lemma CountOneMore(events: seq<Event>, next: Event, event: Event)
    ensures Count(events + [next], event) == Count(events, event) + if next == event then 1 else 0
  {
    assert (events + [next])[..|events|] == events;
  }

  /** The token issued last to the user. */
  function LastIssued(events: seq<Event>, userId: Id): Option<Hash> {
    if events == [] then None
    else
      var n := |events| - 1;
      if events[n].Issued? && events[n].userId == userId then Some(events[n].hash) else LastIssued(events[..n], userId)
  }

  lemma LastIssuedOneMore(events: seq<Event>, next: Event, userId: Id)
    ensures LastIssued(events + [next], userId)
         == if next.Issued? && next.userId == userId then Some(next.hash) else LastIssued(events, userId)
  {
    assert (events + [next])[..|events|] == events;
  }

  /** A stored token belongs to an existing user, and is the one issued to it last. */
  ghost predicate OnlyTheLatest(users: map<Id, User>, tokens: map<Hash, Token>, events: seq<Event>) {
    forall hash :: hash in tokens ==> tokens[hash].userId in users && LastIssued(events, tokens[hash].userId) == Some(hash)
  }

  function Unused(tokens: map<Hash, Token>, userId: Id, hash: Hash): nat {
    if hash in tokens && tokens[hash].userId == userId && tokens[hash].usedAt.None? then 1 else 0
  }

  /** Each issue pays for one reset. */
  ghost predicate ResetsArePaid(tokens: map<Hash, Token>, events: seq<Event>) {
    forall userId: Id, hash: Hash ::
      Count(events, WasReset(userId, hash)) + Unused(tokens, userId, hash) <= Count(events, Issued(userId, hash))
  }

  /** An invite row appears once, and records leaving SENT once. */
  ghost predicate InvitesAreCounted(invites: map<Hash, Invite>, events: seq<Event>) {
    forall hash: Hash ::
      && Count(events, InviteSent(hash)) == (if hash in invites then 1 else 0)
      && Count(events, InviteLeftSent(hash)) == (if hash in invites && invites[hash].status != Sent then 1 else 0)
  }

  ghost predicate InviteStamps(invites: map<Hash, Invite>, events: seq<Event>) {
    forall hash :: hash in invites ==>
                     && (invites[hash].acceptedAt.Some? <==> invites[hash].status == Accepted)
                     && (invites[hash].failedAt.Some? <==> invites[hash].status == Failed)
                     && (invites[hash].failureReason.Some? <==> invites[hash].status == Failed)
                     && (invites[hash].status == Accepted ==> exists userId :: WasReset(userId, hash) in events)
  }

  ghost predicate Good(w: World) {
    && OnlyTheLatest(w.users, w.tokens, w.events)
    && ResetsArePaid(w.tokens, w.events)
    && InvitesAreCounted(w.invites, w.events)
    && InviteStamps(w.invites, w.events)
  }

  lemma IssuedTokenIsTheLatest(users: map<Id, User>, tokens: map<Hash, Token>, events: seq<Event>, userId: Id, hash: Hash, expiresAt: Time, purpose: Purpose)
    requires OnlyTheLatest(users, tokens, events) && userId in users
    ensures OnlyTheLatest(users, AfterIssue(tokens, userId, hash, expiresAt, purpose), events + [Issued(userId, hash)])
  {
    forall u {
      LastIssuedOneMore(events, Issued(userId, hash), u);
    }
  }

  lemma IssuePaysForAReset(tokens: map<Hash, Token>, events: seq<Event>, userId: Id, hash: Hash, expiresAt: Time, purpose: Purpose)
    requires ResetsArePaid(tokens, events)
    ensures ResetsArePaid(AfterIssue(tokens, userId, hash, expiresAt, purpose), events + [Issued(userId, hash)])
  {
    var after, more := AfterIssue(tokens, userId, hash, expiresAt, purpose), events + [Issued(userId, hash)];
    forall u: Id, h: Hash
      ensures Count(more, WasReset(u, h)) + Unused(after, u, h) <= Count(more, Issued(u, h))
    {
      CountOneMore(events, Issued(userId, hash), WasReset(u, h));
      CountOneMore(events, Issued(userId, hash), Issued(u, h));
      assert Count(events, WasReset(u, h)) + Unused(tokens, u, h) <= Count(events, Issued(u, h));
    }
  }

  lemma IssueTouchesNoInvite(invites: map<Hash, Invite>, events: seq<Event>, userId: Id, hash: Hash)
    requires InvitesAreCounted(invites, events) && InviteStamps(invites, events)
    ensures InvitesAreCounted(invites, events + [Issued(userId, hash)]) && InviteStamps(invites, events + [Issued(userId, hash)])
  {
    var more := events + [Issued(userId, hash)];
    forall h: Hash
      ensures Count(more, InviteSent(h)) == Count(events, InviteSent(h)) && Count(more, InviteLeftSent(h)) == Count(events, InviteLeftSent(h))
    {
      CountOneMore(events, Issued(userId, hash), InviteSent(h));
      CountOneMore(events, Issued(userId, hash), InviteLeftSent(h));
    }
    assert forall e :: e in events ==> e in more;
  }

  lemma IssueKeeps(w: World, userId: Id, hash: Hash, expiresAt: Time, purpose: Purpose)
    requires Good(w)
    ensures Good(Do(w, IssueToken(userId, hash, expiresAt, purpose)))
  {
    if Issuable(w, userId, hash) {
      IssuedTokenIsTheLatest(w.users, w.tokens, w.events, userId, hash, expiresAt, purpose);
      IssuePaysForAReset(w.tokens, w.events, userId, hash, expiresAt, purpose);
      IssueTouchesNoInvite(w.invites, w.events, userId, hash);
    }
  }

  /** An event that is no issue leaves the latest tokens the latest. */
  lemma LogGrows(events: seq<Event>, event: Event)
    requires !event.Issued?
    ensures forall u :: LastIssued(events + [event], u) == LastIssued(events, u)
    ensures forall other :: Count(events + [event], other) == Count(events, other) + if event == other then 1 else 0
    ensures forall other :: other in events ==> other in events + [event]
  {
    forall u {
      LastIssuedOneMore(events, event, u);
    }
    forall other {
      CountOneMore(events, event, other);
    }
  }

  /** One invite row is written, for the first time or as it leaves SENT. */
  predicate Writes(invites: map<Hash, Invite>, hash: Hash, next: Invite, event: Event) {
    && next.acceptedAt.None?
    && (next.failedAt.Some? <==> next.status == Failed) && (next.failureReason.Some? <==> next.status == Failed)
    && (|| (event == InviteSent(hash) && hash !in invites && next.status == Sent)
        || (event == InviteLeftSent(hash) && Awaiting(invites, hash) && next.status == Failed))
  }

  lemma WrittenInviteIsCounted(invites: map<Hash, Invite>, events: seq<Event>, hash: Hash, next: Invite, event: Event)
    requires InvitesAreCounted(invites, events) && Writes(invites, hash, next, event)
    ensures InvitesAreCounted(invites[hash := next], events + [event])
  {
    var invites', events' := invites[hash := next], events + [event];
    forall h: Hash
      ensures Count(events', InviteSent(h)) == (if h in invites' then 1 else 0)
      ensures Count(events', InviteLeftSent(h)) == (if h in invites' && invites'[h].status != Sent then 1 else 0)
    {
      CountOneMore(events, event, InviteSent(h));
      CountOneMore(events, event, InviteLeftSent(h));
    }
  }

  lemma InviteWritten(w: World, hash: Hash, next: Invite, event: Event)
    requires Good(w) && Writes(w.invites, hash, next, event)
    ensures Good(w.(invites := w.invites[hash := next], events := w.events + [event]))
  {
    var invites, events := w.invites[hash := next], w.events + [event];
    WrittenInviteIsCounted(w.invites, w.events, hash, next, event);
    LogGrows(w.events, event);
    assert OnlyTheLatest(w.users, w.tokens, events);
    assert ResetsArePaid(w.tokens, events);
    assert InviteStamps(invites, events);
  }

  lemma SendInviteKeeps(w: World, op: Op)
    requires Good(w) && op.SendInvite?
    ensures Good(Do(w, op))
  {
    if op.userId in w.users && op.hash !in w.invites {
      var next := Invite(op.orgId, op.userId, op.createdByUserId, op.email, op.expiresAt, Sent, None, None, None);
      InviteWritten(w, op.hash, next, InviteSent(op.hash));
    }
  }

  lemma FailInviteKeeps(w: World, op: Op)
    requires Good(w) && op.FailInvite?
    ensures Good(Do(w, op))
  {
    if Awaiting(w.invites, op.hash) {
      var next := w.invites[op.hash].(status := Failed, failedAt := Some(op.now), failureReason := Some(Sliced(op.reason)));
      InviteWritten(w, op.hash, next, InviteLeftSent(op.hash));
    }
  }

  /** What a reset leaves of the tokens. */
  lemma TokensAfterUse(tokens: map<Hash, Token>, hash: Hash, now: Time)
    requires hash in tokens
    ensures var after := AfterUse(tokens, hash, now);
            && hash in after && after[hash] == tokens[hash].(usedAt := Some(now))
            && forall other :: other != hash ==>
                 && (other in after <==> (other in tokens && tokens[other].userId != tokens[hash].userId))
                 && (other in after ==> after[other] == tokens[other])
  {
  }

  lemma CountAfterReset(w: World, hash: Hash, e: Event)
    requires hash in w.tokens
    ensures var accepts := w.tokens[hash].purpose == ResidentInvite && Awaiting(w.invites, hash);
            Count(w.events + ResetEvents(w, hash), e)
            == Count(w.events, e)
               + (if e == WasReset(w.tokens[hash].userId, hash) || (accepts && e == InviteLeftSent(hash)) then 1 else 0)
  {
    var first := WasReset(w.tokens[hash].userId, hash);
    CountOneMore(w.events, first, e);
    CountOneMore(w.events + [first], InviteLeftSent(hash), e);
    assert w.events + [first] + [InviteLeftSent(hash)] == w.events + [first, InviteLeftSent(hash)];
  }

  lemma LatestAfterReset(w: World, hash: Hash, u: Id)
    requires hash in w.tokens
    ensures LastIssued(w.events + ResetEvents(w, hash), u) == LastIssued(w.events, u)
  {
    var first := WasReset(w.tokens[hash].userId, hash);
    LastIssuedOneMore(w.events, first, u);
    LastIssuedOneMore(w.events + [first], InviteLeftSent(hash), u);
    assert w.events + [first] + [InviteLeftSent(hash)] == w.events + [first, InviteLeftSent(hash)];
  }

  lemma ResetKeepsTokens(w: World, hash: Hash, now: Time)
    requires OnlyTheLatest(w.users, w.tokens, w.events) && ResetsArePaid(w.tokens, w.events)
    requires hash in w.tokens && w.tokens[hash].usedAt.None?
    ensures OnlyTheLatest(w.users, AfterUse(w.tokens, hash, now), w.events + ResetEvents(w, hash))
    ensures ResetsArePaid(AfterUse(w.tokens, hash, now), w.events + ResetEvents(w, hash))
  {
    TokensAfterUse(w.tokens, hash, now);
    forall u {
      LatestAfterReset(w, hash, u);
    }
    forall e {
      CountAfterReset(w, hash, e);
    }
  }

  lemma ResetKeepsInvites(w: World, hash: Hash, now: Time)
    requires InvitesAreCounted(w.invites, w.events) && hash in w.tokens
    ensures var invites := if w.tokens[hash].purpose == ResidentInvite then AfterAccept(w.invites, hash, now) else w.invites;
            InvitesAreCounted(invites, w.events + ResetEvents(w, hash))
  {
    var invites := if w.tokens[hash].purpose == ResidentInvite then AfterAccept(w.invites, hash, now) else w.invites;
    var events := w.events + ResetEvents(w, hash);
    forall h: Hash
      ensures Count(events, InviteSent(h)) == (if h in invites then 1 else 0)
      ensures Count(events, InviteLeftSent(h)) == (if h in invites && invites[h].status != Sent then 1 else 0)
    {
      CountAfterReset(w, hash, InviteSent(h));
      CountAfterReset(w, hash, InviteLeftSent(h));
    }
  }

  lemma ResetKeepsStamps(w: World, hash: Hash, now: Time)
    requires InviteStamps(w.invites, w.events) && hash in w.tokens
    ensures var invites := if w.tokens[hash].purpose == ResidentInvite then AfterAccept(w.invites, hash, now) else w.invites;
            InviteStamps(invites, w.events + ResetEvents(w, hash))
  {
    var invites := if w.tokens[hash].purpose == ResidentInvite then AfterAccept(w.invites, hash, now) else w.invites;
    var events := w.events + ResetEvents(w, hash);
    forall h | h in invites && invites[h].status == Accepted
      ensures exists userId :: WasReset(userId, h) in events
    {
      if h in w.invites && w.invites[h].status == Accepted {
        var userId :| WasReset(userId, h) in w.events;
        assert WasReset(userId, h) in events;
      } else {
        assert events[|w.events|] == WasReset(w.tokens[hash].userId, hash);
      }
    }
  }

  lemma ResetKeeps(w: World, hash: Hash, passwordHash: string, now: Time)
    requires Good(w)
    ensures Good(Do(w, ResetByToken(hash, passwordHash, now)))
  {
    if Usable(w, hash, now) {
      ResetKeepsTokens(w, hash, now);
      ResetKeepsInvites(w, hash, now);
      ResetKeepsStamps(w, hash, now);
    }
  }

  lemma StepKeeps(w: World, op: Op)
    requires Good(w)
    ensures Good(Do(w, op))
  {
    match op
    case IssueToken(userId, hash, expiresAt, purpose) => IssueKeeps(w, userId, hash, expiresAt, purpose);
    case SendInvite(_, _, _, _, _, _) => SendInviteKeeps(w, op);
    case FailInvite(_, _, _) => FailInviteKeeps(w, op);
    case ResetByToken(hash, passwordHash, now) => ResetKeeps(w, hash, passwordHash, now);
    case Elsewhere(_, _, _, _, _) =>
  }

  lemma {:induction false} RunKeeps(w: World, ops: seq<Op>)
    requires Good(w)
    ensures Good(Run(w, ops))
    decreases |ops|
  {
    if ops != [] {
      StepKeeps(w, ops[0]);
      RunKeeps(Do(w, ops[0]), ops[1..]);
    }
  }

  /** No token and no invite yet; users and grants may be there. */
  predicate Fresh(w: World) {
    w.tokens == map[] && w.invites == map[] && w.events == []
  }

  /** Whatever is issued, sent, retried and reset, in whatever order: a user has at most one
      stored token; a token that still works is the one issued last; it resets the password
      no more often than it was issued; an invite is sent once and leaves SENT at most once. */
  lemma TokenGuarantees(start: World, ops: seq<Op>)
    requires Fresh(start)
    ensures var w := Run(start, ops);
            && (forall a, b :: a in w.tokens && b in w.tokens && w.tokens[a].userId == w.tokens[b].userId ==> a == b)
            && (forall hash, now :: Usable(w, hash, now) ==> LastIssued(w.events, w.tokens[hash].userId) == Some(hash))
            && (forall u: Id, hash: Hash :: Count(w.events, WasReset(u, hash)) <= Count(w.events, Issued(u, hash)))
            && (forall hash: Hash :: Count(w.events, InviteLeftSent(hash)) <= Count(w.events, InviteSent(hash)) <= 1)
            && (forall hash :: hash in w.invites && w.invites[hash].status == Accepted ==> exists u :: WasReset(u, hash) in w.events)
  {
    RunKeeps(start, ops);
    var w := Run(start, ops);
    forall a, b | a in w.tokens && b in w.tokens && w.tokens[a].userId == w.tokens[b].userId
      ensures a == b
    {
      assert LastIssued(w.events, w.tokens[a].userId) == Some(a);
      assert LastIssued(w.events, w.tokens[b].userId) == Some(b);
    }
  }

  // -------------------------------------------------------------- single resets

  predicate Spent(w: World, hash: Hash) {
    hash !in w.tokens || w.tokens[hash].usedAt.Some?
  }

  predicate Issues(op: Op, hash: Hash) {
    op.IssueToken? && op.hash == hash
  }

  /** A spent token stays spent until it is issued again. */
  lemma {:induction false} SpentStaysSpent(w: World, ops: seq<Op>, hash: Hash)
    requires Spent(w, hash)
    requires forall k :: 0 <= k < |ops| ==> !Issues(ops[k], hash)
    ensures Spent(Run(w, ops), hash)
    decreases |ops|
  {
    if ops != [] {
      if ops[0].ResetByToken? && Usable(w, ops[0].hash, ops[0].now) {
        TokensAfterUse(w.tokens, ops[0].hash, ops[0].now);
      }
      assert Spent(Do(w, ops[0]), hash);
      SpentStaysSpent(Do(w, ops[0]), ops[1..], hash);
    }
  }

  /** A token works once: after its reset, no later moment of any run accepts it again
      unless it is issued anew; and issuing another token to the user ends it as well. */
  lemma WorksAtMostOnce(w: World, last: Op, ops: seq<Op>, hash: Hash, now: Time)
    requires Good(w) && hash in w.tokens
    requires || (last.ResetByToken? && last.hash == hash && Usable(w, hash, last.now))
             || (last.IssueToken? && last.hash != hash && last.userId == w.tokens[hash].userId && Issuable(w, last.userId, last.hash))
    requires forall k :: 0 <= k < |ops| ==> !Issues(ops[k], hash)
    ensures !Usable(Run(Do(w, last), ops), hash, now)
  {
    if last.ResetByToken? {
      TokensAfterUse(w.tokens, hash, last.now);
    }
    SpentStaysSpent(Do(w, last), ops, hash);
  }

  /** An invite that has left SENT never changes again. */
  lemma {:induction false} SettledInvitesStay(w: World, ops: seq<Op>, hash: Hash)
    requires hash in w.invites && w.invites[hash].status != Sent
    ensures hash in Run(w, ops).invites && Run(w, ops).invites[hash] == w.invites[hash]
    decreases |ops|
  {
    if ops != [] {
      SettledInvitesStay(Do(w, ops[0]), ops[1..], hash);
    }
  }

  /** A resident's reset accepts its invite exactly when the invite had not failed. */
  lemma InviteAcceptedExactly(w: World, hash: Hash, passwordHash: string, now: Time)
    requires Good(w) && Usable(w, hash, now) && w.tokens[hash].purpose == ResidentInvite && hash in w.invites
    ensures Do(w, ResetByToken(hash, passwordHash, now)).invites[hash].status == Accepted <==> w.invites[hash].status != Failed
  {
  }

  // ---------------------------------------------------------------------- grants

  /** Exactly the user's pending grants are found, in order and each once. */
  lemma {:induction false} PendingAreFound(grants: seq<Grant>, userId: Id)
    ensures forall g :: 0 <= g < |grants| ==> (g in PendingGrants(grants, userId) <==> PendingFor(grants[g], userId))
  {
    if grants != [] {
      var n := |grants| - 1;
      PendingAreFound(grants[..n], userId);
      assert forall g :: 0 <= g < n ==> grants[..n][g] == grants[g];
    }
  }

  lemma {:induction false} ActivatedAt(grants: seq<Grant>, positions: seq<nat>, now: Time, g: nat)
    requires forall k :: 0 <= k < |positions| ==> positions[k] < |grants|
    requires g < |grants|
    ensures ActivateOwners(grants, positions, now)[g] == if g in positions then OwnerActivated(grants[g], now) else grants[g]
  {
    if positions != [] {
      var n := |positions| - 1;
      ActivatedAt(grants, positions[..n], now, g);
      assert positions == positions[..n] + [positions[n]];
    }
  }

  /** An owner's first sign-in activates each of its pending grants and no other, and
      leaves none pending. */
  lemma OwnerInviteActivatesExactlyItsGrants(w: World, hash: Hash, passwordHash: string, now: Time)
    requires Usable(w, hash, now) && w.tokens[hash].purpose == OwnerInvite
    ensures var grants := AfterReset(w, hash, passwordHash, now).ownerGrants;
            var userId := w.tokens[hash].userId;
            && |grants| == |w.ownerGrants|
            && forall g :: 0 <= g < |grants| ==>
                 && !PendingFor(grants[g], userId)
                 && grants[g].userId == w.ownerGrants[g].userId && grants[g].ownerId == w.ownerGrants[g].ownerId
                 && (PendingFor(w.ownerGrants[g], userId) ==> grants[g].status == Active && grants[g].acceptedAt == Some(now))
                 && (!PendingFor(w.ownerGrants[g], userId) ==> grants[g] == w.ownerGrants[g])
  {
    var userId := w.tokens[hash].userId;
    var pending := PendingGrants(w.ownerGrants, userId);
    PendingAreFound(w.ownerGrants, userId);
    forall g | 0 <= g < |w.ownerGrants|
      ensures ActivateOwners(w.ownerGrants, pending, now)[g]
           == if PendingFor(w.ownerGrants[g], userId) then OwnerActivated(w.ownerGrants[g], now) else w.ownerGrants[g]
    {
      ActivatedAt(w.ownerGrants, pending, now, g);
    }
  }

  /** The records of the pending grants name each of them once, in order, and no other; the
      audit remembers the address the grant was offered to. */
  lemma RecordsNameEachGrantOnce(grants: seq<Grant>, userId: Id, now: Time)
    ensures RecordsMatch(grants, userId, AuditsOf(grants, PendingGrants(grants, userId), now), NoticesOf(grants, PendingGrants(grants, userId), userId))
  {
    var pending := PendingGrants(grants, userId);
    PendingAreFound(grants, userId);
    var audits := AuditsOf(grants, pending, now);
    assert forall k :: 0 <= k < |audits| ==> audits[k].grant == pending[k];
    forall g | 0 <= g < |grants| && PendingFor(grants[g], userId)
      ensures exists k :: 0 <= k < |audits| && audits[k].grant == g
    {
      assert g in pending;
      var k :| 0 <= k < |pending| && pending[k] == g;
      assert audits[k].grant == g;
    }
  }

  /** One audit row and one notice for each grant pending before, in the same order. */
  ghost predicate RecordsMatch(before: seq<Grant>, userId: Id, audits: seq<GrantAudit>, notices: seq<Notification>) {
    && |audits| == |notices|
    && (forall k :: 0 <= k < |audits| ==>
          && audits[k].grant == notices[k].grant < |before| && PendingFor(before[audits[k].grant], userId)
          && notices[k].recipientUserId == userId && audits[k].userId == Some(userId)
          && audits[k].inviteEmail == before[audits[k].grant].inviteEmail)
    && (forall i, j :: 0 <= i < j < |audits| ==> audits[i].grant < audits[j].grant)
    && (forall g :: 0 <= g < |before| && PendingFor(before[g], userId) ==> exists k :: 0 <= k < |audits| && audits[k].grant == g)
  }

  /** A reset appends to the audit log and the notifications, one of each for every owner
      grant it activates; a reset for another purpose appends nothing. */
  lemma ActivationsAreRecordedOnce(w: World, hash: Hash, passwordHash: string, now: Time)
    requires Usable(w, hash, now)
    ensures var w' := AfterReset(w, hash, passwordHash, now);
            var audits, notices := w'.grantAudits[|w.grantAudits|..], w'.notifications[|w.notifications|..];
            && w.grantAudits <= w'.grantAudits && w.notifications <= w'.notifications
            && if w.tokens[hash].purpose == OwnerInvite then RecordsMatch(w.ownerGrants, w.tokens[hash].userId, audits, notices)
               else audits == [] && notices == []
  {
    var w' := AfterReset(w, hash, passwordHash, now);
    var pending := GrantsToActivate(w.ownerGrants, w.tokens[hash]);
    assert w'.grantAudits[|w.grantAudits|..] == AuditsOf(w.ownerGrants, pending, now);
    assert w'.notifications[|w.notifications|..] == NoticesOf(w.ownerGrants, pending, w.tokens[hash].userId);
    RecordsNameEachGrantOnce(w.ownerGrants, w.tokens[hash].userId, now);
  }

  /** A provider's first sign-in activates exactly its pending grants, all at once. */
  lemma ProviderInviteActivatesExactlyItsGrants(w: World, hash: Hash, passwordHash: string, now: Time)
    requires Usable(w, hash, now)
    ensures var w' := AfterReset(w, hash, passwordHash, now);
            && |w'.providerGrants| == |w.providerGrants|
            && forall g :: 0 <= g < |w.providerGrants| ==>
                 if w.tokens[hash].purpose == ProviderInvite && PendingFor(w.providerGrants[g], w.tokens[hash].userId)
                 then w'.providerGrants[g].status == Active && w'.providerGrants[g].acceptedAt == Some(now)
                      && w'.providerGrants[g].verificationMethod == Some("PROVIDER_INVITE")
                 else w'.providerGrants[g] == w.providerGrants[g]
  {
  }
}
