/** Who the requester of a maintenance request is (requester-context.enricher.ts): resident
    or not, invited or not, and who lives in the unit now. Batched like the tenancy context. */
module RequesterContexts {
  import opened Wrappers
  import opened RequestContexts

  datatype InviteStatus = Sent | Failed | Accepted

  datatype Invite = Invite(orgId: OrgId, userId: Id, status: InviteStatus, expiresAt: int)

  datatype Profile = Profile(orgId: OrgId, userId: Id)

  datatype ResidentOccupancyStatus = ActiveResident | FormerResident | NeverHoused
  datatype ResidentInviteStatus = InvitePending | InviteExpired | InviteFailed | InviteAccepted

  datatype Occupant = Occupant(userId: Id, name: Option<string>)

  datatype RequesterContext = RequesterContext(
    isResident: bool,
    residentOccupancyStatus: Option<ResidentOccupancyStatus>,
    residentInviteStatus: Option<ResidentInviteStatus>,
    isFormerResident: bool,
    currentUnitOccupiedByRequester: Option<bool>,
    currentUnitOccupant: Option<Occupant>)

  /** The rows the queries read, each list in its query's order; newest first. */
  datatype Tables = Tables(stays: seq<Stay>, profiles: seq<Profile>, invites: seq<Invite>)

  // ------------------------------------------------------------------- one by one

  function First<T>(rows: seq<T>): Option<T> {
    if rows == [] then None else Some(rows[0])
  }

  function OwnInvite(orgId: OrgId, userId: Id): Invite -> bool {
    (i: Invite) => i.orgId == orgId && i.userId == userId
  }

  function ActiveInUnit(unitId: Id): Stay -> bool {
    (o: Stay) => o.unitId == unitId && o.active
  }

  function ToResidentInviteStatus(invite: Option<Invite>, now: int): Option<ResidentInviteStatus> {
    if invite.None? then None
    else if invite.value.status == Accepted then Some(InviteAccepted)
    else if invite.value.status == Failed then Some(InviteFailed)
    else if invite.value.expiresAt > now then Some(InvitePending)
    else Some(InviteExpired)
  }

  function Assembled(source: Source, anyStay: bool, activeStay: bool, profile: bool, invite: Option<Invite>,
                     occupancy: Option<Stay>, now: int): RequesterContext {
    var isResident := anyStay || profile || invite.Some?;
    var status := if !isResident then None else if activeStay then Some(ActiveResident) else if anyStay then Some(FormerResident) else Some(NeverHoused);
    RequesterContext(
      isResident, status, ToResidentInviteStatus(invite, now), status == Some(FormerResident),
      if Given(source.unitId) && occupancy.Some? then Some(occupancy.value.residentUserId == source.requesterUserId) else None,
      if occupancy.Some? then Some(Occupant(occupancy.value.residentUserId, occupancy.value.residentName)) else None)
  }

  function RequesterContextOf(t: Tables, now: int, source: Source): RequesterContext {
    var own := Filter(t.stays, OwnStay(source.orgId, source.requesterUserId));
    Assembled(source, own != [], FirstActiveStay(own).Some?,
              Profile(source.orgId, source.requesterUserId) in t.profiles,
              First(Filter(t.invites, OwnInvite(source.orgId, source.requesterUserId))),
              if Given(source.unitId) then First(Filter(t.stays, ActiveInUnit(source.unitId.value))) else None,
              now)
  }

  /** What a requester's standing says about the stays on record. */
  lemma StandingMeans(t: Tables, now: int, source: Source)
    ensures var r := RequesterContextOf(t, now, source);
            var lives := exists o :: o in t.stays && o.orgId == source.orgId && o.residentUserId == source.requesterUserId && o.active;
            var lived := exists o :: o in t.stays && o.orgId == source.orgId && o.residentUserId == source.requesterUserId;
            && (r.residentOccupancyStatus == Some(ActiveResident) <==> lives)
            && (r.isFormerResident <==> lived && !lives)
            && (r.residentOccupancyStatus == Some(NeverHoused) ==> r.isResident && !lived)
            && (r.residentOccupancyStatus == None <==> !r.isResident)
            && (r.isResident <==> (lived || Profile(source.orgId, source.requesterUserId) in t.profiles || r.residentInviteStatus.Some?))
            && (r.currentUnitOccupiedByRequester == Some(true) ==>
                  exists o :: o in t.stays && o.active && source.unitId == Some(o.unitId) && o.residentUserId == source.requesterUserId)
  {
    var keep := OwnStay(source.orgId, source.requesterUserId);
    var own := Filter(t.stays, keep);
    FilterHolds(t.stays, keep);
    FilterHolds(own, IsActiveStay());
    assert own != [] ==> own[0] in own;
    var active := Filter(own, IsActiveStay());
    assert active != [] ==> active[0] in active;
    if Given(source.unitId) {
      var here := Filter(t.stays, ActiveInUnit(source.unitId.value));
      FilterHolds(t.stays, ActiveInUnit(source.unitId.value));
      assert here != [] ==> here[0] in here;
    }
  }

  // ---------------------------------------------------------------------- batched

  function InviteInScope(orgIds: set<Id>, userIds: set<Id>): Invite -> bool {
    (i: Invite) => i.orgId in orgIds && i.userId in userIds
  }

  function InviteAt(key: string): Invite -> bool {
    (i: Invite) => Key(i.orgId, i.userId) == key
  }

  function ProfileInScope(orgIds: set<Id>, userIds: set<Id>): Profile -> bool {
    (p: Profile) => p.orgId in orgIds && p.userId in userIds
  }

  function ActiveInUnits(unitIds: set<Id>): Stay -> bool {
    (o: Stay) => o.unitId in unitIds && o.active
  }

  function InUnit(unitId: Id): Stay -> bool {
    (o: Stay) => o.unitId == unitId
  }

  function UnitIds(sources: seq<Source>): (r: set<Id>)
    ensures forall s :: s in sources && Given(s.unitId) ==> s.unitId.value in r
  {
    set s | s in sources && Given(s.unitId) :: s.unitId.value
  }

  lemma OwnInvites(rows: seq<Invite>, orgIds: set<Id>, userIds: set<Id>, orgId: OrgId, userId: Id)
    requires orgId in orgIds && userId in userIds
    ensures Filter(Filter(rows, InviteInScope(orgIds, userIds)), InviteAt(Key(orgId, userId))) == Filter(rows, OwnInvite(orgId, userId))
  {
    forall i: Invite | Key(i.orgId, i.userId) == Key(orgId, userId)
      ensures i.orgId == orgId && i.userId == userId
    {
      KeyIsInjective(i.orgId, i.userId, orgId, userId);
    }
    FilterTwice(rows, InviteInScope(orgIds, userIds), InviteAt(Key(orgId, userId)), OwnInvite(orgId, userId));
  }

  lemma OwnProfile(rows: seq<Profile>, orgIds: set<Id>, userIds: set<Id>, orgId: OrgId, userId: Id)
    requires orgId in orgIds && userId in userIds
    ensures Key(orgId, userId) in KeysOf(Filter(rows, ProfileInScope(orgIds, userIds))) <==> Profile(orgId, userId) in rows
  {
    FilterHolds(rows, ProfileInScope(orgIds, userIds));
    forall p: Profile | Key(p.orgId, p.userId) == Key(orgId, userId)
      ensures p == Profile(orgId, userId)
    {
      KeyIsInjective(p.orgId, p.userId, orgId, userId);
    }
  }

  function KeysOf(profiles: seq<Profile>): set<string> {
    set p | p in profiles :: Key(p.orgId, p.userId)
  }

  datatype OccupancyState = OccupancyState(hasAnyOccupancy: bool, hasActiveOccupancy: bool)

  function StateOf(stays: seq<Stay>): Option<OccupancyState> {
    if stays == [] then None else Some(OccupancyState(true, FirstActiveStay(stays).Some?))
  }

  lemma StateIndexed(rows: seq<Stay>, i: nat, key: string)
    requires i < |rows|
    ensures var was, row := StateOf(Filter(rows[..i], StayAt(key))), rows[i];
            StateOf(Filter(rows[..i + 1], StayAt(key)))
            == if Key(row.orgId, row.residentUserId) == key
               then Some(OccupancyState(true, row.active || (was.Some? && was.value.hasActiveOccupancy)))
               else was
  {
    StayIndexed(rows, i, key);
    NoStayNoActiveStay();
  }

  lemma NoStayNoActiveStay()
    ensures FirstActiveStay([]) == None
  {
  }

  lemma FirstIndexed<T>(rows: seq<T>, i: nat, keep: T -> bool)
    requires i < |rows|
    ensures First(Filter(rows[..i + 1], keep))
         == if First(Filter(rows[..i], keep)).None? && keep(rows[i]) then Some(rows[i]) else First(Filter(rows[..i], keep))
  {
    FilterUpTo(rows, i, keep);
  }

  method OccupancyStates(rows: seq<Stay>) returns (states: map<string, OccupancyState>)
    ensures forall key :: Found(states, key) == StateOf(Filter(rows, StayAt(key)))
  {
    states := map[];
    for i := 0 to |rows|
      invariant forall key :: Found(states, key) == StateOf(Filter(rows[..i], StayAt(key)))
    {
      var row := rows[i];
      var key := Key(row.orgId, row.residentUserId);
      forall other {
        StateIndexed(rows, i, other);
      }
      var current := if key in states then states[key] else OccupancyState(false, false);
      current := current.(hasAnyOccupancy := true);
      if row.active {
        current := current.(hasActiveOccupancy := true);
      }
      states := states[key := current];
    }
    assert rows[..|rows|] == rows;
  }

  method LatestInvites(rows: seq<Invite>) returns (latest: map<string, Invite>)
    ensures forall key :: Found(latest, key) == First(Filter(rows, InviteAt(key)))
  {
    latest := map[];
    for i := 0 to |rows|
      invariant forall key :: Found(latest, key) == First(Filter(rows[..i], InviteAt(key)))
    {
      var key := Key(rows[i].orgId, rows[i].userId);
      forall other {
        FirstIndexed(rows, i, InviteAt(other));
      }
      if key !in latest {
        latest := latest[key := rows[i]];
      }
    }
    assert rows[..|rows|] == rows;
  }

  method OccupanciesByUnit(rows: seq<Stay>) returns (current: map<Id, Stay>)
    ensures forall unitId :: Found(current, unitId) == First(Filter(rows, InUnit(unitId)))
  {
    current := map[];
    for i := 0 to |rows|
      invariant forall unitId :: Found(current, unitId) == First(Filter(rows[..i], InUnit(unitId)))
    {
      forall other {
        FirstIndexed(rows, i, InUnit(other));
      }
      if rows[i].unitId !in current {
        current := current[rows[i].unitId := rows[i]];
      }
    }
    assert rows[..|rows|] == rows;
  }

  /** The contexts of the sources, each worked out on its own. */
  function Contexts(t: Tables, now: int, sources: seq<Source>): map<Id, RequesterContext> {
    if sources == [] then map[]
    else
      var n := |sources| - 1;
      Contexts(t, now, sources[..n])[sources[n].requestId := RequesterContextOf(t, now, sources[n])]
  }

  lemma ContextsUpTo(t: Tables, now: int, sources: seq<Source>, i: nat)
    requires i < |sources|
    ensures Contexts(t, now, sources[..i + 1])
         == Contexts(t, now, sources[..i])[sources[i].requestId := RequesterContextOf(t, now, sources[i])]
  {
    assert sources[..i + 1][..i] == sources[..i];
  }

  /** What the four indexes hold for one request is what its own queries would find. */
  lemma IndexedRowsAreOwn(t: Tables, now: int, orgIds: set<Id>, userIds: set<Id>, unitIds: set<Id>, source: Source)
    requires source.orgId in orgIds && source.requesterUserId in userIds
    requires Given(source.unitId) ==> source.unitId.value in unitIds
    ensures var key := Key(source.orgId, source.requesterUserId);
            var state := StateOf(Filter(Filter(t.stays, StayInScope(orgIds, userIds)), StayAt(key)));
            Assembled(source, state.Some? && state.value.hasAnyOccupancy, state.Some? && state.value.hasActiveOccupancy,
                      key in KeysOf(Filter(t.profiles, ProfileInScope(orgIds, userIds))),
                      First(Filter(Filter(t.invites, InviteInScope(orgIds, userIds)), InviteAt(key))),
                      if Given(source.unitId)
                      then First(Filter(Filter(t.stays, ActiveInUnits(unitIds)), InUnit(source.unitId.value)))
                      else None,
                      now)
            == RequesterContextOf(t, now, source)
  {
    OwnStays(t.stays, orgIds, userIds, source.orgId, source.requesterUserId);
    OwnInvites(t.invites, orgIds, userIds, source.orgId, source.requesterUserId);
    OwnProfile(t.profiles, orgIds, userIds, source.orgId, source.requesterUserId);
    if Given(source.unitId) {
      FilterTwice(t.stays, ActiveInUnits(unitIds), InUnit(source.unitId.value), ActiveInUnit(source.unitId.value));
    }
    NoStayNoActiveStay();
  }

  /** The build that asks for all rows at once yields the contexts worked out one by one. */
  method BuildRequesterContextMap(t: Tables, now: int, sources: seq<Source>) returns (contexts: map<Id, RequesterContext>)
    ensures contexts == Contexts(t, now, Deduped(sources))
  {
    var unique := DedupeSources(sources);
    contexts := map[];
    if |unique| == 0 {
      return;
    }
    var orgIds, userIds, unitIds := OrgIds(unique), UserIds(unique), UnitIds(unique);
    var states := OccupancyStates(Filter(t.stays, StayInScope(orgIds, userIds)));
    var profileKeys := KeysOf(Filter(t.profiles, ProfileInScope(orgIds, userIds)));
    var latestInvites := LatestInvites(Filter(t.invites, InviteInScope(orgIds, userIds)));
    var occupancies := if unitIds == {} then [] else Filter(t.stays, ActiveInUnits(unitIds));
    var occupancyByUnit := OccupanciesByUnit(occupancies);
    for i := 0 to |unique|
      invariant contexts == Contexts(t, now, unique[..i])
    {
      var source := unique[i];
      var key := Key(source.orgId, source.requesterUserId);
      var state, invite := Found(states, key), Found(latestInvites, key);
      var occupancy := if Given(source.unitId) then Found(occupancyByUnit, source.unitId.value) else None;
      var context := Assembled(source, state.Some? && state.value.hasAnyOccupancy, state.Some? && state.value.hasActiveOccupancy,
                               key in profileKeys, invite, occupancy, now);
      IndexedRowsAreOwn(t, now, orgIds, userIds, unitIds, source);
      ContextsUpTo(t, now, unique, i);
      contexts := contexts[source.requestId := context];
    }
    assert unique[..|unique|] == unique;
  }

  lemma {:induction false} ContextsHold(t: Tables, now: int, sources: seq<Source>)
    requires forall i, j :: 0 <= i < j < |sources| ==> sources[i].requestId != sources[j].requestId
    ensures forall id :: id in Contexts(t, now, sources) <==> Seen(sources, id)
    ensures forall s :: s in sources ==> Found(Contexts(t, now, sources), s.requestId) == Some(RequesterContextOf(t, now, s))
  {
    if sources != [] {
      var n := |sources| - 1;
      ContextsHold(t, now, sources[..n]);
      assert sources == sources[..n] + [sources[n]];
      forall id {
        SeenAppend(sources[..n], sources[n], id);
      }
    }
  }

  /** Batched with any others, a request gets the context it gets alone; a request given
      twice is answered for its first source, and no request is left out or invented. */
  lemma RequesterBatchIsOneByOne(t: Tables, now: int, sources: seq<Source>)
    ensures forall id :: id in Contexts(t, now, Deduped(sources)) <==> Seen(sources, id)
    ensures forall i :: 0 <= i < |sources| && !Seen(sources[..i], sources[i].requestId) ==>
                          var id := sources[i].requestId;
                          && Found(Contexts(t, now, Deduped(sources)), id)
                             == Found(Contexts(t, now, Deduped([sources[i]])), id)
                             == Some(RequesterContextOf(t, now, sources[i]))
  {
    DedupedNamesOnce(sources);
    ContextsHold(t, now, Deduped(sources));
    forall id {
      DedupedSees(sources, id);
    }
    forall i | 0 <= i < |sources| && !Seen(sources[..i], sources[i].requestId)
      ensures sources[i] in Deduped(sources)
    {
      DedupedKeepsTheFirst(sources, i);
    }
    forall s: Source
      ensures Found(Contexts(t, now, Deduped([s])), s.requestId) == Some(RequesterContextOf(t, now, s))
    {
      assert [s][..0] == [];
      assert Deduped([s]) == [s];
    }
  }
}
