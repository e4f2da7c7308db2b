/** The two batched enrichers of request listings (request-tenancy-context.enricher.ts and
    requester-context.enricher.ts): what each request's context is on its own, and the
    batched build that indexes the rows of all requests at once.

    A table is the sequence of its rows in the order the query sorts them by, so that a
    query is a filter that keeps the order. */
module RequestContexts {
  import opened Wrappers

  type Id = string

  /** Organisation identifiers are UUIDs: the separator of a composite key is not in them. */
  type OrgId = s: string | ':' !in s witness ""

  datatype Source = Source(
    requestId: Id,
    orgId: OrgId,
    requesterUserId: Id,
    createdAt: int,
    buildingId: Option<Id>,
    unitId: Option<Id>,
    occupancyIdAtCreation: Option<Id>,
    leaseIdAtCreation: Option<Id>)

  datatype Stay = Stay(
    id: Id,
    orgId: OrgId,
    residentUserId: Id,
    residentName: Option<string>,
    buildingId: Id,
    unitId: Id,
    active: bool,
    startAt: int,
    endAt: Option<int>)

  datatype LeaseStatus = Draft | Active | Ended | Cancelled

  datatype Lease = Lease(
    id: Id,
    orgId: OrgId,
    residentUserId: Option<Id>,
    buildingId: Id,
    unitId: Id,
    occupancyId: Option<Id>,
    status: LeaseStatus,
    startDate: int,
    endDate: int)

  /** What JavaScript takes for true: an identifier that is neither missing nor empty. */
  predicate Given(id: Option<Id>) {
    id.Some? && id.value != ""
  }

  function Key(orgId: OrgId, userId: Id): string {
    orgId + ":" + userId
  }

  // ------------------------------------------------------------------------ filters

  function Filter<T>(rows: seq<T>, keep: T -> bool): seq<T> {
    if rows == [] then []
    else if keep(rows[0]) then [rows[0]] + Filter(rows[1..], keep)
    else Filter(rows[1..], keep)
  }

  lemma {:induction false} FilterAppend<T>(rows: seq<T>, row: T, keep: T -> bool)
    ensures Filter(rows + [row], keep) == if keep(row) then Filter(rows, keep) + [row] else Filter(rows, keep)
  {
    if rows == [] {
      assert rows + [row] == [row] && [row][1..] == [];
    } else {
      assert (rows + [row])[1..] == rows[1..] + [row];
      FilterAppend(rows[1..], row, keep);
    }
  }

  lemma FilterUpTo<T>(rows: seq<T>, i: nat, keep: T -> bool)
    requires i < |rows|
    ensures Filter(rows[..i + 1], keep) == if keep(rows[i]) then Filter(rows[..i], keep) + [rows[i]] else Filter(rows[..i], keep)
  {
    assert rows[..i + 1] == rows[..i] + [rows[i]];
    FilterAppend(rows[..i], rows[i], keep);
  }

  /** Filtering twice keeps what one filter keeps, if that is what both keep together. */
  lemma {:induction false} FilterTwice<T>(rows: seq<T>, coarse: T -> bool, fine: T -> bool, own: T -> bool)
    requires forall k :: 0 <= k < |rows| ==> (own(rows[k]) <==> (coarse(rows[k]) && fine(rows[k])))
    ensures Filter(Filter(rows, coarse), fine) == Filter(rows, own)
  {
    if rows != [] {
      FilterTwice(rows[1..], coarse, fine, own);
      assert own(rows[0]) <==> (coarse(rows[0]) && fine(rows[0]));
      if coarse(rows[0]) {
        assert Filter(rows, coarse)[1..] == Filter(rows[1..], coarse);
      }
    }
  }

  lemma {:induction false} FilterHolds<T>(rows: seq<T>, keep: T -> bool)
    ensures forall row :: row in Filter(rows, keep) <==> row in rows && keep(row)
  {
    if rows != [] {
      FilterHolds(rows[1..], keep);
      assert rows == [rows[0]] + rows[1..];
    }
  }

  /** Two names for one key are the same names. */
  lemma KeyIsInjective(orgId: OrgId, userId: Id, otherOrgId: OrgId, otherUserId: Id)
    requires Key(orgId, userId) == Key(otherOrgId, otherUserId)
    ensures orgId == otherOrgId && userId == otherUserId
  {
    var key := Key(orgId, userId);
    assert key[|orgId|] == ':' && key[|otherOrgId|] == ':';
    assert forall k :: 0 <= k < |orgId| ==> key[k] == orgId[k];
    assert forall k :: 0 <= k < |otherOrgId| ==> key[k] == otherOrgId[k];
    assert |orgId| == |otherOrgId|;
    assert orgId == key[..|orgId|] && otherOrgId == key[..|orgId|];
    assert userId == key[|orgId| + 1..] && otherUserId == key[|orgId| + 1..];
  }

  // ----------------------------------------------------------------------- sources

  /** Only the first source of each request counts. */
  function Deduped(sources: seq<Source>): (r: seq<Source>)
    ensures forall s :: s in r ==> s in sources
  {
    if sources == [] then []
    else
      var n := |sources| - 1;
      if Seen(sources[..n], sources[n].requestId) then Deduped(sources[..n]) else Deduped(sources[..n]) + [sources[n]]
  }

  predicate Seen(sources: seq<Source>, id: Id) {
    exists k :: 0 <= k < |sources| && sources[k].requestId == id
  }

  lemma SeenAtTheEnd(sources: seq<Source>, id: Id)
    requires sources != []
    ensures Seen(sources, id) <==> Seen(sources[..|sources| - 1], id) || sources[|sources| - 1].requestId == id
  {
    assert sources == sources[..|sources| - 1] + [sources[|sources| - 1]];
    SeenAppend(sources[..|sources| - 1], sources[|sources| - 1], id);
  }

  lemma {:induction false} DedupedSees(sources: seq<Source>, id: Id)
    ensures Seen(Deduped(sources), id) <==> Seen(sources, id)
  {
    if sources != [] {
      var n := |sources| - 1;
      DedupedSees(sources[..n], id);
      SeenAtTheEnd(sources, id);
      SeenAppend(Deduped(sources[..n]), sources[n], id);
    }
  }

  lemma {:induction false} DedupedNamesOnce(sources: seq<Source>)
    ensures forall i, j :: 0 <= i < j < |Deduped(sources)| ==> Deduped(sources)[i].requestId != Deduped(sources)[j].requestId
  {
    if sources != [] {
      var n := |sources| - 1;
      DedupedNamesOnce(sources[..n]);
      DedupedSees(sources[..n], sources[n].requestId);
    }
  }

  /** Each request keeps the first source given for it. */
  lemma {:induction false} DedupedKeepsTheFirst(sources: seq<Source>, i: nat)
    requires i < |sources| && !Seen(sources[..i], sources[i].requestId)
    ensures sources[i] in Deduped(sources)
  {
    var n := |sources| - 1;
    if i < n {
      assert sources[..n][..i] == sources[..i];
      DedupedKeepsTheFirst(sources[..n], i);
    }
  }

  lemma SeenAppend(sources: seq<Source>, source: Source, id: Id)
    ensures Seen(sources + [source], id) <==> Seen(sources, id) || source.requestId == id
  {
    var all := sources + [source];
    assert all[|sources|] == source;
    if Seen(sources, id) {
      var k :| 0 <= k < |sources| && sources[k].requestId == id;
      assert all[k].requestId == id;
    }
  }

  method DedupeSources(sources: seq<Source>) returns (unique: seq<Source>)
    ensures unique == Deduped(sources)
  {
    var seen: set<Id> := {};
    unique := [];
    for i := 0 to |sources|
      invariant forall id :: id in seen <==> Seen(sources[..i], id)
      invariant unique == Deduped(sources[..i])
    {
      var id := sources[i].requestId;
      assert sources[..i + 1] == sources[..i] + [sources[i]];
      assert sources[..i + 1][..i] == sources[..i];
      forall other {
        SeenAppend(sources[..i], sources[i], other);
      }
      if id !in seen {
        seen := seen + {id};
        unique := unique + [sources[i]];
      }
    }
    assert sources[..|sources|] == sources;
  }

  function OrgIds(sources: seq<Source>): (r: set<Id>)
    ensures forall s :: s in sources ==> s.orgId in r
  {
    set s | s in sources :: s.orgId
  }

  function UserIds(sources: seq<Source>): (r: set<Id>)
    ensures forall s :: s in sources ==> s.requesterUserId in r
  {
    set s | s in sources :: s.requesterUserId
  }

  // --------------------------------------------------------- which rows are whose

  /** The cross product of all organisations and all requesters asked for. */
  function StayInScope(orgIds: set<Id>, userIds: set<Id>): Stay -> bool {
    (o: Stay) => o.orgId in orgIds && o.residentUserId in userIds
  }

  function StayAt(key: string): Stay -> bool {
    (o: Stay) => Key(o.orgId, o.residentUserId) == key
  }

  function OwnStay(orgId: OrgId, userId: Id): Stay -> bool {
    (o: Stay) => o.orgId == orgId && o.residentUserId == userId
  }

  /** What the index finds under a requester's key is what the requester alone would get. */
  lemma OwnStays(rows: seq<Stay>, orgIds: set<Id>, userIds: set<Id>, orgId: OrgId, userId: Id)
    requires orgId in orgIds && userId in userIds
    ensures Filter(Filter(rows, StayInScope(orgIds, userIds)), StayAt(Key(orgId, userId))) == Filter(rows, OwnStay(orgId, userId))
  {
    forall o: Stay | Key(o.orgId, o.residentUserId) == Key(orgId, userId)
      ensures o.orgId == orgId && o.residentUserId == userId
    {
      KeyIsInjective(o.orgId, o.residentUserId, orgId, userId);
    }
    FilterTwice(rows, StayInScope(orgIds, userIds), StayAt(Key(orgId, userId)), OwnStay(orgId, userId));
  }

  function LeaseInScope(orgIds: set<Id>, userIds: set<Id>): Lease -> bool {
    (l: Lease) => l.residentUserId.Some? && l.residentUserId.value in userIds && l.orgId in orgIds && l.status != Draft
  }

  function LeaseAt(key: string): Lease -> bool {
    (l: Lease) => Given(l.residentUserId) && Key(l.orgId, l.residentUserId.value) == key
  }

  function OwnLease(orgId: OrgId, userId: Id): Lease -> bool {
    (l: Lease) => userId != "" && l.residentUserId == Some(userId) && l.orgId == orgId && l.status != Draft
  }

  lemma OwnLeases(rows: seq<Lease>, orgIds: set<Id>, userIds: set<Id>, orgId: OrgId, userId: Id)
    requires orgId in orgIds && userId in userIds
    ensures Filter(Filter(rows, LeaseInScope(orgIds, userIds)), LeaseAt(Key(orgId, userId))) == Filter(rows, OwnLease(orgId, userId))
  {
    forall l: Lease | l.residentUserId.Some? && Key(l.orgId, l.residentUserId.value) == Key(orgId, userId)
      ensures l.orgId == orgId && l.residentUserId.value == userId
    {
      KeyIsInjective(l.orgId, l.residentUserId.value, orgId, userId);
    }
    FilterTwice(rows, LeaseInScope(orgIds, userIds), LeaseAt(Key(orgId, userId)), OwnLease(orgId, userId));
  }

  // -------------------------------------------------------------- tenancy, one by one

  datatype ContextSource = Snapshot | HistoricalInference | Unresolved
  datatype TenancyLabel = UnknownTenancyCycle | NoActiveOccupancy | CurrentOccupancy | PreviousOccupancy
  datatype LeaseLabel = UnknownLeaseCycle | NoActiveLease | CurrentLease | PreviousLease

  datatype TenancyContext = TenancyContext(
    occupancyIdAtCreation: Option<Id>,
    leaseIdAtCreation: Option<Id>,
    currentOccupancyId: Option<Id>,
    currentLeaseId: Option<Id>,
    isCurrentOccupancy: Option<bool>,
    isCurrentLease: Option<bool>,
    tenancyLabel: TenancyLabel,
    leaseLabel: LeaseLabel,
    tenancyContextSource: ContextSource,
    leaseContextSource: ContextSource)

  /** Both ends of a stay belong to it. */
  predicate Within(time: int, start: int, end: Option<int>) {
    start <= time && (end.None? || time <= end.value)
  }

  predicate InTheUnit(source: Source, buildingId: Id, unitId: Id) {
    && (Given(source.buildingId) ==> buildingId == source.buildingId.value)
    && (Given(source.unitId) ==> unitId == source.unitId.value)
  }

  function StayCovers(source: Source): Stay -> bool {
    (o: Stay) => InTheUnit(source, o.buildingId, o.unitId) && Within(source.createdAt, o.startAt, o.endAt)
  }

  function LeaseCovers(source: Source): Lease -> bool {
    (l: Lease) => InTheUnit(source, l.buildingId, l.unitId) && Within(source.createdAt, l.startDate, Some(l.endDate))
  }

  function LinkedTo(occupancyId: Option<Id>): Lease -> bool {
    (l: Lease) => l.occupancyId == occupancyId
  }

  function InferOccupancyIdAtCreation(source: Source, stays: seq<Stay>): Option<Id> {
    var matches := Filter(stays, StayCovers(source));
    if |matches| == 1 then Some(matches[0].id) else None
  }

  function InferLeaseIdAtCreation(source: Source, leases: seq<Lease>, occupancyId: Option<Id>): Option<Id> {
    var dateMatches := Filter(leases, LeaseCovers(source));
    var linked := if Given(occupancyId) then Filter(dateMatches, LinkedTo(occupancyId)) else [];
    if |linked| == 1 then Some(linked[0].id)
    else if |linked| > 1 then None
    else if |dateMatches| == 1 then Some(dateMatches[0].id)
    else None
  }

  function IsActiveStay(): Stay -> bool {
    (o: Stay) => o.active
  }

  function IsActiveLease(): Lease -> bool {
    (l: Lease) => l.status == Active
  }

  function FirstActiveStay(stays: seq<Stay>): Option<Id> {
    var active := Filter(stays, IsActiveStay());
    if active == [] then None else Some(active[0].id)
  }

  function FirstActiveLease(leases: seq<Lease>): Option<Id> {
    var active := Filter(leases, IsActiveLease());
    if active == [] then None else Some(active[0].id)
  }

  function SameIfGiven(a: Option<Id>, b: Option<Id>): Option<bool> {
    if Given(a) && Given(b) then Some(a == b) else None
  }

  function ResolveTenancyLabel(atCreation: Option<Id>, current: Option<Id>): TenancyLabel {
    if !Given(atCreation) then UnknownTenancyCycle
    else if !Given(current) then NoActiveOccupancy
    else if atCreation == current then CurrentOccupancy
    else PreviousOccupancy
  }

  function ResolveLeaseLabel(atCreation: Option<Id>, current: Option<Id>): LeaseLabel {
    if !Given(atCreation) then UnknownLeaseCycle
    else if !Given(current) then NoActiveLease
    else if atCreation == current then CurrentLease
    else PreviousLease
  }

  function ResolveContextSource(snapshot: Option<Id>, resolved: Option<Id>): ContextSource {
    if Given(snapshot) then Snapshot else if Given(resolved) then HistoricalInference else Unresolved
  }

  function Assembled(source: Source, occupancyId: Option<Id>, currentOccupancyId: Option<Id>, leaseId: Option<Id>, currentLeaseId: Option<Id>): TenancyContext {
    TenancyContext(
      occupancyId, leaseId, currentOccupancyId, currentLeaseId,
      SameIfGiven(occupancyId, currentOccupancyId), SameIfGiven(leaseId, currentLeaseId),
      ResolveTenancyLabel(occupancyId, currentOccupancyId), ResolveLeaseLabel(leaseId, currentLeaseId),
      ResolveContextSource(source.occupancyIdAtCreation, occupancyId), ResolveContextSource(source.leaseIdAtCreation, leaseId))
  }

  /** The context of one request, from its requester's own stays and leases. */
  function ContextFrom(source: Source, stays: seq<Stay>, leases: seq<Lease>): TenancyContext {
    var occupancyId :=
      if source.occupancyIdAtCreation.Some? then source.occupancyIdAtCreation else InferOccupancyIdAtCreation(source, stays);
    var leaseId :=
      if source.leaseIdAtCreation.Some? then source.leaseIdAtCreation else InferLeaseIdAtCreation(source, leases, occupancyId);
    Assembled(source, occupancyId, FirstActiveStay(stays), leaseId, FirstActiveLease(leases))
  }

  function TenancyContextOf(stays: seq<Stay>, leases: seq<Lease>, source: Source): TenancyContext {
    ContextFrom(source,
                Filter(stays, OwnStay(source.orgId, source.requesterUserId)),
                Filter(leases, OwnLease(source.orgId, source.requesterUserId)))
  }

  // ------------------------------------------------------------------ tenancy, batched

  function Listed<T>(index: map<string, seq<T>>, key: string): seq<T> {
    if key in index then index[key] else []
  }

  function Found<T>(index: map<string, T>, key: string): Option<T> {
    if key in index then Some(index[key]) else None
  }

  /** What one more row changes in the index. */
  lemma StayIndexed(rows: seq<Stay>, i: nat, key: string)
    requires i < |rows|
    ensures var was, row := Filter(rows[..i], StayAt(key)), rows[i];
            var here := Key(row.orgId, row.residentUserId) == key;
            && Filter(rows[..i + 1], StayAt(key)) == (if here then was + [row] else was)
            && FirstActiveStay(Filter(rows[..i + 1], StayAt(key)))
               == (if here && row.active && FirstActiveStay(was).None? then Some(row.id) else FirstActiveStay(was))
  {
    FilterUpTo(rows, i, StayAt(key));
    FilterAppend(Filter(rows[..i], StayAt(key)), rows[i], IsActiveStay());
  }

  method IndexStays(rows: seq<Stay>) returns (current: map<string, Id>, history: map<string, seq<Stay>>)
    ensures forall key :: Listed(history, key) == Filter(rows, StayAt(key))
    ensures forall key :: Found(current, key) == FirstActiveStay(Filter(rows, StayAt(key)))
  {
    current, history := map[], map[];
    for i := 0 to |rows|
      invariant forall key :: Listed(history, key) == Filter(rows[..i], StayAt(key))
      invariant forall key :: Found(current, key) == FirstActiveStay(Filter(rows[..i], StayAt(key)))
    {
      var row := rows[i];
      var key := Key(row.orgId, row.residentUserId);
      forall other {
        StayIndexed(rows, i, other);
      }
      history := history[key := Listed(history, key) + [row]];
      if row.active && key !in current {
        current := current[key := row.id];
      }
    }
    assert rows[..|rows|] == rows;
  }

  lemma LeaseIndexed(rows: seq<Lease>, i: nat, key: string)
    requires i < |rows|
    ensures var was, row := Filter(rows[..i], LeaseAt(key)), rows[i];
            var here := LeaseAt(key)(row);
            && Filter(rows[..i + 1], LeaseAt(key)) == (if here then was + [row] else was)
            && FirstActiveLease(Filter(rows[..i + 1], LeaseAt(key)))
               == (if here && row.status == Active && FirstActiveLease(was).None? then Some(row.id) else FirstActiveLease(was))
  {
    FilterUpTo(rows, i, LeaseAt(key));
    FilterAppend(Filter(rows[..i], LeaseAt(key)), rows[i], IsActiveLease());
  }

  method IndexLeases(rows: seq<Lease>) returns (current: map<string, Id>, history: map<string, seq<Lease>>)
    ensures forall key :: Listed(history, key) == Filter(rows, LeaseAt(key))
    ensures forall key :: Found(current, key) == FirstActiveLease(Filter(rows, LeaseAt(key)))
  {
    current, history := map[], map[];
    for i := 0 to |rows|
      invariant forall key :: Listed(history, key) == Filter(rows[..i], LeaseAt(key))
      invariant forall key :: Found(current, key) == FirstActiveLease(Filter(rows[..i], LeaseAt(key)))
    {
      var row := rows[i];
      forall other {
        LeaseIndexed(rows, i, other);
      }
      if !Given(row.residentUserId) {
        continue;
      }
      var key := Key(row.orgId, row.residentUserId.value);
      history := history[key := Listed(history, key) + [row]];
      if row.status == Active && key !in current {
        current := current[key := row.id];
      }
    }
    assert rows[..|rows|] == rows;
  }

  /** The contexts of the sources, each worked out on its own. */
  function TenancyContexts(stays: seq<Stay>, leases: seq<Lease>, sources: seq<Source>): map<Id, TenancyContext> {
    if sources == [] then map[]
    else
      var n := |sources| - 1;
      TenancyContexts(stays, leases, sources[..n])[sources[n].requestId := TenancyContextOf(stays, leases, sources[n])]
  }

  lemma TenancyContextsUpTo(stays: seq<Stay>, leases: seq<Lease>, sources: seq<Source>, i: nat)
    requires i < |sources|
    ensures TenancyContexts(stays, leases, sources[..i + 1])
         == TenancyContexts(stays, leases, sources[..i])[sources[i].requestId := TenancyContextOf(stays, leases, sources[i])]
  {
    assert sources[..i + 1][..i] == sources[..i];
  }

  lemma IndexedHistoryIsOwn(stays: seq<Stay>, leases: seq<Lease>, orgIds: set<Id>, userIds: set<Id>, source: Source)
    requires source.orgId in orgIds && source.requesterUserId in userIds
    ensures var key := Key(source.orgId, source.requesterUserId);
            ContextFrom(source,
                        Filter(Filter(stays, StayInScope(orgIds, userIds)), StayAt(key)),
                        Filter(Filter(leases, LeaseInScope(orgIds, userIds)), LeaseAt(key)))
            == TenancyContextOf(stays, leases, source)
  {
    OwnStays(stays, orgIds, userIds, source.orgId, source.requesterUserId);
    OwnLeases(leases, orgIds, userIds, source.orgId, source.requesterUserId);
  }

  /** One request's turn in the batch: its key is looked up in the four indexes. */
  method TenancyContextFromIndex(source: Source, currentOccupancies: map<string, Id>, occupancies: map<string, seq<Stay>>,
                                 currentLeases: map<string, Id>, leasesByKey: map<string, seq<Lease>>)
    returns (context: TenancyContext)
    requires var key := Key(source.orgId, source.requesterUserId);
             && Found(currentOccupancies, key) == FirstActiveStay(Listed(occupancies, key))
             && Found(currentLeases, key) == FirstActiveLease(Listed(leasesByKey, key))
    ensures var key := Key(source.orgId, source.requesterUserId);
            context == ContextFrom(source, Listed(occupancies, key), Listed(leasesByKey, key))
  {
    var key := Key(source.orgId, source.requesterUserId);
    var currentOccupancyId, currentLeaseId := Found(currentOccupancies, key), Found(currentLeases, key);
    var occupancyId := source.occupancyIdAtCreation;
    if occupancyId.None? {
      occupancyId := InferOccupancyIdAtCreation(source, Listed(occupancies, key));
    }
    var leaseId := source.leaseIdAtCreation;
    if leaseId.None? {
      leaseId := InferLeaseIdAtCreation(source, Listed(leasesByKey, key), occupancyId);
    }
    context := Assembled(source, occupancyId, currentOccupancyId, leaseId, currentLeaseId);
  }

  /** The build that asks for all rows at once yields the contexts worked out one by one. */
  method BuildRequestTenancyContextMap(stays: seq<Stay>, leases: seq<Lease>, sources: seq<Source>)
    returns (contexts: map<Id, TenancyContext>)
    ensures contexts == TenancyContexts(stays, leases, Deduped(sources))
  {
    var unique := DedupeSources(sources);
    contexts := map[];
    if |unique| == 0 {
      return;
    }
    var orgIds, userIds := OrgIds(unique), UserIds(unique);
    var currentOccupancies, occupancies := IndexStays(Filter(stays, StayInScope(orgIds, userIds)));
    var currentLeases, leasesByKey := IndexLeases(Filter(leases, LeaseInScope(orgIds, userIds)));
    for i := 0 to |unique|
      invariant contexts == TenancyContexts(stays, leases, unique[..i])
    {
      var source := unique[i];
      var context := TenancyContextFromIndex(source, currentOccupancies, occupancies, currentLeases, leasesByKey);
      IndexedHistoryIsOwn(stays, leases, orgIds, userIds, source);
      TenancyContextsUpTo(stays, leases, unique, i);
      contexts := contexts[source.requestId := context];
    }
    assert unique[..|unique|] == unique;
  }

  lemma {:induction false} TenancyContextsHold(stays: seq<Stay>, leases: seq<Lease>, sources: seq<Source>)
    requires forall i, j :: 0 <= i < j < |sources| ==> sources[i].requestId != sources[j].requestId
    ensures forall id :: id in TenancyContexts(stays, leases, sources) <==> Seen(sources, id)
    ensures forall s :: s in sources ==> Found(TenancyContexts(stays, leases, sources), s.requestId) == Some(TenancyContextOf(stays, leases, s))
  {
    if sources != [] {
      var n := |sources| - 1;
      TenancyContextsHold(stays, leases, sources[..n]);
      assert sources == sources[..n] + [sources[n]];
      forall id {
        SeenAppend(sources[..n], sources[n], id);
      }
    }
  }

  /** Batched with any others, a request gets the context it gets alone; a request given
      twice is answered for its first source, and no request is left out or invented. */
  lemma TenancyBatchIsOneByOne(stays: seq<Stay>, leases: seq<Lease>, sources: seq<Source>)
    ensures forall id :: id in TenancyContexts(stays, leases, Deduped(sources)) <==> Seen(sources, id)
    ensures forall i :: 0 <= i < |sources| && !Seen(sources[..i], sources[i].requestId) ==>
                          var id := sources[i].requestId;
                          && Found(TenancyContexts(stays, leases, Deduped(sources)), id)
                             == Found(TenancyContexts(stays, leases, Deduped([sources[i]])), id)
                             == Some(TenancyContextOf(stays, leases, sources[i]))
  {
    DedupedNamesOnce(sources);
    TenancyContextsHold(stays, leases, Deduped(sources));
    forall id {
      DedupedSees(sources, id);
    }
    forall i | 0 <= i < |sources| && !Seen(sources[..i], sources[i].requestId)
      ensures sources[i] in Deduped(sources)
    {
      DedupedKeepsTheFirst(sources, i);
    }
    forall s: Source
      ensures Found(TenancyContexts(stays, leases, Deduped([s])), s.requestId) == Some(TenancyContextOf(stays, leases, s))
    {
      assert [s][..0] == [];
      assert Deduped([s]) == [s];
    }
  }

  // ------------------------------------------------------------------- what is inferred

  /** The only row of the list that the filter keeps. */
  ghost predicate OnlyOne<T(!new)>(rows: seq<T>, keep: T -> bool, k: int) {
    0 <= k < |rows| && keep(rows[k]) && forall j :: 0 <= j < |rows| && keep(rows[j]) ==> j == k
  }

  lemma {:induction false} NoneKept<T>(rows: seq<T>, keep: T -> bool)
    requires forall k :: 0 <= k < |rows| ==> !keep(rows[k])
    ensures Filter(rows, keep) == []
  {
    if rows != [] {
      NoneKept(rows[1..], keep);
    }
  }

  lemma {:induction false} OneKept<T(!new)>(rows: seq<T>, keep: T -> bool, k: int)
    requires OnlyOne(rows, keep, k)
    ensures Filter(rows, keep) == [rows[k]]
  {
    if k == 0 {
      NoneKept(rows[1..], keep);
    } else {
      assert !keep(rows[0]);
      OneKept(rows[1..], keep, k - 1);
    }
  }

  lemma {:induction false} KeptOnce<T(!new)>(rows: seq<T>, keep: T -> bool) returns (k: nat)
    requires |Filter(rows, keep)| == 1
    ensures OnlyOne(rows, keep, k)
  {
    if keep(rows[0]) {
      FilterHolds(rows[1..], keep);
      assert forall j :: 0 < j < |rows| ==> rows[j] in rows[1..] by {
        assert forall j :: 0 < j < |rows| ==> rows[j] == rows[1..][j - 1];
      }
      k := 0;
    } else {
      var j := KeptOnce(rows[1..], keep);
      assert forall i :: 0 < i < |rows| ==> rows[i] == rows[1..][i - 1];
      k := j + 1;
    }
  }

  /** The occupancy is inferred exactly when one stay, and no second, covers the creation. */
  lemma InferredExactlyFromOneCover(source: Source, stays: seq<Stay>)
    ensures InferOccupancyIdAtCreation(source, stays).Some? <==> exists k :: OnlyOne(stays, StayCovers(source), k)
    ensures forall k :: OnlyOne(stays, StayCovers(source), k) ==> InferOccupancyIdAtCreation(source, stays) == Some(stays[k].id)
  {
    if |Filter(stays, StayCovers(source))| == 1 {
      var k := KeptOnce(stays, StayCovers(source));
    }
    forall k | OnlyOne(stays, StayCovers(source), k)
      ensures Filter(stays, StayCovers(source)) == [stays[k]]
    {
      OneKept(stays, StayCovers(source), k);
    }
  }

  /** Two stays share a moment, the ends included. */
  predicate Overlap(a: Stay, b: Stay) {
    (a.endAt.None? || b.startAt <= a.endAt.value) && (b.endAt.None? || a.startAt <= b.endAt.value)
  }

  ghost predicate StaysApart(source: Source, stays: seq<Stay>) {
    forall i, j :: 0 <= i < j < |stays| ==>
                     (InTheUnit(source, stays[i].buildingId, stays[i].unitId) && InTheUnit(source, stays[j].buildingId, stays[j].unitId)
                      ==> !Overlap(stays[i], stays[j]))
  }

  /** When the tenant's stays in the unit are apart, the inferred occupancy is the one that
      covers the creation time, and there is none only if no stay covers it. */
  lemma InferredStayIsTheCoveringOne(source: Source, stays: seq<Stay>)
    requires StaysApart(source, stays)
    ensures forall k :: 0 <= k < |stays| && StayCovers(source)(stays[k]) ==> InferOccupancyIdAtCreation(source, stays) == Some(stays[k].id)
    ensures InferOccupancyIdAtCreation(source, stays).Some? <==> exists k :: 0 <= k < |stays| && StayCovers(source)(stays[k])
  {
    forall k | 0 <= k < |stays| && StayCovers(source)(stays[k])
      ensures OnlyOne(stays, StayCovers(source), k)
    {
      forall j | 0 <= j < |stays| && StayCovers(source)(stays[j])
        ensures j == k
      {
        assert Overlap(stays[j], stays[k]);
      }
    }
    InferredExactlyFromOneCover(source, stays);
  }

  /** An inferred lease covers the creation time; and if some covering lease belongs to the
      known occupancy, the inferred one does. */
  lemma InferredLeaseFollowsTheOccupancy(source: Source, leases: seq<Lease>, occupancyId: Option<Id>)
    ensures var r := InferLeaseIdAtCreation(source, leases, occupancyId);
            r.Some? ==>
              exists l :: && l in leases && l.id == r.value && LeaseCovers(source)(l)
                          && ((Given(occupancyId) && exists m :: m in leases && LeaseCovers(source)(m) && m.occupancyId == occupancyId)
                              ==> l.occupancyId == occupancyId)
  {
    var dateMatches := Filter(leases, LeaseCovers(source));
    FilterHolds(leases, LeaseCovers(source));
    FilterHolds(dateMatches, LinkedTo(occupancyId));
    var linked := Filter(dateMatches, LinkedTo(occupancyId));
    if Given(occupancyId) && |linked| == 1 {
      assert linked[0] in linked;
    } else if |dateMatches| == 1 {
      assert dateMatches[0] in dateMatches;
      forall m | m in leases && LeaseCovers(source)(m) && m.occupancyId == occupancyId
        ensures m in linked
      {
      }
    }
  }
}
