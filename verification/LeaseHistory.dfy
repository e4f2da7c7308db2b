/** The lease history: field-by-field change sets (lease-history.util.ts), and what
    replaying them gives. */
module LeaseHistory {
  type Id = nat
  type Time = int

  datatype Field =
    | Status | IjariId | ContractDate | PropertyUsage | OwnerNameSnapshot | LandlordNameSnapshot | TenantNameSnapshot
    | TenantEmailSnapshot | LandlordEmailSnapshot | TenantPhoneSnapshot | LandlordPhoneSnapshot | BuildingNameSnapshot
    | LocationCommunity | PropertySizeSqm | PropertyTypeLabel | PropertyNumber | PremisesNoDewa | PlotNo | ContractValue
    | PaymentModeText | LeaseStartDate | LeaseEndDate | TenancyRegistrationExpiry | NoticeGivenDate | AnnualRent
    | PaymentFrequency | NumberOfCheques | SecurityDepositAmount | InternetTvProvider | ServiceChargesPaidBy
    | VatApplicable | Notes | FirstPaymentReceived | FirstPaymentAmount | DepositReceived | DepositReceivedAmount
    | ActualMoveOutDate | ForwardingPhone | ForwardingEmail | ForwardingAddress | FinalElectricityReading
    | FinalWaterReading | FinalGasReading | WallsCondition | FloorCondition | KitchenCondition | BathroomCondition
    | DoorsLocksCondition | KeysReturned | AccessCardsReturnedCount | ParkingStickersReturned | DamageDescription
    | DamageCharges | PendingRent | PendingUtilities | PendingServiceFines | TotalDeductions | NetRefund
    | InspectionDoneBy | InspectionDate | ManagerApproval | RefundMethod | RefundDate | AdminNotes

  /** leaseTrackedFields */
  const TRACKED: seq<Field> := [Status] + TRACKED_TERMS

  const TRACKED_TERMS: seq<Field> := [
    IjariId, ContractDate, PropertyUsage, OwnerNameSnapshot, LandlordNameSnapshot, TenantNameSnapshot,
    TenantEmailSnapshot, LandlordEmailSnapshot, TenantPhoneSnapshot, LandlordPhoneSnapshot, BuildingNameSnapshot,
    LocationCommunity, PropertySizeSqm, PropertyTypeLabel, PropertyNumber, PremisesNoDewa, PlotNo, ContractValue,
    PaymentModeText, LeaseStartDate, LeaseEndDate, TenancyRegistrationExpiry, NoticeGivenDate, AnnualRent,
    PaymentFrequency, NumberOfCheques, SecurityDepositAmount, InternetTvProvider, ServiceChargesPaidBy,
    VatApplicable, Notes, FirstPaymentReceived, FirstPaymentAmount, DepositReceived, DepositReceivedAmount,
    ActualMoveOutDate, ForwardingPhone, ForwardingEmail, ForwardingAddress, FinalElectricityReading,
    FinalWaterReading, FinalGasReading, WallsCondition, FloorCondition, KitchenCondition, BathroomCondition,
    DoorsLocksCondition, KeysReturned, AccessCardsReturnedCount, ParkingStickersReturned, DamageDescription,
    DamageCharges, PendingRent, PendingUtilities, PendingServiceFines, TotalDeductions, NetRefund,
    InspectionDoneBy, InspectionDate, ManagerApproval, RefundMethod, RefundDate, AdminNotes]

  /** A stored column value. */
  datatype Raw = Null | Text(text: string) | Number(number: int) | Flag(flag: bool) | Date(at: Time) | Decimal(amount: real)

  /** A history value: dates as their ISO text, decimals as their digits, both kept symbolic. */
  datatype Value = NullValue | TextValue(text: string) | NumberValue(number: int) | FlagValue(flag: bool) | IsoValue(at: Time) | DigitsValue(amount: real)

  /** A row's columns; a column that was never written reads as undefined. */
  type Columns = map<Field, Raw>

  /** normalizeLeaseValue */
  function Normal(row: Columns, f: Field): Value {
    if f !in row then NullValue
    else match row[f]
         case Null => NullValue
         case Text(t) => TextValue(t)
         case Number(n) => NumberValue(n)
         case Flag(b) => FlagValue(b)
         case Date(t) => IsoValue(t)
         case Decimal(d) => DigitsValue(d)
  }

  datatype Change = Change(from: Value, to: Value)

  type Changes = map<Field, Change>

  /** What a change set contains: the tracked fields whose normalized values differ. */
  function ChangeSet(tracked: seq<Field>, previous: Columns, current: Columns): Changes {
    map f | f in tracked && Normal(previous, f) != Normal(current, f) :: Change(Normal(previous, f), Normal(current, f))
  }

  method BuildLeaseChangeSet(previous: Columns, current: Columns) returns (changes: Changes)
    ensures changes == ChangeSet(TRACKED, previous, current)
  {
    changes := BuildChangeSet(TRACKED, previous, current);
  }

  method BuildChangeSet(tracked: seq<Field>, previous: Columns, current: Columns) returns (changes: Changes)
    ensures changes == ChangeSet(tracked, previous, current)
  {
    changes := map[];
    for k := 0 to |tracked|
      invariant changes == ChangeSet(tracked[..k], previous, current)
    {
      var f := tracked[k];
      assert tracked[..k + 1] == tracked[..k] + [f];
      var from := Normal(previous, f);
      var to := Normal(current, f);
      if from != to {
        changes := changes[f := Change(from, to)];
      }
    }
    assert tracked[..|tracked|] == tracked;
  }

  // ------------------------------------------------------------------- replaying

  type Replayed = map<Field, Value>

  function ValueOf(r: Replayed, f: Field): Value {
    if f in r then r[f] else NullValue
  }

  function ApplyChanges(r: Replayed, changes: Changes): Replayed {
    map f | f in r.Keys + changes.Keys :: if f in changes then changes[f].to else r[f]
  }

  datatype Action = Created | Updated | MovedOut

  datatype HistoryRow = HistoryRow(lease: Id, action: Action, changes: Changes)

  /** Folding the change sets of one lease, oldest first, from an all-null record. */
  function Replay(history: seq<HistoryRow>, lease: Id): Replayed {
    if history == [] then map[]
    else
      var before := Replay(history[..|history| - 1], lease);
      var last := history[|history| - 1];
      if last.lease == lease then ApplyChanges(before, last.changes) else before
  }

  /** Every recorded "from" is the value replayed so far, for every field but status. */
  ghost predicate Continuous(history: seq<HistoryRow>) {
    forall k, f :: 0 <= k < |history| && f in history[k].changes && f != Status ==>
      history[k].changes[f].from == ValueOf(Replay(history[..k], history[k].lease), f)
  }

  /** The replay of a lease agrees with a row on the tracked fields other than status. */
  ghost predicate ReplaysTo(history: seq<HistoryRow>, lease: Id, row: Columns) {
    forall f :: f in TRACKED && f != Status ==> ValueOf(Replay(history, lease), f) == Normal(row, f)
  }

  lemma ReplayOneMore(history: seq<HistoryRow>, last: HistoryRow, lease: Id)
    ensures Replay(history + [last], lease) ==
            if last.lease == lease then ApplyChanges(Replay(history, lease), last.changes) else Replay(history, lease)
  {
    assert (history + [last])[..|history|] == history;
  }

  /** Recording the difference to the next row keeps the history continuous and makes
      it replay to that row; the other leases replay as before. */
  lemma RecordingKeepsReplay(history: seq<HistoryRow>, lease: Id, action: Action, previous: Columns, current: Columns)
    requires Continuous(history)
    requires ReplaysTo(history, lease, previous)
    ensures var more := history + [HistoryRow(lease, action, ChangeSet(TRACKED, previous, current))];
            && Continuous(more)
            && ReplaysTo(more, lease, current)
            && forall other :: other != lease ==> Replay(more, other) == Replay(history, other)
  {
    var last := HistoryRow(lease, action, ChangeSet(TRACKED, previous, current));
    var more := history + [last];
    forall other {
      ReplayOneMore(history, last, other);
    }
    forall k, f | 0 <= k < |more| && f in more[k].changes && f != Status
      ensures more[k].changes[f].from == ValueOf(Replay(more[..k], more[k].lease), f)
    {
      assert more[..k] == if k < |history| then history[..k] else history;
    }
  }

  /** Nothing to record: the history already replays to the next row. */
  lemma UnchangedKeepsReplay(history: seq<HistoryRow>, lease: Id, previous: Columns, current: Columns)
    requires ReplaysTo(history, lease, previous)
    requires ChangeSet(TRACKED, previous, current) == map[]
    ensures ReplaysTo(history, lease, current)
  {
    forall f | f in TRACKED && f != Status
      ensures ValueOf(Replay(history, lease), f) == Normal(current, f)
    {
      assert f !in ChangeSet(TRACKED, previous, current);
    }
  }

  /** A lease without history replays to the row that never was. */
  lemma {:induction false} NoRowsReplayToNothing(history: seq<HistoryRow>, lease: Id)
    requires forall k :: 0 <= k < |history| ==> history[k].lease != lease
    ensures Replay(history, lease) == map[]
    ensures ReplaysTo(history, lease, map[])
  {
    if history != [] {
      NoRowsReplayToNothing(history[..|history| - 1], lease);
    }
  }
}
