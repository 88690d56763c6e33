/**
 Minting, redeeming and recovering share-backed tokens: a protocol between a database, whose
 transactions are atomic, and a chain, whose calls may be lost, delayed or repeated.
 */
module RwaSaga {
  import opened Results
  import opened Decimals
  import opened Sums
  import Ledger

  type Customer = string
  type Asset = nat
  type Address = string

  /** A mint, its lock, its share reservation and its only possible redemption share one number. */
  type MintId = nat

  datatype OperationId = MintOp(mint: MintId) | RedemptionOp(mint: MintId)

  datatype MintStatus = UnderlyingLocked | ChainPending | Minted | RecoveryRequired | FailedRecovered
  datatype RedemptionStatus = Requested | BurnPending | BurnConfirmed | BurnRecoveryRequired | Completed
  datatype OperationStatus = Pending | Confirmed | OutcomeUnknown | OperationFailed | DeadLetter

  datatype FailureCode = NoFailure | ChainReverted | ChainOutcomeUnknown | MintNotExecuted | RecoveryAttemptFailed
  datatype EventKind = MintConfirmedEvent | BurnConfirmedEvent | ForcedRedemptionConfirmedEvent

  datatype Custody = PlatformVault | ExternalAddress | UnknownCustody

  datatype Owner = Owner(customer: Customer, asset: Asset)

  datatype Mint = Mint(owner: Owner, quantity: Decimal, custody: Custody, destination: Address, status: MintStatus)
  datatype Lock = Lock(owner: Owner, quantity: Decimal, locked: bool)
  datatype Reservation = Reservation(owner: Owner, quantity: Decimal, active: bool)
  datatype Redemption = Redemption(owner: Owner, quantity: Decimal, source: Address, forced: bool,
      status: RedemptionStatus)
  datatype Operation = Operation(status: OperationStatus, txHash: string, attempts: nat, error: FailureCode,
      claimed: bool)
  datatype EventRow = EventRow(kind: EventKind, payload: Payload, operation: OperationId)

  /** The provider's event identity; recovery without a transaction hash derives one from the operation. */
  datatype EventId = NoEvent | Event(id: string) | RecoveryEvent(operation: OperationId)
  datatype Payload = Raw(content: string) | Rebuilt(operation: OperationId, txHash: string)

  datatype MintCommand = MintCommand(customer: Customer, key: string, asset: Asset, quantity: Decimal, custody: Custody,
      address: Address)
  datatype RedeemCommand = RedeemCommand(customer: Customer, key: string, mint: MintId, forced: bool)

  datatype SagaError =
    | InvalidCommand | InvalidState | IdempotencyConflict | AssetNotFound | AddressNotActive | InsufficientShares
    | HoldingNotFound | NotFound | ConstraintViolation | OperationUnknown | NeedsRecovery | EventConflict
    | ProviderFailure

  /** What a provider call returns; no error and `confirmed` is the only positive answer. */
  datatype Response = Response(confirmed: bool, reverted: bool, failed: bool, txHash: string, eventId: EventId,
      payload: Payload)
  {
    predicate Positive() {
      confirmed && !failed
    }

    function Code(): FailureCode {
      if failed && reverted then ChainReverted else ChainOutcomeUnknown
    }
  }

  const MAXIMUM_ATTEMPTS: nat := 8

  datatype Tables = Tables(
    mints: seq<Mint>,
    locks: seq<Lock>,
    reservations: seq<Reservation>,
    redemptions: map<MintId, Redemption>,
    operations: map<OperationId, Operation>,
    holdings: map<Owner, Decimal>,
    events: map<EventId, EventRow>,
    mintKeys: map<(Customer, string), (MintCommand, MintId)>,
    redemptionKeys: map<(Customer, string), (RedeemCommand, MintId)>,
    positions: map<Owner, Decimal>,
    enabled: set<Asset>)
  {
    /** Stored rows refer to each other by number. */
    predicate Consistent() {
      |locks| == |mints| && |reservations| == |mints| && forall m | m in redemptions :: m < |mints|
    }

    predicate HasLock(m: MintId) {
      m < |locks| && m < |reservations|
    }

    function Reserved(owner: Owner): int {
      Sum((i: nat) => if i < |reservations| && reservations[i].active && reservations[i].owner == owner
        then reservations[i].quantity else 0,
          |reservations|)
    }

    function Locked(asset: Asset): int {
      Sum((i: nat) => if i < |locks| && locks[i].locked && locks[i].owner.asset == asset then locks[i].quantity
        else 0, |locks|)
    }

    function Holding(owner: Owner): Decimal {
      if owner in holdings then holdings[owner] else 0
    }
  }

  predicate WholeShares(q: Decimal) {
    q > 0 && q % UNIT == 0
  }

  // ---- Single-row updates ----

  /** A row of chain operations after an update: one more attempt, and no claim. */
  function Touch(t: Tables, op: OperationId, status: OperationStatus, txHash: string, error: FailureCode): Tables
    requires op in t.operations
  {
    t.(operations := t.operations[op := Operation(status, txHash, t.operations[op].attempts + 1, error, false)])
  }

  function WithMintStatus(t: Tables, m: MintId, status: MintStatus): Tables
    requires m < |t.mints|
  {
    t.(mints := t.mints[m := t.mints[m].(status := status)])
  }

  function WithRedemptionStatus(t: Tables, m: MintId, status: RedemptionStatus): Tables
    requires m in t.redemptions
  {
    t.(redemptions := t.redemptions[m := t.redemptions[m].(status := status)])
  }

  function WithHolding(t: Tables, owner: Owner, quantity: Decimal): Tables {
    t.(holdings := t.holdings[owner := quantity])
  }

  /** Frees a lock and its reservation, if the lock is still held. */
  function Released(t: Tables, m: MintId): Tables
    requires t.HasLock(m)
  {
    var held := t.locks[m].locked;
    t.(locks := t.locks[m := t.locks[m].(locked := false)],
       reservations := t.reservations[m := t.reservations[m].(active := t.reservations[m].active && !held)])
  }

  /** The provider reported this event before, about something else. */
  predicate EventConflicts(t: Tables, eventId: EventId, row: EventRow) {
    eventId != NoEvent && eventId in t.events && t.events[eventId] != row
  }

  function WithEvent(t: Tables, eventId: EventId, row: EventRow): Tables {
    t.(events := if eventId == NoEvent then t.events else t.events[eventId := row])
  }

  /** Share custody: enough unreserved shares, else nothing. */
  predicate Reservable(t: Tables, owner: Owner, quantity: Decimal) {
    && owner in t.positions
    && var available := Sub(t.positions[owner], t.Reserved(owner));
       available.Success? && available.value >= quantity
  }

  // ---- One function per database transaction ----

  /** The tables after a transaction, and what it returned. A rolled-back transaction leaves the tables as they were. */
  datatype Outcome<T> = Outcome(tables: Tables, result: Result<T, SagaError>)

  /** A started saga: its number, and whether this call started it. */
  datatype Started = Started(id: MintId, isNew: bool)

  function MintBegun(t: Tables, c: MintCommand, eligible: bool, destination: Option<Address>): Outcome<Started> {
    var owner := Owner(c.customer, c.asset);
    var key := (c.customer, c.key);
    if !WholeShares(c.quantity) || c.custody.UnknownCustody? then Outcome(t, Failure(InvalidCommand))
    else if !eligible then Outcome(t, Failure(InvalidState))
    else if !Ledger.IsKey(c.key) then Outcome(t, Failure(InvalidCommand))
    else if key in t.mintKeys then
      Outcome(t, if t.mintKeys[key].0 == c then Success(Started(t.mintKeys[key].1, false))
        else Failure(IdempotencyConflict))
    else if c.asset !in t.enabled then Outcome(t, Failure(AssetNotFound))
    else if destination.None? then Outcome(t, Failure(AddressNotActive))
    else if !Reservable(t, owner, c.quantity) then Outcome(t, Failure(InsufficientShares))
    else Outcome(MintOpened(t, c, destination.value), Success(Started(|t.mints|, true)))
  }

  function MintOpened(t: Tables, c: MintCommand, destination: Address): Tables {
    var owner := Owner(c.customer, c.asset);
    var id := |t.mints|;
    t.(
    mints := t.mints + [Mint(owner, c.quantity, c.custody, destination, ChainPending)],
    locks := t.locks + [Lock(owner, c.quantity, true)],
    reservations := t.reservations + [Reservation(owner, c.quantity, true)],
    operations := t.operations[MintOp(id) := Operation(Pending, "", 0, NoFailure, false)],
    mintKeys := t.mintKeys[(c.customer, c.key) := (c, id)])
  }

  function MintFinished(t: Tables, m: MintId, response: Response): Outcome<MintStatus> {
    if m >= |t.mints| then Outcome(t, Failure(NotFound))
    else if t.mints[m].status.Minted? || t.mints[m].status.FailedRecovered? then Outcome(t, Success(t.mints[m].status))
    else if MintOp(m) !in t.operations then Outcome(t, Failure(NotFound))
    else if !response.Positive() then
      Outcome(Touch(WithMintStatus(t, m, RecoveryRequired), MintOp(m), OutcomeUnknown, response.txHash,
        response.Code()),
       Failure(OperationUnknown))
    else MintConfirmed(t, m, response)
  }

  /** A confirmed mint is recorded once per provider event and adds to the owner's holding. */
  function MintConfirmed(t: Tables, m: MintId, response: Response): Outcome<MintStatus>
    requires m < |t.mints| && MintOp(m) in t.operations
  {
    var row := EventRow(MintConfirmedEvent, response.payload, MintOp(m));
    var owner := t.mints[m].owner;
    var holding := t.Holding(owner) + t.mints[m].quantity;
    if EventConflicts(t, response.eventId, row) then Outcome(t, Failure(EventConflict))
    else if holding >= LIMIT then Outcome(t, Failure(ConstraintViolation))
    else
      Outcome(Touch(WithMintStatus(WithHolding(WithEvent(t, response.eventId, row), owner, holding), m, Minted),
        MintOp(m), Confirmed, response.txHash, NoFailure),
       Success(Minted))
  }

  function FailedMintRecovered(t: Tables, m: MintId): Outcome<()> {
    if m >= |t.mints| then Outcome(t, Failure(NotFound))
    else if t.mints[m].status.FailedRecovered? then Outcome(t, Success(()))
    else if !t.HasLock(m) || MintOp(m) !in t.operations then Outcome(t, Failure(NotFound))
    else Outcome(Touch(WithMintStatus(Released(t, m), m, FailedRecovered), MintOp(m), OperationFailed, "",
      MintNotExecuted), Success(()))
  }

  function RedemptionBegun(t: Tables, c: RedeemCommand, eligible: bool): Outcome<Started> {
    var key := (c.customer, c.key);
    if !eligible then Outcome(t, Failure(InvalidState))
    else if !Ledger.IsKey(c.key) then Outcome(t, Failure(InvalidCommand))
    else if key in t.redemptionKeys then
      Outcome(t, if t.redemptionKeys[key].0 == c then Success(Started(t.redemptionKeys[key].1, false))
        else Failure(IdempotencyConflict))
    else if c.mint >= |t.mints| || t.mints[c.mint].owner.customer != c.customer || !t.mints[c.mint].status.Minted? then
      Outcome(t, Failure(HoldingNotFound))
    else
      var mint := t.mints[c.mint];
      if !t.HasLock(c.mint) || !t.locks[c.mint].locked || t.locks[c.mint].quantity != mint.quantity
        then Outcome(t, Failure(InvalidState))
      else if t.Holding(mint.owner) < mint.quantity then Outcome(t, Failure(HoldingNotFound))
      else if c.mint in t.redemptions then Outcome(t, Failure(ConstraintViolation))   // the lock's unique redemption
      else if mint.owner.asset !in t.enabled then Outcome(t, Failure(AssetNotFound))
      else Outcome(RedemptionOpened(t, c), Success(Started(c.mint, true)))
  }

  function RedemptionOpened(t: Tables, c: RedeemCommand): Tables
    requires c.mint < |t.mints|
  {
    var mint := t.mints[c.mint];
    t.(
    redemptions := t.redemptions[c.mint :=
      Redemption(mint.owner, mint.quantity, mint.destination, c.forced, BurnPending)],
    operations := t.operations[RedemptionOp(c.mint) := Operation(Pending, "", 0, NoFailure, false)],
    redemptionKeys := t.redemptionKeys[(c.customer, c.key) := (c, c.mint)])
  }

  /** `executed` is the chain's answer to the query inside the transaction; None when the query fails. */
  function RedemptionFinished(t: Tables, m: MintId, response: Response, executed: Option<bool>)
      : Outcome<RedemptionStatus>
  {
    if m !in t.redemptions then Outcome(t, Failure(NotFound))
    else if t.redemptions[m].status.Completed? then Outcome(t, Success(Completed))
    else if RedemptionOp(m) !in t.operations then Outcome(t, Failure(NotFound))
    else if !response.Positive() then
      Outcome(BurnUnknown(t, m, response), Failure(OperationUnknown))
    else if t.redemptions[m].owner.asset !in t.enabled then Outcome(t, Failure(AssetNotFound))
    else if executed != Some(true) then Outcome(t, Failure(NeedsRecovery))
    else RedemptionConfirmed(t, m, response)
  }

  function BurnUnknown(t: Tables, m: MintId, response: Response): Tables
    requires m in t.redemptions && RedemptionOp(m) in t.operations
  {
    Touch(WithRedemptionStatus(t, m, BurnRecoveryRequired), RedemptionOp(m), OutcomeUnknown, response.txHash,
      response.Code())
  }

  /** Releases the shares of an executed burn, if they are still locked and the holding covers them. */
  function RedemptionConfirmed(t: Tables, m: MintId, response: Response): Outcome<RedemptionStatus>
    requires m in t.redemptions && RedemptionOp(m) in t.operations
  {
    var redemption := t.redemptions[m];
    var holding := t.Holding(redemption.owner) - redemption.quantity;
    var kind := if redemption.forced then ForcedRedemptionConfirmedEvent else BurnConfirmedEvent;
    var row := EventRow(kind, response.payload, RedemptionOp(m));
    if !t.HasLock(m) || !t.locks[m].locked then Outcome(t, Failure(InvalidState))
    else if holding < 0 then Outcome(t, Failure(NotFound))
    else if EventConflicts(t, response.eventId, row) then Outcome(t, Failure(EventConflict))
    else
      Outcome(Touch(WithRedemptionStatus(Released(WithHolding(WithEvent(t, response.eventId, row), redemption.owner,
        holding), m), m, Completed),
             RedemptionOp(m), Confirmed, response.txHash, NoFailure),
       Success(Completed))
  }

  predicate Claimable(t: Tables, op: OperationId) {
    && op in t.operations
    && (t.operations[op].status.Pending? || t.operations[op].status.OutcomeUnknown?)
    && t.operations[op].attempts < MAXIMUM_ATTEMPTS && !t.operations[op].claimed
  }

  function Claimed(t: Tables, ops: seq<OperationId>): Tables {
    t.(operations := map op | op in t.operations :: if op in ops && Claimable(t, op)
      then t.operations[op].(claimed := true) else t.operations[op])
  }

  function Deferred(t: Tables, op: OperationId, reason: FailureCode): Tables {
    if op in t.operations then Touch(t, op, OutcomeUnknown, t.operations[op].txHash, reason) else t
  }

  function ExhaustedMoved(t: Tables): Tables {
    t.(operations := map op | op in t.operations ::
      var o := t.operations[op];
      if (o.status.Pending? || o.status.OutcomeUnknown? || o.status.OperationFailed?) && o.attempts >= MAXIMUM_ATTEMPTS
      then o.(status := DeadLetter, claimed := false) else o)
  }
}
