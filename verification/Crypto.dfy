/** Crypto conversions, settled leg by leg, and withdrawals, undone by reversing their postings. */
module Crypto {
  import opened Results
  import opened Decimals
  import opened Entries
  import Ledger
  import opened Router

  type Customer = string
  type Asset = Currency

  datatype AssetAccounts = AssetAccounts(customer: AccountId, inventory: AccountId)
  datatype UsdAccounts = UsdAccounts(routing: AccountId, venueFees: AccountId, platformFees: AccountId)

  datatype ConversionStatus = Routing | Filled | PartiallyFilled | ReviewRequired | Failed
  datatype Conversion = Conversion(customer: Customer, source: Asset, destination: Asset, amount: Decimal,
      status: ConversionStatus)

  datatype Leg = Leg(conversion: nat, sequence: int, route: Route)

  /** `details` is the rest of a hashed request: scenario and risk flag of a conversion, the address of a withdrawal. */
  datatype ConvertCommand = ConvertCommand(
    customer: Customer, key: string, source: Asset, destination: Asset, amount: Decimal, details: string)
  datatype WithdrawCommand = WithdrawCommand(
    customer: Customer, key: string, asset: Asset, quantity: Decimal, details: string)

  datatype WithdrawalStatus = Approved | Broadcast | Confirmed | WithdrawalFailed
  datatype EventType = BroadcastEvent | ConfirmedEvent | FailedEvent

  /** A withdrawal and the ledger transactions it made, by number. */
  datatype Withdrawal = Withdrawal(
    customer: Customer, asset: Asset, quantity: Decimal, status: WithdrawalStatus,
    reservation: nat, broadcast: Option<nat>, reservationReversal: Option<nat>, broadcastReversal: Option<nat>)

  datatype EventRow = EventRow(withdrawal: nat, kind: EventType, payload: seq<bv8>)

  datatype CryptoError =
    | InvalidCommand | IdempotencyConflict | EventConflict | InvalidState | NotFound | InsufficientCash
    | InsufficientAsset
    | LedgerRejected | RowRejected | RoutingFailed | AlreadyReversed | Arithmetic

  /** `postings` are the ledger's transactions in order; `reversed` those that have a reversal. */
  datatype Book = Book(
    cash: map<Customer, AccountId>,
    assets: map<(Customer, Asset), AssetAccounts>,
    usd: UsdAccounts,
    conversions: seq<Conversion>,
    legs: seq<Leg>,
    withdrawals: seq<Withdrawal>,
    conversionKeys: map<(Customer, string), (ConvertCommand, nat)>,
    withdrawalKeys: map<(Customer, string), (WithdrawCommand, nat)>,
    events: map<string, EventRow>,
    postings: seq<seq<Entry>>,
    reversed: set<nat>)
  {
    /** The accounts of a customer and an asset exist. */
    predicate Knows(c: Customer, a: Asset) {
      c in cash && (a == USD || (c, a) in assets)
    }
  }

  /** The debit balance over all postings. */
  function Total(ps: seq<seq<Entry>>, k: Key): int {
    if ps == [] then 0 else Total(ps[..|ps| - 1], k) + Balance(ps[|ps| - 1], k)
  }

  function ReadBalance(b: Book, k: Key): Result<Decimal, CryptoError> {
    if ValidCurrency(k.currency) && FromCoefficient(Total(b.postings, k)).Success? then Success(Total(b.postings, k))
      else Failure(Arithmetic)
  }

  /** The customer's account for an asset. */
  function Holder(b: Book, c: Customer, a: Asset): AccountId
    requires b.Knows(c, a)
  {
    if a == USD then b.cash[c] else b.assets[(c, a)].customer
  }

  // ---- Postings ----

  function Pair(first: AccountId, second: AccountId, c: Currency, d: Dimension, side: Direction,
      amount: Decimal): seq<Entry>
  {
    [Entry(first, c, d, side, amount), Entry(second, c, d, Opposite(side), amount)]
  }

  /** Settled, and for cash also withdrawable, moves into held. */
  function ReserveEntries(b: Book, c: Customer, a: Asset, amount: Decimal): seq<Entry>
    requires b.Knows(c, a)
  {
    if a == USD then
      Pair(b.cash[c], b.usd.routing, USD, Settled, Credit, amount)
      + Pair(b.cash[c], b.usd.routing, USD, Withdrawable, Credit, amount)
      + Pair(b.cash[c], b.usd.routing, USD, Held, Debit, amount)
    else
      var s := b.assets[(c, a)];
      Pair(s.customer, s.inventory, a, Settled, Credit, amount) + Pair(s.customer, s.inventory, a, Held, Debit, amount)
  }

  function ReleaseEntries(b: Book, c: Customer, a: Asset, amount: Decimal): seq<Entry>
    requires b.Knows(c, a)
  {
    if a == USD then
      Pair(b.cash[c], b.usd.routing, USD, Held, Credit, amount)
      + Pair(b.cash[c], b.usd.routing, USD, Settled, Debit, amount)
      + Pair(b.cash[c], b.usd.routing, USD, Withdrawable, Debit, amount)
    else
      var s := b.assets[(c, a)];
      Pair(s.customer, s.inventory, a, Held, Credit, amount) + Pair(s.customer, s.inventory, a, Settled, Debit, amount)
  }

  function FeeEntries(u: UsdAccounts, d: Dimension, r: Route): seq<Entry> {
    (if r.venueFee > 0 then [Entry(u.venueFees, USD, d, Debit, r.venueFee)] else [])
    + (if r.platformFee > 0 then [Entry(u.platformFees, USD, d, Debit, r.platformFee)] else [])
  }

  /** A sale under review is frozen instead of settled, and not withdrawable. */
  function SellEntries(b: Book, c: Customer, a: Asset, r: Route, review: bool): seq<Entry>
    requires c in b.cash && (c, a) in b.assets
  {
    var s := b.assets[(c, a)];
    var d := if review then Frozen else Settled;
    Pair(s.customer, s.inventory, a, Held, Credit, r.filled)
    + [Entry(b.usd.routing, USD, d, Credit, r.gross), Entry(b.cash[c], USD, d, Debit, r.final)]
    + FeeEntries(b.usd, d, r)
    + if review then [] else Pair(b.cash[c], b.usd.routing, USD, Withdrawable, Debit, r.final)
  }

  /** A purchase pays from the reservation, or from settled and withdrawable cash. */
  function BuyEntries(b: Book, c: Customer, r: Route, fromReservation: bool): seq<Entry>
    requires c in b.cash && (c, r.asset) in b.assets
  {
    var s := b.assets[(c, r.asset)];
    var d := if fromReservation then Held else Settled;
    [Entry(b.cash[c], USD, d, Credit, r.final), Entry(b.usd.routing, USD, d, Debit, r.gross)]
    + Pair(s.customer, s.inventory, r.asset, Settled, Debit, r.filled)
    + FeeEntries(b.usd, d, r)
    + if fromReservation then [] else Pair(b.cash[c], b.usd.routing, USD, Withdrawable, Credit, r.final)
  }

  function BroadcastEntries(b: Book, c: Customer, a: Asset, quantity: Decimal): seq<Entry>
    requires (c, a) in b.assets
  {
    Pair(b.assets[(c, a)].customer, b.assets[(c, a)].inventory, a, Held, Credit, quantity)
  }

  // ---- Conversions ----

  datatype Outcome<T> = Outcome(book: Book, result: Result<T, CryptoError>)

  predicate HasLeg(b: Book, i: nat, sequence: int) {
    exists l :: 0 <= l < |b.legs| && b.legs[l].conversion == i && b.legs[l].sequence == sequence
  }

  function LegAt(b: Book, i: nat, sequence: int): Leg
    requires HasLeg(b, i, sequence)
  {
    FindLeg(b.legs, i, sequence)
  }

  function FindLeg(ls: seq<Leg>, i: nat, sequence: int): Leg
    requires exists l :: 0 <= l < |ls| && ls[l].conversion == i && ls[l].sequence == sequence
  {
    if ls[|ls| - 1].conversion == i && ls[|ls| - 1].sequence == sequence then ls[|ls| - 1]
      else FindLeg(ls[..|ls| - 1], i, sequence)
  }

  predicate ValidConversion(c: ConvertCommand) {
    Ledger.IsKey(c.key) && c.amount > 0 && c.source != c.destination && ValidCurrency(c.source)
      && ValidCurrency(c.destination)
  }

  function ReserveRefusal(b: Book, c: Customer, a: Asset, amount: Decimal): Option<CryptoError>
    requires b.Knows(c, a)
  {
    var settled := ReadBalance(b, Key(Holder(b, c, a), a, Settled));
    var withdrawable := if a == USD then ReadBalance(b, Key(b.cash[c], USD, Withdrawable)) else settled;
    if settled.Failure? || withdrawable.Failure? then Some(Arithmetic)
    else if settled.value < amount || withdrawable.value < amount
      then Some(if a == USD then InsufficientCash else InsufficientAsset)
    else None
  }

  function WithConversion(b: Book, c: ConvertCommand): Book
    requires b.Knows(c.customer, c.source)
  {
    b.(conversions := b.conversions + [Conversion(c.customer, c.source, c.destination, c.amount, Routing)],
       conversionKeys := b.conversionKeys[(c.customer, c.key) := (c, |b.conversions|)],
       postings := b.postings + [ReserveEntries(b, c.customer, c.source, c.amount)])
  }

  /** Reserves the source of a new conversion, or finds the one this key already started. */
  ghost function ConversionReserved(b: Book, c: ConvertCommand): Outcome<nat> {
    var key := (c.customer, c.key);
    if !ValidConversion(c) || !b.Knows(c.customer, c.source) || !b.Knows(c.customer, c.destination)
      then Outcome(b, Failure(CryptoError.InvalidCommand))
    else if key in b.conversionKeys then
      Outcome(b, if b.conversionKeys[key].0 == c then Success(b.conversionKeys[key].1)
        else Failure(CryptoError.IdempotencyConflict))
    else if ReserveRefusal(b, c.customer, c.source, c.amount).Some? then
      Outcome(b, Failure(ReserveRefusal(b, c.customer, c.source, c.amount).value))
    else if Check(ReserveEntries(b, c.customer, c.source, c.amount)).Failure? then Outcome(b, Failure(LedgerRejected))
    else Outcome(WithConversion(b, c), Success(|b.conversions|))
  }

  /** The postings of a finished leg: what was filled, and the release of what was not used. */
  function LegPostings(filled: Decimal, leg: seq<Entry>, rest: Decimal, release: seq<Entry>): seq<seq<Entry>> {
    (if filled > 0 then [leg] else []) + (if rest > 0 then [release] else [])
  }

  function SellPostings(b: Book, x: Conversion, r: Route, review: bool): seq<seq<Entry>>
    requires b.Knows(x.customer, x.source) && x.source != USD
  {
    LegPostings(r.filled, SellEntries(b, x.customer, x.source, r, review), x.amount - r.filled,
                ReleaseEntries(b, x.customer, x.source, x.amount - r.filled))
  }

  predicate StoredLegs(ls: seq<Leg>) {
    forall l | 0 <= l < |ls| :: StoredRoute(ls[l].route)
  }

  function Blocked(a: Asset, input: Decimal): Route {
    Route(a, input, 0, 0, 0, 0, 0, 0, 0, RouteBlocked, 0, [])
  }

  /** A reviewed sale of a crypto-to-crypto conversion also records its second leg, blocked. */
  function SellLegs(i: nat, x: Conversion, r: Route, review: bool): seq<Leg> {
    [Leg(i, 1, r)] + if review && x.destination != USD then [Leg(i, 2, Blocked(x.destination, r.final))] else []
  }

  function StatusOf(s: RouteStatus): ConversionStatus {
    match s case RouteFilled => Filled case RoutePartial => PartiallyFilled case _ => Failed
  }

  function SellStatus(x: Conversion, r: Route, review: bool): ConversionStatus {
    if review then ReviewRequired
    else if x.destination == USD || r.status.RouteFailed? then StatusOf(r.status)
    else Routing
  }

  function WithSell(b: Book, i: nat, r: Route, review: bool): Book
    requires i < |b.conversions| && b.Knows(b.conversions[i].customer, b.conversions[i].source)
             && b.conversions[i].source != USD
  {
    var x := b.conversions[i];
    b.(conversions := b.conversions[i := x.(status := SellStatus(x, r, review))],
       legs := b.legs + SellLegs(i, x, r, review),
       postings := b.postings + SellPostings(b, x, r, review))
  }

  /** Settles the sale of a conversion once; `flagged` is the compliance decision, which only a filled sale can draw. */
  ghost function SellFinalized(b: Book, i: nat, r: Route, flagged: bool): Outcome<bool> {
    if i >= |b.conversions| || !b.Knows(b.conversions[i].customer, b.conversions[i].source)
      || b.conversions[i].source == USD then
      Outcome(b, Failure(NotFound))
    else
      var x := b.conversions[i];
      var review := flagged && r.filled > 0;
      if !x.status.Routing? then Outcome(b, Success(true))
      else if exists l :: 0 <= l < |b.legs| && b.legs[l].conversion == i then Outcome(b, Success(false))
      else if !AllPass(SellPostings(b, x, r, review)) then Outcome(b, Failure(LedgerRejected))
      else if !StoredLegs(SellLegs(i, x, r, review)) then Outcome(b, Failure(RowRejected))
      else Outcome(WithSell(b, i, r, review), Success(!SellStatus(x, r, review).Routing?))
  }

  function BuySequence(x: Conversion): int {
    if x.source == USD then 1 else 2
  }

  function BuyPostings(b: Book, x: Conversion, r: Route): seq<seq<Entry>>
    requires b.Knows(x.customer, x.source) && (x.customer, r.asset) in b.assets
  {
    LegPostings(r.filled, BuyEntries(b, x.customer, r, x.source == USD), if x.source == USD then r.unspent else 0,
                ReleaseEntries(b, x.customer, x.source, r.unspent))
  }

  /** A filled purchase after a partial sale makes the conversion partial. */
  function BuyStatus(b: Book, i: nat, x: Conversion, r: Route): ConversionStatus {
    if x.source != USD && r.status.RouteFilled? && HasLeg(b, i, 1) && LegAt(b, i, 1).route.status.RoutePartial?
    then PartiallyFilled else StatusOf(r.status)
  }

  function WithBuy(b: Book, i: nat, r: Route): Book
    requires i < |b.conversions| && b.Knows(b.conversions[i].customer, b.conversions[i].source)
    requires (b.conversions[i].customer, r.asset) in b.assets
  {
    var x := b.conversions[i];
    b.(conversions := b.conversions[i := x.(status := BuyStatus(b, i, x, r))],
       legs := b.legs + [Leg(i, BuySequence(x), r)],
       postings := b.postings + BuyPostings(b, x, r))
  }

  /** Settles the purchase of a conversion once, and only after its sale if it has one. */
  ghost function BuyFinalized(b: Book, i: nat, r: Route): Outcome<()> {
    if i >= |b.conversions| || !b.Knows(b.conversions[i].customer, b.conversions[i].source)
       || r.asset == USD || (b.conversions[i].customer, r.asset) !in b.assets then Outcome(b, Failure(NotFound))
    else
      var x := b.conversions[i];
      if x.source != USD && !HasLeg(b, i, 1) then Outcome(b, Failure(InvalidState))
      else if !x.status.Routing? || HasLeg(b, i, BuySequence(x)) then Outcome(b, Success(()))
      else if !AllPass(BuyPostings(b, x, r)) then Outcome(b, Failure(LedgerRejected))
      else if !StoredRoute(r) then Outcome(b, Failure(RowRejected))
      else Outcome(WithBuy(b, i, r), Success(()))
  }

  /** The budget of a conversion's purchase: its source, or what its sale brought. */
  function Budget(b: Book, i: nat): Option<Decimal>
    requires i < |b.conversions|
  {
    if b.conversions[i].source == USD then Some(b.conversions[i].amount)
    else if HasLeg(b, i, 1) then Some(LegAt(b, i, 1).route.final)
    else None
  }

  /** Routes and settles the sale of a conversion; quotes and answers of the venues are given. */
  ghost function SaleSettled(b: Book, i: nat, rate: Decimal, venues: Candidates, flagged: bool): Outcome<bool> {
    if i >= |b.conversions| then Outcome(b, Failure(NotFound))
    else
      var x := b.conversions[i];
      var route := SaleRoute(x.source, x.amount, rate, venues);
      if route.Failure? then Outcome(b, Failure(RoutingFailed)) else SellFinalized(b, i, route.value, flagged)
  }

  /** Routes and settles its purchase. */
  ghost function PurchaseSettled(b: Book, i: nat, rate: Decimal, venues: Candidates): Outcome<()> {
    if i >= |b.conversions| then Outcome(b, Failure(NotFound))
    else if Budget(b, i).None? then Outcome(b, Failure(InvalidState))
    else
      var route := PurchaseRoute(b.conversions[i].destination, Budget(b, i).value, rate, venues);
      if route.Failure? then Outcome(b, Failure(RoutingFailed)) else BuyFinalized(b, i, route.value)
  }

  // ---- Withdrawals ----

  function WithWithdrawal(b: Book, c: WithdrawCommand): Book
    requires c.customer in b.cash && (c.customer, c.asset) in b.assets && c.asset != USD
  {
    b.(withdrawals := b.withdrawals
      + [Withdrawal(c.customer, c.asset, c.quantity, Approved, |b.postings|, None, None, None)],
       withdrawalKeys := b.withdrawalKeys[(c.customer, c.key) := (c, |b.withdrawals|)],
       postings := b.postings + [ReserveEntries(b, c.customer, c.asset, c.quantity)])
  }

  ghost function WithdrawalRequested(b: Book, c: WithdrawCommand): Outcome<nat> {
    var key := (c.customer, c.key);
    if !Ledger.IsKey(c.key) || c.quantity <= 0 || c.asset == USD || !b.Knows(c.customer, c.asset)
      then Outcome(b, Failure(CryptoError.InvalidCommand))
    else if key in b.withdrawalKeys then
      Outcome(b, if b.withdrawalKeys[key].0 == c then Success(b.withdrawalKeys[key].1)
        else Failure(CryptoError.IdempotencyConflict))
    else if ReserveRefusal(b, c.customer, c.asset, c.quantity).Some? then
      Outcome(b, Failure(ReserveRefusal(b, c.customer, c.asset, c.quantity).value))
    else if Check(ReserveEntries(b, c.customer, c.asset, c.quantity)).Failure? then Outcome(b, Failure(LedgerRejected))
    else Outcome(WithWithdrawal(b, c), Success(|b.withdrawals|))
  }

  function WithBroadcast(b: Book, w: nat): Book
    requires w < |b.withdrawals| && (b.withdrawals[w].customer, b.withdrawals[w].asset) in b.assets
  {
    var x := b.withdrawals[w];
    b.(withdrawals := b.withdrawals[w := x.(status := Broadcast, broadcast := Some(|b.postings|))],
       postings := b.postings + [BroadcastEntries(b, x.customer, x.asset, x.quantity)])
  }

  function WithConfirmation(b: Book, w: nat): Book
    requires w < |b.withdrawals|
  {
    b.(withdrawals := b.withdrawals[w := b.withdrawals[w].(status := Confirmed)])
  }

  /** A failure reverses the reservation, and before that the broadcast if there was one. */
  function WithFailure(b: Book, w: nat): Book
    requires w < |b.withdrawals| && b.withdrawals[w].reservation < |b.postings|
    requires b.withdrawals[w].status.Broadcast? ==>
             b.withdrawals[w].broadcast.Some? && b.withdrawals[w].broadcast.value < |b.postings|
  {
    var x := b.withdrawals[w];
    var first := if x.status.Broadcast? then [Reversed(b.postings[x.broadcast.value])] else [];
    b.(withdrawals := b.withdrawals[w := x.(
         status := WithdrawalFailed,
         broadcastReversal := if x.status.Broadcast? then Some(|b.postings|) else x.broadcastReversal,
         reservationReversal := Some(|b.postings| + |first|))],
       postings := b.postings + first + [Reversed(b.postings[x.reservation])],
       reversed := b.reversed + {x.reservation} + if x.status.Broadcast? then {x.broadcast.value} else {})
  }

  predicate Reversible(b: Book, t: nat) {
    t < |b.postings| && t !in b.reversed
  }

  ghost function Transitioned(b: Book, w: nat, kind: EventType): Result<Book, CryptoError>
    requires w < |b.withdrawals|
  {
    var x := b.withdrawals[w];
    match kind
    case BroadcastEvent =>
      if !x.status.Approved? then Failure(InvalidState)
      else if (x.customer, x.asset) !in b.assets then Failure(NotFound)
      else if Check(BroadcastEntries(b, x.customer, x.asset, x.quantity)).Failure? then Failure(LedgerRejected)
      else Success(WithBroadcast(b, w))
    case ConfirmedEvent => if !x.status.Broadcast? then Failure(InvalidState) else Success(WithConfirmation(b, w))
    case FailedEvent =>
      if !x.status.Approved? && !x.status.Broadcast? then Failure(InvalidState)
      else if x.status.Broadcast? && (x.broadcast.None? || !Reversible(b, x.broadcast.value))
        then Failure(CryptoError.AlreadyReversed)
      else if !Reversible(b, x.reservation) then Failure(CryptoError.AlreadyReversed)
      else Success(WithFailure(b, w))
  }

  /** A provider event takes effect once; the same event again only finds the withdrawal. */
  ghost function EventApplied(b: Book, id: string, e: EventRow): Outcome<()> {
    if id == "" || e.payload == [] then Outcome(b, Failure(CryptoError.InvalidCommand))
    else if id in b.events then Outcome(b, if b.events[id] == e then Success(()) else Failure(EventConflict))
    else if e.withdrawal >= |b.withdrawals| then Outcome(b, Failure(NotFound))
    else
      var next := Transitioned(b, e.withdrawal, e.kind);
      if next.Failure? then Outcome(b, Failure(next.error))
      else Outcome(next.value.(events := b.events[id := e]), Success(()))
  }
}
