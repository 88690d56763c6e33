/** Orders, broker events, fills and share custody on top of the ledger and the position projection. */
module Securities {
  import opened Results
  import opened Decimals
  import opened Entries
  import Ledger
  import Positions

  const USD: Currency := "USD"
  const NOTIONAL_POLICY := Policy("paper-usd-notional-v1", 2, HalfEven)

  type Paper = string

  /** One position: a paper account's holding of one symbol. */
  datatype Owner = Owner(account: Paper, symbol: Currency)

  datatype SecurityAccounts = SecurityAccounts(customer: AccountId, inventory: AccountId, locked: AccountId)
  datatype CashAccounts = CashAccounts(cash: AccountId, funding: AccountId)

  datatype OrderStatus = PendingSubmission | Open | PartiallyFilled | Filled | Cancelled | Rejected | Expired

  datatype Order = Order(owner: Owner, buy: bool, quantity: Decimal, filled: Decimal, average: Decimal,
      status: OrderStatus, cursor: int)
  datatype Fill = Fill(order: nat, eventId: string, sequence: int, quantity: Decimal, price: Decimal,
      consideration: Decimal)
  datatype Reservation = Reservation(owner: Owner, quantity: Decimal, active: bool)

  datatype EventKind = Opened | Ended | Refused | Filling(quantity: Decimal, price: Decimal, sequence: int)

  /** An event as the broker reports it: its own identity, the order it names, and a replay cursor. */
  datatype BrokerEvent = BrokerEvent(id: string, order: nat, payload: seq<bv8>, cursor: int, kind: EventKind)

  datatype SecuritiesError =
    | InvalidRequest | InvalidOrderState | EventConflict | InsufficientPosition | InsufficientCash | OrderNotFound
    | LedgerRejected | RowRejected | Arithmetic

  datatype Book = Book(
    accounts: map<Owner, SecurityAccounts>,
    cash: map<Paper, CashAccounts>,
    orders: seq<Order>,
    fills: seq<Fill>,
    positions: map<Owner, Positions.Position>,
    reservations: seq<Reservation>,
    events: map<string, BrokerEvent>,
    posted: map<string, seq<bv8>>,
    journal: seq<Entry>)
  {
    function Position(owner: Owner): Positions.Position {
      if owner in positions then positions[owner] else Positions.EMPTY
    }

    predicate Knows(owner: Owner) {
      owner in accounts && owner.account in cash
    }
  }

  function Checked(r: Result<Decimal, Error>): Result<Decimal, SecuritiesError> {
    if r.Success? then Success(r.value) else Failure(Arithmetic)
  }

  function ReadBalance(journal: seq<Entry>, k: Key): Result<Decimal, SecuritiesError> {
    if ValidCurrency(k.currency) then Checked(FromCoefficient(Balance(journal, k))) else Failure(LedgerRejected)
  }

  function ActiveTotal(rs: seq<Reservation>, owner: Owner): int {
    if rs == [] then 0
    else var r := rs[|rs| - 1]; ActiveTotal(rs[..|rs| - 1], owner) + if r.active && r.owner == owner then r.quantity
      else 0
  }

  function CustomerKey(b: Book, owner: Owner): Key
    requires owner in b.accounts
  {
    Key(b.accounts[owner].customer, owner.symbol, Settled)
  }

  function LockedKey(b: Book, owner: Owner): Key
    requires owner in b.accounts
  {
    Key(b.accounts[owner].locked, owner.symbol, Settled)
  }

  function CashKey(b: Book, account: Paper, d: Dimension): Key
    requires account in b.cash
  {
    Key(b.cash[account].cash, USD, d)
  }

  // ---- Postings ----

  function Pair(credit: AccountId, debit: AccountId, c: Currency, d: Dimension, amount: Decimal): seq<Entry> {
    [Entry(credit, c, d, Credit, amount), Entry(debit, c, d, Debit, amount)]
  }

  /** What a purchase takes from provisional buying power: as much as there is, up to the price. */
  function FromProvisional(provisional: Decimal, consideration: Decimal): Decimal {
    if provisional > consideration then consideration else provisional
  }

  function BuyEntries(s: SecurityAccounts, m: CashAccounts, symbol: Currency, quantity: Decimal, consideration: Decimal,
      provisional: Decimal): seq<Entry>
  {
    var first := FromProvisional(provisional, consideration);
    var rest := consideration - first;
    [Entry(s.customer, symbol, Settled, Debit, quantity), Entry(s.inventory, symbol, Settled, Credit, quantity)]
    + (if first > 0 then Pair(m.cash, m.funding, USD, ProvisionalBuying, first) else [])
    + (if rest > 0 then Pair(m.cash, m.funding, USD, Settled, rest) + Pair(m.cash, m.funding, USD, Withdrawable, rest)
      else [])
  }

  function SellEntries(s: SecurityAccounts, m: CashAccounts, symbol: Currency, quantity: Decimal,
      consideration: Decimal): seq<Entry>
  {
    Pair(s.customer, s.inventory, symbol, Settled, quantity)
    + [Entry(m.cash, USD, ProvisionalBuying, Debit, consideration),
      Entry(m.funding, USD, ProvisionalBuying, Credit, consideration)]
  }

  function FillEntries(b: Book, o: Order, quantity: Decimal, consideration: Decimal)
      : Result<seq<Entry>, SecuritiesError>
    requires b.Knows(o.owner)
  {
    var s, m := b.accounts[o.owner], b.cash[o.owner.account];
    if o.buy then
      var provisional :- ReadBalance(b.journal, CashKey(b, o.owner.account, ProvisionalBuying));
      var _ :- Checked(Sub(consideration, FromProvisional(provisional, consideration)));
      Success(BuyEntries(s, m, o.owner.symbol, quantity, consideration, provisional))
    else Success(SellEntries(s, m, o.owner.symbol, quantity, consideration))
  }

  function LockEntries(s: SecurityAccounts, symbol: Currency, quantity: Decimal): seq<Entry> {
    Pair(s.customer, s.locked, symbol, Settled, quantity)
  }

  function ReleaseEntries(s: SecurityAccounts, symbol: Currency, quantity: Decimal): seq<Entry> {
    Pair(s.locked, s.customer, symbol, Settled, quantity)
  }

  // ---- One order ----

  /** The update trigger: a row that keeps its status must advance its cursor. */
  predicate Advances(o: Order, u: Order) {
    u.status != o.status || u.cursor > o.cursor
  }

  function Updated(o: Order, u: Order): Result<Order, SecuritiesError> {
    if Advances(o, u) then Success(u) else Failure(RowRejected)
  }

  /** Status events: opened, expired, rejected. */
  function StatusAfter(o: Order, e: BrokerEvent): Result<Order, SecuritiesError>
    requires !e.kind.Filling?
  {
    match e.kind
    case Opened =>
      if o.status.PendingSubmission? then Success(o.(status := Open))
      else if o.status.Open? || o.status.PartiallyFilled? then Updated(o, o.(cursor := e.cursor))
      else Failure(InvalidOrderState)
    case Ended =>
      if o.status.Open? || o.status.PartiallyFilled? then Success(o.(status := Expired, cursor := e.cursor))
        else Failure(InvalidOrderState)
    case Refused =>
      if o.status.PendingSubmission? || o.status.Open? then Success(o.(status := Rejected, cursor := e.cursor))
        else Failure(InvalidOrderState)
    case Filling(_, _, _) => Failure(InvalidOrderState)
  }

  /** The running average price, recomputed from a rounded running notional. */
  function AverageAfter(o: Order, quantity: Decimal, consideration: Decimal): Result<Decimal, SecuritiesError> {
    var previous :- if o.filled > 0 then Checked(Multiply(o.filled, o.average, Positions.AVERAGE_POLICY))
      else Success(0);
    var total :- Checked(Add(previous, consideration));
    Checked(Divide(total, o.filled + quantity, Positions.AVERAGE_POLICY))
  }

  function FilledAfter(o: Order, e: BrokerEvent, consideration: Decimal): Result<Order, SecuritiesError>
    requires e.kind.Filling?
  {
    var filled := o.filled + e.kind.quantity;
    var average :- AverageAfter(o, e.kind.quantity, consideration);
    if !(o.status.PendingSubmission? || o.status.Open? || o.status.PartiallyFilled?) then Failure(InvalidOrderState)
    else if average <= 0 then Failure(RowRejected)
    else Updated(o, o.(status := if filled == o.quantity then Filled
      else PartiallyFilled, filled := filled, average := average, cursor := e.cursor))
  }

  // ---- A fill ----

  /** Buying power: settled cash and provisional proceeds together. */
  function BuyingPower(b: Book, account: Paper): Result<Decimal, SecuritiesError>
    requires account in b.cash
  {
    var settled :- ReadBalance(b.journal, CashKey(b, account, Settled));
    var provisional :- ReadBalance(b.journal, CashKey(b, account, ProvisionalBuying));
    Checked(Add(settled, provisional))
  }

  function Affordable(b: Book, o: Order, consideration: Decimal): Result<(), SecuritiesError>
    requires o.owner.account in b.cash
  {
    if !o.buy then Success(())
    else
      var power :- BuyingPower(b, o.owner.account);
      if power < consideration then Failure(InsufficientCash) else Success(())
  }

  datatype FillPlan = FillPlan(consideration: Decimal, entries: seq<Entry>, position: Positions.Position, order: Order)

  function Consideration(o: Order, quantity: Decimal, price: Decimal): Result<Decimal, SecuritiesError> {
    if quantity <= 0 || price <= 0 || o.filled + quantity > o.quantity then Failure(InvalidRequest)
    else
      var consideration :- Checked(Multiply(quantity, price, NOTIONAL_POLICY));
      if consideration <= 0 then Failure(InvalidRequest) else Success(consideration)
  }

  /** The ledger's answer to the fill's posting: refused, already posted under this event, or new. */
  ghost function PostingRefused(b: Book, e: BrokerEvent, es: seq<Entry>): bool {
    || !Ledger.IsKey("fill." + e.id) || Check(es).Failure?
    || (e.id in b.posted && b.posted[e.id] != e.payload)
  }

  ghost function PlanFill(b: Book, o: Order, e: BrokerEvent): Result<FillPlan, SecuritiesError>
    requires e.kind.Filling? && b.Knows(o.owner)
  {
    var quantity := e.kind.quantity;
    var consideration :- Consideration(o, quantity, e.kind.price);
    var _ :- Affordable(b, o, consideration);
    var es :- FillEntries(b, o, quantity, consideration);
    if PostingRefused(b, e, es) then Failure(LedgerRejected)
    else
      var position :- PositionAfter(b, o, quantity, consideration);
      if e.kind.sequence <= 0 || exists f :: f in b.fills && f.order == e.order && f.sequence == e.kind.sequence
        then Failure(RowRejected)
      else
        var order :- FilledAfter(o, e, consideration);
        Success(FillPlan(consideration, es, position, order))
  }

  function PositionAfter(b: Book, o: Order, quantity: Decimal, consideration: Decimal)
      : Result<Positions.Position, SecuritiesError>
  {
    var t := if o.buy then Positions.Buy(quantity, consideration) else Positions.Sell(quantity, consideration);
    var r := Positions.Traded(b.Position(o.owner), t);
    if r.Success? then Success(r.value)
    else Failure(if r.error.InsufficientPosition? then InsufficientPosition else if r.error.Arithmetic? then Arithmetic
      else RowRejected)
  }

  /** A posting under an event the ledger has seen is a replay and adds nothing. */
  function WithFill(b: Book, e: BrokerEvent, plan: FillPlan): Book
    requires e.kind.Filling? && e.order < |b.orders|
  {
    b.(orders := b.orders[e.order := plan.order],
       fills := b.fills + [Fill(e.order, e.id, e.kind.sequence, e.kind.quantity, e.kind.price, plan.consideration)],
       positions := b.positions[b.orders[e.order].owner := plan.position],
       events := b.events[e.id := e],
       posted := b.posted[e.id := e.payload],
       journal := if e.id in b.posted then b.journal else b.journal + plan.entries)
  }

  function WithStatus(b: Book, e: BrokerEvent, o: Order): Book
    requires e.order < |b.orders|
  {
    b.(orders := b.orders[e.order := o], events := b.events[e.id := e])
  }

  // ---- Transactions ----

  datatype Outcome = Outcome(book: Book, result: Result<(), SecuritiesError>)

  predicate WellFormed(o: Order, e: BrokerEvent) {
    e.id != "" && |e.id| <= 255 && e.payload != [] && e.cursor >= o.cursor
  }

  /** An event changes the book once; the same event again is accepted and changes nothing. */
  ghost function Applied(b: Book, n: nat, e: BrokerEvent): Outcome {
    if n >= |b.orders| || e.order != n || !WellFormed(b.orders[n], e) || !b.Knows(b.orders[n].owner)
      then Outcome(b, Failure(InvalidRequest))
    else if e.id in b.events
      then Outcome(b, if SameEvent(b.events[e.id], e) then Success(()) else Failure(EventConflict))
    else if e.kind.Filling? then
      var plan := PlanFill(b, b.orders[n], e);
      if plan.Failure? then Outcome(b, Failure(plan.error)) else Outcome(WithFill(b, e, plan.value), Success(()))
    else
      var o := StatusAfter(b.orders[n], e);
      if o.Failure? then Outcome(b, Failure(o.error)) else Outcome(WithStatus(b, e, o.value), Success(()))
  }

  /** Events are the same when order, payload and type agree. */
  predicate SameEvent(x: BrokerEvent, y: BrokerEvent) {
    x.order == y.order && x.payload == y.payload && (x.kind.Filling? <==> y.kind.Filling?)
      && (!x.kind.Filling? ==> x.kind == y.kind)
  }

  /** Room for a new order: unreserved shares to sell, or buying power at the limit or the ask. */
  function Capacity(b: Book, o: Order, price: Decimal): Result<(), SecuritiesError>
    requires b.Knows(o.owner)
  {
    if o.buy then
      var notional :- Checked(Multiply(o.quantity, price, NOTIONAL_POLICY));
      Affordable(b, o, notional)
    else
      var p := b.Position(o.owner);
      var available := Sub(p.quantity, ActiveTotal(b.reservations, o.owner));
      if p.quantity < o.quantity || available.Failure? || available.value < o.quantity
        then Failure(InsufficientPosition) else Success(())
  }

  /** A new order and its first broker event are one transaction. */
  ghost function Submitted(b: Book, owner: Owner, buy: bool, quantity: Decimal, price: Decimal, e: BrokerEvent): Outcome
  {
    var o := Order(owner, buy, quantity, 0, 0, PendingSubmission, 0);
    if quantity <= 0 || !b.Knows(owner) then Outcome(b, Failure(InvalidRequest))
    else if Capacity(b, o, price).Failure? then Outcome(b, Failure(Capacity(b, o, price).error))
    else
      var applied := Applied(b.(orders := b.orders + [o]), |b.orders|, e);
      if applied.result.Failure? then Outcome(b, applied.result) else applied
  }

  function CancelledBook(b: Book, n: nat): Book
    requires n < |b.orders|
  {
    b.(orders := b.orders[n := b.orders[n].(status := Cancelled)])
  }

  function OrderCancelled(b: Book, n: nat): Outcome {
    if n >= |b.orders| then Outcome(b, Failure(OrderNotFound))
    else if !(b.orders[n].status.Open? || b.orders[n].status.PartiallyFilled?)
      then Outcome(b, Failure(InvalidOrderState))
    else Outcome(CancelledBook(b, n), Success(()))
  }

  // ---- Custody ----

  predicate WholeShares(q: Decimal) {
    q > 0 && q % UNIT == 0
  }

  ghost function ReserveRefusal(b: Book, owner: Owner, quantity: Decimal): Option<SecuritiesError> {
    var available := Sub(b.Position(owner).quantity, ActiveTotal(b.reservations, owner));
    if !WholeShares(quantity) then Some(InvalidRequest)
    else if owner !in b.positions || available.Failure? || available.value < quantity then Some(InsufficientPosition)
    else if !b.Knows(owner) then Some(InvalidRequest)
    else if Check(LockEntries(b.accounts[owner], owner.symbol, quantity)).Failure? then Some(LedgerRejected)
    else None
  }

  function WithReservation(b: Book, owner: Owner, quantity: Decimal): Book
    requires owner in b.accounts
  {
    b.(reservations := b.reservations + [Reservation(owner, quantity, true)],
       journal := b.journal + LockEntries(b.accounts[owner], owner.symbol, quantity))
  }

  /** Unreserved shares of a position are locked; the position itself keeps counting them. */
  ghost function Reserved(b: Book, owner: Owner, quantity: Decimal): Outcome {
    var refusal := ReserveRefusal(b, owner, quantity);
    if refusal.Some? then Outcome(b, Failure(refusal.value))
      else Outcome(WithReservation(b, owner, quantity), Success(()))
  }

  function WithRelease(b: Book, i: nat): Book
    requires i < |b.reservations| && b.reservations[i].owner in b.accounts
  {
    var r := b.reservations[i];
    b.(reservations := b.reservations[i := r.(active := false)],
       journal := b.journal + ReleaseEntries(b.accounts[r.owner], r.owner.symbol, r.quantity))
  }

  /** Releasing twice is accepted and changes nothing the second time. */
  ghost function Released(b: Book, i: nat): Outcome {
    if i >= |b.reservations| || b.reservations[i].owner !in b.accounts then Outcome(b, Failure(InvalidRequest))
    else if !b.reservations[i].active then Outcome(b, Success(()))
    else if Check(ReleaseEntries(b.accounts[b.reservations[i].owner], b.reservations[i].owner.symbol,
      b.reservations[i].quantity)).Failure? then
      Outcome(b, Failure(LedgerRejected))
    else Outcome(WithRelease(b, i), Success(()))
  }
}
