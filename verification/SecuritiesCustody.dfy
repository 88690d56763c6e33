/**
 Which orders and reservations are accepted, and which statuses an order passes through: shares in custody are neither
 reserved twice nor offered for sale, and only a later fill of an older sale can reach them.
 */
module SecuritiesCustody {
  import opened Results
  import opened Decimals
  import opened Entries
  import opened Sums
  import opened Securities
  import opened SecuritiesRuns
  import opened SecuritiesBalance
  import opened SecuritiesPrices
  import Ledger
  import Positions

  // ---- Shares in custody, row by row ----

  function ActiveTerm(rs: seq<Reservation>, owner: Owner): nat -> int {
    (i: nat) => if i < |rs| && rs[i].owner == owner && rs[i].active then rs[i].quantity else 0
  }

  function InCustody(b: Book, owner: Owner): int {
    Sum(ActiveTerm(b.reservations, owner), |b.reservations|)
  }

  lemma {:induction false} TotalIsSum(rs: seq<Reservation>, owner: Owner)
    ensures ActiveTotal(rs, owner) == Sum(ActiveTerm(rs, owner), |rs|)
  {
    if rs != [] {
      var front := rs[..|rs| - 1];
      TotalIsSum(front, owner);
      SumSame(ActiveTerm(front, owner), ActiveTerm(rs, owner), |front|);
    }
  }

  /** Shares of a position that are not in custody. */
  function Unreserved(b: Book, owner: Owner): int {
    b.Position(owner).quantity - InCustody(b, owner)
  }

  ghost predicate PositiveRows(b: Book) {
    forall i | 0 <= i < |b.reservations| :: b.reservations[i].quantity > 0
  }

  lemma CustodyIsNonNegative(b: Book, owner: Owner)
    requires PositiveRows(b)
    ensures InCustody(b, owner) >= 0
  {
    SumNonNegative(ActiveTerm(b.reservations, owner), |b.reservations|);
  }

  // ---- Reservations ----

  lemma RefusalIsLack(b: Book, owner: Owner, quantity: Decimal)
    requires PositiveRows(b) && b.Position(owner).quantity < LIMIT
    ensures var refusal := ReserveRefusal(b, owner, quantity);
            (refusal.None? <==>
             && quantity > 0 && quantity % UNIT == 0 && owner in b.positions && b.Knows(owner)
             && quantity <= Unreserved(b, owner)
             && Check(LockEntries(b.accounts[owner], owner.symbol, quantity)).Success?)
  {
    TotalIsSum(b.reservations, owner);
    CustodyIsNonNegative(b, owner);
  }

  /**
   Whole shares of a known position are reserved if and only if they fit beside everything already in custody and the
   ledger takes the posting; afterwards custody is within the position.
   */
  lemma ReservedExactlyWhenFree(b: Book, owner: Owner, quantity: Decimal)
    requires PositiveRows(b) && b.Position(owner).quantity < LIMIT
    ensures var o := Reserved(b, owner, quantity);
            && (o.result.Success? <==>
                 && quantity > 0 && quantity % UNIT == 0 && owner in b.positions && b.Knows(owner)
                 && quantity <= Unreserved(b, owner)
                 && Check(LockEntries(b.accounts[owner], owner.symbol, quantity)).Success?)
            && (o.result.Failure? ==> o.book == b)
            && (o.result.Success? ==>
                 && o.book.positions == b.positions && PositiveRows(o.book)
                 && InCustody(o.book, owner) == InCustody(b, owner) + quantity <= o.book.Position(owner).quantity)
  {
    RefusalIsLack(b, owner, quantity);
    var o := Reserved(b, owner, quantity);
    if o.result.Success? {
      SumSame(ActiveTerm(b.reservations, owner), ActiveTerm(o.book.reservations, owner), |b.reservations|);
    }
  }

  // ---- Orders ----

  /** What a new order needs: to sell, shares that are not in custody; to buy, its price in cents as buying power. */
  ghost predicate HasCapacity(b: Book, owner: Owner, buy: bool, quantity: Decimal, price: Decimal)
    requires b.Knows(owner)
  {
    if buy then exists notional :: InCents(quantity, price, notional) && notional <= Power(b, owner.account)
    else quantity <= Unreserved(b, owner)
  }

  /** Balances and notionals are NUMERIC(38,18). */
  ghost predicate Readable(b: Book, owner: Owner, quantity: Decimal, price: Decimal)
    requires b.Knows(owner)
  {
    && -LIMIT < Balance(b.journal, CashKey(b, owner.account, Settled)) < LIMIT
    && -LIMIT < Provisional(b, owner.account) < LIMIT && -LIMIT < Power(b, owner.account) < LIMIT
    && b.Position(owner).quantity < LIMIT
    && exists notional :: InCents(quantity, price, notional) && -LIMIT < notional < LIMIT
  }

  lemma SameCents(quantity: Decimal, price: Decimal, x: Decimal, y: Decimal)
    requires InCents(quantity, price, x) && InCents(quantity, price, y) && -LIMIT < x < LIMIT
    ensures x == y
  {
    ProductInCents(quantity, price, x);
    CentIsGrid();
    GridRoundingIsUnique(quantity * price, UNIT, CENT, HalfEven, x);
    GridRoundingIsUnique(quantity * price, UNIT, CENT, HalfEven, y);
  }

  lemma CapacityIsExact(b: Book, o: Order, price: Decimal)
    requires b.Knows(o.owner) && PositiveRows(b) && o.quantity > 0 && Readable(b, o.owner, o.quantity, price)
    ensures Capacity(b, o, price).Success? <==> HasCapacity(b, o.owner, o.buy, o.quantity, price)
  {
    TotalIsSum(b.reservations, o.owner);
    CustodyIsNonNegative(b, o.owner);
    if o.buy {
      var notional :| InCents(o.quantity, price, notional) && -LIMIT < notional < LIMIT;
      ProductInCents(o.quantity, price, notional);
      AffordableIsPower(b, o, notional);
      forall other | InCents(o.quantity, price, other) ensures other == notional {
        SameCents(o.quantity, price, notional, other);
      }
    }
  }

  lemma AffordableIsPower(b: Book, o: Order, amount: Decimal)
    requires b.Knows(o.owner) && o.buy && -LIMIT < Power(b, o.owner.account) < LIMIT
    requires -LIMIT < Balance(b.journal, CashKey(b, o.owner.account, Settled)) < LIMIT
    requires -LIMIT < Provisional(b, o.owner.account) < LIMIT
    ensures Affordable(b, o, amount).Success? <==> amount <= Power(b, o.owner.account)
  {
  }

  /** A new order is accepted exactly if it has the capacity and its first event is accepted for it. */
  lemma SubmittedExactlyWithCapacity(b: Book, owner: Owner, buy: bool, quantity: Decimal, price: Decimal,
      e: BrokerEvent)
    requires b.Knows(owner) && PositiveRows(b) && quantity > 0 && Readable(b, owner, quantity, price)
    ensures var o := Order(owner, buy, quantity, 0, 0, PendingSubmission, 0);
            var s := Submitted(b, owner, buy, quantity, price, e);
            && (s.result.Success? <==>
                 && HasCapacity(b, owner, buy, quantity, price)
                 && Applied(b.(orders := b.orders + [o]), |b.orders|, e).result.Success?)
            && (s.result.Failure? ==> s.book == b)
            && (s.result.Success? ==>
                 && |s.book.orders| == |b.orders| + 1 && s.book.orders[|b.orders|].owner == owner
                 && s.book.orders[|b.orders|].buy == buy && s.book.orders[|b.orders|].quantity == quantity)
  {
    var o := Order(owner, buy, quantity, 0, 0, PendingSubmission, 0);
    CapacityIsExact(b, o, price);
    AppliedKeepsTerms(b.(orders := b.orders + [o]), |b.orders|, e, |b.orders|);
  }

  /** An event changes neither owner nor side nor quantity of any order. */
  lemma AppliedKeepsTerms(b: Book, n: nat, e: BrokerEvent, i: nat)
    requires i < |b.orders|
    ensures var u := Applied(b, n, e).book;
            && |u.orders| == |b.orders| && u.orders[i].owner == b.orders[i].owner && u.orders[i].buy == b.orders[i].buy
            && u.orders[i].quantity == b.orders[i].quantity
  {
    if Applied(b, n, e).result.Success? && e.id !in b.events && e.kind.Filling? {
      PlanFillFacts(b, b.orders[n], e);
    }
  }

  // ---- Statuses ----

  /** The transitions the table's trigger knows. */
  predicate Legal(x: OrderStatus, y: OrderStatus) {
    match x
    case PendingSubmission => y.Open? || y.PartiallyFilled? || y.Filled? || y.Rejected?
    case Open => y.PartiallyFilled? || y.Filled? || y.Cancelled? || y.Rejected? || y.Expired?
    case PartiallyFilled => y.Filled? || y.Cancelled? || y.Expired?
    case _ => false
  }

  /** A changed row moves along a legal transition, or stays open with a later replay cursor. */
  predicate MovesOn(o: Order, u: Order) {
    || u == o
    || Legal(o.status, u.status)
    || (u.status == o.status && (o.status.Open? || o.status.PartiallyFilled?) && u.cursor > o.cursor)
  }

  /** What each kind of event makes of an order. */
  predicate Answers(o: Order, kind: EventKind, u: Order) {
    match kind
    case Opened => u.status == if o.status.PendingSubmission? then Open else o.status
    case Ended => u.status == Expired
    case Refused => u.status == Rejected
    case Filling(quantity, _, _) => u.status == if o.filled + quantity == o.quantity then Filled else PartiallyFilled
  }

  lemma FillMovesOn(o: Order, e: BrokerEvent, consideration: Decimal)
    requires e.kind.Filling? && FilledAfter(o, e, consideration).Success?
    ensures MovesOn(o, FilledAfter(o, e, consideration).value)
            && Answers(o, e.kind, FilledAfter(o, e, consideration).value)
            && FilledAfter(o, e, consideration).value.cursor == e.cursor
  {
  }

  lemma StatusMovesOn(o: Order, e: BrokerEvent)
    requires !e.kind.Filling? && StatusAfter(o, e).Success?
    ensures MovesOn(o, StatusAfter(o, e).value) && Answers(o, e.kind, StatusAfter(o, e).value)
  {
  }

  lemma PlannedOrder(b: Book, o: Order, e: BrokerEvent)
    requires e.kind.Filling? && b.Knows(o.owner) && PlanFill(b, o, e).Success?
    ensures FilledAfter(o, e, PlanFill(b, o, e).value.consideration) == Success(PlanFill(b, o, e).value.order)
  {
  }

  /**
   A new event that is accepted answers its order as its kind says, along a legal transition, and leaves the others.
   */
  lemma EventMovesOrder(b: Book, n: nat, e: BrokerEvent)
    requires Applied(b, n, e).result.Success? && e.id !in b.events
    ensures var u := Applied(b, n, e).book;
            && n < |b.orders| == |u.orders| && e.cursor >= b.orders[n].cursor
            && MovesOn(b.orders[n], u.orders[n]) && Answers(b.orders[n], e.kind, u.orders[n])
            && forall i | 0 <= i < |b.orders| && i != n :: u.orders[i] == b.orders[i]
  {
    if e.kind.Filling? {
      PlannedOrder(b, b.orders[n], e);
      FillMovesOn(b.orders[n], e, PlanFill(b, b.orders[n], e).value.consideration);
    } else {
      StatusMovesOn(b.orders[n], e);
    }
  }

  predicate IsEventFor(b: Book, n: nat, e: BrokerEvent) {
    && n < |b.orders| && e.order == n && b.Knows(b.orders[n].owner)
    && e.id != "" && |e.id| <= 255 && e.payload != [] && e.cursor >= b.orders[n].cursor
  }

  /** A new status event is accepted if and only if its transition is legal, or an open order only moves its cursor. */
  lemma StatusAcceptedExactly(b: Book, n: nat, e: BrokerEvent)
    requires !e.kind.Filling? && e.id !in b.events
    ensures Applied(b, n, e).result.Success? <==>
              && IsEventFor(b, n, e)
              && var o := b.orders[n];
                 match e.kind
                 case Opened =>
                   Legal(o.status, Open) || ((o.status.Open? || o.status.PartiallyFilled?) && e.cursor > o.cursor)
                 case Ended => Legal(o.status, Expired)
                 case Refused => Legal(o.status, Rejected)
  {
  }

  /** An order is cancelled if and only if that is a legal transition; nothing else changes. */
  lemma CancelledExactlyWhenLegal(b: Book, n: nat)
    ensures var o := OrderCancelled(b, n);
            && (o.result.Success? <==> n < |b.orders| && Legal(b.orders[n].status, Cancelled))
            && (o.result.Failure? ==> o.book == b)
            && (o.result.Success? ==>
                 o.book == b.(orders := o.book.orders) && o.book.orders == b.orders[n := o.book.orders[n]]
                 && o.book.orders[n] == b.orders[n].(status := Cancelled))
  {
  }

  /** The order takes a fill of this size: it is waiting or open, and what is filled stays within its quantity. */
  predicate TakesFill(o: Order, quantity: Decimal, cursor: int) {
    && (Legal(o.status, PartiallyFilled) || o.status.PartiallyFilled?)
    && quantity > 0 && o.filled + quantity <= o.quantity
    && (o.status.PartiallyFilled? && o.filled + quantity < o.quantity ==> cursor > o.cursor)
  }

  /** The rows and the posting of a fill are within what tables and ledger take. */
  ghost predicate RowsFit(b: Book, o: Order, e: BrokerEvent, amount: Decimal)
    requires e.kind.Filling? && b.Knows(o.owner)
  {
    var quantity := e.kind.quantity;
    && PositionAfter(b, o, quantity, amount).Success?
    && AverageAfter(o, quantity, amount).Success? && AverageAfter(o, quantity, amount).value > 0
    && e.kind.sequence > 0
    && (forall i | 0 <= i < |b.fills| && b.fills[i].order == e.order :: b.fills[i].sequence != e.kind.sequence)
    && Ledger.IsKey("fill." + e.id)
    && FillEntries(b, o, quantity, amount).Success? && Check(FillEntries(b, o, quantity, amount).value).Success?
  }

  lemma PlannedExactly(b: Book, o: Order, e: BrokerEvent, amount: Decimal)
    requires e.kind.Filling? && b.Knows(o.owner) && e.id !in b.posted && InCents(e.kind.quantity, e.kind.price, amount)
    requires -LIMIT < amount < LIMIT && Readable(b, o.owner, e.kind.quantity, e.kind.price)
    ensures PlanFill(b, o, e).Success? <==>
              && TakesFill(o, e.kind.quantity, e.cursor) && e.kind.price > 0 && amount > 0
              && (o.buy ==> amount <= Power(b, o.owner.account)) && RowsFit(b, o, e, amount)
  {
    ProductInCents(e.kind.quantity, e.kind.price, amount);
    if o.buy {
      AffordableIsPower(b, o, amount);
    }
    assert (exists f :: f in b.fills && f.order == e.order && f.sequence == e.kind.sequence) <==>
           exists i :: 0 <= i < |b.fills| && b.fills[i].order == e.order && b.fills[i].sequence == e.kind.sequence;
  }

  /**
   A new fill is accepted if and only if its order takes it, buying power covers a purchase at its price in cents, and
   its rows and posting fit.
   */
  lemma FillAcceptedExactly(b: Book, n: nat, e: BrokerEvent, amount: Decimal)
    requires IsEventFor(b, n, e) && e.kind.Filling? && e.id !in b.events && e.id !in b.posted
    requires Readable(b, b.orders[n].owner, e.kind.quantity, e.kind.price)
    requires InCents(e.kind.quantity, e.kind.price, amount) && -LIMIT < amount < LIMIT
    ensures var o := b.orders[n];
            Applied(b, n, e).result.Success? <==>
              && TakesFill(o, e.kind.quantity, e.cursor) && e.kind.price > 0 && amount > 0
              && (o.buy ==> amount <= Power(b, o.owner.account)) && RowsFit(b, o, e, amount)
  {
    PlannedExactly(b, b.orders[n], e, amount);
  }

  /** Every step moves every order along legal transitions only, and cancels only open ones. */
  lemma OrdersMoveOn(b: Book, s: Step, i: nat)
    requires i < |b.orders|
    ensures i < |After(b, s).orders| && MovesOn(b.orders[i], After(b, s).orders[i])
  {
    match s
    case Apply(n, e) =>
      if Applied(b, n, e).book != b {
        EventMovesOrder(b, n, e);
      }
    case Submit(owner, buy, quantity, price, e) =>
      var more := b.(orders := b.orders + [Order(owner, buy, quantity, 0, 0, PendingSubmission, 0)]);
      if Applied(more, |b.orders|, e).book != more {
        EventMovesOrder(more, |b.orders|, e);
      }
    case _ => OthersLeaveOrders(b, s, i);
  }

  lemma OthersLeaveOrders(b: Book, s: Step, i: nat)
    requires i < |b.orders| && !s.Apply? && !s.Submit?
    ensures i < |After(b, s).orders| && MovesOn(b.orders[i], After(b, s).orders[i])
  {
    match s
    case Reserve(_, _) => assert After(b, s) ==
      b.(reservations := After(b, s).reservations, journal := After(b, s).journal);
    case Release(_) => assert After(b, s) ==
      b.(reservations := After(b, s).reservations, journal := After(b, s).journal);
    case _ =>
  }

  // ---- Rows over every run ----

  /** Reservations are of something, and positions are what a table can hold. */
  ghost predicate RowsInRange(b: Book) {
    PositiveRows(b) && forall owner :: InRange(b, owner)
  }

  predicate InRange(b: Book, owner: Owner) {
    0 <= b.Position(owner).quantity < LIMIT
  }

  lemma TradeInRange(p: Positions.Position, t: Positions.Trade)
    requires Positions.Traded(p, t).Success?
    ensures 0 <= Positions.Traded(p, t).value.quantity < LIMIT
  {
  }

  lemma PlannedInRange(b: Book, o: Order, e: BrokerEvent)
    requires e.kind.Filling? && b.Knows(o.owner) && PlanFill(b, o, e).Success?
    ensures 0 <= PlanFill(b, o, e).value.position.quantity < LIMIT
  {
    var plan := PlanFill(b, o, e).value;
    var t := if o.buy then Positions.Buy(e.kind.quantity, plan.consideration)
      else Positions.Sell(e.kind.quantity, plan.consideration);
    TradeInRange(b.Position(o.owner), t);
  }

  lemma ApplyInRange(b: Book, n: nat, e: BrokerEvent)
    requires RowsInRange(b)
    ensures RowsInRange(Applied(b, n, e).book) && Applied(b, n, e).book.reservations == b.reservations
  {
    if Applied(b, n, e).result.Success? && e.id !in b.events && e.kind.Filling? {
      PlannedInRange(b, b.orders[n], e);
    }
    forall owner ensures InRange(Applied(b, n, e).book, owner) {
      assert InRange(b, owner);
    }
  }

  lemma CustodyInRange(b: Book, s: Step)
    requires RowsInRange(b) && !s.Apply? && !s.Submit?
    ensures RowsInRange(After(b, s)) && After(b, s).positions == b.positions
  {
    CustodyRows(b, s);
    forall owner ensures InRange(After(b, s), owner) {
      assert InRange(b, owner);
    }
  }

  lemma CustodyRows(b: Book, s: Step)
    requires PositiveRows(b) && !s.Apply? && !s.Submit?
    ensures PositiveRows(After(b, s)) && After(b, s).positions == b.positions
  {
  }

  lemma SameRowsInRange(b: Book, u: Book)
    requires RowsInRange(b) && u.reservations == b.reservations && u.positions == b.positions
    ensures RowsInRange(u)
  {
    forall owner ensures InRange(u, owner) {
      assert InRange(b, owner);
    }
  }

  lemma StepInRange(b: Book, s: Step)
    requires RowsInRange(b)
    ensures RowsInRange(After(b, s))
  {
    match s
    case Apply(n, e) => ApplyInRange(b, n, e);
    case Submit(owner, buy, quantity, price, e) =>
      var more := b.(orders := b.orders + [Order(owner, buy, quantity, 0, 0, PendingSubmission, 0)]);
      SameRowsInRange(b, more);
      ApplyInRange(more, |b.orders|, e);
    case _ => CustodyInRange(b, s);
  }

  lemma {:induction false} RunsInRange(b: Book, steps: seq<Step>)
    requires Initial(b)
    ensures RowsInRange(Run(b, steps))
  {
    if steps == [] {
      forall owner ensures InRange(b, owner) {
      }
    } else {
      RunsInRange(b, steps[..|steps| - 1]);
      StepInRange(Run(b, steps[..|steps| - 1]), steps[|steps| - 1]);
    }
  }

  /** After every run the two conditions above are exact: custody is granted exactly to unreserved shares. */
  lemma CustodyIsExactOverRuns(b: Book, steps: seq<Step>, owner: Owner, quantity: Decimal)
    requires Initial(b)
    ensures var u := Run(b, steps);
            var o := Reserved(u, owner, quantity);
            && (o.result.Success? <==>
                 && quantity > 0 && quantity % UNIT == 0 && owner in u.positions && u.Knows(owner)
                 && quantity <= Unreserved(u, owner)
                 && Check(LockEntries(u.accounts[owner], owner.symbol, quantity)).Success?)
            && (o.result.Success? ==> InCustody(o.book, owner) <= o.book.Position(owner).quantity)
  {
    RunsInRange(b, steps);
    assert InRange(Run(b, steps), owner);
    ReservedExactlyWhenFree(Run(b, steps), owner, quantity);
  }

  // ---- What can still reach shares in custody ----

  ghost predicate Covered(b: Book, owner: Owner) {
    InCustody(b, owner) <= b.Position(owner).quantity
  }

  /** A fill of one of the owner's sales that is larger than what is not in custody by now. */
  ghost predicate SellsCustody(b: Book, s: Step, owner: Owner) {
    && s.Apply? && s.event.kind.Filling? && s.event.id !in b.events && s.order < |b.orders|
    && b.orders[s.order].owner == owner && !b.orders[s.order].buy
    && Applied(b, s.order, s.event).result.Success? && s.event.kind.quantity > Unreserved(b, owner)
  }

  lemma FillLeavesUnreserved(b: Book, n: nat, e: BrokerEvent, owner: Owner)
    requires Applied(b, n, e).result.Success? && e.id !in b.events && e.kind.Filling?
    ensures n < |b.orders|
    ensures Unreserved(Applied(b, n, e).book, owner) ==
            Unreserved(b, owner) + if b.orders[n].owner == owner then Change(b.orders[n], e.kind.quantity) else 0
    ensures e.kind.quantity > 0 && e.kind.quantity <= b.orders[n].quantity - b.orders[n].filled
  {
    PlanFillFacts(b, b.orders[n], e);
    SumSame(ActiveTerm(b.reservations, owner), ActiveTerm(Applied(b, n, e).book.reservations, owner),
      |b.reservations|);
  }

  lemma SameUnreserved(b: Book, u: Book, owner: Owner)
    requires u.reservations == b.reservations && u.positions == b.positions
    ensures Unreserved(u, owner) == Unreserved(b, owner)
  {
    SumSame(ActiveTerm(b.reservations, owner), ActiveTerm(u.reservations, owner), |b.reservations|);
  }

  lemma ApplyStaysCovered(b: Book, n: nat, e: BrokerEvent, owner: Owner)
    requires Covered(b, owner)
    ensures Covered(Applied(b, n, e).book, owner) <==> !SellsCustody(b, Apply(n, e), owner)
  {
    var u := Applied(b, n, e).book;
    if Applied(b, n, e).result.Success? && e.id !in b.events && e.kind.Filling? {
      FillLeavesUnreserved(b, n, e, owner);
    } else {
      SameUnreserved(b, u, owner);
    }
  }

  /** A new sale was checked against unreserved shares in the same transaction, so its first fill reaches none. */
  lemma SubmitStaysCovered(b: Book, seller: Owner, buy: bool, quantity: Decimal, price: Decimal, e: BrokerEvent,
      owner: Owner)
    requires Covered(b, owner)
    ensures Covered(Submitted(b, seller, buy, quantity, price, e).book, owner)
  {
    var o := Order(seller, buy, quantity, 0, 0, PendingSubmission, 0);
    SubmittedIsApplied(b, seller, buy, quantity, price, e);
    if Submitted(b, seller, buy, quantity, price, e).result.Success? {
      if !buy {
        SaleIsUnreserved(b, o, price);
      }
      FirstEventStaysCovered(b, o, e, owner);
    }
  }

  lemma SubmittedIsApplied(b: Book, seller: Owner, buy: bool, quantity: Decimal, price: Decimal, e: BrokerEvent)
    ensures var o := Order(seller, buy, quantity, 0, 0, PendingSubmission, 0);
            var s := Submitted(b, seller, buy, quantity, price, e);
            && (s.result.Failure? ==> s.book == b)
            && (s.result.Success? ==>
                 && b.Knows(seller) && Capacity(b, o, price).Success?
                 && s == Applied(b.(orders := b.orders + [o]), |b.orders|, e))
  {
  }

  lemma FirstEventStaysCovered(b: Book, o: Order, e: BrokerEvent, owner: Owner)
    requires Covered(b, owner) && o.filled == 0 && (!o.buy ==> o.quantity <= Unreserved(b, o.owner))
    ensures Covered(Applied(b.(orders := b.orders + [o]), |b.orders|, e).book, owner)
  {
    var more := b.(orders := b.orders + [o]);
    SameUnreserved(b, more, owner);
    if Applied(more, |b.orders|, e).result.Success? && e.id !in b.events && e.kind.Filling? {
      FillLeavesUnreserved(more, |b.orders|, e, owner);
    } else {
      SameUnreserved(more, Applied(more, |b.orders|, e).book, owner);
    }
  }

  lemma SaleIsUnreserved(b: Book, o: Order, price: Decimal)
    requires b.Knows(o.owner) && Capacity(b, o, price).Success? && !o.buy
    ensures o.quantity <= Unreserved(b, o.owner)
  {
    TotalIsSum(b.reservations, o.owner);
  }

  lemma CustodyStaysCovered(b: Book, s: Step, owner: Owner)
    requires RowsInRange(b) && Covered(b, owner) && (s.Reserve? || s.Release?)
    ensures Covered(After(b, s), owner)
  {
    assert s.Reserve? ==> InRange(b, s.owner);
    if s.Reserve? {
      ReservedExactlyWhenFree(b, s.owner, s.quantity);
      if After(b, s) != b && s.owner != owner {
        SumSame(ActiveTerm(b.reservations, owner), ActiveTerm(After(b, s).reservations, owner), |b.reservations|);
      }
    } else if After(b, s) != b {
      SumChange(ActiveTerm(b.reservations, owner), ActiveTerm(After(b, s).reservations, owner), |b.reservations|,
        s.reservation);
    }
  }

  /**
   Custody stays within the position through every step but one: the fill of a sale that was placed before the shares
   were reserved, and is larger than what is left unreserved.
   */
  lemma StepStaysCovered(b: Book, s: Step, owner: Owner)
    requires RowsInRange(b) && Covered(b, owner)
    ensures Covered(After(b, s), owner) <==> !SellsCustody(b, s, owner)
  {
    match s
    case Apply(n, e) => ApplyStaysCovered(b, n, e, owner);
    case Submit(seller, buy, quantity, price, e) => SubmitStaysCovered(b, seller, buy, quantity, price, e, owner);
    case Reserve(_, _) => CustodyStaysCovered(b, s, owner);
    case Release(_) => CustodyStaysCovered(b, s, owner);
    case _ => SameUnreserved(b, After(b, s), owner);
  }

  ghost predicate AlwaysCovered(b: Book, steps: seq<Step>, owner: Owner) {
    Covered(Run(b, steps), owner) && (steps != [] ==> AlwaysCovered(b, steps[..|steps| - 1], owner))
  }

  ghost predicate NeverSellsCustody(b: Book, steps: seq<Step>, owner: Owner) {
    steps != [] ==>
      && NeverSellsCustody(b, steps[..|steps| - 1], owner)
      && !SellsCustody(Run(b, steps[..|steps| - 1]), steps[|steps| - 1], owner)
  }

  /** Over every run custody is always within the position if and only if no such fill happens. */
  lemma {:induction false} CoveredExactlyWhenNotSold(b: Book, steps: seq<Step>, owner: Owner)
    requires Initial(b)
    ensures AlwaysCovered(b, steps, owner) <==> NeverSellsCustody(b, steps, owner)
  {
    if steps == [] {
      assert InCustody(b, owner) == 0;
    } else {
      var front := steps[..|steps| - 1];
      CoveredExactlyWhenNotSold(b, front, owner);
      RunsInRange(b, front);
      if Covered(Run(b, front), owner) {
        StepStaysCovered(Run(b, front), steps[|steps| - 1], owner);
      } else {
        assert !AlwaysCovered(b, front, owner);
      }
    }
  }
}
