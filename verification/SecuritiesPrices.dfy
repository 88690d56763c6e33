/**
 What fills cost over every run: each row's consideration is its quantity times its price in cents, cash moves by that
 amount, and an order's average price has drifted from it by no more than the roundings.
 */
module SecuritiesPrices {
  import opened Results
  import opened Decimals
  import opened Entries
  import opened Securities
  import opened SecuritiesRuns
  import opened SecuritiesBalance
  import Digits
  import Positions

  /** 0.01 dollars. */
  const CENT: nat := 10_000_000_000_000_000

  /** `amount` is the whole number of cents nearest to quantity times price, ties to even. */
  ghost predicate InCents(quantity: Decimal, price: Decimal, amount: Decimal) {
    IsGridRounding(quantity * price, UNIT, CENT, HalfEven, amount)
  }

  lemma CentIsGrid()
    ensures NOTIONAL_POLICY.Grid() == CENT
  {
    assert Digits.Pow10(8) == 100_000_000;
    Digits.PowPositive(8, 8);
  }

  lemma ProductInCents(quantity: Decimal, price: Decimal, amount: Decimal)
    ensures Multiply(quantity, price, NOTIONAL_POLICY) == Success(amount) <==>
            -LIMIT < amount < LIMIT && InCents(quantity, price, amount)
  {
    CentIsGrid();
    MultiplyRoundsProduct(quantity, price, NOTIONAL_POLICY, amount);
  }

  /** Half a cent off, at most. */
  lemma CentError(quantity: Decimal, price: Decimal, amount: Decimal)
    requires InCents(quantity, price, amount)
    ensures 2 * Abs(amount * UNIT - quantity * price) <= CENT * UNIT && amount % CENT == 0
  {
    var v :| amount == v * CENT && IsRounded(quantity * price, UNIT * CENT, HalfEven, v);
    NearestError(quantity * price, v);
    assert (v * CENT) % CENT == 0;
  }

  lemma NearestError(n: int, v: int)
    requires IsRounded(n, UNIT * CENT, HalfEven, v)
    ensures 2 * Abs(v * CENT * UNIT - n) <= CENT * UNIT
  {
    RoundingError(n, UNIT * CENT, HalfEven, v);
  }

  // ---- Every fill row ----

  /** The row of a fill: the event's quantity and price, and what they come to. */
  ghost predicate Priced(b: Book, f: Fill) {
    && f.quantity > 0 && f.price > 0 && f.consideration > 0 && InCents(f.quantity, f.price, f.consideration)
    && f.eventId in b.events && b.events[f.eventId].order == f.order
    && b.events[f.eventId].kind == Filling(f.quantity, f.price, f.sequence)
  }

  ghost predicate AllPriced(b: Book) {
    forall i | 0 <= i < |b.fills| :: Priced(b, b.fills[i])
  }

  /** The row a planned fill writes. */
  lemma PlanIsPriced(b: Book, o: Order, e: BrokerEvent)
    requires e.kind.Filling? && b.Knows(o.owner) && PlanFill(b, o, e).Success?
    ensures e.kind.quantity > 0 && e.kind.price > 0 && PlanFill(b, o, e).value.consideration > 0
    ensures InCents(e.kind.quantity, e.kind.price, PlanFill(b, o, e).value.consideration)
  {
    PlanIsPositive(b, o, e);
    ConsiderationInCents(o, e.kind.quantity, e.kind.price);
  }

  lemma ConsiderationInCents(o: Order, quantity: Decimal, price: Decimal)
    requires Consideration(o, quantity, price).Success?
    ensures quantity > 0 && price > 0 && InCents(quantity, price, Consideration(o, quantity, price).value)
  {
    ProductInCents(quantity, price, Consideration(o, quantity, price).value);
  }

  lemma ApplyKeepsPriced(b: Book, n: nat, e: BrokerEvent)
    requires AllPriced(b)
    ensures AllPriced(Applied(b, n, e).book)
  {
    var u := Applied(b, n, e).book;
    ApplyKeepsEvents(b, n, e);
    if Applied(b, n, e).result.Success? && e.id !in b.events && e.kind.Filling? {
      PlanIsPriced(b, b.orders[n], e);
    }
    forall i | 0 <= i < |u.fills| ensures Priced(u, u.fills[i]) {
      if i < |b.fills| {
        assert Priced(b, b.fills[i]);
      }
    }
  }

  lemma SameFillsPriced(b: Book, u: Book)
    requires AllPriced(b) && u.fills == b.fills && KeepsEvents(b, u)
    ensures AllPriced(u)
  {
    forall i | 0 <= i < |u.fills| ensures Priced(u, u.fills[i]) {
      assert Priced(b, b.fills[i]);
    }
  }

  lemma OnlyEventsFill(b: Book, s: Step)
    requires !s.Submit? && !s.Apply?
    ensures After(b, s).fills == b.fills
  {
  }

  lemma StepKeepsPriced(b: Book, s: Step)
    requires AllPriced(b)
    ensures AllPriced(After(b, s))
  {
    match s
    case Apply(n, e) => ApplyKeepsPriced(b, n, e);
    case Submit(owner, buy, quantity, price, e) =>
      var more := b.(orders := b.orders + [Order(owner, buy, quantity, 0, 0, PendingSubmission, 0)]);
      SameFillsPriced(b, more);
      ApplyKeepsPriced(more, |b.orders|, e);
    case _ =>
      OnlyEventsFill(b, s);
      StepKeepsEvents(b, s);
      SameFillsPriced(b, After(b, s));
  }

  lemma {:induction false} RunsArePriced(b: Book, steps: seq<Step>)
    requires Initial(b)
    ensures AllPriced(Run(b, steps))
  {
    if steps != [] {
      RunsArePriced(b, steps[..|steps| - 1]);
      StepKeepsPriced(Run(b, steps[..|steps| - 1]), steps[|steps| - 1]);
    }
  }

  /**
   After every run each fill costs its quantity times its event's price, to the nearest cent, and more than nothing.
   */
  lemma EveryFillIsPriced(b: Book, steps: seq<Step>, i: nat)
    requires Initial(b) && i < |Run(b, steps).fills|
    ensures var u := Run(b, steps);
            var f := u.fills[i];
            && Priced(u, f) && f.consideration > 0 && f.consideration % CENT == 0
            && 2 * Abs(f.consideration * UNIT - f.quantity * f.price) <= CENT * UNIT
  {
    RunsArePriced(b, steps);
    var f := Run(b, steps).fills[i];
    assert Priced(Run(b, steps), f);
    CentError(f.quantity, f.price, f.consideration);
  }

  // ---- Sequence numbers ----

  /** Sequence numbers are positive, and no two fills of an order have the same. */
  ghost predicate Numbered(fs: seq<Fill>) {
    && (forall i | 0 <= i < |fs| :: fs[i].sequence > 0)
    && forall i, j | 0 <= i < j < |fs| && fs[i].order == fs[j].order :: fs[i].sequence != fs[j].sequence
  }

  lemma PlannedIsNumbered(b: Book, o: Order, e: BrokerEvent)
    requires e.kind.Filling? && b.Knows(o.owner) && PlanFill(b, o, e).Success?
    ensures e.kind.sequence > 0
    ensures forall i | 0 <= i < |b.fills| && b.fills[i].order == e.order :: b.fills[i].sequence != e.kind.sequence
  {
  }

  lemma ApplyKeepsNumbered(b: Book, n: nat, e: BrokerEvent)
    requires Numbered(b.fills)
    ensures Numbered(Applied(b, n, e).book.fills)
  {
    if Applied(b, n, e).result.Success? && e.id !in b.events {
      if e.kind.Filling? {
        PlannedIsNumbered(b, b.orders[n], e);
      } else {
        StatusKeepsFilled(b, n, e);
      }
    }
  }

  /** Over every run each fill of an order has a sequence number of its own, and a positive one. */
  lemma {:induction false} FillsAreNumbered(b: Book, steps: seq<Step>)
    requires Initial(b)
    ensures Numbered(Run(b, steps).fills)
  {
    if steps != [] {
      var s, before := steps[|steps| - 1], Run(b, steps[..|steps| - 1]);
      FillsAreNumbered(b, steps[..|steps| - 1]);
      StepKeepsNumbered(before, s);
    }
  }

  lemma StepKeepsNumbered(b: Book, s: Step)
    requires Numbered(b.fills)
    ensures Numbered(After(b, s).fills)
  {
    match s
    case Apply(n, e) => ApplyKeepsNumbered(b, n, e);
    case Submit(owner, buy, quantity, price, e) =>
      ApplyKeepsNumbered(b.(orders := b.orders + [Order(owner, buy, quantity, 0, 0, PendingSubmission, 0)]), |b.orders|,
        e);
    case _ => OnlyEventsFill(b, s);
  }

  // ---- Where the money goes ----

  lemma SaleCash(s: SecurityAccounts, m: CashAccounts, symbol: Currency, quantity: Decimal, consideration: Decimal,
      d: Dimension)
    requires m.cash != m.funding && m.cash != s.customer && m.cash != s.inventory
    ensures Balance(SellEntries(s, m, symbol, quantity, consideration), Key(m.cash, USD, d)) ==
            if d == ProvisionalBuying then consideration else 0
  {
    var k := Key(m.cash, USD, d);
    var a := Pair(s.customer, s.inventory, symbol, Settled, quantity);
    var b := [Entry(m.cash, USD, ProvisionalBuying, Debit, consideration),
              Entry(m.funding, USD, ProvisionalBuying, Credit, consideration)];
    PairBalance(a[0], a[1], k);
    PairBalance(b[0], b[1], k);
    BalanceOfConcat(a, b, k);
  }

  /** What a purchase leaves for settled cash to pay. */
  function FromSettled(provisional: Decimal, consideration: Decimal): Decimal {
    if provisional >= consideration then 0 else if provisional > 0 then consideration - provisional else consideration
  }

  function CashOf(b: Book, account: Paper, d: Dimension): int
    requires account in b.cash
  {
    Balance(b.journal, CashKey(b, account, d))
  }

  /**
   A new fill moves the account's cash by its consideration: a sale adds it to provisional buying power and to nothing
   else; a purchase takes provisional buying power first, and the rest from settled and withdrawable cash alike.
   */
  lemma FillMovesCash(b: Book, n: nat, e: BrokerEvent)
    requires Sound(b) && e.kind.Filling? && e.id !in b.events && Applied(b, n, e).result.Success?
    requires Provisional(b, b.orders[n].owner.account) >= 0
    ensures var u := Applied(b, n, e).book;
            var o := b.orders[n];
            var m := o.owner.account;
            && m in u.cash && |u.fills| == |b.fills| + 1
            && var amount := u.fills[|b.fills|].consideration;
               var settled := FromSettled(Provisional(b, m), amount);
               && InCents(e.kind.quantity, e.kind.price, amount)
               && (!o.buy ==>
                    && CashOf(u, m, ProvisionalBuying) == CashOf(b, m, ProvisionalBuying) + amount
                    && CashOf(u, m, Settled) == CashOf(b, m, Settled)
                    && CashOf(u, m, Withdrawable) == CashOf(b, m, Withdrawable))
               && (o.buy ==>
                    && CashOf(u, m, ProvisionalBuying) == CashOf(b, m, ProvisionalBuying) - (amount - settled)
                    && CashOf(u, m, Settled) == CashOf(b, m, Settled) - settled
                    && CashOf(u, m, Withdrawable) == CashOf(b, m, Withdrawable) - settled)
  {
    var o := b.orders[n];
    var plan := PlanFill(b, o, e).value;
    PlanFillFacts(b, o, e);
    PlanIsPriced(b, o, e);
    assert e.id !in b.posted;
    FillCash(b, o, e.kind.quantity, plan.consideration, ProvisionalBuying);
    FillCash(b, o, e.kind.quantity, plan.consideration, Settled);
    FillCash(b, o, e.kind.quantity, plan.consideration, Withdrawable);
  }

  lemma FillCash(b: Book, o: Order, quantity: Decimal, consideration: Decimal, d: Dimension)
    requires RolesApart(b) && b.Knows(o.owner) && FillEntries(b, o, quantity, consideration).Success?
    requires Provisional(b, o.owner.account) >= 0 && consideration > 0
    ensures var k := CashKey(b, o.owner.account, d);
            var settled := FromSettled(Provisional(b, o.owner.account), consideration);
            Balance(b.journal + FillEntries(b, o, quantity, consideration).value, k) - Balance(b.journal, k) ==
            if !o.buy then (if d == ProvisionalBuying then consideration else 0)
            else if d == ProvisionalBuying then settled - consideration
            else if d == Settled || d == Withdrawable then -settled else 0
  {
    var k := CashKey(b, o.owner.account, d);
    BalanceOfConcat(b.journal, FillEntries(b, o, quantity, consideration).value, k);
    if o.buy {
      PurchaseCash(b, o, quantity, consideration, d);
    } else {
      SaleCash(b.accounts[o.owner], b.cash[o.owner.account], o.owner.symbol, quantity, consideration, d);
    }
  }

  lemma PurchaseCash(b: Book, o: Order, quantity: Decimal, consideration: Decimal, d: Dimension)
    requires RolesApart(b) && b.Knows(o.owner) && FillEntries(b, o, quantity, consideration).Success? && o.buy
    requires Provisional(b, o.owner.account) >= 0 && consideration > 0
    ensures var settled := FromSettled(Provisional(b, o.owner.account), consideration);
            Balance(FillEntries(b, o, quantity, consideration).value, CashKey(b, o.owner.account, d)) ==
            if d == ProvisionalBuying then settled - consideration
            else if d == Settled || d == Withdrawable then -settled else 0
  {
    var s, m := b.accounts[o.owner], b.cash[o.owner.account];
    var provisional := ReadBalance(b.journal, CashKey(b, o.owner.account, ProvisionalBuying)).value;
    BuyEffect(s, m, o.owner.symbol, quantity, consideration, provisional, CashKey(b, o.owner.account, d));
  }

  // ---- The average price of an order ----

  /** What an order's fills cost together, and how many there are. */
  function CostOf(fs: seq<Fill>, n: nat): int {
    if fs == [] then 0
    else CostOf(fs[..|fs| - 1], n) + if fs[|fs| - 1].order == n then fs[|fs| - 1].consideration else 0
  }

  function CountOf(fs: seq<Fill>, n: nat): nat {
    if fs == [] then 0 else CountOf(fs[..|fs| - 1], n) + if fs[|fs| - 1].order == n then 1 else 0
  }

  /**
   The average is positive, and times the filled quantity it is the cost, up to half a step of quantity and half a step
   for every fill.
   */
  ghost predicate AverageFits(o: Order, fs: seq<Fill>, n: nat) {
    && 2 * Abs(o.average * o.filled - CostOf(fs, n) * UNIT) <= CountOf(fs, n) * (o.filled + UNIT)
    && o.filled >= 0 && (o.filled == 0 ==> CountOf(fs, n) == 0 && CostOf(fs, n) == 0)
    && (o.filled > 0 ==> o.average > 0)
  }

  ghost predicate AveragesFit(b: Book) {
    && (forall n: nat | n < |b.orders| :: AverageFits(b.orders[n], b.fills, n))
    && forall f | f in b.fills :: f.order < |b.orders|
  }

  /** The arithmetic of one more fill: the running notional is rounded, and so is the new average. */
  lemma OneMoreFill(average: int, filled: nat, cost: int, count: nat, unit: nat, quantity: nat, amount: int,
      previous: int, next: int)
    requires 2 * Abs(average * filled - cost * unit) <= count * (filled + unit) && quantity > 0 && unit > 0
    requires 2 * Abs(previous * unit - average * filled) <= unit
    requires 2 * Abs(next * (filled + quantity) - (previous + amount) * unit) <= filled + quantity
    ensures 2 * Abs(next * (filled + quantity) - (cost + amount) * unit) <= (count + 1) * (filled + quantity + unit)
  {
    assert (previous + amount) * unit == previous * unit + amount * unit;
    assert (cost + amount) * unit == cost * unit + amount * unit;
    assert (count + 1) * (filled + quantity + unit) == count * (filled + unit) + count * quantity
      + (filled + quantity + unit);
    assert count * quantity >= 0;
  }

  /** The running notional: filled times average, rounded; nothing before the first fill. */
  function RunningNotional(o: Order): Decimal {
    if o.filled > 0 && Multiply(o.filled, o.average, Positions.AVERAGE_POLICY).Success?
      then Multiply(o.filled, o.average, Positions.AVERAGE_POLICY).value else 0
  }

  lemma NotionalIsNear(o: Order)
    requires o.filled >= 0 && (o.filled > 0 ==> Multiply(o.filled, o.average, Positions.AVERAGE_POLICY).Success?)
    ensures 2 * Abs(RunningNotional(o) * UNIT - o.average * o.filled) <= UNIT
  {
    if o.filled > 0 {
      FullScaleRounding(o.filled, o.average, Positions.AVERAGE_POLICY);
      RoundingError(o.filled * o.average, UNIT, HalfEven, RunningNotional(o));
    }
  }

  lemma QuotientIsNear(total: Decimal, filled: nat, average: Decimal)
    requires filled > 0 && Divide(total, filled, Positions.AVERAGE_POLICY) == Success(average)
    ensures 2 * Abs(average * filled - total * UNIT) <= filled
  {
    FullScaleRounding(total, filled, Positions.AVERAGE_POLICY);
    RoundingError(total * UNIT, filled, HalfEven, average);
  }

  lemma AverageParts(o: Order, quantity: Decimal, amount: Decimal)
    requires AverageAfter(o, quantity, amount).Success? && o.filled + quantity != 0
    ensures o.filled > 0 ==> Multiply(o.filled, o.average, Positions.AVERAGE_POLICY).Success?
    ensures Divide(RunningNotional(o) + amount, o.filled + quantity, Positions.AVERAGE_POLICY) ==
            Success(AverageAfter(o, quantity, amount).value)
  {
  }

  lemma PlannedAverage(b: Book, o: Order, e: BrokerEvent)
    requires e.kind.Filling? && b.Knows(o.owner) && PlanFill(b, o, e).Success?
    ensures var plan := PlanFill(b, o, e).value;
            AverageAfter(o, e.kind.quantity, plan.consideration) == Success(plan.order.average)
  {
  }

  lemma PlannedRow(b: Book, e: BrokerEvent)
    requires e.kind.Filling? && e.order < |b.orders| && b.Knows(b.orders[e.order].owner)
    requires PlanFill(b, b.orders[e.order], e).Success?
    ensures var o, plan := b.orders[e.order], PlanFill(b, b.orders[e.order], e).value;
            var f := Fill(e.order, e.id, e.kind.sequence, e.kind.quantity, e.kind.price, plan.consideration);
            && f.quantity > 0 && WithFill(b, e, plan).orders == b.orders[e.order := plan.order]
            && WithFill(b, e, plan).fills == b.fills + [f] && plan.order.filled == o.filled + f.quantity
            && AverageAfter(o, f.quantity, f.consideration) == Success(plan.order.average) && plan.order.average > 0
  {
    PlanFillFacts(b, b.orders[e.order], e);
    PlannedAverage(b, b.orders[e.order], e);
  }

  /** The rounded average after one more fill. */
  lemma NextAverage(o: Order, quantity: Decimal, amount: Decimal, cost: int, count: nat)
    requires AverageAfter(o, quantity, amount).Success? && o.filled >= 0 && quantity > 0
    requires 2 * Abs(o.average * o.filled - cost * UNIT) <= count * (o.filled + UNIT)
    ensures var filled := o.filled + quantity;
            2 * Abs(AverageAfter(o, quantity, amount).value * filled - (cost + amount) * UNIT) <=
            (count + 1) * (filled + UNIT)
  {
    var next := AverageAfter(o, quantity, amount).value;
    AverageParts(o, quantity, amount);
    NotionalIsNear(o);
    QuotientIsNear(RunningNotional(o) + amount, o.filled + quantity, next);
    OneMoreFill(o.average, o.filled, cost, count, UNIT, quantity, amount, RunningNotional(o), next);
  }

  /** One more fill, of this order or of another. */
  lemma FillFits(o: Order, next: Order, fs: seq<Fill>, f: Fill, n: nat)
    requires AverageFits(o, fs, n)
    requires if f.order == n
             then && AverageAfter(o, f.quantity, f.consideration) == Success(next.average) && f.quantity > 0
                  && next.filled == o.filled + f.quantity && next.average > 0
             else next == o
    ensures AverageFits(next, fs + [f], n)
  {
    assert (fs + [f])[..|fs|] == fs;
    if f.order == n {
      NextAverage(o, f.quantity, f.consideration, CostOf(fs, n), CountOf(fs, n));
    }
  }

  /** An order that keeps its quantities and its fills keeps its average. */
  ghost predicate SameFilled(b: Book, u: Book) {
    && |b.orders| <= |u.orders| && u.fills == b.fills
    && (forall n | 0 <= n < |b.orders| ::
          u.orders[n].filled == b.orders[n].filled && u.orders[n].average == b.orders[n].average)
    && forall n | |b.orders| <= n < |u.orders| :: u.orders[n].filled == 0
  }

  lemma {:induction false} NothingFilled(fs: seq<Fill>, n: nat)
    requires forall f | f in fs :: f.order != n
    ensures CostOf(fs, n) == 0 && CountOf(fs, n) == 0
  {
    if fs != [] {
      assert fs[|fs| - 1] in fs;
      NothingFilled(fs[..|fs| - 1], n);
    }
  }

  lemma SameFilledFits(b: Book, u: Book)
    requires AveragesFit(b) && SameFilled(b, u)
    ensures AveragesFit(u)
  {
    forall n: nat | n < |u.orders| ensures AverageFits(u.orders[n], u.fills, n) {
      if n < |b.orders| {
        assert AverageFits(b.orders[n], b.fills, n);
      } else {
        NothingFilled(b.fills, n);
      }
    }
  }

  lemma ApplyKeepsAverages(b: Book, n: nat, e: BrokerEvent)
    requires AveragesFit(b)
    ensures AveragesFit(Applied(b, n, e).book)
  {
    var u := Applied(b, n, e).book;
    if Applied(b, n, e).result.Success? && e.id !in b.events {
      if e.kind.Filling? {
        PlannedRow(b, e);
        forall m: nat | m < |u.orders| ensures AverageFits(u.orders[m], u.fills, m) {
          FillFits(b.orders[m], u.orders[m], b.fills, u.fills[|b.fills|], m);
        }
      } else {
        StatusKeepsFilled(b, n, e);
        SameFilledFits(b, u);
      }
    }
  }

  lemma StatusKeepsFilled(b: Book, n: nat, e: BrokerEvent)
    requires !e.kind.Filling?
    ensures SameFilled(b, Applied(b, n, e).book)
  {
  }

  lemma OthersKeepFilled(b: Book, s: Step)
    requires !s.Submit? && !s.Apply?
    ensures SameFilled(b, After(b, s))
  {
    match s
    case Reserve(_, _) => assert After(b, s) ==
      b.(reservations := After(b, s).reservations, journal := After(b, s).journal);
    case Release(_) => assert After(b, s) ==
      b.(reservations := After(b, s).reservations, journal := After(b, s).journal);
    case _ =>
  }

  lemma StepKeepsAverages(b: Book, s: Step)
    requires AveragesFit(b)
    ensures AveragesFit(After(b, s))
  {
    match s
    case Apply(n, e) => ApplyKeepsAverages(b, n, e);
    case Submit(owner, buy, quantity, price, e) =>
      var more := b.(orders := b.orders + [Order(owner, buy, quantity, 0, 0, PendingSubmission, 0)]);
      SameFilledFits(b, more);
      ApplyKeepsAverages(more, |b.orders|, e);
    case _ =>
      OthersKeepFilled(b, s);
      SameFilledFits(b, After(b, s));
  }

  lemma {:induction false} RunsKeepAverages(b: Book, steps: seq<Step>)
    requires Initial(b)
    ensures AveragesFit(Run(b, steps))
  {
    if steps != [] {
      RunsKeepAverages(b, steps[..|steps| - 1]);
      StepKeepsAverages(Run(b, steps[..|steps| - 1]), steps[|steps| - 1]);
    }
  }

  /**
   After every run, an order's average price is positive once it has fills, and times what was filled it is off the sum
   of its fills' considerations by at most half a step of the filled quantity and half a step, for every fill.
   */
  lemma AverageIsCostOverFilled(b: Book, steps: seq<Step>, n: nat)
    requires Initial(b) && n < |Run(b, steps).orders|
    ensures AverageFits(Run(b, steps).orders[n], Run(b, steps).fills, n)
  {
    RunsKeepAverages(b, steps);
  }
}
