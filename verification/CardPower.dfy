/**
 Spending power: eligible cash and, unless the customer repays from cash only, risk-adjusted collateral, within two caps
 and less what is outstanding. An authorization approved on it leaves the customer's exposure within all of them.
 */
module CardPower {
  import opened Results
  import opened Decimals
  import opened Entries
  import opened AutoSell
  import opened CardLedger
  import opened Card
  import opened CardHolds
  import opened CardRuns
  import opened CardAmounts
  import opened CardGuards

  /** A collateral account; `usable` folds the asset's flags and the status, market and age of its quote. */
  datatype Holding = Holding(account: AccountId, symbol: Currency, price: Decimal, haircut: Decimal, usable: bool)

  datatype Limits = Limits(absolute: Decimal, provider: Decimal)

  /** What the loop over collateral accumulates. */
  datatype Pool = Pool(total: Decimal, count: nat, largest: Decimal)

  const ALONE: Decimal := 850_000_000_000_000_000
  const CONCENTRATED: Decimal := 900_000_000_000_000_000
  const CONCENTRATION: Decimal := 700_000_000_000_000_000

  function HoldingKey(h: Holding): Key {
    Key(h.account, h.symbol, Settled)
  }

  /** Quantity at the price, less the haircut of it: both products are rounded. */
  function Worth(quantity: Decimal, h: Holding): Result<Decimal, CardError> {
    var value :- Checked(Multiply(quantity, h.price, AMOUNT_POLICY));
    Checked(Multiply(value, h.haircut, AMOUNT_POLICY))
  }

  function WithHolding(journal: seq<Entry>, c: Pool, h: Holding): Result<Pool, CardError> {
    var quantity :- ReadBalance(journal, HoldingKey(h));
    var worth :- Worth(quantity, h);
    if quantity <= 0 || !h.usable then Success(c)
    else
      var total :- Checked(Add(c.total, worth));
      Success(Pool(total, c.count + 1, if worth > c.largest then worth else c.largest))
  }

  /** The loop over collateral accounts. */
  function Collected(journal: seq<Entry>, hs: seq<Holding>): Result<Pool, CardError> {
    if hs == [] then Success(Pool(0, 0, 0))
    else
      var c :- Collected(journal, hs[..|hs| - 1]);
      WithHolding(journal, c, hs[|hs| - 1])
  }

  /** A single position counts for 85%, and one that is more than 70% of several for 90% of all. */
  function RiskFactor(c: Pool): Result<Decimal, CardError> {
    if c.count == 1 then Success(ALONE)
    else
      var share :- Checked(Divide(c.largest, c.total, AMOUNT_POLICY));
      Success(if share > CONCENTRATION then CONCENTRATED else UNIT)
  }

  function RiskAdjusted(c: Pool): Result<Decimal, CardError> {
    if c.total <= 0 then Success(c.total)
    else
      var factor :- RiskFactor(c);
      Checked(Multiply(c.total, factor, AMOUNT_POLICY))
  }

  datatype Power = Power(cash: Decimal, collateral: Decimal, gross: Decimal, available: Decimal)

  /** `active` is spending status and eligibility. */
  function Calculated(journal: seq<Entry>, p: Profile, hs: seq<Holding>, limits: Limits, active: bool)
      : Result<Power, CardError>
  {
    var settled :- ReadBalance(journal, p.SettledCash());
    var withdrawable :- ReadBalance(journal, p.WithdrawableCash());
    var holds :- ReadBalance(journal, p.HeldKey());
    var receivable :- ReadBalance(journal, p.ReceivableKey());
    var cash := Minimum(PositiveRemainder(settled), PositiveRemainder(withdrawable));
    var collected :- Collected(journal, hs);
    var collateral :- RiskAdjusted(collected);
    var all :- if p.mode.CashOnly? then Success(cash) else Checked(Add(cash, collateral));
    var gross := Minimum(all, Minimum(limits.absolute, limits.provider));
    var used :- Checked(Add(PositiveRemainder(holds), PositiveRemainder(receivable)));
    var available :- Checked(Sub(gross, used));
    Success(Power(cash, collateral, gross, if active then PositiveRemainder(available) else 0))
  }

  method CollectCollateral(journal: seq<Entry>, hs: seq<Holding>) returns (r: Result<Pool, CardError>)
    ensures r == Collected(journal, hs)
  {
    var total, count, largest := 0, 0, 0;
    var i := 0;
    while i < |hs|
      invariant 0 <= i <= |hs| && Collected(journal, hs[..i]) == Success(Pool(total, count, largest))
    {
      var next := WithHolding(journal, Pool(total, count, largest), hs[i]);
      CollectedStep(journal, hs, i);
      if next.Failure? {
        CollectionStops(journal, hs, i + 1);
        return next;
      }
      total, count, largest := next.value.total, next.value.count, next.value.largest;
      i := i + 1;
    }
    assert hs[..i] == hs;
    r := Success(Pool(total, count, largest));
  }

  method CalculateSpendingPower(journal: seq<Entry>, p: Profile, hs: seq<Holding>, limits: Limits, active: bool)
    returns (r: Result<Power, CardError>)
    ensures r == Calculated(journal, p, hs, limits, active)
  {
    var settled :- ReadBalance(journal, p.SettledCash());
    var withdrawable :- ReadBalance(journal, p.WithdrawableCash());
    var cash := Minimum(PositiveRemainder(settled), PositiveRemainder(withdrawable));
    var holds :- ReadBalance(journal, p.HeldKey());
    var receivable :- ReadBalance(journal, p.ReceivableKey());
    var collected :- CollectCollateral(journal, hs);
    var collateral :- RiskAdjusted(collected);
    var gross := cash;
    if !p.mode.CashOnly? {
      gross :- Checked(Add(gross, collateral));
    }
    gross := Minimum(gross, Minimum(limits.absolute, limits.provider));
    var used :- Checked(Add(PositiveRemainder(holds), PositiveRemainder(receivable)));
    var available :- Checked(Sub(gross, used));
    return Success(Power(cash, collateral, gross, if active then PositiveRemainder(available) else 0));
  }

  lemma CollectedStep(journal: seq<Entry>, hs: seq<Holding>, i: nat)
    requires i < |hs| && Collected(journal, hs[..i]).Success?
    ensures Collected(journal, hs[..i + 1]) == WithHolding(journal, Collected(journal, hs[..i]).value, hs[i])
  {
    assert hs[..i + 1][..i] == hs[..i];
  }

  lemma {:induction false} CollectionStops(journal: seq<Entry>, hs: seq<Holding>, n: nat)
    requires n <= |hs| && Collected(journal, hs[..n]).Failure?
    ensures Collected(journal, hs) == Collected(journal, hs[..n])
  {
    if n == |hs| {
      assert hs[..n] == hs;
    } else {
      assert hs[..|hs| - 1][..n] == hs[..n];
      CollectionStops(journal, hs[..|hs| - 1], n);
    }
  }

  // ---- What counts as collateral ----

  /** `worth` is quantity at price, rounded, and the haircut of that, rounded. */
  ghost predicate IsWorth(quantity: Decimal, h: Holding, worth: Decimal) {
    exists value :: Nearest(quantity * h.price, value) && Nearest(value * h.haircut, worth)
  }

  lemma WorthIsNearest(quantity: Decimal, h: Holding)
    requires Worth(quantity, h).Success?
    ensures IsWorth(quantity, h, Worth(quantity, h).value)
  {
    var value := Multiply(quantity, h.price, AMOUNT_POLICY).value;
    ProductIsNearest(quantity, h.price, value);
    ProductIsNearest(value, h.haircut, Worth(quantity, h).value);
  }

  /** Worths for holdings, one for each, that add up: of usable holdings with something in them, and nothing else. */
  ghost predicate AddsUp(journal: seq<Entry>, hs: seq<Holding>, worths: seq<Decimal>, c: Pool) {
    && |worths| == |hs| && c.total == TotalOf(worths) && c.count == CountOf(journal, hs) && c.largest >= 0
    && (forall i | 0 <= i < |hs| ::
         if hs[i].usable && Balance(journal, HoldingKey(hs[i])) > 0
           then IsWorth(Balance(journal, HoldingKey(hs[i])), hs[i], worths[i]) else worths[i] == 0)
    && (forall i | 0 <= i < |worths| :: worths[i] <= c.largest)
    && (c.largest > 0 ==> c.largest in worths)
  }

  function TotalOf(worths: seq<Decimal>): int {
    if worths == [] then 0 else TotalOf(worths[..|worths| - 1]) + worths[|worths| - 1]
  }

  function CountOf(journal: seq<Entry>, hs: seq<Holding>): nat {
    if hs == [] then 0
    else
      CountOf(journal, hs[..|hs| - 1])
      + if hs[|hs| - 1].usable && Balance(journal, HoldingKey(hs[|hs| - 1])) > 0 then 1 else 0
  }

  lemma OneMoreWorth(journal: seq<Entry>, hs: seq<Holding>, worths: seq<Decimal>, c: Pool, worth: Decimal,
      next: Pool)
    requires hs != [] && AddsUp(journal, hs[..|hs| - 1], worths, c)
    requires var h := hs[|hs| - 1];
             if h.usable && Balance(journal, HoldingKey(h)) > 0
             then && IsWorth(Balance(journal, HoldingKey(h)), h, worth)
                  && next == Pool(c.total + worth, c.count + 1, if worth > c.largest then worth else c.largest)
             else worth == 0 && next == c
    ensures AddsUp(journal, hs, worths + [worth], next)
  {
    var all := worths + [worth];
    assert all[..|worths|] == worths;
    assert forall i | 0 <= i < |worths| :: all[i] == worths[i] && hs[..|hs| - 1][i] == hs[i];
    assert all[|worths|] == worth;
  }

  lemma {:induction false} CollectedAddsUp(journal: seq<Entry>, hs: seq<Holding>)
    requires Collected(journal, hs).Success?
    ensures exists worths :: AddsUp(journal, hs, worths, Collected(journal, hs).value)
  {
    if hs == [] {
      assert AddsUp(journal, hs, [], Pool(0, 0, 0));
    } else {
      var h := hs[|hs| - 1];
      CollectedAddsUp(journal, hs[..|hs| - 1]);
      var c := Collected(journal, hs[..|hs| - 1]).value;
      var worths :| AddsUp(journal, hs[..|hs| - 1], worths, c);
      var quantity := Balance(journal, HoldingKey(h));
      WorthIsNearest(quantity, h);
      var worth := if h.usable && quantity > 0 then Worth(quantity, h).value else 0;
      OneMoreWorth(journal, hs, worths, c, worth, Collected(journal, hs).value);
    }
  }

  /** The factor of a collection: 85% of a single position, 90% if one is more than 70% of all, else everything. */
  ghost predicate IsFactor(c: Pool, factor: Decimal) {
    if c.count == 1 then factor == 850_000_000_000_000_000
    else exists share ::
      && IsRounded(c.largest * UNIT, c.total, HalfEven, share)
      && factor == if share > 700_000_000_000_000_000 then 900_000_000_000_000_000 else UNIT
  }

  lemma AdjustedIsNearest(c: Pool)
    requires c.total > 0 && RiskAdjusted(c).Success?
    ensures exists factor :: IsFactor(c, factor) && Nearest(c.total * factor, RiskAdjusted(c).value)
  {
    var factor := RiskFactor(c).value;
    if c.count != 1 {
      var share := Divide(c.largest, c.total, AMOUNT_POLICY).value;
      FullScaleRounding(c.largest, c.total, AMOUNT_POLICY);
      assert IsRounded(c.largest * UNIT, c.total, HalfEven, share);
    }
    assert IsFactor(c, factor);
    ProductIsNearest(c.total, factor, RiskAdjusted(c).value);
  }

  // ---- The power ----

  function Exposure(journal: seq<Entry>, p: Profile): int {
    PositiveRemainder(Balance(journal, p.HeldKey())) + PositiveRemainder(Balance(journal, p.ReceivableKey()))
  }

  /**
   What is available: for an active customer whatever cash both balances cover, with collateral unless repayment is from
   cash only, up to both caps, exceeds the outstanding holds and receivable by; else nothing.
   */
  lemma AvailableIsHeadroom(journal: seq<Entry>, p: Profile, hs: seq<Holding>, limits: Limits, active: bool)
    requires Calculated(journal, p, hs, limits, active).Success?
    ensures var r := Calculated(journal, p, hs, limits, active).value;
            var all := r.cash + if p.mode.CashOnly? then 0 else r.collateral;
            && r.cash == Minimum(PositiveRemainder(Balance(journal, p.SettledCash())),
                 PositiveRemainder(Balance(journal, p.WithdrawableCash())))
            && r.gross == Minimum(all, Minimum(limits.absolute, limits.provider))
            && r.available == (if active then PositiveRemainder(r.gross - Exposure(journal, p)) else 0)
            && Collected(journal, hs).Success? && RiskAdjusted(Collected(journal, hs).value) == Success(r.collateral)
  {
  }

  /** The gate of an authorization: its dollars fit into what is available. */
  ghost predicate GateIsPower(b: Book, c: Command, k: Conditions, hs: seq<Holding>, limits: Limits, active: bool)
    requires c.AuthorizeCard? && c.customer in b.profiles
  {
    var power := Calculated(b.journal, b.profiles[c.customer], hs, limits, active);
    k.enoughPower <==>
    power.Success? && k.rate.Some? && Converted(c.merchantAmount, k.rate.value, k.markup).Success?
    && Converted(c.merchantAmount, k.rate.value, k.markup).value <= power.value.available
  }

  /**
   An authorization that is approved on its spending power leaves holds and receivable of the customer, together, within
   both caps and within cash and risk-adjusted collateral.
   */
  lemma ApprovedStaysWithinPower(b: Book, c: Command, k: Conditions, hs: seq<Holding>, limits: Limits, active: bool)
    requires Sound(b) && c.AuthorizeCard? && c.customer in b.profiles && GateIsPower(b, c, k, hs, limits, active)
    requires TakesEffect(Executed(b, c, k))
    ensures var u := Executed(b, c, k).book;
            && |u.authorizations| == |b.authorizations| + 1 && c.customer in u.profiles
            && (u.authorizations[|b.authorizations|].status == Approved ==>
                 var p := b.profiles[c.customer];
                 && Calculated(b.journal, p, hs, limits, active).Success?
                 && var power := Calculated(b.journal, p, hs, limits, active).value;
                    && active && Exposure(u.journal, p) <= power.gross <= limits.absolute
                    && power.gross <= limits.provider
                    && power.gross <= power.cash + if p.mode.CashOnly? then 0 else power.collateral)
            && (u.authorizations[|b.authorizations|].status != Approved ==> u.journal == b.journal)
  {
    var p := b.profiles[c.customer];
    NewIsDecided(b, c, k);
    AuthorizationIsBooked(b, c, k);
    var a := PlanAuthorization(b, c, k).value;
    if a.status == Approved {
      AvailableIsHeadroom(b.journal, p, hs, limits, active);
      HoldMovesExposure(b.journal, p, a.authorizedUsd);
    }
  }

  lemma AuthorizationIsBooked(b: Book, c: Command, k: Conditions)
    requires c.AuthorizeCard? && c.customer in b.profiles && TakesPlace(b, c, k)
    ensures var u, a := Executed(b, c, k).book, PlanAuthorization(b, c, k).value;
            && u.authorizations == b.authorizations + [a] && u.profiles == b.profiles
            && u.journal == b.journal
               + (if a.status == Approved then HoldEntries(b.profiles[c.customer], a.authorizedUsd)
                 else [])
            && a.authorizedUsd > 0 && k.rate.Some?
            && Converted(c.merchantAmount, k.rate.value, k.markup) == Success(a.authorizedUsd)
            && (a.status == Approved ==> k.enoughPower)
  {
  }

  lemma HoldMovesExposure(journal: seq<Entry>, p: Profile, amount: Decimal)
    requires p.Apart() && amount > 0
    ensures Exposure(journal + HoldEntries(p, amount), p) <= Exposure(journal, p) + amount
  {
    BalanceOfConcat(journal, HoldEntries(p, amount), p.HeldKey());
    BalanceOfConcat(journal, HoldEntries(p, amount), p.ReceivableKey());
    HoldEffect(p, amount, p.HeldKey());
    HoldEffect(p, amount, p.ReceivableKey());
  }
}
