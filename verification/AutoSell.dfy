/**
 Protected auto-sell: while a repayment is short, collateral is sold in priority order, each order sized
 against the worst price its protected limit permits.
 */
module AutoSell {
  import opened Results
  import opened Decimals
  import opened Entries

  const USD: Currency := "USD"
  const AMOUNT_POLICY := Policy("card-sim-v1", SCALE, HalfEven)
  const SIZING_POLICY := Policy("card-sim-v1", SCALE, AwayFromZero)
  const WHOLE_POLICY := Policy("card-sim-v1", 0, TowardZero)
  const PROVIDER_POLICY := Policy("card-provider-v1", SCALE, HalfEven)
  const PARTIAL_POLICY := Policy("card-provider-v1", SCALE, TowardZero)

  function Minimum(x: Decimal, y: Decimal): Decimal {
    if x <= y then x else y
  }

  function PositiveRemainder(x: Decimal): Decimal {
    if x > 0 then x else 0
  }

  datatype CardError =
    | InvalidCommand | AuthorizationNotFound | CaptureNotFound | DisputeNotFound | EventConflict | IdempotencyConflict
    | InvalidState | TipExceeded | FxUnavailable | RefundExceeded | InsufficientPower | ProtectedSellFailed
    | RowRejected | LedgerRejected | Arithmetic

  // ---- Ledger access ----

  /** A posting passes the ledger's check or fails the whole operation. */
  ghost function Posted(journal: seq<Entry>, es: seq<Entry>): Result<seq<Entry>, CardError> {
    if Check(es).Success? then Success(journal + es) else Failure(LedgerRejected)
  }

  /** A balance as the service reads it: a valid currency and at most 38 digits. */
  function ReadBalance(journal: seq<Entry>, k: Key): Result<Decimal, CardError> {
    if ValidCurrency(k.currency) then Checked(FromCoefficient(Balance(journal, k))) else Failure(LedgerRejected)
  }

  function Checked(r: Result<Decimal, Error>): Result<Decimal, CardError> {
    if r.Success? then Success(r.value) else Failure(Arithmetic)
  }

  // ---- Mandate, market and provider ----

  datatype MandateAsset = MandateAsset(symbol: Currency, retain: Decimal)

  /** `live` folds the enabled flag and the expiry; assets come in priority order. */
  datatype Mandate = Mandate(live: bool, fractional: bool, dailyMax: Decimal, assets: seq<MandateAsset>)

  /** `usable` folds quote status, market status and age. */
  datatype Quote = Quote(price: Decimal, usable: bool)
  datatype Collateral = Collateral(account: AccountId, inventory: AccountId, restricted: bool)

  /** What one capture's auto-sell works with. */
  datatype Market = Market(
    quotes: map<Currency, Quote>,
    collateral: map<Currency, Collateral>,
    cash: AccountId,
    clearing: AccountId,
    guardrail: Decimal,
    fractional: bool,
    scenario: Scenario)

  datatype Scenario = Normal | Partial | Timeout | Stale | VenueFailure | ProtectionBreach

  datatype SellStatus = Filled | PartiallyFilled | Failed
  datatype FailureCode =
    | NoFailure | AssetUnavailable | AssetRestricted | ReferencePriceUnavailable | ProviderTimeout
    | ProviderUnavailable | ProtectedLimitNotMarketable

  datatype SellResult = SellResult(status: SellStatus, filled: Decimal, price: Decimal, proceeds: Decimal,
      failure: FailureCode)

  function NotSold(failure: FailureCode): SellResult {
    SellResult(Failed, 0, 0, 0, failure)
  }

  const LIMIT_DISCOUNT: Decimal := 995_000_000_000_000_000
  const HALF: Decimal := 500_000_000_000_000_000

  /** The local venue: sells at 99.5% of the reference price, all or half of the order, never below the limit. */
  function ExecuteProtectedSell(requested: Decimal, reference: Decimal, limit: Decimal, scenario: Scenario): SellResult
  {
    if requested <= 0 || reference <= 0 || limit <= 0 || limit >= reference then NotSold(ProviderUnavailable)
    else match scenario
      case Timeout => NotSold(ProviderTimeout)
      case Stale => NotSold(ReferencePriceUnavailable)
      case VenueFailure => NotSold(ProviderUnavailable)
      case ProtectionBreach => NotSold(ProtectedLimitNotMarketable)
      case _ => Fill(requested, Multiply(reference, LIMIT_DISCOUNT, PROVIDER_POLICY), limit, scenario.Partial?)
  }

  function Fill(requested: Decimal, price: Result<Decimal, Error>, limit: Decimal, half: bool): SellResult {
    if price.Failure? then NotSold(ProviderUnavailable)
    else if price.value < limit then NotSold(ProtectedLimitNotMarketable)
    else
      var filled := if half then Multiply(requested, HALF, PARTIAL_POLICY) else Success(requested);
      if filled.Failure? then NotSold(ProviderUnavailable)
      else
        var proceeds := Multiply(filled.value, price.value, PROVIDER_POLICY);
        if proceeds.Failure? then NotSold(ProviderUnavailable)
        else SellResult(if half then PartiallyFilled else Filled, filled.value, price.value, proceeds.value, NoFailure)
  }

  // ---- Selling one asset ----

  datatype Execution = Execution(symbol: Currency, requested: Decimal, limit: Decimal, result: SellResult)

  /** The state the loop carries: the ledger inside the transaction, the rows, what is still needed, what came in. */
  datatype Sale = Sale(journal: seq<Entry>, rows: seq<Execution>, remaining: Decimal, proceeds: Decimal)

  function Restriction(m: Market, symbol: Currency): FailureCode {
    if symbol !in m.quotes || symbol !in m.collateral then AssetUnavailable
    else if m.collateral[symbol].restricted then AssetRestricted
    else if !m.quotes[symbol].usable then ReferencePriceUnavailable
    else NoFailure
  }

  datatype Order = Order(quantity: Decimal, limit: Decimal)

  /** The order for an asset that can be sold: enough at the protected limit, within what may leave the account. */
  function Sized(s: Sale, asset: MandateAsset, m: Market): Result<Order, CardError>
    requires Restriction(m, asset.symbol).NoFailure?
  {
    var free :- FreeShares(s, asset, m);
    var limit :- ProtectedLimit(asset, m);
    var wanted :- Checked(Divide(s.remaining, limit, SIZING_POLICY));
    var quantity :- Ordered(wanted, free, m.fractional);
    Success(Order(quantity, limit))
  }

  function Shares(m: Market, symbol: Currency): Key
    requires symbol in m.collateral
  {
    Key(m.collateral[symbol].account, symbol, Settled)
  }

  function FreeShares(s: Sale, asset: MandateAsset, m: Market): Result<Decimal, CardError>
    requires asset.symbol in m.collateral
  {
    var held :- ReadBalance(s.journal, Key(m.collateral[asset.symbol].account, asset.symbol, Settled));
    Checked(Sub(held, asset.retain))
  }

  /** The worst price a sale may take: the reference price less the guardrail. */
  function ProtectedLimit(asset: MandateAsset, m: Market): Result<Decimal, CardError>
    requires asset.symbol in m.quotes
  {
    var factor :- Checked(Sub(UNIT, m.guardrail));
    Checked(Multiply(m.quotes[asset.symbol].price, factor, AMOUNT_POLICY))
  }

  /** What is wanted within what is free, cut down to whole shares unless fractions may be sold. */
  function Ordered(wanted: Decimal, free: Decimal, fractional: bool): Result<Decimal, CardError> {
    var quantity := Minimum(wanted, PositiveRemainder(free));
    if fractional then Success(quantity) else Checked(Round(quantity, WHOLE_POLICY))
  }

  function SaleEntries(m: Market, symbol: Currency, filled: Decimal, proceeds: Decimal): seq<Entry>
    requires symbol in m.collateral
  {
    [ Entry(m.collateral[symbol].account, symbol, Settled, Credit, filled),
      Entry(m.collateral[symbol].inventory, symbol, Settled, Debit, filled),
      Entry(m.cash, USD, Settled, Debit, proceeds),
      Entry(m.clearing, USD, Settled, Credit, proceeds),
      Entry(m.cash, USD, Withdrawable, Debit, proceeds),
      Entry(m.clearing, USD, Withdrawable, Credit, proceeds) ]
  }

  /** Records a sale that did not happen. */
  function Skipped(s: Sale, symbol: Currency, order: Order, failure: FailureCode): Sale {
    s.(rows := s.rows + [Execution(symbol, order.quantity, order.limit, NotSold(failure))])
  }

  /** An order of no quantity breaks the row's `requested_quantity > 0` check, and with it the whole capture. */
  ghost function SoldOne(s: Sale, asset: MandateAsset, m: Market): Result<Sale, CardError> {
    var restriction := Restriction(m, asset.symbol);
    if !restriction.NoFailure? then Success(Skipped(s, asset.symbol, Order(1, 1), restriction))
    else
      var order :- Sized(s, asset, m);
      if order.quantity <= 0 then Failure(RowRejected)
      else Booked(s, asset, m, order,
        ExecuteProtectedSell(order.quantity, m.quotes[asset.symbol].price, order.limit, m.scenario))
  }

  ghost function Booked(s: Sale, asset: MandateAsset, m: Market, order: Order, result: SellResult)
      : Result<Sale, CardError>
    requires Restriction(m, asset.symbol).NoFailure?
  {
    if result.status.Failed? || result.filled <= 0 then Success(Skipped(s, asset.symbol, order, result.failure))
    else if result.price < order.limit then Failure(ProtectedSellFailed)
    else
      var journal :- Posted(s.journal, SaleEntries(m, asset.symbol, result.filled, result.proceeds));
      var proceeds :- Checked(Add(s.proceeds, result.proceeds));
      var rest :- Checked(Sub(s.remaining, result.proceeds));
      Success(Sale(journal, s.rows + [Execution(asset.symbol, order.quantity, order.limit, result)],
        PositiveRemainder(rest), proceeds))
  }

  /** The loop: assets in order until nothing more is needed. */
  ghost function Sold(s: Sale, assets: seq<MandateAsset>, m: Market): Result<Sale, CardError> {
    if assets == [] then Success(s)
    else
      var before :- Sold(s, assets[..|assets| - 1], m);
      if before.remaining <= 0 then Success(before) else SoldOne(before, assets[|assets| - 1], m)
  }

  // ---- Sizing ----

  /** An order sized away from zero is worth at least what is needed at the limit, and less than one step more. */
  lemma SizingBracket(needed: Decimal, limit: Decimal, wanted: Decimal)
    requires needed > 0 && limit > 0 && Divide(needed, limit, SIZING_POLICY) == Success(wanted)
    ensures needed * UNIT <= wanted * limit < needed * UNIT + limit && wanted > 0
  {
    FullScaleRounding(needed, limit, SIZING_POLICY);
    PositiveProduct(needed, UNIT);
    RoundedAway(needed * UNIT, limit, wanted);
  }

  lemma PositiveProduct(x: int, y: int)
    requires x > 0 && y > 0
    ensures x * y > 0
  {
  }

  lemma RoundedAway(n: int, d: nat, v: int)
    requires n > 0 && d > 0 && IsRounded(n, d, AwayFromZero, v)
    ensures n <= v * d < n + d && v > 0
  {
    RoundingError(n, d, AwayFromZero, v);
  }

  /** Rounding a value that is at least a whole number of steps gives at least that number. */
  lemma RoundedAtLeast(n: int, d: nat, mode: Mode, v: int, floor: int)
    requires d > 0 && (mode.HalfEven? || mode.HalfAway?) && IsRounded(n, d, mode, v) && floor * d <= n
    ensures floor <= v
  {
    RoundingError(n, d, mode, v);
    if v < floor {
      ProductOrder(v, floor, d);
    }
  }

  /** An order filled whole at any price from the limit up brings at least the amount it was sized for. */
  lemma SizingCovers(needed: Decimal, limit: Decimal, wanted: Decimal, price: Decimal, proceeds: Decimal)
    requires needed > 0 && limit > 0 && price >= limit
    requires Divide(needed, limit, SIZING_POLICY) == Success(wanted)
    requires Multiply(wanted, price, PROVIDER_POLICY) == Success(proceeds)
    ensures proceeds >= needed
  {
    SizingBracket(needed, limit, wanted);
    assert wanted * limit <= wanted * price by {
      ScaledOrder(limit, price, wanted);
    }
    FullScaleRounding(wanted, price, PROVIDER_POLICY);
    RoundedAtLeast(wanted * price, UNIT, HalfEven, proceeds, needed);
  }

  lemma ScaledOrder(x: int, y: int, k: int)
    requires x <= y && k >= 0
    ensures k * x <= k * y
  {
  }

  // ---- What one asset contributes ----

  /** A sized order never exceeds what is needed at the limit nor what may leave the account. */
  lemma SizedWithin(s: Sale, asset: MandateAsset, m: Market)
    requires Restriction(m, asset.symbol).NoFailure? && s.remaining > 0
    requires Sized(s, asset, m).Success? && Sized(s, asset, m).value.quantity > 0 && Sized(s, asset, m).value.limit > 0
    ensures var order := Sized(s, asset, m).value;
            && order.quantity * order.limit < s.remaining * UNIT + order.limit
            && order.quantity <= Balance(s.journal, Key(m.collateral[asset.symbol].account, asset.symbol, Settled))
               - asset.retain
  {
    var order := Sized(s, asset, m).value;
    var held := ReadBalance(s.journal, Key(m.collateral[asset.symbol].account, asset.symbol, Settled)).value;
    var free := Sub(held, asset.retain).value;
    var wanted := Divide(s.remaining, order.limit, SIZING_POLICY).value;
    var quantity := Minimum(wanted, PositiveRemainder(free));
    SizingBracket(s.remaining, order.limit, wanted);
    if !m.fractional {
      RoundDown(quantity, order.quantity);
    }
    SmallerOrder(order.quantity, wanted, order.limit, s.remaining * UNIT + order.limit);
  }

  lemma SmallerOrder(quantity: int, wanted: int, limit: int, bound: int)
    requires quantity <= wanted && limit > 0 && wanted * limit < bound
    ensures quantity * limit < bound
  {
    ScaledOrder(quantity, wanted, limit);
  }

  lemma RoundDown(x: Decimal, r: Decimal)
    requires Round(x, WHOLE_POLICY) == Success(r) && r > 0
    ensures r <= x
  {
    RoundIsRoundRatio(x, WHOLE_POLICY);
    var g := WHOLE_POLICY.Grid();
    RoundingIsUnique(x, g, TowardZero, RoundRatio(x, g, TowardZero));
    RoundedDown(x, g, RoundRatio(x, g, TowardZero));
  }

  lemma RoundedDown(n: int, d: nat, v: int)
    requires d > 0 && IsRounded(n, d, TowardZero, v) && v * d > 0
    ensures v * d <= n
  {
    RoundingError(n, d, TowardZero, v);
  }

  /** What a venue result promises about the order it answers. */
  ghost predicate FairFill(requested: Decimal, limit: Decimal, r: SellResult) {
    && requested > 0 && limit > 0 && 0 <= r.filled <= requested && r.price >= limit
    && 2 * Abs(r.proceeds * UNIT - r.filled * r.price) <= UNIT && r.proceeds >= 0
  }

  lemma FillIsFair(requested: Decimal, price: Result<Decimal, Error>, limit: Decimal, half: bool)
    requires requested > 0 && limit > 0
    ensures var r := Fill(requested, price, limit, half); !r.status.Failed? ==> FairFill(requested, limit, r)
  {
    var r := Fill(requested, price, limit, half);
    if !r.status.Failed? {
      if half {
        FullScaleRounding(requested, HALF, PARTIAL_POLICY);
        PartOfOrder(requested, HALF, UNIT, r.filled);
      }
      FullScaleRounding(r.filled, r.price, PROVIDER_POLICY);
      NonNegativeProduct(r.filled, r.price);
      ProceedsBound(r.filled * r.price, UNIT, r.proceeds);
    }
  }

  /** The venue never fills more than was ordered, nor below the limit, and its proceeds are exact to half a step. */
  lemma VenueIsFair(requested: Decimal, reference: Decimal, limit: Decimal, scenario: Scenario)
    ensures var r := ExecuteProtectedSell(requested, reference, limit, scenario);
            !r.status.Failed? ==> FairFill(requested, limit, r)
  {
    if requested > 0 && limit > 0 {
      FillIsFair(requested, Multiply(reference, LIMIT_DISCOUNT, PROVIDER_POLICY), limit, scenario.Partial?);
    }
  }

  lemma NonNegativeProduct(x: int, y: int)
    requires x >= 0 && y >= 0
    ensures x * y >= 0
  {
  }

  lemma PartOfOrder(requested: Decimal, part: nat, unit: nat, filled: Decimal)
    requires requested > 0 && 0 < part <= unit && IsRounded(requested * part, unit, TowardZero, filled)
    ensures 0 <= filled <= requested
  {
    PositiveProduct(requested, part);
    ScaledOrder(part, unit, requested);
    RoundingError(requested * part, unit, TowardZero, filled);
    if filled > requested {
      ProductOrder(requested, filled, unit);
    }
  }

  lemma ProceedsBound(value: int, unit: nat, proceeds: Decimal)
    requires unit > 0 && IsRounded(value, unit, HalfEven, proceeds) && value >= 0
    ensures 2 * Abs(proceeds * unit - value) <= unit && proceeds >= 0
  {
    RoundingError(value, unit, HalfEven, proceeds);
  }

  /** The parts of a sized order. */
  lemma SizedAtLimit(s: Sale, asset: MandateAsset, m: Market)
    requires Restriction(m, asset.symbol).NoFailure? && Sized(s, asset, m).Success?
    ensures var order := Sized(s, asset, m).value;
            && ProtectedLimit(asset, m) == Success(order.limit) && order.limit != 0
            && Divide(s.remaining, order.limit, SIZING_POLICY).Success?
  {
  }

  lemma FreeIsBalance(s: Sale, asset: MandateAsset, m: Market)
    requires asset.symbol in m.collateral && FreeShares(s, asset, m).Success?
    ensures FreeShares(s, asset, m).value == Balance(s.journal, Shares(m, asset.symbol)) - asset.retain
  {
  }

  lemma SizedQuantity(s: Sale, asset: MandateAsset, m: Market, wanted: Decimal)
    requires Restriction(m, asset.symbol).NoFailure? && Sized(s, asset, m).Success?
    requires Divide(s.remaining, Sized(s, asset, m).value.limit, SIZING_POLICY) == Success(wanted)
    ensures FreeShares(s, asset, m).Success?
    ensures Ordered(wanted, FreeShares(s, asset, m).value, m.fractional) == Success(Sized(s, asset, m).value.quantity)
  {
  }

  lemma SizedParts(s: Sale, asset: MandateAsset, m: Market)
    requires Restriction(m, asset.symbol).NoFailure? && Sized(s, asset, m).Success?
    ensures var order := Sized(s, asset, m).value;
            && ProtectedLimit(asset, m) == Success(order.limit) && order.limit != 0
            && Divide(s.remaining, order.limit, SIZING_POLICY).Success?
            && Ordered(Divide(s.remaining, order.limit, SIZING_POLICY).value,
                       Balance(s.journal, Shares(m, asset.symbol)) - asset.retain, m.fractional) ==
                         Success(order.quantity)
  {
    SizedAtLimit(s, asset, m);
    SizedQuantity(s, asset, m, Divide(s.remaining, Sized(s, asset, m).value.limit, SIZING_POLICY).value);
    FreeIsBalance(s, asset, m);
  }

  /** What is left to sell for once a sale is booked. */
  lemma BookedRemaining(s: Sale, asset: MandateAsset, m: Market, order: Order, result: SellResult)
    requires Restriction(m, asset.symbol).NoFailure? && Booked(s, asset, m, order, result).Success?
    ensures var t := Booked(s, asset, m, order, result).value;
            t.journal != s.journal ==>
                !result.status.Failed? && t.remaining == PositiveRemainder(s.remaining - result.proceeds)
  {
  }

  /** An order the account can cover, filled whole, ends the need whatever the price at or above the limit. */
  lemma WholeFillCovers(s: Sale, asset: MandateAsset, m: Market, wanted: Decimal)
    requires s.remaining > 0 && Restriction(m, asset.symbol).NoFailure? && m.fractional && m.scenario.Normal?
    requires Sized(s, asset, m).Success? && Divide(s.remaining, Sized(s, asset, m).value.limit, SIZING_POLICY) ==
             Success(wanted)
    requires Balance(s.journal, Shares(m, asset.symbol)) - asset.retain >= wanted
    requires SoldOne(s, asset, m).Success? && SoldOne(s, asset, m).value.journal != s.journal
    ensures SoldOne(s, asset, m).value.remaining == 0
  {
    var order := Sized(s, asset, m).value;
    var result := ExecuteProtectedSell(order.quantity, m.quotes[asset.symbol].price, order.limit, m.scenario);
    SizedParts(s, asset, m);
    SoldOneIsBooked(s, asset, m);
    BookedRemaining(s, asset, m, order, result);
    WholeFillProceeds(order.quantity, m.quotes[asset.symbol].price, order.limit);
    SizingBracket(s.remaining, order.limit, wanted);
    SizingCovers(s.remaining, order.limit, wanted, result.price, result.proceeds);
  }

  lemma WholeFillProceeds(requested: Decimal, reference: Decimal, limit: Decimal)
    ensures var r := ExecuteProtectedSell(requested, reference, limit, Normal);
            !r.status.Failed? ==> limit > 0 && r.filled == requested && r.price >= limit
                                  && Multiply(requested, r.price, PROVIDER_POLICY) == Success(r.proceeds)
  {
  }

  lemma SoldOneIsBooked(s: Sale, asset: MandateAsset, m: Market)
    requires Restriction(m, asset.symbol).NoFailure? && SoldOne(s, asset, m).Success?
    ensures Sized(s, asset, m).Success?
    ensures var order := Sized(s, asset, m).value;
            SoldOne(s, asset, m) == Booked(s, asset, m, order, ExecuteProtectedSell(
              order.quantity, m.quotes[asset.symbol].price, order.limit, m.scenario))
  {
  }

  // ---- The loop ----

  predicate IsFill(e: Execution) {
    !e.result.status.Failed?
  }

  /** The budget consumed, valuing every fill at its protected limit. */
  function Spent(rows: seq<Execution>): int {
    if rows == [] then 0
    else Spent(rows[..|rows| - 1]) + var e := rows[|rows| - 1]; if IsFill(e) then e.result.filled * e.limit else 0
  }

  function Fills(rows: seq<Execution>): nat {
    if rows == [] then 0 else Fills(rows[..|rows| - 1]) + if IsFill(rows[|rows| - 1]) then 1 else 0
  }

  function Proceeds(rows: seq<Execution>): int {
    if rows == [] then 0
    else Proceeds(rows[..|rows| - 1]) + var e := rows[|rows| - 1]; if IsFill(e) then e.result.proceeds else 0
  }

  function LastLimit(rows: seq<Execution>): Decimal {
    if rows == [] then 0
    else if IsFill(rows[|rows| - 1]) then rows[|rows| - 1].limit
    else LastLimit(rows[..|rows| - 1])
  }

  /** One more asset: a skipped row, or a fair fill within need and within the retained quantity. */
  ghost predicate Step(s: Sale, asset: MandateAsset, m: Market, t: Sale) {
    && |t.rows| == |s.rows| + 1 && t.rows[..|s.rows|] == s.rows
    && var e := t.rows[|s.rows|];
       if !IsFill(e) then t.journal == s.journal && t.remaining == s.remaining && t.proceeds == s.proceeds
       else
         && asset.symbol in m.collateral
         && FairFill(e.requested, e.limit, e.result) && e.result.filled > 0
         && e.requested * e.limit < s.remaining * UNIT + e.limit
         && e.requested <= Balance(s.journal, Key(m.collateral[asset.symbol].account, asset.symbol, Settled))
            - asset.retain
         && Check(SaleEntries(m, asset.symbol, e.result.filled, e.result.proceeds)).Success?
         && t.journal == s.journal + SaleEntries(m, asset.symbol, e.result.filled, e.result.proceeds)
         && t.proceeds == s.proceeds + e.result.proceeds
         && t.remaining == PositiveRemainder(s.remaining - e.result.proceeds)
  }

  lemma SoldOneIsStep(s: Sale, asset: MandateAsset, m: Market)
    requires s.remaining > 0 && SoldOne(s, asset, m).Success?
    ensures Step(s, asset, m, SoldOne(s, asset, m).value)
  {
    if Restriction(m, asset.symbol).NoFailure? {
      var order := Sized(s, asset, m).value;
      var result := ExecuteProtectedSell(order.quantity, m.quotes[asset.symbol].price, order.limit, m.scenario);
      VenueIsFair(order.quantity, m.quotes[asset.symbol].price, order.limit, m.scenario);
      if order.limit > 0 {
        SizedWithin(s, asset, m);
      }
      BookedIsStep(s, asset, m, order, result);
    }
  }

  lemma BookedIsStep(s: Sale, asset: MandateAsset, m: Market, order: Order, result: SellResult)
    requires Restriction(m, asset.symbol).NoFailure? && Booked(s, asset, m, order, result).Success?
    requires !result.status.Failed? ==>
               && FairFill(order.quantity, order.limit, result)
               && order.quantity * order.limit < s.remaining * UNIT + order.limit
               && order.quantity <= Balance(s.journal, Key(m.collateral[asset.symbol].account, asset.symbol, Settled))
                  - asset.retain
    ensures Step(s, asset, m, Booked(s, asset, m, order, result).value)
  {
  }

  /** The budget argument, fill by fill: twice the spending stays under twice the budget used plus half-step slack. */
  ghost predicate WithinBudget(s: Sale, budget: Decimal) {
    var k := Fills(s.rows);
    && (s.remaining > 0 ==> 2 * Spent(s.rows) <= 2 * ((budget - s.remaining) * UNIT) + k * UNIT)
    && (k > 0 ==> 2 * Spent(s.rows) < 2 * (budget * UNIT) + (k - 1) * UNIT + 2 * LastLimit(s.rows))
    && 0 <= s.remaining <= budget
  }

  /** The arithmetic of one fill, with products as plain numbers. */
  lemma BudgetStep(budget: int, rest: int, spent: int, k: nat, unit: nat, fill: int, limit: int, proceeds: int)
    requires 2 * spent <= 2 * ((budget - rest) * unit) + k * unit
    requires fill < rest * unit + limit && 2 * fill <= 2 * (proceeds * unit) + unit
    ensures 2 * (spent + fill) < 2 * (budget * unit) + k * unit + 2 * limit
    ensures 2 * (spent + fill) <= 2 * ((budget - (rest - proceeds)) * unit) + (k + 1) * unit
  {
    assert (budget - rest) * unit == budget * unit - rest * unit;
    assert (budget - (rest - proceeds)) * unit == budget * unit - rest * unit + proceeds * unit;
  }

  lemma StepKeepsBudget(s: Sale, asset: MandateAsset, m: Market, t: Sale, budget: Decimal)
    requires WithinBudget(s, budget) && s.remaining > 0 && Step(s, asset, m, t)
    ensures WithinBudget(t, budget)
  {
    var e := t.rows[|s.rows|];
    if IsFill(e) {
      var fill := e.result.filled * e.limit;
      SmallerOrder(e.result.filled, e.requested, e.limit, s.remaining * UNIT + e.limit);
      ScaledOrder(e.limit, e.result.price, e.result.filled);
      BudgetStep(budget, s.remaining, Spent(s.rows), Fills(s.rows), UNIT, fill, e.limit, e.result.proceeds);
    }
  }

  lemma {:induction false} LoopKeepsBudget(s: Sale, assets: seq<MandateAsset>, m: Market, budget: Decimal)
    requires WithinBudget(s, budget) && Sold(s, assets, m).Success?
    ensures WithinBudget(Sold(s, assets, m).value, budget)
  {
    if assets != [] {
      var n := |assets| - 1;
      LoopKeepsBudget(s, assets[..n], m, budget);
      var before := Sold(s, assets[..n], m).value;
      if before.remaining > 0 {
        SoldOneIsStep(before, assets[n], m);
        StepKeepsBudget(before, assets[n], m, SoldOne(before, assets[n], m).value, budget);
      }
    }
  }

  /** Over the whole loop, fills valued at their limits stay under the budget plus rounding slack. */
  lemma BudgetBound(journal: seq<Entry>, budget: Decimal, assets: seq<MandateAsset>, m: Market)
    requires budget >= 0 && Sold(Sale(journal, [], budget, 0), assets, m).Success?
    ensures var rows := Sold(Sale(journal, [], budget, 0), assets, m).value.rows;
            Fills(rows) > 0 ==>
              2 * Spent(rows) < 2 * (budget * UNIT) + (Fills(rows) - 1) * UNIT + 2 * LastLimit(rows)
  {
    assert (budget - budget) * UNIT == 0;
    LoopKeepsBudget(Sale(journal, [], budget, 0), assets, m, budget);
  }

  // ---- Where the money and the shares go ----

  /** The customer's collateral accounts are apart from the cash, clearing and inventory accounts. */
  ghost predicate Segregated(m: Market) {
    && m.cash != m.clearing
    && forall a, b | a in m.collateral && b in m.collateral ::
         && m.collateral[a].account != m.collateral[b].inventory
         && m.collateral[a].account != m.cash && m.collateral[a].account != m.clearing
         && m.collateral[a].inventory != m.cash
  }

  /** A sale moves shares out of the customer's account and the whole proceeds into both cash dimensions. */
  lemma SaleEffect(m: Market, symbol: Currency, filled: Decimal, proceeds: Decimal, k: Key)
    requires Segregated(m) && symbol in m.collateral
    ensures var es := SaleEntries(m, symbol, filled, proceeds);
            && (k.account == m.cash ==> Balance(es, k) == if k == Key(m.cash, USD, Settled)
                  || k == Key(m.cash, USD, Withdrawable) then proceeds else 0)
            && (forall a | a in m.collateral && k.account == m.collateral[a].account ::
                  Balance(es, k) == if k == Key(m.collateral[symbol].account, symbol, Settled) then -filled else 0)
  {
    var es := SaleEntries(m, symbol, filled, proceeds);
    BalanceOfConcat([es[0], es[1], es[2], es[3]], [es[4], es[5]], k);
    BalanceOfConcat([es[0], es[1]], [es[2], es[3]], k);
    assert es == [es[0], es[1], es[2], es[3]] + [es[4], es[5]];
    assert [es[0], es[1], es[2], es[3]] == [es[0], es[1]] + [es[2], es[3]];
    PairBalance(es[0], es[1], k);
    PairBalance(es[2], es[3], k);
    PairBalance(es[4], es[5], k);
  }

  lemma SaleBalanced(m: Market, symbol: Currency, filled: Decimal, proceeds: Decimal)
    requires symbol in m.collateral
    ensures BalancedPerDimension(SaleEntries(m, symbol, filled, proceeds))
  {
    var es := SaleEntries(m, symbol, filled, proceeds);
    assert es == [es[0], es[1]] + [es[2], es[3]] + [es[4], es[5]];
    forall c, d ensures DimensionTotal(es, c, d) == 0 {
      DimensionTotalOfConcat([es[0], es[1]] + [es[2], es[3]], [es[4], es[5]], c, d);
      DimensionTotalOfConcat([es[0], es[1]], [es[2], es[3]], c, d);
      PairTotal(es[0], es[1], c, d);
      PairTotal(es[2], es[3], c, d);
      PairTotal(es[4], es[5], c, d);
    }
  }

  /** Every fill of the loop balances each dimension, so the loop keeps a balanced journal balanced. */
  lemma {:induction false} LoopStaysBalanced(s: Sale, assets: seq<MandateAsset>, m: Market)
    requires Sold(s, assets, m).Success? && BalancedPerDimension(s.journal)
    ensures BalancedPerDimension(Sold(s, assets, m).value.journal)
  {
    if assets != [] {
      var n := |assets| - 1;
      LoopStaysBalanced(s, assets[..n], m);
      var before := Sold(s, assets[..n], m).value;
      if before.remaining > 0 {
        SoldOneIsStep(before, assets[n], m);
        var e := SoldOne(before, assets[n], m).value.rows[|before.rows|];
        if IsFill(e) {
          SaleBalanced(m, assets[n].symbol, e.result.filled, e.result.proceeds);
          BalancedConcat(before.journal, SaleEntries(m, assets[n].symbol, e.result.filled, e.result.proceeds));
        }
      }
    }
  }

  ghost predicate DistinctSymbols(assets: seq<MandateAsset>) {
    forall i, j | 0 <= i < j < |assets| :: assets[i].symbol != assets[j].symbol
  }

  lemma StepEffect(s: Sale, asset: MandateAsset, m: Market, t: Sale, k: Key)
    requires Segregated(m) && Step(s, asset, m, t)
    ensures forall symbol | symbol in m.collateral && k == Shares(m, symbol) && symbol != asset.symbol ::
            Balance(t.journal, k) == Balance(s.journal, k)
    ensures asset.symbol in m.collateral && k == Shares(m, asset.symbol) ==>
              Balance(t.journal, k) == Balance(s.journal, k) || Balance(t.journal, k) >= asset.retain
    ensures k == Key(m.cash, USD, Settled) || k == Key(m.cash, USD, Withdrawable) ==>
              Balance(t.journal, k) - Balance(s.journal, k) == t.proceeds - s.proceeds
    ensures t.proceeds >= s.proceeds
  {
    var e := t.rows[|s.rows|];
    if IsFill(e) {
      BalanceOfConcat(s.journal, SaleEntries(m, asset.symbol, e.result.filled, e.result.proceeds), k);
      SaleEffect(m, asset.symbol, e.result.filled, e.result.proceeds, k);
    }
  }

  /** What the loop did to one asset's shares: nothing, or a sale that left at least the retained quantity. */
  ghost predicate Kept(before: seq<Entry>, after: seq<Entry>, asset: MandateAsset, m: Market) {
    asset.symbol in m.collateral ==>
      var k := Shares(m, asset.symbol);
      Balance(after, k) == Balance(before, k) || Balance(after, k) >= asset.retain
  }

  lemma {:induction false} LoopLeavesOthers(s: Sale, assets: seq<MandateAsset>, m: Market, symbol: Currency)
    requires Segregated(m) && Sold(s, assets, m).Success? && symbol in m.collateral
    requires forall i | 0 <= i < |assets| :: assets[i].symbol != symbol
    ensures Balance(Sold(s, assets, m).value.journal, Shares(m, symbol)) == Balance(s.journal, Shares(m, symbol))
  {
    if assets != [] {
      var n := |assets| - 1;
      LoopLeavesOthers(s, assets[..n], m, symbol);
      var before := Sold(s, assets[..n], m).value;
      if before.remaining > 0 {
        SoldOneIsStep(before, assets[n], m);
        StepEffect(before, assets[n], m, SoldOne(before, assets[n], m).value, Shares(m, symbol));
      }
    }
  }

  /** No asset that started at or above its minimum retained quantity is taken below it. */
  lemma {:induction false} LoopRetains(s: Sale, assets: seq<MandateAsset>, m: Market, i: nat)
    requires Segregated(m) && DistinctSymbols(assets) && Sold(s, assets, m).Success? && i < |assets|
    ensures Kept(s.journal, Sold(s, assets, m).value.journal, assets[i], m)
  {
    var n := |assets| - 1;
    var before := Sold(s, assets[..n], m).value;
    if i < n {
      LoopRetains(s, assets[..n], m, i);
    } else if assets[i].symbol in m.collateral {
      LoopLeavesOthers(s, assets[..n], m, assets[i].symbol);
    }
    if before.remaining > 0 && assets[i].symbol in m.collateral {
      SoldOneIsStep(before, assets[n], m);
      StepEffect(before, assets[n], m, SoldOne(before, assets[n], m).value, Shares(m, assets[i].symbol));
    }
  }

  /** Every cent of every fill reaches the customer's settled and withdrawable cash. */
  lemma {:induction false} LoopCreditsCash(s: Sale, assets: seq<MandateAsset>, m: Market)
    requires Segregated(m) && Sold(s, assets, m).Success?
    ensures var t := Sold(s, assets, m).value;
            && Balance(t.journal, Key(m.cash, USD, Settled)) - Balance(s.journal, Key(m.cash, USD, Settled)) ==
               t.proceeds - s.proceeds
            && Balance(t.journal, Key(m.cash, USD, Withdrawable))
               - Balance(s.journal, Key(m.cash, USD, Withdrawable)) == t.proceeds - s.proceeds
            && t.proceeds >= s.proceeds
  {
    if assets != [] {
      var n := |assets| - 1;
      LoopCreditsCash(s, assets[..n], m);
      var before := Sold(s, assets[..n], m).value;
      if before.remaining > 0 {
        SoldOneIsStep(before, assets[n], m);
        StepEffect(before, assets[n], m, SoldOne(before, assets[n], m).value, Key(m.cash, USD, Settled));
        StepEffect(before, assets[n], m, SoldOne(before, assets[n], m).value, Key(m.cash, USD, Withdrawable));
      }
    }
  }

  lemma SaleDimensions(m: Market, symbol: Currency, filled: Decimal, proceeds: Decimal, k: Key)
    requires symbol in m.collateral && k.dimension != Settled && k.dimension != Withdrawable
    ensures Balance(SaleEntries(m, symbol, filled, proceeds), k) == 0
  {
    var es := SaleEntries(m, symbol, filled, proceeds);
    assert es == [es[0], es[1]] + [es[2], es[3]] + [es[4], es[5]];
    BalanceOfConcat([es[0], es[1]], [es[2], es[3]], k);
    BalanceOfConcat([es[0], es[1]] + [es[2], es[3]], [es[4], es[5]], k);
    PairBalance(es[0], es[1], k);
    PairBalance(es[2], es[3], k);
    PairBalance(es[4], es[5], k);
  }

  /** Selling never touches holds or receivables, of anyone. */
  lemma {:induction false} LoopLeavesDimension(s: Sale, assets: seq<MandateAsset>, m: Market, k: Key)
    requires Sold(s, assets, m).Success? && k.dimension != Settled && k.dimension != Withdrawable
    ensures Balance(Sold(s, assets, m).value.journal, k) == Balance(s.journal, k)
  {
    if assets != [] {
      var n := |assets| - 1;
      LoopLeavesDimension(s, assets[..n], m, k);
      var before := Sold(s, assets[..n], m).value;
      if before.remaining > 0 {
        SoldOneIsStep(before, assets[n], m);
        var after := SoldOne(before, assets[n], m).value;
        var e := after.rows[|before.rows|];
        if IsFill(e) {
          SaleDimensions(m, assets[n].symbol, e.result.filled, e.result.proceeds, k);
          BalanceOfConcat(before.journal, SaleEntries(m, assets[n].symbol, e.result.filled, e.result.proceeds), k);
        }
      }
    }
  }

  lemma {:induction false} ProceedsGrow(s: Sale, assets: seq<MandateAsset>, m: Market)
    requires Sold(s, assets, m).Success?
    ensures Sold(s, assets, m).value.proceeds >= s.proceeds
  {
    if assets != [] {
      var n := |assets| - 1;
      ProceedsGrow(s, assets[..n], m);
      var before := Sold(s, assets[..n], m).value;
      if before.remaining > 0 {
        SoldOneIsStep(before, assets[n], m);
      }
    }
  }

  // ---- When an asset with nothing to sell stops everything ----

  /** Less than one whole share. */
  lemma WholeOrder(quantity: Decimal, whole: Decimal)
    requires quantity >= 0 && Round(quantity, WHOLE_POLICY) == Success(whole)
    ensures whole <= 0 <==> quantity < UNIT
  {
    RoundIsRoundRatio(quantity, WHOLE_POLICY);
    var v := RoundRatio(quantity, UNIT, TowardZero);
    RoundingIsUnique(quantity, UNIT, TowardZero, v);
    WholeUnits(quantity, UNIT, v);
  }

  lemma WholeUnits(n: nat, d: nat, v: int)
    requires d > 0 && IsRounded(n, d, TowardZero, v)
    ensures v * d <= 0 <==> n < d
  {
    if v >= 1 {
      ProductOrder(1, v, d);
    }
  }

  /** Wanting less than a share is needing no more than the rest of a share is worth at the limit. */
  lemma WantedBelow(needed: Decimal, limit: Decimal, wanted: Decimal, share: nat)
    requires needed > 0 && limit > 0 && Divide(needed, limit, SIZING_POLICY) == Success(wanted)
    ensures wanted < share <==> needed * UNIT <= (share - 1) * limit
  {
    SizingBracket(needed, limit, wanted);
    if wanted < share {
      ProductOrder(wanted, share - 1, limit);
    } else {
      ProductOrder(share, wanted, limit);
      NextMultiple(share - 1, limit);
    }
  }

  /** What the tables promise of a market: positive prices and a guardrail between zero and one. */
  ghost predicate Priced(m: Market) {
    0 < m.guardrail < UNIT && forall a | a in m.quotes :: m.quotes[a].price > 0
  }

  /** Nothing can be ordered: no free share; or, in whole shares, less than one free, or needed at the limit. */
  predicate NothingToOrder(fractional: bool, free: Decimal, needed: Decimal, limit: Decimal) {
    if fractional then free <= 0 else free < UNIT || needed * UNIT <= (UNIT - 1) * limit
  }

  /** An asset that may be sold, while something is needed, but of which nothing can be ordered. */
  ghost predicate Blocks(s: Sale, asset: MandateAsset, m: Market) {
    && s.remaining > 0 && Restriction(m, asset.symbol).NoFailure? && Sized(s, asset, m).Success?
    && NothingToOrder(m.fractional, Balance(s.journal, Shares(m, asset.symbol)) - asset.retain, s.remaining,
                      ProtectedLimit(asset, m).value)
  }

  lemma BookedIsNoRowError(s: Sale, asset: MandateAsset, m: Market, order: Order, result: SellResult)
    requires Restriction(m, asset.symbol).NoFailure?
    ensures Booked(s, asset, m, order, result) != Failure(RowRejected)
  {
  }

  lemma RejectedWhenEmpty(s: Sale, asset: MandateAsset, m: Market)
    requires Restriction(m, asset.symbol).NoFailure?
    ensures SoldOne(s, asset, m) == Failure(RowRejected) <==>
            Sized(s, asset, m).Success? && Sized(s, asset, m).value.quantity <= 0
  {
    if Sized(s, asset, m).Success? {
      var order := Sized(s, asset, m).value;
      BookedIsNoRowError(s, asset, m, order,
                         ExecuteProtectedSell(order.quantity, m.quotes[asset.symbol].price, order.limit, m.scenario));
    } else {
      SizedIsNoRowError(s, asset, m);
    }
  }

  lemma SizedIsNoRowError(s: Sale, asset: MandateAsset, m: Market)
    requires Restriction(m, asset.symbol).NoFailure?
    ensures Sized(s, asset, m) != Failure(RowRejected)
  {
  }

  lemma EmptyQuantity(needed: Decimal, limit: Decimal, wanted: Decimal, free: Decimal, fractional: bool,
      quantity: Decimal)
    requires needed > 0 && limit > 0 && Divide(needed, limit, SIZING_POLICY) == Success(wanted)
    requires Ordered(wanted, free, fractional) == Success(quantity)
    ensures quantity <= 0 <==> NothingToOrder(fractional, free, needed, limit)
  {
    SizingBracket(needed, limit, wanted);
    if !fractional {
      WholeOrder(Minimum(wanted, PositiveRemainder(free)), quantity);
      WantedBelow(needed, limit, wanted, UNIT);
    }
  }

  lemma LimitIsPositive(asset: MandateAsset, m: Market)
    requires asset.symbol in m.quotes && Priced(m) && ProtectedLimit(asset, m).Success?
             && ProtectedLimit(asset, m).value != 0
    ensures ProtectedLimit(asset, m).value > 0
  {
    FullScaleRounding(m.quotes[asset.symbol].price, UNIT - m.guardrail, AMOUNT_POLICY);
    PositiveProduct(m.quotes[asset.symbol].price, UNIT - m.guardrail);
  }

  /**
   An asset with nothing to order is meant to be recorded as failed and passed over. Its row has quantity zero, which
   the table refuses: exactly then.
   */
  lemma EmptyOrderAborts(s: Sale, asset: MandateAsset, m: Market)
    requires s.remaining > 0 && Priced(m)
    ensures SoldOne(s, asset, m) == Failure(RowRejected) <==> Blocks(s, asset, m)
  {
    if Restriction(m, asset.symbol).NoFailure? {
      RejectedWhenEmpty(s, asset, m);
      if Sized(s, asset, m).Success? {
        var order := Sized(s, asset, m).value;
        SizedParts(s, asset, m);
        LimitIsPositive(asset, m);
        EmptyQuantity(s.remaining, order.limit, Divide(s.remaining, order.limit, SIZING_POLICY).value,
                      Balance(s.journal, Shares(m, asset.symbol)) - asset.retain, m.fractional, order.quantity);
      }
    }
  }

  /** The loop comes to an asset that blocks it. */
  ghost predicate Blocked(s: Sale, assets: seq<MandateAsset>, m: Market) {
    assets != [] &&
    var front := assets[..|assets| - 1];
    Blocked(s, front, m) || (Sold(s, front, m).Success? && Blocks(Sold(s, front, m).value, assets[|assets| - 1], m))
  }

  /** The whole loop is refused by the table exactly when it comes to such an asset. */
  lemma {:induction false} BlockedLoopAborts(s: Sale, assets: seq<MandateAsset>, m: Market)
    requires Priced(m)
    ensures Sold(s, assets, m) == Failure(RowRejected) <==> Blocked(s, assets, m)
  {
    if assets != [] {
      var front := assets[..|assets| - 1];
      BlockedLoopAborts(s, front, m);
      if Sold(s, front, m).Success? && Sold(s, front, m).value.remaining > 0 {
        EmptyOrderAborts(Sold(s, front, m).value, assets[|assets| - 1], m);
      }
    }
  }

  lemma ExactProduct(x: Decimal, y: Decimal, policy: Policy, v: Decimal)
    requires policy.Valid() && policy.places == SCALE && x * y == v * UNIT && 0 < v < LIMIT
    ensures Multiply(x, y, policy) == Success(v)
  {
    assert IsRounded(x * y, UNIT, policy.mode, v);
    RatioOfRounding(x * y, UNIT, policy.mode, v);
  }

  lemma ExactQuotient(x: Decimal, y: Decimal, policy: Policy, v: Decimal)
    requires policy.Valid() && policy.places == SCALE && x * UNIT == v * y && 0 < v < LIMIT && y > 0
    ensures Divide(x, y, policy) == Success(v)
  {
    PositiveProduct(v, y);
    assert IsRounded(x * UNIT, y, policy.mode, v);
    RatioOfRounding(x * UNIT, y, policy.mode, v);
  }

  lemma QuotedAt220(asset: MandateAsset, m: Market)
    requires asset.symbol in m.quotes && m.quotes[asset.symbol].price == 220_000_000_000_000_000_000
    requires m.guardrail == 20_000_000_000_000_000
    ensures ProtectedLimit(asset, m) == Success(215_600_000_000_000_000_000)
  {
    ExactProduct(220_000_000_000_000_000_000, UNIT - m.guardrail, AMOUNT_POLICY, 215_600_000_000_000_000_000);
  }

  /** An asset at 220 dollars with a guardrail of 0.02, of which the customer holds nothing. */
  ghost predicate NothingHeld(s: Sale, asset: MandateAsset, m: Market) {
    && s == Sale([], [], 215_600_000_000_000_000_000, 0) && asset == MandateAsset("AAPL", 0)
    && m.quotes == map["AAPL" := Quote(220_000_000_000_000_000_000, true)]
    && m.collateral == map["AAPL" := Collateral(1, 2, false)]
    && m.guardrail == 20_000_000_000_000_000 && m.fractional
  }

  lemma SizedFrom(s: Sale, asset: MandateAsset, m: Market, free: Decimal, limit: Decimal, wanted: Decimal,
      quantity: Decimal)
    requires Restriction(m, asset.symbol).NoFailure?
    requires FreeShares(s, asset, m) == Success(free) && ProtectedLimit(asset, m) == Success(limit)
    requires Divide(s.remaining, limit, SIZING_POLICY) == Success(wanted)
    requires Ordered(wanted, free, m.fractional) == Success(quantity)
    ensures Sized(s, asset, m) == Success(Order(quantity, limit))
  {
  }

  lemma NothingIsFree(s: Sale, asset: MandateAsset, m: Market)
    requires asset.symbol in m.collateral && s.journal == [] && ValidCurrency(asset.symbol) && asset.retain == 0
    ensures FreeShares(s, asset, m) == Success(0)
  {
  }

  /** The need is one share at the limit, of which no fraction is free. */
  lemma OneShareWanted(needed: Decimal)
    requires needed == 215_600_000_000_000_000_000
    ensures Divide(needed, needed, SIZING_POLICY) == Success(UNIT) && Ordered(UNIT, 0, true) == Success(0)
  {
    ExactQuotient(needed, needed, SIZING_POLICY, UNIT);
  }

  lemma NothingHeldUnrestricted(s: Sale, asset: MandateAsset, m: Market)
    requires NothingHeld(s, asset, m)
    ensures Restriction(m, asset.symbol).NoFailure?
  {
  }

  lemma NothingHeldFree(s: Sale, asset: MandateAsset, m: Market)
    requires NothingHeld(s, asset, m)
    ensures FreeShares(s, asset, m) == Success(0)
  {
    NothingIsFree(s, asset, m);
  }

  lemma NothingHeldParts(s: Sale, asset: MandateAsset, m: Market)
    requires NothingHeld(s, asset, m)
    ensures Restriction(m, asset.symbol).NoFailure?
    ensures FreeShares(s, asset, m) == Success(0) && ProtectedLimit(asset, m) == Success(s.remaining)
  {
    NothingHeldUnrestricted(s, asset, m);
    NothingHeldFree(s, asset, m);
    QuotedAt220(asset, m);
  }

  lemma NothingHeldSized(s: Sale, asset: MandateAsset, m: Market)
    requires s.remaining == 215_600_000_000_000_000_000 && m.fractional && Restriction(m, asset.symbol).NoFailure?
    requires FreeShares(s, asset, m) == Success(0) && ProtectedLimit(asset, m) == Success(s.remaining)
    ensures Sized(s, asset, m) == Success(Order(0, s.remaining))
  {
    OneShareWanted(s.remaining);
    SizedFrom(s, asset, m, 0, s.remaining, UNIT, 0);
  }

  /** It blocks a need of 215.60 dollars. */
  lemma NothingHeldBlocks(s: Sale, asset: MandateAsset, m: Market)
    requires NothingHeld(s, asset, m)
    ensures Blocks(s, asset, m) && SoldOne(s, asset, m) == Failure(RowRejected)
  {
    NothingHeldParts(s, asset, m);
    NothingHeldSized(s, asset, m);
    RejectedWhenEmpty(s, asset, m);
  }

  // ---- The loop as it runs ----

  /** One asset of the loop: restrictions, sizing, the provider's answer, the posting and the row. */
  method SellAsset(s: Sale, asset: MandateAsset, m: Market) returns (r: Result<Sale, CardError>)
    ensures r == SoldOne(s, asset, m)
  {
    var failure := Restriction(m, asset.symbol);
    if failure != NoFailure {
      return Success(s.(rows := s.rows + [Execution(asset.symbol, 1, 1, NotSold(failure))]));
    }
    var order :- Sized(s, asset, m);
    if order.quantity <= 0 {
      return Failure(RowRejected);
    }
    var result := ExecuteProtectedSell(order.quantity, m.quotes[asset.symbol].price, order.limit, m.scenario);
    if result.status == Failed || result.filled <= 0 {
      return Success(s.(rows := s.rows
        + [Execution(asset.symbol, order.quantity, order.limit, NotSold(result.failure))]));
    }
    if result.price < order.limit {
      return Failure(ProtectedSellFailed);
    }
    var entries := SaleEntries(m, asset.symbol, result.filled, result.proceeds);
    var checked := ValidatePosting(entries);
    if checked.Failure? {
      return Failure(LedgerRejected);
    }
    var proceeds :- Checked(Add(s.proceeds, result.proceeds));
    var remaining :- Checked(Sub(s.remaining, result.proceeds));
    var row := Execution(asset.symbol, order.quantity, order.limit, result);
    return Success(Sale(s.journal + entries, s.rows + [row], PositiveRemainder(remaining), proceeds));
  }

  lemma SoldStep(s: Sale, assets: seq<MandateAsset>, m: Market, n: nat, sale: Sale)
    requires n < |assets| && Sold(s, assets[..n], m) == Success(sale) && sale.remaining > 0
    ensures Sold(s, assets[..n + 1], m) == SoldOne(sale, assets[n], m)
  {
    assert assets[..n + 1][..n] == assets[..n];
  }

  /** One more asset of the loop. */
  method SellNext(ghost start: Sale, sale: Sale, assets: seq<MandateAsset>, m: Market, index: nat)
    returns (r: Result<Sale, CardError>)
    requires index < |assets| && Sold(start, assets[..index], m) == Success(sale) && sale.remaining > 0
    ensures r == Sold(start, assets[..index + 1], m)
  {
    r := SellAsset(sale, assets[index], m);
    SoldStep(start, assets, m, index, sale);
  }

  /** Sells in priority order until the need is met or an error fails the capture. */
  method ExecuteAutoSell(journal: seq<Entry>, needed: Decimal, assets: seq<MandateAsset>, m: Market)
    returns (r: Result<Sale, CardError>)
    ensures r == Sold(Sale(journal, [], needed, 0), assets, m)
  {
    var sale := Sale(journal, [], needed, 0);
    ghost var start := sale;
    var index := 0;
    while index < |assets| && sale.remaining > 0
      invariant 0 <= index <= |assets|
      invariant Sold(start, assets[..index], m) == Success(sale)
    {
      r := SellNext(start, sale, assets, m, index);
      if r.Failure? {
        SoldStops(start, assets, m, index + 1);
        return;
      }
      sale := r.value;
      index := index + 1;
    }
    SoldStops(start, assets, m, index);
    r := Success(sale);
  }

  /** After an error, or once nothing more is needed, the rest of the assets change nothing. */
  lemma {:induction false} SoldStops(s: Sale, assets: seq<MandateAsset>, m: Market, n: nat)
    requires n <= |assets|
    requires var r := Sold(s, assets[..n], m); n == |assets| || r.Failure? || r.value.remaining <= 0
    ensures Sold(s, assets, m) == Sold(s, assets[..n], m)
  {
    if n == |assets| {
      assert assets[..n] == assets;
    } else {
      assert assets[..|assets| - 1][..n] == assets[..n];
      SoldStops(s, assets[..|assets| - 1], m, n);
    }
  }
}
