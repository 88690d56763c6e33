/**
 Auto-sell over whole runs: what each recorded fill was sold for, that the records are what left the account, and that a
 day's fills stay within the mandate's daily maximum.
 */
module CardSales {
  import opened Results
  import opened Decimals
  import opened Entries
  import opened Sums
  import opened AutoSell
  import opened CardLedger
  import opened Card
  import opened CardHolds
  import opened CardRepayment
  import opened CardRuns
  import opened CardAmounts

  // ---- What a recorded fill says ----

  /**
   A fill of an unrestricted asset with a usable quote: at 99.5% of the quote, never below the quote less the guardrail,
   of the whole order or, on a partial fill, half of it cut down.
   */
  ghost predicate TrueFill(e: Execution, m: Market) {
    && e.symbol in m.quotes && e.symbol in m.collateral && !m.collateral[e.symbol].restricted
    && m.quotes[e.symbol].usable
    && Nearest(m.quotes[e.symbol].price * (UNIT - m.guardrail), e.limit)
    && Nearest(m.quotes[e.symbol].price * 995_000_000_000_000_000, e.result.price)
    && 0 < e.limit <= e.result.price && 0 < e.result.filled
    && Nearest(e.result.filled * e.result.price, e.result.proceeds)
    && (m.scenario.Normal? || m.scenario.Partial?)
    && (if m.scenario.Partial? then 2 * e.result.filled <= e.requested < 2 * e.result.filled + 2
        else e.result.filled == e.requested)
  }

  lemma HalfOf(requested: Decimal, filled: Decimal)
    requires requested > 0 && Multiply(requested, HALF, PARTIAL_POLICY) == Success(filled)
    ensures 2 * filled <= requested < 2 * filled + 2
  {
    FullScaleRounding(requested, HALF, PARTIAL_POLICY);
    HalfSteps(requested, HALF, UNIT, filled);
  }

  lemma HalfSteps(requested: nat, half: nat, unit: nat, filled: int)
    requires half > 0 && unit == 2 * half && IsRounded(requested * half, unit, TowardZero, filled)
    ensures 2 * filled <= requested < 2 * filled + 2
  {
    assert requested * half >= 0;
    assert filled >= 0;
    assert filled * unit == (2 * filled) * half;
    assert (2 * filled) * half <= requested * half < (2 * filled + 2) * half by {
      Distribute(2 * filled, 2, half);
    }
    ScaleOrder(requested, 2 * filled, half);
    ScaleOrder(requested, 2 * filled + 2, half);
  }

  /** The venue's answer, in the source's own numbers. */
  lemma VenueAnswers(requested: Decimal, reference: Decimal, limit: Decimal, scenario: Scenario)
    ensures var r := ExecuteProtectedSell(requested, reference, limit, scenario);
            !r.status.Failed? ==>
              && requested > 0 && 0 < limit <= r.price && Nearest(reference * 995_000_000_000_000_000, r.price)
              && Nearest(r.filled * r.price, r.proceeds) && (scenario.Normal? || scenario.Partial?)
              && (if scenario.Partial? then 2 * r.filled <= requested < 2 * r.filled + 2 else r.filled == requested)
  {
    var r := ExecuteProtectedSell(requested, reference, limit, scenario);
    if !r.status.Failed? {
      FillIsFromVenue(requested, reference, limit, scenario);
      ProductIsNearest(reference, LIMIT_DISCOUNT, r.price);
      ProductIsNearest(r.filled, r.price, r.proceeds);
      if scenario.Partial? {
        HalfOf(requested, r.filled);
      }
    }
  }

  lemma FillIsFromVenue(requested: Decimal, reference: Decimal, limit: Decimal, scenario: Scenario)
    ensures var r := ExecuteProtectedSell(requested, reference, limit, scenario);
            !r.status.Failed? ==>
              && requested > 0 && 0 < limit <= r.price && (scenario.Normal? || scenario.Partial?)
              && Multiply(reference, LIMIT_DISCOUNT, PROVIDER_POLICY) == Success(r.price)
              && Multiply(r.filled, r.price, PROVIDER_POLICY) == Success(r.proceeds)
              && (if scenario.Partial? then Multiply(requested, HALF, PARTIAL_POLICY) == Success(r.filled)
                  else r.filled == requested)
  {
  }

  lemma LimitIsNearest(s: Sale, asset: MandateAsset, m: Market)
    requires Restriction(m, asset.symbol).NoFailure? && Sized(s, asset, m).Success?
    ensures Nearest(m.quotes[asset.symbol].price * (UNIT - m.guardrail), Sized(s, asset, m).value.limit)
  {
    SizedAtLimit(s, asset, m);
    ProductIsNearest(m.quotes[asset.symbol].price, UNIT - m.guardrail, Sized(s, asset, m).value.limit);
  }

  lemma BookedRow(s: Sale, asset: MandateAsset, m: Market, order: Order, result: SellResult)
    requires Restriction(m, asset.symbol).NoFailure? && Booked(s, asset, m, order, result).Success?
    ensures var t := Booked(s, asset, m, order, result).value;
            && |t.rows| == |s.rows| + 1
            && var e := t.rows[|s.rows|];
               && e.symbol == asset.symbol && e.requested == order.quantity && e.limit == order.limit
               && (IsFill(e) <==> !result.status.Failed? && result.filled > 0) && (IsFill(e) ==> e.result == result)
  {
  }

  lemma SoldOneIsTrue(s: Sale, asset: MandateAsset, m: Market)
    requires s.remaining > 0 && SoldOne(s, asset, m).Success?
    ensures var t := SoldOne(s, asset, m).value;
            && |t.rows| == |s.rows| + 1 && t.rows[|s.rows|].symbol == asset.symbol
            && (IsFill(t.rows[|s.rows|]) ==> TrueFill(t.rows[|s.rows|], m))
  {
    if Restriction(m, asset.symbol).NoFailure? {
      var order := Sized(s, asset, m).value;
      var quote := m.quotes[asset.symbol].price;
      SoldOneIsBooked(s, asset, m);
      BookedRow(s, asset, m, order, ExecuteProtectedSell(order.quantity, quote, order.limit, m.scenario));
      VenueAnswers(order.quantity, quote, order.limit, m.scenario);
      LimitIsNearest(s, asset, m);
    }
  }

  /** Why an asset may not be sold now, or why the venue would not sell it. */
  lemma SkippedSaysWhy(s: Sale, asset: MandateAsset, m: Market)
    requires s.remaining > 0 && SoldOne(s, asset, m).Success?
    ensures var t := SoldOne(s, asset, m).value;
            && |t.rows| == |s.rows| + 1
            && var e := t.rows[|s.rows|];
               var known := asset.symbol in m.quotes && asset.symbol in m.collateral;
               && (!known ==> e.result.failure == AssetUnavailable)
               && (known && m.collateral[asset.symbol].restricted ==> e.result.failure == AssetRestricted)
               && (known && !m.collateral[asset.symbol].restricted && !m.quotes[asset.symbol].usable ==>
                    e.result.failure == ReferencePriceUnavailable)
               && (known && !m.collateral[asset.symbol].restricted && m.quotes[asset.symbol].usable
                     && 0 < e.limit < m.quotes[asset.symbol].price ==>
                    && (m.scenario.Timeout? ==> e.result.failure == ProviderTimeout)
                    && (m.scenario.Stale? ==> e.result.failure == ReferencePriceUnavailable)
                    && (m.scenario.VenueFailure? ==> e.result.failure == ProviderUnavailable)
                    && (m.scenario.ProtectionBreach? ==> e.result.failure == ProtectedLimitNotMarketable))
  {
    if Restriction(m, asset.symbol).NoFailure? {
      var order := Sized(s, asset, m).value;
      SoldOneIsBooked(s, asset, m);
      BookedFailure(s, asset, m, order,
        ExecuteProtectedSell(order.quantity, m.quotes[asset.symbol].price, order.limit, m.scenario));
      OrderIsPositive(s, asset, m);
    }
  }

  lemma OrderIsPositive(s: Sale, asset: MandateAsset, m: Market)
    requires Restriction(m, asset.symbol).NoFailure? && SoldOne(s, asset, m).Success?
    ensures Sized(s, asset, m).Success? && Sized(s, asset, m).value.quantity > 0
  {
  }

  lemma BookedFailure(s: Sale, asset: MandateAsset, m: Market, order: Order, result: SellResult)
    requires Restriction(m, asset.symbol).NoFailure? && Booked(s, asset, m, order, result).Success?
    ensures var t := Booked(s, asset, m, order, result).value;
            && |t.rows| == |s.rows| + 1 && t.rows[|s.rows|].limit == order.limit
            && (result.status.Failed? ==> t.rows[|s.rows|].result.failure == result.failure)
  {
  }

  /** On a working venue an order is filled whole exactly if the discounted quote reaches the limit. */
  lemma MarketableIsSold(s: Sale, asset: MandateAsset, m: Market, price: Decimal, proceeds: Decimal)
    requires s.remaining > 0 && Restriction(m, asset.symbol).NoFailure? && m.scenario.Normal?
    requires SoldOne(s, asset, m).Success?
    requires Nearest(m.quotes[asset.symbol].price * 995_000_000_000_000_000, price) && -LIMIT < price < LIMIT
    requires Sized(s, asset, m).Success? ==>
               Nearest(Sized(s, asset, m).value.quantity * price, proceeds) && -LIMIT < proceeds < LIMIT
    ensures var t, quote := SoldOne(s, asset, m).value, m.quotes[asset.symbol].price;
            && |t.rows| == |s.rows| + 1
            && var e := t.rows[|s.rows|];
               && (IsFill(e) <==> 0 < e.limit < quote && e.limit <= price)
               && (IsFill(e) ==> e.result.filled == e.requested && e.result.price == price)
  {
    var order, quote := Sized(s, asset, m).value, m.quotes[asset.symbol].price;
    SoldOneIsBooked(s, asset, m);
    BookedRow(s, asset, m, order, ExecuteProtectedSell(order.quantity, quote, order.limit, Normal));
    ProductIsNearest(quote, LIMIT_DISCOUNT, price);
    ProductIsNearest(order.quantity, price, proceeds);
    WorkingVenue(order.quantity, quote, order.limit, price, proceeds);
  }

  lemma WorkingVenue(requested: Decimal, reference: Decimal, limit: Decimal, price: Decimal, proceeds: Decimal)
    requires Multiply(reference, LIMIT_DISCOUNT, PROVIDER_POLICY) == Success(price)
    requires Multiply(requested, price, PROVIDER_POLICY) == Success(proceeds)
    ensures var r := ExecuteProtectedSell(requested, reference, limit, Normal);
            && (!r.status.Failed? <==> requested > 0 && 0 < limit < reference && limit <= price)
            && (!r.status.Failed? ==> r.filled == requested && r.price == price)
  {
  }

  // ---- The loop's rows are what left the account ----

  /** Shares of one symbol that rows filled. */
  function FilledOf(rows: seq<Execution>, symbol: Currency): int {
    if rows == [] then 0
    else
      var e := rows[|rows| - 1];
      FilledOf(rows[..|rows| - 1], symbol) + if IsFill(e) && e.symbol == symbol then e.result.filled else 0
  }

  ghost predicate RowsAreTrue(rows: seq<Execution>, m: Market) {
    forall i | 0 <= i < |rows| && IsFill(rows[i]) :: TrueFill(rows[i], m)
  }

  lemma OneMoreRow(rows: seq<Execution>, more: seq<Execution>, symbol: Currency)
    requires |more| == |rows| + 1 && more[..|rows|] == rows
    ensures var e := more[|rows|];
            && FilledOf(more, symbol) == FilledOf(rows, symbol) +
               (if IsFill(e) && e.symbol == symbol then e.result.filled else 0)
            && Proceeds(more) == Proceeds(rows) + (if IsFill(e) then e.result.proceeds else 0)
  {
  }

  lemma StepBooksRow(s: Sale, asset: MandateAsset, m: Market, t: Sale, symbol: Currency)
    requires Segregated(m) && symbol in m.collateral && AutoSell.Step(s, asset, m, t)
             && t.rows[|s.rows|].symbol == asset.symbol
    ensures Balance(t.journal, Shares(m, symbol)) - Balance(s.journal, Shares(m, symbol)) ==
            FilledOf(s.rows, symbol) - FilledOf(t.rows, symbol)
    ensures t.proceeds - s.proceeds == Proceeds(t.rows) - Proceeds(s.rows)
  {
    var e := t.rows[|s.rows|];
    OneMoreRow(s.rows, t.rows, symbol);
    if IsFill(e) {
      BalanceOfConcat(s.journal, SaleEntries(m, asset.symbol, e.result.filled, e.result.proceeds), Shares(m, symbol));
      SaleEffect(m, asset.symbol, e.result.filled, e.result.proceeds, Shares(m, symbol));
    }
  }

  /** Over the whole loop the rows say exactly what left each share account, and what came in. */
  lemma {:induction false} LoopBooksRows(s: Sale, assets: seq<MandateAsset>, m: Market, symbol: Currency)
    requires Segregated(m) && symbol in m.collateral && Sold(s, assets, m).Success?
    ensures var t := Sold(s, assets, m).value;
            && Balance(t.journal, Shares(m, symbol)) - Balance(s.journal, Shares(m, symbol)) ==
               FilledOf(s.rows, symbol) - FilledOf(t.rows, symbol)
            && t.proceeds - s.proceeds == Proceeds(t.rows) - Proceeds(s.rows)
  {
    if assets != [] {
      var n := |assets| - 1;
      LoopBooksRows(s, assets[..n], m, symbol);
      var before := Sold(s, assets[..n], m).value;
      if before.remaining > 0 {
        SoldOneIsStep(before, assets[n], m);
        SoldOneIsTrue(before, assets[n], m);
        StepBooksRow(before, assets[n], m, SoldOne(before, assets[n], m).value, symbol);
      }
    }
  }

  lemma {:induction false} LoopRowsAreTrue(s: Sale, assets: seq<MandateAsset>, m: Market)
    requires RowsAreTrue(s.rows, m) && Sold(s, assets, m).Success?
    ensures RowsAreTrue(Sold(s, assets, m).value.rows, m)
    ensures Sold(s, assets, m).value.proceeds - s.proceeds == Proceeds(Sold(s, assets, m).value.rows) - Proceeds(s.rows)
  {
    if assets != [] {
      var n := |assets| - 1;
      LoopRowsAreTrue(s, assets[..n], m);
      var before := Sold(s, assets[..n], m).value;
      if before.remaining > 0 {
        SoldOneIsTrue(before, assets[n], m);
        SoldOneIsStep(before, assets[n], m);
        RowJoins(before, SoldOne(before, assets[n], m).value, assets[n], m);
      }
    }
  }

  lemma RowJoins(s: Sale, t: Sale, asset: MandateAsset, m: Market)
    requires RowsAreTrue(s.rows, m) && AutoSell.Step(s, asset, m, t)
             && (IsFill(t.rows[|s.rows|]) ==> TrueFill(t.rows[|s.rows|], m))
    ensures RowsAreTrue(t.rows, m) && t.proceeds - s.proceeds == Proceeds(t.rows) - Proceeds(s.rows)
  {
    OneMoreRow(s.rows, t.rows, "");
    assert forall i | 0 <= i < |s.rows| :: t.rows[i] == s.rows[i];
  }

  /** A true fill is worth no more at its limit than its proceeds and half a step. */
  lemma {:induction false} LimitsWithinProceeds(rows: seq<Execution>, m: Market)
    requires RowsAreTrue(rows, m)
    ensures 2 * Spent(rows) <= 2 * (Proceeds(rows) * UNIT) + Fills(rows) * UNIT
  {
    if rows != [] {
      var e := rows[|rows| - 1];
      LimitsWithinProceeds(rows[..|rows| - 1], m);
      if IsFill(e) {
        ScaledOrder(e.limit, e.result.price, e.result.filled);
        RoundingError(e.result.filled * e.result.price, UNIT, HalfEven, e.result.proceeds);
      }
    }
  }

  // ---- A customer's fills of one day, row by row ----

  predicate IsDayFill(sales: seq<SaleRow>, customer: Customer, day: int, i: nat) {
    i < |sales| && sales[i].customer == customer && sales[i].day == day && !sales[i].execution.result.status.Failed?
  }

  /** What is added up over fills: their value at the limit, their proceeds, or just their number. */
  datatype Measure = AtLimit | InProceeds | InNumber

  function Of(e: Execution, measure: Measure): int {
    match measure
    case AtLimit => e.result.filled * e.limit
    case InProceeds => e.result.proceeds
    case InNumber => 1
  }

  function DayTerm(sales: seq<SaleRow>, customer: Customer, day: int, measure: Measure): nat -> int {
    (i: nat) => if IsDayFill(sales, customer, day, i) then Of(sales[i].execution, measure) else 0
  }

  function DaySum(sales: seq<SaleRow>, customer: Customer, day: int, measure: Measure): int {
    Sum(DayTerm(sales, customer, day, measure), |sales|)
  }

  /** What the service counts against the daily maximum are the proceeds of the customer's fills of that day. */
  lemma {:induction false} SoldOnIsDaySum(sales: seq<SaleRow>, customer: Customer, day: int)
    ensures SoldOn(sales, customer, day) == DaySum(sales, customer, day, InProceeds)
  {
    if sales != [] {
      var front := sales[..|sales| - 1];
      SoldOnIsDaySum(front, customer, day);
      SumSame(DayTerm(front, customer, day, InProceeds), DayTerm(sales, customer, day, InProceeds), |front|);
    }
  }

  function RowSum(rows: seq<Execution>, measure: Measure): int {
    match measure
    case AtLimit => Spent(rows)
    case InProceeds => Proceeds(rows)
    case InNumber => Fills(rows)
  }

  lemma {:induction false} DaySumGrows(sales: seq<SaleRow>, seller: Customer, on: int, rows: seq<Execution>,
      customer: Customer, day: int, measure: Measure)
    ensures DaySum(sales + SaleRows(seller, on, rows), customer, day, measure) ==
            DaySum(sales, customer, day, measure) + if (seller, on) == (customer, day) then RowSum(rows, measure) else 0
  {
    if rows == [] {
      assert sales + SaleRows(seller, on, rows) == sales;
    } else {
      var front := rows[..|rows| - 1];
      var before, after := sales + SaleRows(seller, on, front), sales + SaleRows(seller, on, rows);
      DaySumGrows(sales, seller, on, front, customer, day, measure);
      assert after == before + [SaleRow(seller, on, rows[|rows| - 1])];
      SumSame(DayTerm(before, customer, day, measure), DayTerm(after, customer, day, measure), |before|);
    }
  }

  ghost predicate IsLastFill(sales: seq<SaleRow>, customer: Customer, day: int, i: nat) {
    IsDayFill(sales, customer, day, i) && forall j: nat | i < j :: !IsDayFill(sales, customer, day, j)
  }

  lemma {:induction false} LastLimitIsLast(rows: seq<Execution>)
    requires Fills(rows) > 0
    ensures exists i: nat ::
              && i < |rows| && IsFill(rows[i]) && rows[i].limit == LastLimit(rows)
              && forall j: nat | i < j < |rows| :: !IsFill(rows[j])
  {
    var n := |rows| - 1;
    if IsFill(rows[n]) {
      assert rows[n].limit == LastLimit(rows);
    } else {
      LastLimitIsLast(rows[..n]);
    }
  }

  /** After new rows the day's last fill is theirs if they hold one of that day, else the one it was. */
  lemma LastFillAfter(sales: seq<SaleRow>, seller: Customer, on: int, rows: seq<Execution>, customer: Customer,
      day: int,
      i: nat)
    requires IsLastFill(sales + SaleRows(seller, on, rows), customer, day, i)
    ensures (seller, on) == (customer, day) && Fills(rows) > 0 ==>
              (sales + SaleRows(seller, on, rows))[i].execution.limit == LastLimit(rows)
    ensures (seller, on) != (customer, day) || Fills(rows) == 0 ==>
              IsLastFill(sales, customer, day, i) && (sales + SaleRows(seller, on, rows))[i] == sales[i]
  {
    var after := sales + SaleRows(seller, on, rows);
    if Fills(rows) == 0 {
      NoFills(rows);
    }
    assert forall j: nat | j < |sales| :: after[j] == sales[j];
    assert forall j: nat | j < |rows| :: after[|sales| + j] == SaleRow(seller, on, rows[j]);
    if (seller, on) == (customer, day) && Fills(rows) > 0 {
      LastLimitIsLast(rows);
      var j: nat :| j < |rows| && IsFill(rows[j]) && rows[j].limit == LastLimit(rows)
        && forall l: nat | j < l < |rows| :: !IsFill(rows[l]);
      assert IsDayFill(after, customer, day, |sales| + j);
      assert i >= |sales| ==> after[i] == SaleRow(seller, on, rows[i - |sales|]);
    } else {
      assert forall j: nat | IsDayFill(after, customer, day, j) :: IsDayFill(sales, customer, day, j);
      assert forall j: nat | IsDayFill(sales, customer, day, j) :: IsDayFill(after, customer, day, j);
    }
  }

  lemma {:induction false} NoFills(rows: seq<Execution>)
    requires Fills(rows) == 0
    ensures forall i | 0 <= i < |rows| :: !IsFill(rows[i])
  {
    if rows != [] {
      NoFills(rows[..|rows| - 1]);
    }
  }

  // ---- One capture ----

  /** What a day's allowance and the shortfall leave to sell for. */
  predicate SoldWithin(rows: seq<Execution>, budget: Decimal) {
    Fills(rows) > 0 ==>
      2 * Spent(rows) < 2 * (budget * UNIT) + (Fills(rows) - 1) * UNIT + 2 * LastLimit(rows)
  }

  lemma WiderBudget(rows: seq<Execution>, budget: Decimal, wider: Decimal)
    requires SoldWithin(rows, budget) && budget <= wider
    ensures SoldWithin(rows, wider)
  {
  }

  lemma NothingSoldForNothing(journal: seq<Entry>, assets: seq<MandateAsset>, m: Market)
    ensures Sold(Sale(journal, [], 0, 0), assets, m) == Success(Sale(journal, [], 0, 0))
  {
    if assets != [] {
      NothingSoldForNothing(journal, assets[..|assets| - 1], m);
    }
  }

  /** The sale of a capture: true fills, within the shortfall and within what the mandate still allows today. */
  lemma ShortfallSells(journal: seq<Entry>, p: Profile, shortfall: Decimal, soldToday: Decimal, k: Conditions)
    requires Shortfall(journal, p, shortfall, soldToday, k).Success?
    ensures var sale := Shortfall(journal, p, shortfall, soldToday, k).value;
            && (sale.rows != [] ==>
                 p.mode.CashThenAutoSell? && shortfall > 0 && k.mandate.Some? && k.mandate.value.live
                   && RowsAreTrue(sale.rows, MarketOf(p, k.mandate.value, k))
                   && SoldWithin(sale.rows, shortfall) && SoldWithin(sale.rows, k.mandate.value.dailyMax - soldToday))
            && sale.proceeds == Proceeds(sale.rows)
            && 2 * Spent(sale.rows) <= 2 * (Proceeds(sale.rows) * UNIT) + Fills(sale.rows) * UNIT
  {
    if shortfall > 0 && p.mode.CashThenAutoSell? && k.mandate.Some? && k.mandate.value.live {
      var mandate := k.mandate.value;
      var m := MarketOf(p, mandate, k);
      var budget := Minimum(shortfall, PositiveRemainder(mandate.dailyMax - soldToday));
      if budget == 0 {
        NothingSoldForNothing(journal, mandate.assets, m);
      }
      BudgetBound(journal, budget, mandate.assets, m);
      LoopRowsAreTrue(Sale(journal, [], budget, 0), mandate.assets, m);
      LimitsWithinProceeds(Sold(Sale(journal, [], budget, 0), mandate.assets, m).value.rows, m);
    }
  }

  function OrZero(x: int): int {
    if x > 0 then x else 0
  }

  lemma RepaidPays(journal: seq<Entry>, p: Profile, settled: Decimal, soldToday: Decimal, k: Conditions)
    requires Repaid(journal, p, settled, soldToday, k).Success?
    ensures var r := Repaid(journal, p, settled, soldToday, k).value;
            && (if p.mode.MonthlyStatement? then r.cash == 0 && r.auto == 0 && r.rows == []
                else
                  && r.cash == Minimum(settled, Minimum(OrZero(Balance(journal, p.SettledCash())),
                                                        OrZero(Balance(journal, p.WithdrawableCash()))))
                  && r.auto == Minimum(Proceeds(r.rows), settled - r.cash))
            && SalesFit(r.rows, p, settled - r.cash, soldToday, k)
  {
    if !p.mode.MonthlyStatement? {
      RepaidParts(journal, p, settled, soldToday, k);
      ShortfallSells(journal, p, settled - CashShare(journal, p, settled).value, soldToday, k);
    }
  }

  /** The sales of a capture: none without a shortfall and a live mandate; else true fills within both bounds. */
  ghost predicate SalesFit(rows: seq<Execution>, p: Profile, shortfall: Decimal, soldToday: Decimal, k: Conditions) {
    && 2 * Spent(rows) <= 2 * (Proceeds(rows) * UNIT) + Fills(rows) * UNIT
    && (rows != [] ==>
         && p.mode.CashThenAutoSell? && shortfall > 0 && k.mandate.Some? && k.mandate.value.live
         && RowsAreTrue(rows, MarketOf(p, k.mandate.value, k))
         && SoldWithin(rows, shortfall) && SoldWithin(rows, k.mandate.value.dailyMax - soldToday))
  }

  lemma ShortfallBooks(journal: seq<Entry>, p: Profile, shortfall: Decimal, soldToday: Decimal, k: Conditions,
      symbol: Currency)
    requires MarketApart(p, k) && k.mandate.Some? && symbol in k.collateral
    requires Shortfall(journal, p, shortfall, soldToday, k).Success?
    ensures var sale := Shortfall(journal, p, shortfall, soldToday, k).value;
            var key := Key(k.collateral[symbol].account, symbol, Settled);
            Balance(sale.journal, key) == Balance(journal, key) - FilledOf(sale.rows, symbol)
  {
    if shortfall > 0 && p.mode.CashThenAutoSell? && k.mandate.value.live {
      var mandate := k.mandate.value;
      var budget := Minimum(shortfall, PositiveRemainder(mandate.dailyMax - soldToday));
      LoopBooksRows(Sale(journal, [], budget, 0), mandate.assets, MarketOf(p, mandate, k), symbol);
    }
  }

  lemma RepaidBooks(journal: seq<Entry>, p: Profile, settled: Decimal, soldToday: Decimal, k: Conditions,
      symbol: Currency)
    requires MarketApart(p, k) && settled > 0 && k.mandate.Some? && symbol in k.collateral
    requires Repaid(journal, p, settled, soldToday, k).Success?
    ensures var r := Repaid(journal, p, settled, soldToday, k).value;
            var key := Key(k.collateral[symbol].account, symbol, Settled);
            Balance(r.journal, key) == Balance(journal, key) - FilledOf(r.rows, symbol)
  {
    if !p.mode.MonthlyStatement? {
      RepaidParts(journal, p, settled, soldToday, k);
      var m := MarketOf(p, k.mandate.value, k);
      assert m.collateral[symbol].account != m.cash && m.collateral[symbol].account != m.clearing;
      var cash := CashShare(journal, p, settled).value;
      var sale := Shortfall(journal, p, settled - cash, soldToday, k).value;
      ShortfallBooks(journal, p, settled - cash, soldToday, k, symbol);
      ShortfallSells(journal, p, settled - cash, soldToday, k);
      RepaidFromSpares(sale, p, settled, cash, Key(k.collateral[symbol].account, symbol, Settled));
    }
  }

  lemma RepaidFromSpares(sale: Sale, p: Profile, settled: Decimal, cash: Decimal, key: Key)
    requires p.Apart() && key.account != p.cash && key.account != p.clearing && key.dimension == Settled
    requires RepaidFrom(sale, p, settled, cash).Success?
    ensures var r := RepaidFrom(sale, p, settled, cash).value;
            Balance(r.journal, key) == Balance(sale.journal, key) && r.rows == sale.rows
  {
    var repaid := cash + Minimum(sale.proceeds, settled - cash);
    BalanceOfConcat(sale.journal, RepaymentEntries(p, repaid), key);
    RepaymentSpares(p, repaid, key);
  }

  /** Repayments and captures touch no account but the profile's, and no settled funds of its receivable account. */
  lemma RepaymentSpares(p: Profile, amount: Decimal, key: Key)
    requires p.Apart() && key.account != p.cash && key.account != p.clearing && key.dimension == Settled
    ensures Balance(RepaymentEntries(p, amount), key) == 0
  {
    RepaymentEffect(p, amount, key);
  }

  lemma CaptureSpares(p: Profile, settled: Decimal, hold: Decimal, key: Key)
    requires p.Apart() && key.account != p.clearing && key.dimension == Settled && settled > 0 && hold >= 0
    ensures Balance(CaptureEntries(p, settled, hold), key) == 0
  {
    CaptureEffect(p, settled, hold, key);
  }

  /**
   A capture repays itself from cash first, as far as both cash balances reach,
     then from what it sells; it records every
   sale, and the records are exactly what left the share accounts.
   */
  lemma CaptureRecordsSales(b: Book, c: Command, k: Conditions)
    requires HoldsSound(b) && c.CapturePayment? && c.customer in b.profiles && PlanCapture(b, c, k).Success?
    requires MarketApart(b.profiles[c.customer], k)
    ensures c.authorization < |b.authorizations|
    ensures var p := b.profiles[c.customer];
            var u := WithCapture(b, c, k, PlanCapture(b, c, k).value);
            var row := u.captures[|b.captures|];
            var rows := NewSales(b, u);
            && (forall i | |b.sales| <= i < |u.sales| :: u.sales[i].customer == c.customer && u.sales[i].day == k.day)
            && b.sales <= u.sales
            && (if p.mode.MonthlyStatement? then row.cashRepaidUsd == 0 && row.autoSellRepaidUsd == 0 && rows == []
                else
                  && row.cashRepaidUsd == Minimum(row.settledUsd,
                       Minimum(OrZero(Balance(b.journal, p.SettledCash())),
                               OrZero(Balance(b.journal, p.WithdrawableCash()))))
                  && row.autoSellRepaidUsd == Minimum(Proceeds(rows), row.settledUsd - row.cashRepaidUsd))
            && SalesFit(rows, p, row.settledUsd - row.cashRepaidUsd, DaySum(b.sales, c.customer, k.day, InProceeds), k)
            && (u.profiles[c.customer].frozen <==>
                 p.frozen
                   || (!p.mode.MonthlyStatement? && row.cashRepaidUsd + row.autoSellRepaidUsd < row.settledUsd))
            && (k.mandate.Some? ==> forall symbol | symbol in k.collateral ::
                  ShareBalance(u, k, symbol) == ShareBalance(b, k, symbol) - FilledOf(rows, symbol))
  {
    CaptureParts(b, c, k);
    SoldOnIsDaySum(b.sales, c.customer, k.day);
    var p := b.profiles[c.customer];
    var m := AmountsFor(b, c, AuthorizationFor(b, c).value, k).value;
    ReleaseIsNonNegative(b, c, k, AuthorizationFor(b, c).value, m);
    var es := CaptureEntries(p, m.settled, m.release);
    var r := SettledFor(b, c, m, k).value;
    var plan := PlanCapture(b, c, k).value;
    PlannedRow(c, AuthorizationFor(b, c).value, m, r);
    RowsAreWritten(b, c, k, plan);
    RepaidPays(b.journal + es, p, m.settled, SoldOn(b.sales, c.customer, k.day), k);
    CaptureSparesCash(b.journal, p, m.settled, m.release);
    RepaymentFreezes(b.journal + es, p, m.settled, SoldOn(b.sales, c.customer, k.day), k);
    if k.mandate.Some? {
      forall symbol | symbol in k.collateral
        ensures ShareBalance(WithCapture(b, c, k, plan), k, symbol) ==
                ShareBalance(b, k, symbol) - FilledOf(r.rows, symbol)
      {
        var key := Key(k.collateral[symbol].account, symbol, Settled);
        assert MarketOf(p, k.mandate.value, k).collateral[symbol].account != p.clearing;
        RepaidBooks(b.journal + es, p, m.settled, SoldOn(b.sales, c.customer, k.day), k, symbol);
        BalanceOfConcat(b.journal, es, key);
        CaptureSpares(p, m.settled, m.release, key);
      }
    }
  }

  /** The shares of a symbol in the customer's collateral account. */
  function ShareBalance(b: Book, k: Conditions, symbol: Currency): int
    requires symbol in k.collateral
  {
    Balance(b.journal, Key(k.collateral[symbol].account, symbol, Settled))
  }

  /** The executions a step added. */
  function NewSales(b: Book, u: Book): seq<Execution>
    requires |b.sales| <= |u.sales|
  {
    seq(|u.sales| - |b.sales|, i requires 0 <= i < |u.sales| - |b.sales| => u.sales[|b.sales| + i].execution)
  }

  lemma PlannedRow(c: Command, a: Authorization, m: Amounts, r: Repayment)
    requires c.CapturePayment? && CaptureRows(c, a, m, r).Success?
    ensures var plan := CaptureRows(c, a, m, r).value;
            && plan.row.settledUsd == m.settled && plan.row.cashRepaidUsd == r.cash
            && plan.row.autoSellRepaidUsd == r.auto && plan.freeze == r.freeze && plan.journal == r.journal
            && plan.sales == r.rows
  {
  }

  lemma RowsAreWritten(b: Book, c: Command, k: Conditions, plan: CapturePlan)
    requires c.CapturePayment? && c.customer in b.profiles && c.authorization < |b.authorizations|
    ensures var u := WithCapture(b, c, k, plan);
            && b.sales <= u.sales && NewSales(b, u) == plan.sales && u.captures[|b.captures|] == plan.row
            && u.journal == plan.journal && c.customer in u.profiles
            && (forall i | |b.sales| <= i < |u.sales| :: u.sales[i].customer == c.customer && u.sales[i].day == k.day)
            && (u.profiles[c.customer].frozen <==> b.profiles[c.customer].frozen || plan.freeze)
  {
  }

  lemma CaptureSparesCash(journal: seq<Entry>, p: Profile, settled: Decimal, hold: Decimal)
    requires p.Apart() && settled > 0 && hold >= 0
    ensures Balance(journal + CaptureEntries(p, settled, hold), p.SettledCash()) == Balance(journal, p.SettledCash())
    ensures Balance(journal + CaptureEntries(p, settled, hold), p.WithdrawableCash()) ==
            Balance(journal, p.WithdrawableCash())
  {
    BalanceOfConcat(journal, CaptureEntries(p, settled, hold), p.SettledCash());
    BalanceOfConcat(journal, CaptureEntries(p, settled, hold), p.WithdrawableCash());
    CaptureEffect(p, settled, hold, p.SettledCash());
    CaptureEffect(p, settled, hold, p.WithdrawableCash());
  }

  lemma RepaymentFreezes(journal: seq<Entry>, p: Profile, settled: Decimal, soldToday: Decimal, k: Conditions)
    requires Repaid(journal, p, settled, soldToday, k).Success?
    ensures var r := Repaid(journal, p, settled, soldToday, k).value;
            r.freeze <==> !p.mode.MonthlyStatement? && r.cash + r.auto < settled
  {
    if !p.mode.MonthlyStatement? {
      RepaidParts(journal, p, settled, soldToday, k);
    }
  }

  // ---- A day over a whole run ----

  /** Whenever the customer captures on that day, a live mandate allows at most `maximum` dollars a day. */
  predicate MandateKeeps(s: Step, customer: Customer, day: int, maximum: Decimal) {
    && s.Execute? && s.command.CapturePayment? && s.command.customer == customer && s.conditions.day == day
    && s.conditions.mandate.Some? ==>
      s.conditions.mandate.value.dailyMax <= maximum
  }

  ghost predicate WithinDay(sales: seq<SaleRow>, customer: Customer, day: int, maximum: Decimal) {
    var spent, number := DaySum(sales, customer, day, AtLimit), DaySum(sales, customer, day, InNumber);
    && 2 * spent <= 2 * (DaySum(sales, customer, day, InProceeds) * UNIT) + number * UNIT
    && forall i: nat | IsLastFill(sales, customer, day, i) ::
         2 * spent < 2 * (maximum * UNIT) + (number - 1) * UNIT + 2 * sales[i].execution.limit
  }

  /** The sales of a capture that are added to the day. */
  lemma CaptureStaysWithinDay(sales: seq<SaleRow>, seller: Customer, on: int, rows: seq<Execution>, p: Profile,
      shortfall: Decimal, k: Conditions, customer: Customer, day: int, maximum: Decimal)
    requires WithinDay(sales, customer, day, maximum)
    requires (seller, on) == (customer, day) ==>
               && SalesFit(rows, p, shortfall, DaySum(sales, customer, day, InProceeds), k)
               && (k.mandate.Some? ==> k.mandate.value.dailyMax <= maximum)
    ensures WithinDay(sales + SaleRows(seller, on, rows), customer, day, maximum)
  {
    var after := sales + SaleRows(seller, on, rows);
    DaySumGrows(sales, seller, on, rows, customer, day, AtLimit);
    DaySumGrows(sales, seller, on, rows, customer, day, InProceeds);
    DaySumGrows(sales, seller, on, rows, customer, day, InNumber);
    var sold := DaySum(sales, customer, day, InProceeds);
    if (seller, on) == (customer, day) && Fills(rows) > 0 {
      WiderBudget(rows, k.mandate.value.dailyMax - sold, maximum - sold);
      assert (maximum - sold) * UNIT == maximum * UNIT - sold * UNIT;
    }
    forall i: nat | IsLastFill(after, customer, day, i)
      ensures 2 * DaySum(after, customer, day, AtLimit) < 2 * (maximum * UNIT)
                + (DaySum(after, customer, day, InNumber) - 1) * UNIT + 2 * after[i].execution.limit
    {
      LastFillAfter(sales, seller, on, rows, customer, day, i);
      NothingSpent(rows);
    }
  }

  lemma {:induction false} NothingSpent(rows: seq<Execution>)
    ensures Fills(rows) == 0 ==> Spent(rows) == 0
  {
    if rows != [] {
      NothingSpent(rows[..|rows| - 1]);
    }
  }

  lemma CommandStaysWithinDay(b: Book, c: Command, k: Conditions, customer: Customer, day: int, maximum: Decimal)
    requires WithinDay(b.sales, customer, day, maximum) && MandateKeeps(Execute(c, k), customer, day, maximum)
    ensures WithinDay(Executed(b, c, k).book.sales, customer, day, maximum)
  {
    ExecutedWrites(b, c, k);
    if TakesPlace(b, c, k) {
      if c.CapturePayment? {
        CaptureParts(b, c, k);
        var p := b.profiles[c.customer];
        var m := AmountsFor(b, c, AuthorizationFor(b, c).value, k).value;
        var r := SettledFor(b, c, m, k).value;
        PlannedRow(c, AuthorizationFor(b, c).value, m, r);
        SoldOnIsDaySum(b.sales, c.customer, k.day);
        RepaidPays(b.journal + CaptureEntries(p, m.settled, m.release), p, m.settled,
          SoldOn(b.sales, c.customer, k.day), k);
        CaptureStaysWithinDay(b.sales, c.customer, k.day, r.rows, p, m.settled - r.cash, k, customer, day, maximum);
      } else {
        OthersSellNothing(b, c, k);
      }
    }
  }

  lemma OthersSellNothing(b: Book, c: Command, k: Conditions)
    requires !c.CapturePayment? && TakesPlace(b, c, k)
    ensures Written(b, c, k).sales == b.sales
  {
  }

  lemma {:induction false} DayOverRuns(b: Book, steps: seq<Step>, customer: Customer, day: int, maximum: Decimal)
    requires Initial(b) && forall j | 0 <= j < |steps| :: MandateKeeps(steps[j], customer, day, maximum)
    ensures WithinDay(Run(b, steps).sales, customer, day, maximum)
  {
    if steps != [] {
      var n := |steps| - 1;
      DayOverRuns(b, steps[..n], customer, day, maximum);
      if steps[n].Execute? {
        CommandStaysWithinDay(Run(b, steps[..n]), steps[n].command, steps[n].conditions, customer, day, maximum);
      }
    }
  }

  /**
   Over every run, the fills of a customer on a day, valued at their limits,
     stay below the daily maximum plus half a step
   for each but the last, plus one step of the last one's limit; however many captures they were made for.
   */
  lemma DailyMaximumHolds(b: Book, steps: seq<Step>, customer: Customer, day: int, maximum: Decimal, last: nat)
    requires Initial(b) && forall j | 0 <= j < |steps| :: MandateKeeps(steps[j], customer, day, maximum)
    requires IsLastFill(Run(b, steps).sales, customer, day, last)
    ensures var sales := Run(b, steps).sales;
            2 * DaySum(sales, customer, day, AtLimit) < 2 * (maximum * UNIT)
              + (DaySum(sales, customer, day, InNumber) - 1) * UNIT + 2 * sales[last].execution.limit
  {
    DayOverRuns(b, steps, customer, day, maximum);
  }
}
