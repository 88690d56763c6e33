/** What a capture's repayment may do to the customer's cash. */
module CardRepayment {
  import opened Results
  import opened Decimals
  import opened Entries
  import opened AutoSell
  import opened CardLedger
  import opened Card
  import opened CardHolds

  /** The market a capture may sell on keeps collateral apart from cash. */
  ghost predicate MarketApart(p: Profile, k: Conditions) {
    p.Apart() && (k.mandate.Some? ==> Segregated(MarketOf(p, k.mandate.value, k)))
  }

  predicate IsCash(p: Profile, key: Key) {
    key == p.SettledCash() || key == p.WithdrawableCash()
  }

  lemma ShortfallCash(journal: seq<Entry>, p: Profile, shortfall: Decimal, soldToday: Decimal, k: Conditions, key: Key)
    requires MarketApart(p, k) && IsCash(p, key) && Shortfall(journal, p, shortfall, soldToday, k).Success?
    ensures var sale := Shortfall(journal, p, shortfall, soldToday, k).value;
            Balance(sale.journal, key) == Balance(journal, key) + sale.proceeds && sale.proceeds >= 0
  {
    if shortfall > 0 && p.mode.CashThenAutoSell? && k.mandate.Some? && k.mandate.value.live {
      var allowed := k.mandate.value.dailyMax - soldToday;
      LoopCreditsCash(Sale(journal, [], Minimum(shortfall, PositiveRemainder(allowed)), 0), k.mandate.value.assets,
        MarketOf(p, k.mandate.value, k));
    }
  }

  lemma CashShareBounds(journal: seq<Entry>, p: Profile, settled: Decimal, key: Key)
    requires settled >= 0 && IsCash(p, key) && CashShare(journal, p, settled).Success?
    ensures var cash := CashShare(journal, p, settled).value;
            0 <= cash <= settled && (cash > 0 ==> cash <= Balance(journal, key))
  {
  }

  /**
   Repayment never takes cash below the smaller of zero and what it was, uses sale proceeds only up to the shortfall
   and leaves the rest as cash, and freezes spending exactly when something stays unpaid.
   */
  lemma RepaymentProtectsCash(journal: seq<Entry>, p: Profile, settled: Decimal, soldToday: Decimal, k: Conditions,
      key: Key)
    requires MarketApart(p, k) && settled >= 0 && IsCash(p, key) && !p.mode.MonthlyStatement?
    requires Repaid(journal, p, settled, soldToday, k).Success?
    ensures CashShare(journal, p, settled).Success?
            && Shortfall(journal, p, settled - CashShare(journal, p, settled).value, soldToday, k).Success?
    ensures var r := Repaid(journal, p, settled, soldToday, k).value;
            var cash := CashShare(journal, p, settled).value;
            var proceeds := Shortfall(journal, p, settled - cash, soldToday, k).value.proceeds;
            && Balance(r.journal, key) >= Minimum(Balance(journal, key), 0)
            && r.cash == cash && r.auto == Minimum(proceeds, settled - cash)
            && Balance(r.journal, key) == Balance(journal, key) - cash + (proceeds - r.auto)
            && (r.freeze <==> r.cash + r.auto < settled)
  {
    RepaidParts(journal, p, settled, soldToday, k);
    var cash := CashShare(journal, p, settled).value;
    var sale := Shortfall(journal, p, settled - cash, soldToday, k).value;
    CashShareBounds(journal, p, settled, key);
    ShortfallCash(journal, p, settled - cash, soldToday, k, key);
    RepaidFromCash(sale, p, settled, cash, key);
  }

  lemma RepaidFromCash(sale: Sale, p: Profile, settled: Decimal, cash: Decimal, key: Key)
    requires p.Apart() && 0 <= cash <= settled && sale.proceeds >= 0 && RepaidFrom(sale, p, settled, cash).Success?
             && IsCash(p, key)
    ensures var r := RepaidFrom(sale, p, settled, cash).value;
            && r.cash == cash && r.auto == Minimum(sale.proceeds, settled - cash)
            && Balance(r.journal, key) == Balance(sale.journal, key) - cash - r.auto
            && (r.freeze <==> r.cash + r.auto < settled)
  {
    RepaidFromEffect(sale, p, settled, cash, key);
  }

  /**
   A whole capture: cash protected, repaid plus newly owed equals settled, and spending frozen exactly on a shortfall.
   */
  lemma CaptureRepays(b: Book, c: Command, k: Conditions, key: Key)
    requires HoldsSound(b) && c.CapturePayment? && c.customer in b.profiles && c.merchantAmount > 0
    requires MarketApart(b.profiles[c.customer], k) && IsCash(b.profiles[c.customer], key)
             && PlanCapture(b, c, k).Success?
    ensures var plan := PlanCapture(b, c, k).value;
            var p := b.profiles[c.customer];
            var row := plan.row;
            && Balance(plan.journal, key) >= Minimum(Balance(b.journal, key), 0)
            && 0 <= row.cashRepaidUsd + row.autoSellRepaidUsd <= row.settledUsd
            && row.cashRepaidUsd + row.autoSellRepaidUsd
               + (Balance(plan.journal, p.ReceivableKey()) - Balance(b.journal, p.ReceivableKey())) == row.settledUsd
            && (plan.freeze <==>
                 !p.mode.MonthlyStatement? && row.cashRepaidUsd + row.autoSellRepaidUsd < row.settledUsd)
  {
    CaptureParts(b, c, k);
    CapturePlanFacts(b, c, k);
    var p := b.profiles[c.customer];
    var m := AmountsFor(b, c, AuthorizationFor(b, c).value, k).value;
    ReleaseIsNonNegative(b, c, k, AuthorizationFor(b, c).value, m);
    assert IsCardKey(b, p.ReceivableKey());
    assert MovesJournal(b, c, PlanCapture(b, c, k).value, p.ReceivableKey());
    SettledForCash(b, c, m, k, key);
  }

  lemma SettledForCash(b: Book, c: Command, m: Amounts, k: Conditions, key: Key)
    requires c.CapturePayment? && c.customer in b.profiles && SettledFor(b, c, m, k).Success? && m.release >= 0
             && m.settled > 0
    requires MarketApart(b.profiles[c.customer], k) && IsCash(b.profiles[c.customer], key)
    ensures var r := SettledFor(b, c, m, k).value;
            && Balance(r.journal, key) >= Minimum(Balance(b.journal, key), 0)
            && (r.freeze <==> !b.profiles[c.customer].mode.MonthlyStatement? && r.cash + r.auto < m.settled)
  {
    var p := b.profiles[c.customer];
    var es := CaptureEntries(p, m.settled, m.release);
    BalanceOfConcat(b.journal, es, key);
    CaptureEffect(p, m.settled, m.release, key);
    if !p.mode.MonthlyStatement? {
      RepaymentProtectsCash(b.journal + es, p, m.settled, SoldOn(b.sales, c.customer, k.day), k, key);
    }
  }

  // ---- A capture that an empty asset brings down ----

  /** The sale a shortfall starts, when there is a live mandate and the day's allowance can be computed. */
  function SaleStart(journal: seq<Entry>, shortfall: Decimal, soldToday: Decimal, k: Conditions)
      : Result<Sale, CardError>
    requires k.mandate.Some?
  {
    var used :- Checked(FromCoefficient(soldToday));
    var allowed :- Checked(Sub(k.mandate.value.dailyMax, used));
    Success(Sale(journal, [], Minimum(shortfall, PositiveRemainder(allowed)), 0))
  }

  /** The repayment has a shortfall to sell for, and its loop comes to an asset of which nothing can be ordered. */
  ghost predicate RepaymentBlocked(journal: seq<Entry>, p: Profile, settled: Decimal, soldToday: Decimal, k: Conditions)
  {
    && p.mode.CashThenAutoSell? && k.mandate.Some? && k.mandate.value.live
    && CashShare(journal, p, settled).Success? && settled - CashShare(journal, p, settled).value > 0
    && var start := SaleStart(journal, settled - CashShare(journal, p, settled).value, soldToday, k);
       start.Success? && Blocked(start.value, k.mandate.value.assets, MarketOf(p, k.mandate.value, k))
  }

  lemma SaleForBlocked(journal: seq<Entry>, p: Profile, shortfall: Decimal, soldToday: Decimal, k: Conditions)
    requires k.mandate.Some? && k.mandate.value.live && Priced(MarketOf(p, k.mandate.value, k))
    ensures SaleFor(journal, p, shortfall, soldToday, k) == Failure(RowRejected) <==>
            var start := SaleStart(journal, shortfall, soldToday, k);
            start.Success? && Blocked(start.value, k.mandate.value.assets, MarketOf(p, k.mandate.value, k))
  {
    var start := SaleStart(journal, shortfall, soldToday, k);
    if start.Success? {
      BlockedLoopAborts(start.value, k.mandate.value.assets, MarketOf(p, k.mandate.value, k));
    }
  }

  /** The markets of this mandate are priced as the tables promise. */
  ghost predicate MarketPriced(p: Profile, k: Conditions) {
    k.mandate.Some? ==> Priced(MarketOf(p, k.mandate.value, k))
  }

  lemma RepaidFromIsNoRowError(sale: Sale, p: Profile, settled: Decimal, cash: Decimal)
    ensures RepaidFrom(sale, p, settled, cash) != Failure(RowRejected)
  {
  }

  lemma CashShareIsNoRowError(journal: seq<Entry>, p: Profile, settled: Decimal)
    ensures CashShare(journal, p, settled) != Failure(RowRejected)
  {
  }

  /** Which stage of a repayment can fail on a row: the sale alone. */
  lemma RepaidRowError(journal: seq<Entry>, p: Profile, settled: Decimal, soldToday: Decimal, k: Conditions)
    ensures Repaid(journal, p, settled, soldToday, k) == Failure(RowRejected) <==>
            && !p.mode.MonthlyStatement? && CashShare(journal, p, settled).Success?
            && Shortfall(journal, p, settled - CashShare(journal, p, settled).value, soldToday, k) ==
               Failure(RowRejected)
  {
    CashShareIsNoRowError(journal, p, settled);
    if !p.mode.MonthlyStatement? && CashShare(journal, p, settled).Success? {
      var cash := CashShare(journal, p, settled).value;
      var sale := Shortfall(journal, p, settled - cash, soldToday, k);
      if sale.Success? {
        RepaidFromIsNoRowError(sale.value, p, settled, cash);
      }
    }
  }

  lemma RepaidBlocked(journal: seq<Entry>, p: Profile, settled: Decimal, soldToday: Decimal, k: Conditions)
    requires MarketPriced(p, k)
    ensures Repaid(journal, p, settled, soldToday, k) == Failure(RowRejected) <==>
            RepaymentBlocked(journal, p, settled, soldToday, k)
  {
    RepaidRowError(journal, p, settled, soldToday, k);
    if k.mandate.Some? && k.mandate.value.live && CashShare(journal, p, settled).Success? {
      SaleForBlocked(journal, p, settled - CashShare(journal, p, settled).value, soldToday, k);
    }
  }

  /** Every check before the repayment passes, and the repayment is blocked. */
  ghost predicate CaptureBlocked(b: Book, c: Command, k: Conditions)
    requires c.CapturePayment? && c.customer in b.profiles
  {
    var p := b.profiles[c.customer];
    && AuthorizationFor(b, c).Success? && AmountsFor(b, c, AuthorizationFor(b, c).value, k).Success?
    && var m := AmountsFor(b, c, AuthorizationFor(b, c).value, k).value;
       && Check(CaptureEntries(p, m.settled, m.release)).Success?
       && RepaymentBlocked(b.journal + CaptureEntries(p, m.settled, m.release), p, m.settled,
          SoldOn(b.sales, c.customer, k.day), k)
  }

  lemma RowsAreNoRowError(c: Command, a: Authorization, m: Amounts, r: Repayment)
    requires c.CapturePayment?
    ensures CaptureRows(c, a, m, r) != Failure(RowRejected)
  {
  }

  lemma AmountsAreNoRowError(b: Book, c: Command, a: Authorization, k: Conditions)
    requires c.CapturePayment?
    ensures AmountsFor(b, c, a, k) != Failure(RowRejected)
  {
  }

  /**
   A capture is refused by the sales table if and only if its auto-sell comes to an unrestricted asset, while something
   is still needed, of which nothing can be ordered.
   */
  lemma CaptureFailsOnEmptyAsset(b: Book, c: Command, k: Conditions)
    requires c.CapturePayment? && c.customer in b.profiles && MarketPriced(b.profiles[c.customer], k)
    ensures PlanCapture(b, c, k) == Failure(RowRejected) <==> CaptureBlocked(b, c, k)
  {
    if AuthorizationFor(b, c).Success? {
      var a := AuthorizationFor(b, c).value;
      AmountsAreNoRowError(b, c, a, k);
      if AmountsFor(b, c, a, k).Success? {
        var m := AmountsFor(b, c, a, k).value;
        var p := b.profiles[c.customer];
        RepaidBlocked(b.journal + CaptureEntries(p, m.settled, m.release), p, m.settled,
          SoldOn(b.sales, c.customer, k.day), k);
        if SettledFor(b, c, m, k).Success? {
          RowsAreNoRowError(c, a, m, SettledFor(b, c, m, k).value);
        }
      }
    }
  }
}
