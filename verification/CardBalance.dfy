/** Every posting of the card product balances each dimension, and so does the ledger after every run. */
module CardBalance {
  import opened Results
  import opened Decimals
  import opened Entries
  import opened AutoSell
  import opened CardLedger
  import opened Card
  import opened CardHolds
  import opened CardReceivable
  import opened CardRuns

  lemma ShortfallStaysBalanced(journal: seq<Entry>, p: Profile, shortfall: Decimal, soldToday: Decimal, k: Conditions)
    requires Shortfall(journal, p, shortfall, soldToday, k).Success? && BalancedPerDimension(journal)
    ensures BalancedPerDimension(Shortfall(journal, p, shortfall, soldToday, k).value.journal)
  {
    if shortfall > 0 && p.mode.CashThenAutoSell? && k.mandate.Some? && k.mandate.value.live {
      var allowed := k.mandate.value.dailyMax - soldToday;
      var start := Sale(journal, [], Minimum(shortfall, PositiveRemainder(allowed)), 0);
      LoopStaysBalanced(start, k.mandate.value.assets, MarketOf(p, k.mandate.value, k));
    }
  }

  lemma RepaidStaysBalanced(journal: seq<Entry>, p: Profile, settled: Decimal, soldToday: Decimal, k: Conditions)
    requires p.Apart() && Repaid(journal, p, settled, soldToday, k).Success? && BalancedPerDimension(journal)
    ensures BalancedPerDimension(Repaid(journal, p, settled, soldToday, k).value.journal)
  {
    if !p.mode.MonthlyStatement? {
      RepaidParts(journal, p, settled, soldToday, k);
      var cash := CashShare(journal, p, settled).value;
      var sale := Shortfall(journal, p, settled - cash, soldToday, k).value;
      ShortfallStaysBalanced(journal, p, settled - cash, soldToday, k);
      var repaid := cash + Minimum(sale.proceeds, settled - cash);
      RepaymentEffect(p, repaid, p.HeldKey());
      BalancedConcat(sale.journal, RepaymentEntries(p, repaid));
    }
  }

  lemma CaptureStaysBalanced(b: Book, c: Command, k: Conditions)
    requires Sound(b) && c.CapturePayment? && c.customer in b.profiles && PlanCapture(b, c, k).Success?
    requires BalancedPerDimension(b.journal)
    ensures BalancedPerDimension(PlanCapture(b, c, k).value.journal)
  {
    CaptureParts(b, c, k);
    var a := AuthorizationFor(b, c).value;
    var m := AmountsFor(b, c, a, k).value;
    var p := b.profiles[c.customer];
    ReleaseIsNonNegative(b, c, k, a, m);
    CaptureEffect(p, m.settled, m.release, p.HeldKey());
    BalancedConcat(b.journal, CaptureEntries(p, m.settled, m.release));
    RepaidStaysBalanced(b.journal + CaptureEntries(p, m.settled, m.release), p, m.settled,
      SoldOn(b.sales, c.customer, k.day), k);
  }

  lemma RefundStaysBalanced(b: Book, p: Profile, i: nat, amount: Decimal, split: Split)
    requires p.Apart() && i < |b.captures| && AdjustmentsSound(b, i) && amount > 0 && BalancedPerDimension(b.journal)
    requires Allocated(b.captures[i], PriorAdjustments(b, i), amount) == Success(split)
    ensures BalancedPerDimension(b.journal + RefundEntries(p, split.reduction, split.credit))
  {
    OneMoreAdjustment(b.captures[i], PriorAdjustments(b, i), amount);
    RefundEffect(p, split.reduction, split.credit, p.HeldKey());
    BalancedConcat(b.journal, RefundEntries(p, split.reduction, split.credit));
  }

  lemma HoldStaysBalanced(journal: seq<Entry>, p: Profile, a: Authorization)
    requires p.Apart() && BalancedPerDimension(journal)
    ensures BalancedPerDimension(journal + AuthorizationEntries(p, a))
  {
    HoldEffect(p, a.authorizedUsd, p.HeldKey());
    BalancedConcat(journal, AuthorizationEntries(p, a));
  }

  lemma ReleaseStaysBalanced(journal: seq<Entry>, p: Profile, amount: Decimal)
    requires p.Apart() && BalancedPerDimension(journal)
    ensures BalancedPerDimension(journal + ReleaseEntries(p, amount))
  {
    ReleaseEffect(p, amount, p.HeldKey());
    BalancedConcat(journal, ReleaseEntries(p, amount));
  }

  lemma PaymentStaysBalanced(journal: seq<Entry>, p: Profile, amount: Decimal)
    requires p.Apart() && BalancedPerDimension(journal)
    ensures BalancedPerDimension(journal + RepaymentEntries(p, amount))
  {
    RepaymentEffect(p, amount, p.HeldKey());
    BalancedConcat(journal, RepaymentEntries(p, amount));
  }

  lemma RefundCommandStaysBalanced(b: Book, c: Command)
    requires Sound(b) && BalancedPerDimension(b.journal) && c.RefundPayment? && c.customer in b.profiles && c.amount > 0
    requires PlanRefund(b, c).Success?
    ensures c.capture < |b.captures| && BalancedPerDimension(WithRefund(b, c, PlanRefund(b, c).value).journal)
  {
    RefundStaysBalanced(b, b.profiles[c.customer], c.capture, c.amount, PlanRefund(b, c).value);
  }

  lemma PaymentCommandStaysBalanced(b: Book, c: Command)
    requires Sound(b) && BalancedPerDimension(b.journal) && c.PayStatement? && c.customer in b.profiles
    requires PlanPayment(b, c).Success?
    ensures c.statement < |b.statements| && BalancedPerDimension(WithPayment(b, c, PlanPayment(b, c).value).journal)
  {
    PaymentStaysBalanced(b.journal, b.profiles[c.customer], b.statements[c.statement].amountDueUsd);
  }

  lemma WrittenStaysBalanced(b: Book, c: Command, k: Conditions)
    requires Sound(b) && BalancedPerDimension(b.journal)
    requires c.WellFormed() && c.customer in b.profiles && Decision(b, c, k).Success?
    ensures BalancedPerDimension(Written(b, c, k).journal)
  {
    var p := b.profiles[c.customer];
    match c
    case AuthorizeCard(_, _, _, _, _) => HoldStaysBalanced(b.journal, p, PlanAuthorization(b, c, k).value);
    case CapturePayment(_, _, _, _, _, _, _) => CaptureStaysBalanced(b, c, k);
    case ReverseHold(_, _, _, amount, _) => ReleaseStaysBalanced(b.journal, p, amount);
    case RefundPayment(_, _, _, _, _) => RefundCommandStaysBalanced(b, c);
    case OpenDispute(_, _, _, _, _) =>
    case PayStatement(_, _, _) => PaymentCommandStaysBalanced(b, c);
  }

  lemma CommandStaysBalanced(b: Book, c: Command, k: Conditions)
    requires Sound(b) && BalancedPerDimension(b.journal)
    ensures BalancedPerDimension(Executed(b, c, k).book.journal)
  {
    ExecutedWrites(b, c, k);
    if TakesPlace(b, c, k) {
      WrittenStaysBalanced(b, c, k);
    }
  }

  lemma AcceptanceStaysBalanced(b: Book, d: nat)
    requires Sound(b) && BalancedPerDimension(b.journal) && PlanResolution(b, d, true).Success?
    ensures BalancedPerDimension(WithResolution(b, d, PlanResolution(b, d, true).value).journal)
  {
    var x := PlanResolution(b, d, true).value;
    AcceptanceAdjusts(b, d);
    RefundStaysBalanced(b, b.profiles[x.customer], x.capture, x.amountUsd, x.split);
  }

  lemma StepStaysBalanced(b: Book, s: Step)
    requires Sound(b) && BalancedPerDimension(b.journal) && (s.Elsewhere? ==> BalancedPerDimension(s.entries))
    ensures BalancedPerDimension(After(b, s).journal)
  {
    match s
    case Execute(c, k) => CommandStaysBalanced(b, c, k);
    case Resolve(d, accept) =>
      if accept && PlanResolution(b, d, accept).Success? {
        AcceptanceStaysBalanced(b, d);
      }
    case Elsewhere(es) => BalancedConcat(b.journal, es);
    case _ =>
  }

  /** Over every run of the card product the ledger sums to zero in each currency and dimension. */
  lemma ZeroSumPerDimension(b: Book, steps: seq<Step>, c: Currency, d: Dimension)
    requires Initial(b) && BalancedPerDimension(b.journal)
    requires forall i | 0 <= i < |steps| && steps[i].Elsewhere? :: BalancedPerDimension(steps[i].entries)
    ensures DimensionTotal(Run(b, steps).journal, c, d) == 0
  {
    RunsStayBalanced(b, steps);
  }

  lemma {:induction false} RunsStayBalanced(b: Book, steps: seq<Step>)
    requires Initial(b) && BalancedPerDimension(b.journal)
    requires forall i | 0 <= i < |steps| && steps[i].Elsewhere? :: BalancedPerDimension(steps[i].entries)
    ensures BalancedPerDimension(Run(b, steps).journal)
  {
    if steps != [] {
      var n := |steps| - 1;
      RunsStayBalanced(b, steps[..n]);
      RunsAreSound(b, steps[..n]);
      StepStaysBalanced(Run(b, steps[..n]), steps[n]);
    }
  }
}
