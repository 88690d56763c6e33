/** Over every run of the card product the journal is made of postings that pass the ledger's check. */
module CardPostings {
  import opened Results
  import opened Decimals
  import opened Entries
  import opened AutoSell
  import opened CardLedger
  import opened Card
  import opened CardHolds
  import opened CardRuns

  lemma OneSaleIsAccepted(s: Sale, asset: MandateAsset, m: Market)
    requires SoldOne(s, asset, m).Success? && MadeOfPostings(s.journal)
    ensures MadeOfPostings(SoldOne(s, asset, m).value.journal)
  {
    var t := SoldOne(s, asset, m).value;
    if t.journal != s.journal {
      var order := Sized(s, asset, m).value;
      var r := ExecuteProtectedSell(order.quantity, m.quotes[asset.symbol].price, order.limit, m.scenario);
      PostingAppended(s.journal, SaleEntries(m, asset.symbol, r.filled, r.proceeds));
    }
  }

  lemma {:induction false} LoopIsAccepted(s: Sale, assets: seq<MandateAsset>, m: Market)
    requires Sold(s, assets, m).Success? && MadeOfPostings(s.journal)
    ensures MadeOfPostings(Sold(s, assets, m).value.journal)
  {
    if assets != [] {
      var n := |assets| - 1;
      LoopIsAccepted(s, assets[..n], m);
      var before := Sold(s, assets[..n], m).value;
      if before.remaining > 0 {
        OneSaleIsAccepted(before, assets[n], m);
      }
    }
  }

  lemma ShortfallIsAccepted(journal: seq<Entry>, p: Profile, shortfall: Decimal, soldToday: Decimal, k: Conditions)
    requires Shortfall(journal, p, shortfall, soldToday, k).Success? && MadeOfPostings(journal)
    ensures MadeOfPostings(Shortfall(journal, p, shortfall, soldToday, k).value.journal)
  {
    if shortfall > 0 && p.mode.CashThenAutoSell? && k.mandate.Some? && k.mandate.value.live {
      var allowed := k.mandate.value.dailyMax - soldToday;
      var start := Sale(journal, [], Minimum(shortfall, PositiveRemainder(allowed)), 0);
      LoopIsAccepted(start, k.mandate.value.assets, MarketOf(p, k.mandate.value, k));
    }
  }

  lemma RepaidFromIsAccepted(sale: Sale, p: Profile, settled: Decimal, cash: Decimal)
    requires RepaidFrom(sale, p, settled, cash).Success? && MadeOfPostings(sale.journal)
    ensures MadeOfPostings(RepaidFrom(sale, p, settled, cash).value.journal)
  {
    var repaid := cash + Minimum(sale.proceeds, settled - cash);
    if repaid > 0 {
      PostingAppended(sale.journal, RepaymentEntries(p, repaid));
    }
  }

  lemma CaptureIsAccepted(b: Book, c: Command, k: Conditions)
    requires c.CapturePayment? && c.customer in b.profiles && PlanCapture(b, c, k).Success? && MadeOfPostings(b.journal)
    ensures MadeOfPostings(PlanCapture(b, c, k).value.journal)
  {
    CaptureParts(b, c, k);
    var m := AmountsFor(b, c, AuthorizationFor(b, c).value, k).value;
    var p := b.profiles[c.customer];
    var day := SoldOn(b.sales, c.customer, k.day);
    var posted := b.journal + CaptureEntries(p, m.settled, m.release);
    PostingAppended(b.journal, CaptureEntries(p, m.settled, m.release));
    if !p.mode.MonthlyStatement? {
      RepaidParts(posted, p, m.settled, day, k);
      var cash := CashShare(posted, p, m.settled).value;
      ShortfallIsAccepted(posted, p, m.settled - cash, day, k);
      RepaidFromIsAccepted(Shortfall(posted, p, m.settled - cash, day, k).value, p, m.settled, cash);
    }
  }

  lemma WrittenIsAccepted(b: Book, c: Command, k: Conditions)
    requires c.WellFormed() && c.customer in b.profiles && Decision(b, c, k).Success? && MadeOfPostings(b.journal)
    ensures MadeOfPostings(Written(b, c, k).journal)
  {
    var p := b.profiles[c.customer];
    match c
    case AuthorizeCard(_, _, _, _, _) =>
      var a := PlanAuthorization(b, c, k).value;
      if a.status.Approved? {
        PostingAppended(b.journal, HoldEntries(p, a.authorizedUsd));
      } else {
        assert b.journal + [] == b.journal;
      }
    case CapturePayment(_, _, _, _, _, _, _) => CaptureIsAccepted(b, c, k);
    case ReverseHold(_, _, _, amount, _) => PostingAppended(b.journal, ReleaseEntries(p, amount));
    case RefundPayment(_, _, _, _, _) =>
      var split := PlanRefund(b, c).value;
      PostingAppended(b.journal, RefundEntries(p, split.reduction, split.credit));
    case OpenDispute(_, _, _, _, _) =>
    case PayStatement(_, _, _) =>
      PostingAppended(b.journal, RepaymentEntries(p, b.statements[c.statement].amountDueUsd));
  }

  lemma ResolutionIsAccepted(b: Book, d: nat, accept: bool)
    requires PlanResolution(b, d, accept).Success? && MadeOfPostings(b.journal)
    ensures MadeOfPostings(WithResolution(b, d, PlanResolution(b, d, accept).value).journal)
  {
    var x := PlanResolution(b, d, accept).value;
    if accept {
      PostingAppended(b.journal, RefundEntries(b.profiles[x.customer], x.split.reduction, x.split.credit));
    }
  }

  lemma StepIsAccepted(b: Book, s: Step)
    requires MadeOfPostings(b.journal) && (s.Elsewhere? ==> Check(s.entries).Success?)
    ensures MadeOfPostings(After(b, s).journal)
  {
    match s
    case Execute(c, k) =>
      ExecutedWrites(b, c, k);
      if TakesPlace(b, c, k) {
        WrittenIsAccepted(b, c, k);
      }
    case Resolve(d, accept) =>
      if PlanResolution(b, d, accept).Success? {
        ResolutionIsAccepted(b, d, accept);
      }
    case Elsewhere(es) => PostingAppended(b.journal, es);
    case _ =>
  }

  /** Holds, captures, sales, repayments, refunds and payments are never written past the ledger's check. */
  lemma {:induction false} JournalIsAccepted(b: Book, steps: seq<Step>)
    requires MadeOfPostings(b.journal)
    requires forall i | 0 <= i < |steps| && steps[i].Elsewhere? :: Check(steps[i].entries).Success?
    ensures MadeOfPostings(Run(b, steps).journal)
  {
    if steps != [] {
      var n := |steps| - 1;
      JournalIsAccepted(b, steps[..n]);
      StepIsAccepted(Run(b, steps[..n]), steps[n]);
    }
  }
}
