/** The card operations as they run: one transaction each, with the loops over earlier captures and refunds. */
module CardService {
  import opened Results
  import opened Decimals
  import opened Entries
  import opened AutoSell
  import opened CardLedger
  import opened Card
  import opened CardHolds
  import opened CardReceivable
  import opened CardRuns

  // ---- Running totals stay in range ----

  lemma {:induction false} PrefixTotals(cs: seq<Capture>, a: nat, n: nat)
    requires n <= |cs| && forall i | 0 <= i < |cs| :: cs[i].merchantAmount > 0 && cs[i].holdReleasedUsd >= 0
    ensures 0 <= MerchantTotal(cs[..n], a) <= MerchantTotal(cs, a)
    ensures 0 <= HoldReleased(cs[..n], a) <= HoldReleased(cs, a)
  {
    if n == |cs| {
      assert cs[..n] == cs;
      if cs != [] {
        PrefixTotals(cs[..n - 1], a, n - 1);
        assert cs[..n - 1][..n - 1] == cs[..n - 1];
      }
    } else {
      PrefixTotals(cs[..|cs| - 1], a, n);
      assert cs[..|cs| - 1][..n] == cs[..n];
    }
  }

  lemma {:induction false} PrefixRefunds(rs: seq<Refund>, i: nat, n: nat)
    requires n <= |rs| && forall r | 0 <= r < |rs| :: rs[r].amountUsd > 0
    ensures 0 <= RefundTotal(rs[..n], i) <= RefundTotal(rs, i)
  {
    if n == |rs| {
      assert rs[..n] == rs;
      if rs != [] {
        PrefixRefunds(rs[..n - 1], i, n - 1);
        assert rs[..n - 1][..n - 1] == rs[..n - 1];
      }
    } else {
      PrefixRefunds(rs[..|rs| - 1], i, n);
      assert rs[..|rs| - 1][..n] == rs[..n];
    }
  }

  /** What earlier captures of an authorization add up to. */
  datatype Earlier = Earlier(previous: Decimal, total: Decimal, released: Decimal)

  /** The loop over earlier captures: merchant amounts without and with the new one, and the hold released so far. */
  method AddUp(cs: seq<Capture>, a: nat, amount: Decimal) returns (r: Result<Earlier, CardError>)
    requires amount > 0 && HoldReleased(cs, a) < LIMIT
    requires forall i | 0 <= i < |cs| :: cs[i].merchantAmount > 0 && cs[i].holdReleasedUsd >= 0
    ensures r == if FromCoefficient(MerchantTotal(cs, a) + amount).Success?
                 then Success(Earlier(MerchantTotal(cs, a), MerchantTotal(cs, a) + amount, HoldReleased(cs, a)))
                   else Failure(Arithmetic)
  {
    var previous, total, released := 0, amount, 0;
    for i := 0 to |cs|
      invariant previous == MerchantTotal(cs[..i], a) && total == previous + amount
                && released == HoldReleased(cs[..i], a)
    {
      assert cs[..i + 1][..i] == cs[..i];
      PrefixTotals(cs, a, i + 1);
      if cs[i].authorization == a {
        var sums := AddEarlier(previous, total, released, cs[i]);
        if sums.Failure? {
          return Failure(Arithmetic);
        }
        previous, total, released := sums.value.previous, sums.value.total, sums.value.released;
      }
    }
    assert cs[..|cs|] == cs;
    if FromCoefficient(total).Failure? {
      return Failure(Arithmetic);
    }
    return Success(Earlier(previous, total, released));
  }

  /** One earlier capture added to the three totals, each of which must stay a decimal. */
  function AddEarlier(previous: Decimal, total: Decimal, released: Decimal, c: Capture): (r: Result<Earlier, CardError>)
    ensures r.Success? ==>
            r.value == Earlier(previous + c.merchantAmount, total + c.merchantAmount, released + c.holdReleasedUsd)
    ensures 0 <= previous <= total && c.merchantAmount > 0 && 0 <= released + c.holdReleasedUsd < LIMIT ==>
              (r.Failure? <==> total + c.merchantAmount >= LIMIT)
  {
    var previous' :- Checked(Add(previous, c.merchantAmount));
    var total' :- Checked(Add(total, c.merchantAmount));
    var released' :- Checked(Add(released, c.holdReleasedUsd));
    Success(Earlier(previous', total', released'))
  }

  /** The loop over earlier refunds, and the accepted disputes. */
  method PriorTotal(b: Book, i: nat) returns (prior: Decimal)
    requires ReceivablesSound(b) && i < |b.captures|
    ensures prior == PriorAdjustments(b, i)
  {
    assert AdjustmentsSound(b, i);
    prior := 0;
    for r := 0 to |b.refunds|
      invariant prior == RefundTotal(b.refunds[..r], i)
    {
      assert b.refunds[..r + 1][..r] == b.refunds[..r];
      if b.refunds[r].capture == i {
        PrefixRefunds(b.refunds, i, r + 1);
        var sum := Add(prior, b.refunds[r].amountUsd);
        assert sum.Success?;
        prior := sum.value;
      }
    }
    assert b.refunds[..|b.refunds|] == b.refunds;
    prior := prior + DisputeTotal(b.disputes, i, false);
  }

  /** Auto-sell for a shortfall under the customer's mandate, within what is left of today's allowance. */
  method SellFor(journal: seq<Entry>, p: Profile, shortfall: Decimal, soldToday: Decimal, k: Conditions)
      returns (r: Result<Sale, CardError>)
    ensures r == SaleFor(journal, p, shortfall, soldToday, k)
  {
    if k.mandate.None? || !k.mandate.value.live {
      return Success(Sale(journal, [], shortfall, 0));
    }
    var used :- Checked(FromCoefficient(soldToday));
    var allowed :- Checked(Sub(k.mandate.value.dailyMax, used));
    r := ExecuteAutoSell(journal, Minimum(shortfall, PositiveRemainder(allowed)), k.mandate.value.assets,
      MarketOf(p, k.mandate.value, k));
  }

  /** Cash, then auto-sell, then the repayment posting; what stays unpaid freezes spending. */
  method Repay(journal: seq<Entry>, p: Profile, settled: Decimal, soldToday: Decimal, k: Conditions)
      returns (r: Result<Repayment, CardError>)
    ensures r == Repaid(journal, p, settled, soldToday, k)
  {
    if p.mode == MonthlyStatement {
      return Success(Repayment(0, 0, false, journal, []));
    }
    var cash :- CashShare(journal, p, settled);
    var shortfall := settled - cash;
    var sale := Sale(journal, [], shortfall, 0);
    if shortfall > 0 && p.mode == CashThenAutoSell {
      sale :- SellFor(journal, p, shortfall, soldToday, k);
    }
    r := PostRepayment(sale, p, settled, cash);
  }

  method PostRepayment(sale: Sale, p: Profile, settled: Decimal, cash: Decimal)
      returns (r: Result<Repayment, CardError>)
    ensures r == RepaidFrom(sale, p, settled, cash)
  {
    var auto := Minimum(sale.proceeds, settled - cash);
    var after := sale.journal;
    if cash + auto > 0 {
      var entries := RepaymentEntries(p, cash + auto);
      var posted := ValidatePosting(entries);
      if posted.Failure? {
        return Failure(LedgerRejected);
      }
      after := after + entries;
    }
    return Success(Repayment(cash, auto, settled - (cash + auto) > 0, after, sale.rows));
  }

  class Service {
    var book: Book

    constructor (start: Book)
      ensures book == start
    {
      book := start;
    }

    /** The checks every command passes first: form, customer, and whether its identifier was seen. */
    method Admit(c: Command) returns (answered: Option<Result<Receipt, CardError>>)
      ensures answered.None? <==> c.WellFormed() && c.customer in book.profiles && Repeated(book, c).None?
      ensures answered.Some? ==> forall k :: Executed(book, c, k) == Outcome(book, answered.value)
    {
      if !c.WellFormed() || c.customer !in book.profiles {
        return Some(Failure(CardError.InvalidCommand));
      }
      return Repeated(book, c);
    }

    /** Any command: admission, then its own transaction. */
    method Execute(c: Command, k: Conditions) returns (r: Result<Receipt, CardError>)
      requires Sound(book)
      modifies this
      ensures Sound(book) && Outcome(book, r) == Executed(old(book), c, k)
    {
      ExecuteKeepsSound(book, c, k);
      var answered := Admit(c);
      if answered.Some? {
        return answered.value;
      }
      match c {
        case AuthorizeCard(_, _, _, _, _) => r := Authorize(c, k);
        case CapturePayment(_, _, _, _, _, _, _) => r := CapturePayment(c, k);
        case ReverseHold(_, _, _, _, _) => r := ReverseAuthorization(c);
        case RefundPayment(_, _, _, _, _) => r := Refund(c);
        case OpenDispute(_, _, _, _, _) => r := OpenDispute(c);
        case PayStatement(_, _, _) => r := PayStatement(c);
      }
    }

    method Authorize(c: Command, k: Conditions) returns (r: Result<Receipt, CardError>)
      requires c.AuthorizeCard? && c.customer in book.profiles
      modifies this
      ensures var plan := PlanAuthorization(old(book), c, k);
              && (plan.Failure? ==> book == old(book) && r == Failure(plan.error))
              && (plan.Success? ==>
                   && book == WithAuthorization(old(book), c, plan.value)
                   && r == Success(Receipt(|old(book).authorizations|, false)))
    {
      if k.rate.None? {
        return Failure(FxUnavailable);
      }
      var authorizedUsd :- Converted(c.merchantAmount, k.rate.value, k.markup);
      var profile := book.profiles[c.customer];
      var status := Approved;
      if !k.usable || profile.frozen || !k.enoughPower {
        status := Declined;
      }
      var entries := [];
      if status == Approved {
        entries := HoldEntries(profile, authorizedUsd);
        var posted := ValidatePosting(entries);
        if posted.Failure? {
          return Failure(LedgerRejected);
        }
      }
      if authorizedUsd <= 0 {
        return Failure(RowRejected);
      }
      var row := Authorization(c.customer, c.merchantAmount, c.currency, authorizedUsd, status, 0, 0);
      var id := |book.authorizations|;
      book := book.(authorizations := book.authorizations + [row], events := book.events[c.id := Row(c, id)], journal :=
        book.journal + entries);
      return Success(Receipt(id, false));
    }

    method CapturePayment(c: Command, k: Conditions) returns (r: Result<Receipt, CardError>)
      requires HoldsSound(book) && c.CapturePayment? && c.customer in book.profiles && c.merchantAmount > 0
      modifies this
      ensures var plan := PlanCapture(old(book), c, k);
              && (plan.Failure? ==> book == old(book) && r == Failure(plan.error))
              && (plan.Success? ==>
                    c.authorization < |old(book).authorizations|
                    && book == WithCapture(old(book), c, k, plan.value)
                    && r == Success(Receipt(|old(book).captures|, false)))
    {
      var plan := DecideCapture(c, k);
      if plan.Failure? {
        return Failure(plan.error);
      }
      var id := |book.captures|;
      book := WithCapture(book, c, k, plan.value);
      return Success(Receipt(id, false));
    }

    /** Everything a capture works out before it writes its rows. */
    method DecideCapture(c: Command, k: Conditions) returns (plan: Result<CapturePlan, CardError>)
      requires HoldsSound(book) && c.CapturePayment? && c.customer in book.profiles && c.merchantAmount > 0
      ensures plan == PlanCapture(book, c, k) && (plan.Success? ==> c.authorization < |book.authorizations|)
    {
      var authorization := AuthorizationFor(book, c);
      if authorization.Failure? {
        return Failure(authorization.error);
      }
      var amounts := CapturedAmounts(c, authorization.value, k);
      if amounts.Failure? {
        return Failure(amounts.error);
      }
      var repaid := PostAndRepay(c, amounts.value, k);
      if repaid.Failure? {
        return Failure(repaid.error);
      }
      plan := CaptureRows(c, authorization.value, amounts.value, repaid.value);
    }

    method CapturedAmounts(c: Command, a: Authorization, k: Conditions) returns (r: Result<Amounts, CardError>)
      requires HoldsSound(book) && c.CapturePayment? && c.merchantAmount > 0 && AuthorizationFor(book, c) == Success(a)
      ensures r == AmountsFor(book, c, a, k)
    {
      TotalsInRange(book, c.authorization);
      var earlier := AddUp(book.captures, c.authorization, c.merchantAmount);
      if earlier.Failure? {
        return Failure(earlier.error);
      }
      r := CaptureAmounts(a, earlier.value.previous, earlier.value.released, c.merchantAmount, c.final, k);
    }

    /** The receivable posting of a capture, and its repayment as far as the customer's mode goes. */
    method PostAndRepay(c: Command, amounts: Amounts, k: Conditions) returns (r: Result<Repayment, CardError>)
      requires c.CapturePayment? && c.customer in book.profiles
      ensures r == SettledFor(book, c, amounts, k)
    {
      var profile := book.profiles[c.customer];
      var entries := CaptureEntries(profile, amounts.settled, amounts.release);
      var posted := ValidatePosting(entries);
      if posted.Failure? {
        return Failure(LedgerRejected);
      }
      r := Repay(book.journal + entries, profile, amounts.settled, SoldOn(book.sales, c.customer, k.day), k);
    }

    method ReverseAuthorization(c: Command) returns (r: Result<Receipt, CardError>)
      requires HoldsSound(book) && c.ReverseHold? && c.customer in book.profiles && c.amount > 0
      modifies this
      ensures var plan := PlanReversal(old(book), c);
              && (plan.Failure? ==> book == old(book) && r == Failure(plan.error))
              && (plan.Success? ==>
                    c.authorization < |old(book).authorizations|
                    && book == WithReversal(old(book), c, plan.value) && r == Success(Receipt(c.authorization, false)))
    {
      if c.authorization >= |book.authorizations| || book.authorizations[c.authorization].customer != c.customer {
        return Failure(AuthorizationNotFound);
      }
      var authorization := book.authorizations[c.authorization];
      if authorization.status == Declined || authorization.status == AuthorizationStatus.Captured
        || authorization.status == AuthorizationStatus.Reversed {
        return Failure(InvalidState);
      }
      TotalsInRange(book, c.authorization);
      var released := ReleasedByCaptures(book.captures, c.authorization);
      var remaining := authorization.authorizedUsd - authorization.reversedUsd - released;
      if c.amount > remaining {
        return Failure(CardError.InvalidCommand);
      }
      var entries := ReleaseEntries(book.profiles[c.customer], c.amount);
      var posted := ValidatePosting(entries);
      if posted.Failure? {
        return Failure(LedgerRejected);
      }
      var reversed :- Checked(Add(authorization.reversedUsd, c.amount));
      var status := authorization.status;
      if remaining - c.amount <= 0 {
        status := AuthorizationStatus.Reversed;
      }
      book := book.(authorizations :=
        book.authorizations[c.authorization := authorization.(reversedUsd := reversed, status := status)],
        events := book.events[c.id := Row(c, c.authorization)], journal := book.journal + entries);
      return Success(Receipt(c.authorization, false));
    }

    method Refund(c: Command) returns (r: Result<Receipt, CardError>)
      requires ReceivablesSound(book) && c.RefundPayment? && c.customer in book.profiles
      modifies this
      ensures var plan := PlanRefund(old(book), c);
              && (plan.Failure? ==> book == old(book) && r == Failure(plan.error))
              && (plan.Success? ==>
                    c.capture < |old(book).captures|
                    && book == WithRefund(old(book), c, plan.value)
                    && r == Success(Receipt(|old(book).refunds|, false)))
    {
      if !Owns(book, c.customer, c.capture) {
        return Failure(CaptureNotFound);
      }
      var capture := book.captures[c.capture];
      if c.amount > capture.settledUsd - capture.refundedUsd {
        return Failure(RefundExceeded);
      }
      var prior := PriorTotal(book, c.capture);
      var split :- Allocated(capture, prior, c.amount);
      var entries := RefundEntries(book.profiles[c.customer], split.reduction, split.credit);
      var posted := ValidatePosting(entries);
      if posted.Failure? {
        return Failure(LedgerRejected);
      }
      var refunded := capture.refundedUsd + c.amount;
      var status := PartiallyRefunded;
      if refunded == capture.settledUsd {
        status := Refunded;
      }
      var id := |book.refunds|;
      book := book.(captures := book.captures[c.capture := capture.(refundedUsd := refunded, status := status)],
        refunds := book.refunds + [Card.Refund(c.capture, c.amount, split)],
        events := book.events[c.id := Row(c, id)], journal := book.journal + entries);
      return Success(Receipt(id, false));
    }

    method OpenDispute(c: Command) returns (r: Result<Receipt, CardError>)
      requires c.OpenDispute? && c.customer in book.profiles
      modifies this
      ensures var plan := PlanDispute(old(book), c);
              && (plan.Failure? ==> book == old(book) && r == Failure(plan.error))
              && (plan.Success? ==>
                   book == WithDispute(old(book), c, plan.value) && r == Success(Receipt(|old(book).disputes|, false)))
    {
      if !Owns(book, c.customer, c.capture) {
        return Failure(CaptureNotFound);
      }
      var capture := book.captures[c.capture];
      var reserved :- Checked(FromCoefficient(DisputeTotal(book.disputes, c.capture, true)));
      if c.amount > capture.settledUsd - capture.refundedUsd - reserved {
        return Failure(RefundExceeded);
      }
      var id := |book.disputes|;
      book := book.(disputes := book.disputes + [Dispute(c.capture, c.customer, c.amount, Open, Split(0, 0))],
        requests := book.requests[(c.customer, c.id, false) := Row(c, id)]);
      return Success(Receipt(id, false));
    }

    method ResolveDispute(d: nat, accept: bool) returns (r: Result<(), CardError>)
      requires Sound(book)
      modifies this
      ensures Sound(book)
      ensures var plan := PlanResolution(old(book), d, accept);
              && (plan.Failure? ==> book == old(book) && r == Failure(plan.error))
              && (plan.Success? ==>
                   d < |old(book).disputes| && book == WithResolution(old(book), d, plan.value) && r == Success(()))
    {
      StepKeepsSound(book, Resolve(d, accept));
      if d >= |book.disputes| {
        return Failure(DisputeNotFound);
      }
      var dispute := book.disputes[d];
      if dispute.status != Open {
        return Failure(InvalidState);
      }
      if dispute.customer !in book.profiles || dispute.capture >= |book.captures| {
        return Failure(CaptureNotFound);
      }
      var entries := [];
      if accept {
        var prior := PriorTotal(book, dispute.capture);
        var split :- Allocated(book.captures[dispute.capture], prior, dispute.amountUsd);
        entries := RefundEntries(book.profiles[dispute.customer], split.reduction, split.credit);
        var posted := ValidatePosting(entries);
        if posted.Failure? {
          return Failure(LedgerRejected);
        }
        dispute := dispute.(status := Accepted, split := split);
      } else {
        dispute := dispute.(status := Rejected);
      }
      assert book.journal + [] == book.journal;
      book := book.(disputes := book.disputes[d := dispute], journal := book.journal + entries);
      return Success(());
    }

    method GenerateStatement(customer: Customer, period: (int, int))
      requires Sound(book)
      modifies this
      ensures Sound(book) && book == Generated(old(book), customer, period)
    {
      GenerateKeepsSound(book, customer, period);
      if customer !in book.profiles || book.profiles[customer].mode != MonthlyStatement {
        return;
      }
      var receivable := ReadBalance(book.journal, book.profiles[customer].ReceivableKey());
      if receivable.Failure? {
        return;
      }
      var statement := Statement(customer, period, PositiveRemainder(receivable.value), false);
      var n := StatementFor(book.statements, customer, period);
      if n == |book.statements| {
        book := book.(statements := book.statements + [statement]);
      } else if !book.statements[n].paid {
        book := book.(statements := book.statements[n := statement]);
      }
    }

    method PayStatement(c: Command) returns (r: Result<Receipt, CardError>)
      requires c.PayStatement? && c.customer in book.profiles
      modifies this
      ensures var plan := PlanPayment(old(book), c);
              && (plan.Failure? ==> book == old(book) && r == Failure(plan.error))
              && (plan.Success? ==>
                    c.statement < |old(book).statements|
                    && book == WithPayment(old(book), c, plan.value) && r == Success(Receipt(c.statement, false)))
    {
      if c.statement >= |book.statements| || book.statements[c.statement].customer != c.customer {
        return Failure(CardError.InvalidCommand);
      }
      var statement := book.statements[c.statement];
      if statement.paid || statement.amountDueUsd <= 0 {
        return Failure(InvalidState);
      }
      var profile := book.profiles[c.customer];
      var settled :- ReadBalance(book.journal, profile.SettledCash());
      var withdrawable :- ReadBalance(book.journal, profile.WithdrawableCash());
      var receivable :- ReadBalance(book.journal, profile.ReceivableKey());
      if Minimum(PositiveRemainder(settled), PositiveRemainder(withdrawable)) < statement.amountDueUsd
        || PositiveRemainder(receivable) < statement.amountDueUsd {
        return Failure(InsufficientPower);
      }
      var entries := RepaymentEntries(profile, statement.amountDueUsd);
      var posted := ValidatePosting(entries);
      if posted.Failure? {
        return Failure(LedgerRejected);
      }
      book := book.(statements := book.statements[c.statement := statement.(paid := true)],
        requests := book.requests[(c.customer, c.id, true) := Row(c, c.statement)], journal := book.journal + entries);
      return Success(Receipt(c.statement, false));
    }
  }

  /** The loop of a reversal: what captures already released. */
  method ReleasedByCaptures(cs: seq<Capture>, a: nat) returns (released: Decimal)
    requires HoldReleased(cs, a) < LIMIT
    requires forall i | 0 <= i < |cs| :: cs[i].merchantAmount > 0 && cs[i].holdReleasedUsd >= 0
    ensures released == HoldReleased(cs, a)
  {
    released := 0;
    for i := 0 to |cs|
      invariant released == HoldReleased(cs[..i], a)
    {
      assert cs[..i + 1][..i] == cs[..i];
      PrefixTotals(cs, a, i + 1);
      if cs[i].authorization == a {
        var sum := Add(released, cs[i].holdReleasedUsd);
        assert sum.Success?;
        released := sum.value;
      }
    }
    assert cs[..|cs|] == cs;
  }

  lemma TotalsInRange(b: Book, a: nat)
    requires HoldsSound(b) && a < |b.authorizations| && b.authorizations[a].IsOpen()
    ensures HoldReleased(b.captures, a) < LIMIT
    ensures forall i | 0 <= i < |b.captures| :: b.captures[i].merchantAmount > 0 && b.captures[i].holdReleasedUsd >= 0
  {
    assert HoldSound(b, a);
    forall i | 0 <= i < |b.captures| ensures b.captures[i].merchantAmount > 0 && b.captures[i].holdReleasedUsd >= 0 {
      assert CaptureInOrder(b, b.captures[i]);
    }
  }
}
