/**
 When a card command takes effect: for every kind, the exact condition on the rows and balances of a sound book. A
 command is `new` when it is well formed, of a known customer, and its event or request has not been seen.
 */
module CardGuards {
  import opened Results
  import opened Decimals
  import opened Entries
  import opened Sums
  import opened AutoSell
  import opened CardLedger
  import opened Card
  import opened CardHolds
  import opened CardReceivable
  import opened CardRuns
  import opened CardAmounts

  predicate IsNew(b: Book, c: Command) {
    && c.WellFormed() && c.customer in b.profiles
    && (if c.IsEvent() then c.id !in b.events else (c.customer, c.id, c.PayStatement?) !in b.requests)
  }

  predicate TakesEffect(o: Outcome) {
    o.result.Success? && !o.result.value.replayed
  }

  /** What makes a new command take effect is the decision on it, and nothing else changes the book. */
  lemma NewIsDecided(b: Book, c: Command, k: Conditions)
    ensures IsNew(b, c) ==> (TakesEffect(Executed(b, c, k)) <==> Decision(b, c, k).Success?)
    ensures TakesEffect(Executed(b, c, k)) ==> IsNew(b, c)
    ensures !TakesEffect(Executed(b, c, k)) ==> Executed(b, c, k).book == b
  {
  }

  // ---- Authorizations and captures ----

  /** A conversion whose two roundings are decimals. */
  ghost predicate Converts(amount: Decimal, k: Conditions, usd: Decimal) {
    && k.rate.Some?
    && exists base :: -LIMIT < base < LIMIT && -LIMIT < usd < LIMIT
         && Nearest(amount * k.rate.value, base) && Nearest(base * (UNIT + k.markup), usd)
  }

  ghost predicate HasDollars(amount: Decimal, k: Conditions) {
    exists usd :: Converts(amount, k, usd)
  }

  lemma ConvertedExactly(amount: Decimal, k: Conditions)
    requires k.rate.Some?
    ensures Converted(amount, k.rate.value, k.markup).Success? <==> HasDollars(amount, k)
    ensures forall usd :: Converts(amount, k, usd) <==> Converted(amount, k.rate.value, k.markup) == Success(usd)
  {
    forall usd ensures Converts(amount, k, usd) <==> Converted(amount, k.rate.value, k.markup) == Success(usd) {
      ConvertedIsConversion(amount, k.rate.value, k.markup, usd);
    }
    if Converted(amount, k.rate.value, k.markup).Success? {
      assert Converts(amount, k, Converted(amount, k.rate.value, k.markup).value);
    }
  }

  /**
   An authorization is recorded exactly if its amount converts to positive dollars and, when it is approved, its hold is
   a posting the ledger takes.
   */
  lemma AuthorizedExactlyWhenPriced(b: Book, c: Command, k: Conditions)
    requires c.AuthorizeCard? && IsNew(b, c)
    ensures TakesEffect(Executed(b, c, k)) <==>
            exists usd ::
              && Converts(c.merchantAmount, k, usd) && usd > 0
              && (k.usable && !b.profiles[c.customer].frozen && k.enoughPower ==>
                   Check(HoldEntries(b.profiles[c.customer], usd)).Success?)
  {
    NewIsDecided(b, c, k);
    if k.rate.Some? {
      ConvertedExactly(c.merchantAmount, k);
    }
  }

  /** A running total within the authorized amount and its tip allowance, all of them decimals. */
  ghost predicate WithinAllowance(authorized: Decimal, total: int, k: Conditions) {
    && -LIMIT < total < LIMIT
    && exists limit :: IsAllowance(authorized, k, limit) && total <= limit
  }

  ghost predicate IsAllowance(authorized: Decimal, k: Conditions, limit: Decimal) {
    -LIMIT < limit < LIMIT && Nearest(authorized * (UNIT + k.maximumTip), limit)
  }

  lemma AllowedExactly(authorized: Decimal, total: int, k: Conditions)
    ensures WithinAllowance(authorized, total, k) <==>
              && -LIMIT < total < LIMIT && Multiply(authorized, UNIT + k.maximumTip, AMOUNT_POLICY).Success?
              && total <= Multiply(authorized, UNIT + k.maximumTip, AMOUNT_POLICY).value
  {
    var limit := Multiply(authorized, UNIT + k.maximumTip, AMOUNT_POLICY);
    forall x | IsAllowance(authorized, k, x) ensures limit == Success(x) {
      ProductIsNearest(authorized, UNIT + k.maximumTip, x);
    }
    if limit.Success? {
      ProductIsNearest(authorized, UNIT + k.maximumTip, limit.value);
      assert IsAllowance(authorized, k, limit.value);
    }
  }

  /** A capture has amounts exactly if its total is within the allowance, and it and its tip convert. */
  lemma AmountsExactly(a: Authorization, previous: Decimal, released: Decimal, amount: Decimal, final: bool,
      k: Conditions)
    requires amount > 0
    ensures var total := previous + amount;
            var tip := Beyond(total, a.merchantAmount) - Beyond(previous, a.merchantAmount);
            CaptureAmounts(a, previous, released, amount, final, k).Success? <==>
              WithinAllowance(a.merchantAmount, total, k) && HasDollars(amount, k) && HasDollars(tip, k)
  {
    AmountsDecided(a, previous, released, amount, final, k);
    AllowedExactly(a.merchantAmount, previous + amount, k);
    if k.rate.Some? {
      ConvertedExactly(amount, k);
      ConvertedExactly(TipUnits(a.merchantAmount, previous, previous + amount), k);
    }
  }

  lemma AmountsDecided(a: Authorization, previous: Decimal, released: Decimal, amount: Decimal, final: bool,
      k: Conditions)
    requires amount > 0
    ensures var total := previous + amount;
            var limit := Multiply(a.merchantAmount, UNIT + k.maximumTip, AMOUNT_POLICY);
            && TipUnits(a.merchantAmount, previous, total) ==
               Beyond(total, a.merchantAmount) - Beyond(previous, a.merchantAmount)
            && (CaptureAmounts(a, previous, released, amount, final, k).Success? <==>
                 && -LIMIT < total < LIMIT && limit.Success? && total <= limit.value && k.rate.Some?
                 && Converted(amount, k.rate.value, k.markup).Success?
                 && Converted(TipUnits(a.merchantAmount, previous, total), k.rate.value, k.markup).Success?)
  {
  }

  /** The customer's own open authorization, in the currency of the capture. */
  predicate IsCapturable(b: Book, c: Command)
    requires c.CapturePayment?
  {
    && c.authorization < |b.authorizations| && b.authorizations[c.authorization].customer == c.customer
    && b.authorizations[c.authorization].currency == c.currency
    && (b.authorizations[c.authorization].status == Approved
         || b.authorizations[c.authorization].status == PartiallyCaptured)
  }

  /**
   A capture takes effect exactly on an own open authorization in its currency, with a total within the tip allowance
   and dollars for it and its tip, if its posting is one the ledger takes and its repayment goes through.
   */
  lemma CapturedExactlyWhenAllowed(b: Book, c: Command, k: Conditions)
    requires c.CapturePayment? && IsNew(b, c)
    ensures var previous := UnitsCaptured(b.captures, c.authorization);
            var total := previous + c.merchantAmount;
            TakesEffect(Executed(b, c, k)) <==>
              && IsCapturable(b, c)
              && var a := b.authorizations[c.authorization];
                 && WithinAllowance(a.merchantAmount, total, k) && HasDollars(c.merchantAmount, k)
                 && HasDollars(Beyond(total, a.merchantAmount) - Beyond(previous, a.merchantAmount), k)
                 && GoesThrough(b, c, k, a)
  {
    NewIsDecided(b, c, k);
    CaptureDecided(b, c, k);
    TotalIsSum(b.captures, c.authorization);
    if IsCapturable(b, c) {
      AmountsExactly(b.authorizations[c.authorization], MerchantTotal(b.captures, c.authorization),
        HoldReleased(b.captures, c.authorization), c.merchantAmount, c.final, k);
    }
  }

  lemma CaptureDecided(b: Book, c: Command, k: Conditions)
    requires c.CapturePayment? && c.customer in b.profiles
    ensures Decision(b, c, k).Success? <==>
              && IsCapturable(b, c) && AmountsFor(b, c, b.authorizations[c.authorization], k).Success?
              && GoesThrough(b, c, k, b.authorizations[c.authorization])
  {
  }

  /** The posting of a capture passes the check, its repayment succeeds, and the totals of the authorization fit. */
  ghost predicate GoesThrough(b: Book, c: Command, k: Conditions, a: Authorization)
    requires c.CapturePayment? && c.customer in b.profiles
  {
    var p := b.profiles[c.customer];
    AmountsFor(b, c, a, k).Success?
    && var m := AmountsFor(b, c, a, k).value;
       var es := CaptureEntries(p, m.settled, m.release);
       && Check(es).Success? && -LIMIT < a.capturedUsd + m.settled < LIMIT && -LIMIT < a.reversedUsd + m.extra < LIMIT
       && Repaid(b.journal + es, p, m.settled, SoldOn(b.sales, c.customer, k.day), k).Success?
  }

  // ---- Totals, row by row ----

  function ReleasedTerm(b: Book, a: nat): nat -> int {
    (i: nat) => if i < |b.captures| && b.captures[i].authorization == a then b.captures[i].holdReleasedUsd else 0
  }

  /** What an authorization still holds. */
  function StillHeld(b: Book, a: nat): int
    requires a < |b.authorizations|
  {
    b.authorizations[a].authorizedUsd - b.authorizations[a].reversedUsd - Sum(ReleasedTerm(b, a), |b.captures|)
  }

  lemma {:induction false} ReleasedIsSum(cs: seq<Capture>, b: Book, a: nat)
    requires cs <= b.captures
    ensures HoldReleased(cs, a) == Sum(ReleasedTerm(b, a), |cs|)
  {
    if cs != [] {
      ReleasedIsSum(cs[..|cs| - 1], b, a);
    }
  }

  function RefundTerm(b: Book, i: nat): nat -> int {
    (r: nat) => if r < |b.refunds| && b.refunds[r].capture == i then b.refunds[r].amountUsd else 0
  }

  /** Disputes of a capture: the accepted ones, or also those still open. */
  function DisputeTerm(b: Book, i: nat, open: bool): nat -> int {
    (d: nat) =>
      if d < |b.disputes| && b.disputes[d].capture == i
        && (b.disputes[d].status == Accepted || (open && b.disputes[d].status == DisputeStatus.Open))
        then b.disputes[d].amountUsd else 0
  }

  function RefundedOf(b: Book, i: nat): int {
    Sum(RefundTerm(b, i), |b.refunds|)
  }

  function DisputedOf(b: Book, i: nat, open: bool): int {
    Sum(DisputeTerm(b, i, open), |b.disputes|)
  }

  lemma {:induction false} RefundsAreSum(rs: seq<Refund>, b: Book, i: nat)
    requires rs <= b.refunds
    ensures RefundTotal(rs, i) == Sum(RefundTerm(b, i), |rs|)
  {
    if rs != [] {
      RefundsAreSum(rs[..|rs| - 1], b, i);
    }
  }

  lemma {:induction false} DisputesAreSum(ds: seq<Dispute>, b: Book, i: nat, open: bool)
    requires ds <= b.disputes
    ensures DisputeTotal(ds, i, open) == Sum(DisputeTerm(b, i, open), |ds|)
  {
    if ds != [] {
      DisputesAreSum(ds[..|ds| - 1], b, i, open);
    }
  }

  predicate IsOwn(b: Book, customer: Customer, i: nat) {
    && i < |b.captures| && b.captures[i].authorization < |b.authorizations|
    && b.authorizations[b.captures[i].authorization].customer == customer
  }

  // ---- Reversals ----

  /** A reversal takes effect exactly on the customer's own open authorization, for no more than it still holds. */
  lemma ReversedExactlyWhenHeld(b: Book, c: Command, k: Conditions)
    requires Sound(b) && c.ReverseHold? && IsNew(b, c)
    ensures var o := Executed(b, c, k);
            && (TakesEffect(o) <==>
                 && c.authorization < |b.authorizations| && b.authorizations[c.authorization].customer == c.customer
                 && (b.authorizations[c.authorization].status == Approved
                      || b.authorizations[c.authorization].status == PartiallyCaptured)
                 && c.amount <= StillHeld(b, c.authorization))
            && (TakesEffect(o) ==>
                 && c.authorization < |o.book.authorizations|
                 && var x, y := b.authorizations[c.authorization], o.book.authorizations[c.authorization];
                    && y.reversedUsd == x.reversedUsd + c.amount
                    && (y.status == AuthorizationStatus.Reversed <==> c.amount == StillHeld(b, c.authorization))
                    && (y.status == AuthorizationStatus.Reversed || y.status == x.status))
  {
    NewIsDecided(b, c, k);
    ReversalDecided(b, c, k);
    ReversalPlanned(b, c);
  }

  lemma ReversalPlanned(b: Book, c: Command)
    requires Sound(b) && c.ReverseHold? && c.customer in b.profiles && c.WellFormed()
    ensures PlanReversal(b, c).Success? <==>
              && c.authorization < |b.authorizations| && b.authorizations[c.authorization].customer == c.customer
              && (b.authorizations[c.authorization].status == Approved
                   || b.authorizations[c.authorization].status == PartiallyCaptured)
              && c.amount <= StillHeld(b, c.authorization)
    ensures PlanReversal(b, c).Success? ==>
              var x, y := b.authorizations[c.authorization], PlanReversal(b, c).value;
              && y.reversedUsd == x.reversedUsd + c.amount
              && (y.status == AuthorizationStatus.Reversed <==> c.amount == StillHeld(b, c.authorization))
              && (y.status == AuthorizationStatus.Reversed || y.status == x.status)
  {
    assert b.captures[..|b.captures|] == b.captures;
    ReleasedIsSum(b.captures, b, c.authorization);
    var es := ReleaseEntries(b.profiles[c.customer], c.amount);
    PairIsAccepted(es[0], es[1]);
    assert c.authorization < |b.authorizations| ==> HoldSound(b, c.authorization);
  }

  lemma ReversalDecided(b: Book, c: Command, k: Conditions)
    requires c.ReverseHold? && c.customer in b.profiles
    ensures Decision(b, c, k).Success? <==> PlanReversal(b, c).Success?
    ensures TakesPlace(b, c, k) ==>
              && c.authorization < |b.authorizations|
              && Executed(b, c, k).book.authorizations ==
                 b.authorizations[c.authorization := PlanReversal(b, c).value]
  {
  }

  // ---- Refunds and disputes ----

  /** What refunds and accepted disputes have left of a capture. */
  function Refundable(b: Book, i: nat): int
    requires i < |b.captures|
  {
    b.captures[i].settledUsd - RefundedOf(b, i) - DisputedOf(b, i, false)
  }

  /** The larger side of an adjustment's posting: what it takes off the receivable, and twice what it pays out. */
  function PostingSize(b: Book, i: nat, amount: Decimal): int
    requires i < |b.captures|
  {
    2 * amount - Minimum(amount, Owed(b, i))
  }

  lemma PriorIsSum(b: Book, i: nat)
    ensures PriorAdjustments(b, i) == RefundedOf(b, i) + DisputedOf(b, i, false)
  {
    assert b.refunds[..|b.refunds|] == b.refunds;
    RefundsAreSum(b.refunds, b, i);
    DisputesAreSum(b.disputes, b, i, false);
  }

  lemma AllocatedExactly(b: Book, i: nat, amount: Decimal, p: Profile)
    requires i < |b.captures| && AdjustmentsSound(b, i) && amount > 0
    ensures Allocated(b.captures[i], PriorAdjustments(b, i), amount).Success? <==> amount <= Refundable(b, i)
    ensures Allocated(b.captures[i], PriorAdjustments(b, i), amount).Success? ==>
              var split := Allocated(b.captures[i], PriorAdjustments(b, i), amount).value;
              Check(RefundEntries(p, split.reduction, split.credit)).Success? <==> PostingSize(b, i, amount) < LIMIT
  {
    PriorIsSum(b, i);
    var r := Allocated(b.captures[i], PriorAdjustments(b, i), amount);
    if r.Success? {
      RefundIsAccepted(p, r.value.reduction, r.value.credit);
    }
  }

  /**
   A refund takes effect exactly on an own capture, for no more than is left of it, if the posting fits the ledger.
   */
  lemma RefundedExactlyWhenLeft(b: Book, c: Command, k: Conditions)
    requires Sound(b) && c.RefundPayment? && IsNew(b, c)
    ensures TakesEffect(Executed(b, c, k)) <==>
            && IsOwn(b, c.customer, c.capture) && c.amount <= Refundable(b, c.capture)
            && PostingSize(b, c.capture, c.amount) < LIMIT
  {
    NewIsDecided(b, c, k);
    if c.capture < |b.captures| {
      assert AdjustmentsSound(b, c.capture);
      AllocatedExactly(b, c.capture, c.amount, b.profiles[c.customer]);
    }
  }

  /** A dispute is opened exactly on an own capture, for no more than refunds and all live disputes leave of it. */
  lemma DisputedExactlyWhenLeft(b: Book, c: Command, k: Conditions)
    requires Sound(b) && c.OpenDispute? && IsNew(b, c) && DisputedOf(b, c.capture, true) < LIMIT
    ensures var o := Executed(b, c, k);
            && (TakesEffect(o) <==>
                 && IsOwn(b, c.customer, c.capture)
                 && c.amount <= b.captures[c.capture].settledUsd - RefundedOf(b, c.capture)
                      - DisputedOf(b, c.capture, true))
            && (TakesEffect(o) ==>
                 && o.book.disputes ==
                    b.disputes + [Dispute(c.capture, c.customer, c.amount, DisputeStatus.Open, Split(0, 0))]
                 && o.book.journal == b.journal)
  {
    NewIsDecided(b, c, k);
    DisputesAreSum(b.disputes, b, c.capture, true);
    RefundsAreSum(b.refunds, b, c.capture);
    DisputedIsNonNegative(b, c.capture);
    if c.capture < |b.captures| {
      assert AdjustmentsSound(b, c.capture);
    }
  }

  lemma DisputedIsNonNegative(b: Book, i: nat)
    requires RowsLinked(b)
    ensures DisputedOf(b, i, true) >= 0
  {
    SumNonNegative(DisputeTerm(b, i, true), |b.disputes|);
  }

  /** An open dispute is accepted exactly while its amount is still left; rejecting one moves no money. */
  lemma ResolvedExactlyWhenOpen(b: Book, d: nat, accept: bool)
    requires Sound(b) && d < |b.disputes|
    ensures var x, u := b.disputes[d], After(b, Resolve(d, accept));
            && Owns(b, x.customer, x.capture) && x.customer in b.profiles && |u.disputes| == |b.disputes|
            && (x.status != DisputeStatus.Open ==> u == b)
            && (x.status == DisputeStatus.Open && !accept ==>
                 u == b.(disputes := b.disputes[d := x.(status := Rejected)]))
            && (x.status == DisputeStatus.Open && accept ==>
                 (u.disputes[d].status == Accepted <==>
                   x.amountUsd <= Refundable(b, x.capture) && PostingSize(b, x.capture, x.amountUsd) < LIMIT))
            && (u.disputes[d].status == x.status && x.status == DisputeStatus.Open ==> u == b)
  {
    var x := b.disputes[d];
    assert Owns(b, x.customer, x.capture) && x.amountUsd > 0;
    assert AdjustmentsSound(b, x.capture) && HoldSound(b, b.captures[x.capture].authorization);
    AllocatedExactly(b, x.capture, x.amountUsd, b.profiles[x.customer]);
  }

  // ---- Statements ----

  predicate FundsReadable(b: Book, p: Profile) {
    && -LIMIT < Balance(b.journal, p.SettledCash()) < LIMIT && -LIMIT < Balance(b.journal, p.WithdrawableCash()) < LIMIT
    && -LIMIT < Balance(b.journal, p.ReceivableKey()) < LIMIT
  }

  /**
   A statement is paid exactly if it is the customer's, unpaid and asks for something that settled cash,
     withdrawable cash
   and the receivable all cover; each of them falls by it, and none below zero.
   */
  lemma PaidExactlyWhenCovered(b: Book, c: Command, k: Conditions)
    requires Sound(b) && c.PayStatement? && IsNew(b, c) && FundsReadable(b, b.profiles[c.customer])
    ensures var p := b.profiles[c.customer];
            var o := Executed(b, c, k);
            && (TakesEffect(o) <==>
                 && c.statement < |b.statements| && b.statements[c.statement].customer == c.customer
                 && !b.statements[c.statement].paid && b.statements[c.statement].amountDueUsd > 0
                 && var due := b.statements[c.statement].amountDueUsd;
                    && due <= Balance(b.journal, p.SettledCash()) && due <= Balance(b.journal, p.WithdrawableCash())
                    && due <= Balance(b.journal, p.ReceivableKey())
                    && Check(RepaymentEntries(p, due)).Success?)
            && (TakesEffect(o) ==>
                 && |o.book.statements| == |b.statements| && o.book.statements[c.statement].paid
                 && var due := b.statements[c.statement].amountDueUsd;
                    && Balance(o.book.journal, p.SettledCash()) == Balance(b.journal, p.SettledCash()) - due >= 0
                    && Balance(o.book.journal, p.WithdrawableCash()) ==
                       Balance(b.journal, p.WithdrawableCash()) - due >= 0
                    && Balance(o.book.journal, p.ReceivableKey()) == Balance(b.journal, p.ReceivableKey()) - due >= 0)
  {
    NewIsDecided(b, c, k);
    var p := b.profiles[c.customer];
    UsdIsValid();
    if c.statement < |b.statements| {
      var es := RepaymentEntries(p, b.statements[c.statement].amountDueUsd);
      assert p.Apart();
      RepaymentMoves(b.journal, p, b.statements[c.statement].amountDueUsd);
    }
    PaymentDecided(b, c, k);
  }

  lemma UsdIsValid()
    ensures ValidCurrency(USD)
  {
  }

  lemma RepaymentMoves(journal: seq<Entry>, p: Profile, amount: Decimal)
    requires p.Apart()
    ensures var after := journal + RepaymentEntries(p, amount);
            && Balance(after, p.SettledCash()) == Balance(journal, p.SettledCash()) - amount
            && Balance(after, p.WithdrawableCash()) == Balance(journal, p.WithdrawableCash()) - amount
            && Balance(after, p.ReceivableKey()) == Balance(journal, p.ReceivableKey()) - amount
  {
    BalanceOfConcat(journal, RepaymentEntries(p, amount), p.SettledCash());
    BalanceOfConcat(journal, RepaymentEntries(p, amount), p.WithdrawableCash());
    BalanceOfConcat(journal, RepaymentEntries(p, amount), p.ReceivableKey());
    RepaymentEffect(p, amount, p.SettledCash());
    RepaymentEffect(p, amount, p.WithdrawableCash());
    RepaymentEffect(p, amount, p.ReceivableKey());
  }

  lemma PaymentDecided(b: Book, c: Command, k: Conditions)
    requires c.PayStatement? && c.customer in b.profiles && FundsReadable(b, b.profiles[c.customer])
             && ValidCurrency(USD)
    ensures var p := b.profiles[c.customer];
            Decision(b, c, k).Success? <==>
            && c.statement < |b.statements| && b.statements[c.statement].customer == c.customer
            && !b.statements[c.statement].paid && b.statements[c.statement].amountDueUsd > 0
            && var due := b.statements[c.statement].amountDueUsd;
               && due <= Balance(b.journal, p.SettledCash()) && due <= Balance(b.journal, p.WithdrawableCash())
               && due <= Balance(b.journal, p.ReceivableKey()) && Check(RepaymentEntries(p, due)).Success?
    ensures TakesPlace(b, c, k) ==>
              && c.statement < |b.statements|
              && Executed(b, c, k).book.statements ==
                 b.statements[c.statement := b.statements[c.statement].(paid := true)]
              && Executed(b, c, k).book.journal ==
                 b.journal + RepaymentEntries(b.profiles[c.customer], b.statements[c.statement].amountDueUsd)
  {
  }

  /**
   Generating a statement of a monthly customer asks for exactly the positive part of the receivable, once per period;
   a paid statement is left alone, and so is everybody else's.
   */
  lemma StatementAsksForReceivable(b: Book, customer: Customer, period: (int, int))
    requires customer in b.profiles && b.profiles[customer].mode == MonthlyStatement
    requires FundsReadable(b, b.profiles[customer])
    ensures var u := After(b, Generate(customer, period));
            var n := StatementFor(b.statements, customer, period);
            var receivable := Balance(b.journal, b.profiles[customer].ReceivableKey());
            && n < |u.statements| && u.statements[n].customer == customer && u.statements[n].period == period
            && (n < |b.statements| && b.statements[n].paid ==> u == b)
            && (n == |b.statements| || !b.statements[n].paid ==>
                 u.statements[n] == Statement(customer, period, if receivable > 0 then receivable else 0, false))
            && |b.statements| <= |u.statements| <= |b.statements| + 1
            && forall i | 0 <= i < |b.statements| && i != n :: u.statements[i] == b.statements[i]
  {
    UsdIsValid();
  }

  lemma OthersGetNoStatement(b: Book, customer: Customer, period: (int, int))
    requires customer !in b.profiles || b.profiles[customer].mode != MonthlyStatement
    ensures After(b, Generate(customer, period)) == b
  {
  }

  // ---- Seen before ----

  /** An event's payload does not name the customer. */
  predicate SameData(x: Command, y: Command) {
    x.(customer := y.customer) == y
  }

  /**
   At any later time an event that took effect is a conflict with other data, and so is a request; nothing changes.
   */
  lemma OtherDataIsAConflict(b: Book, c: Command, k: Conditions, steps: seq<Step>, other: Command, again: Conditions)
    requires TakesEffect(Executed(b, c, k)) && other.WellFormed() && other.id == c.id
    requires c.IsEvent() == other.IsEvent() && c.PayStatement? == other.PayStatement?
    requires if c.IsEvent() then !SameData(c, other)
             else other.customer == c.customer && other != c
    ensures var later := Run(Executed(b, c, k).book, steps);
            && Executed(later, other, again).book == later
            && (other.customer in later.profiles ==>
                 Executed(later, other, again).result ==
                   Failure(if c.IsEvent() then CardError.EventConflict else CardError.IdempotencyConflict))
  {
    var first := Executed(b, c, k);
    RunKeepsRows(first.book, steps);
    SuccessIsAnswered(b, c, k);
    var later := Run(first.book, steps);
    assert Answered(later, c, first.result.value.resource);
    if c.IsEvent() {
      if SameData(later.events[c.id].command, other) {
        SameDataIsTransitive(later.events[c.id].command, c, other);
      }
    }
  }

  lemma SameDataIsTransitive(x: Command, c: Command, other: Command)
    requires SameData(x, c) && SameData(x, other)
    ensures SameData(c, other)
  {
  }
}
