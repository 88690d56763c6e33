/** Authorizations, captures, reversals, refunds, disputes and statements, and the ledger postings they make. */
module Card {
  import opened Results
  import opened Decimals
  import opened Entries
  import opened AutoSell
  import opened CardLedger
  import Ledger

  type Customer = string

  datatype AuthorizationStatus = Approved | PartiallyCaptured | Captured | Reversed | Declined
  datatype CaptureStatus = Posting | PartiallyRefunded | Refunded
  datatype DisputeStatus = Open | Accepted | Rejected

  datatype Authorization = Authorization(
    customer: Customer, merchantAmount: Decimal, currency: string, authorizedUsd: Decimal, status: AuthorizationStatus,
    capturedUsd: Decimal, reversedUsd: Decimal)
  {
    predicate IsOpen() {
      status.Approved? || status.PartiallyCaptured?
    }
  }

  datatype Capture = Capture(
    authorization: nat, merchantAmount: Decimal, settledUsd: Decimal, tipUsd: Decimal, holdReleasedUsd: Decimal,
    cashRepaidUsd: Decimal, autoSellRepaidUsd: Decimal, refundedUsd: Decimal, status: CaptureStatus)

  /** A refund, or the credit of an accepted dispute: how much, and how its posting was split. */
  datatype Split = Split(reduction: Decimal, credit: Decimal)
  datatype Refund = Refund(capture: nat, amountUsd: Decimal, split: Split)

  /** The split is that of the dispute's ledger transaction; it is zero until the dispute is accepted. */
  datatype Dispute = Dispute(capture: nat, customer: Customer, amountUsd: Decimal, status: DisputeStatus, split: Split)

  datatype Statement = Statement(customer: Customer, period: (int, int), amountDueUsd: Decimal, paid: bool)
  datatype SaleRow = SaleRow(customer: Customer, day: int, execution: Execution)

  /** `details` is the rest of an event's payload: card, merchant, category, entry mode, time and scenario. */
  datatype Command =
    | AuthorizeCard(customer: Customer, id: string, merchantAmount: Decimal, currency: string, details: string)
    | CapturePayment(customer: Customer, id: string, authorization: nat, merchantAmount: Decimal, currency: string,
      final: bool, details: string)
    | ReverseHold(customer: Customer, id: string, authorization: nat, amount: Decimal, details: string)
    | RefundPayment(customer: Customer, id: string, capture: nat, amount: Decimal, details: string)
    | OpenDispute(customer: Customer, id: string, capture: nat, amount: Decimal, reason: string)
    | PayStatement(customer: Customer, id: string, statement: nat)
  {
    /** Provider events carry an external identifier, customer requests an idempotency key of their own scope. */
    predicate IsEvent() {
      !OpenDispute? && !PayStatement?
    }

    predicate WellFormed() {
      match this
      case AuthorizeCard(_, id, amount, currency, _) => id != "" && amount > 0 && |currency| == 3
      case CapturePayment(_, id, _, amount, currency, _, _) => id != "" && amount > 0 && |currency| == 3
      case ReverseHold(_, id, _, amount, _) => id != "" && amount > 0
      case RefundPayment(_, id, _, amount, _) => id != "" && amount > 0
      case OpenDispute(_, id, _, amount, reason) => Ledger.IsKey(id) && amount > 0 && Ledger.IsCode(reason)
      case PayStatement(_, id, _) => Ledger.IsKey(id)
    }
  }

  /** What surrounds a command: the FX rate if usable, the policy's rates, the approval gates and the market. */
  datatype Conditions = Conditions(
    rate: Option<Decimal>, markup: Decimal, maximumTip: Decimal, guardrail: Decimal, usable: bool, enoughPower: bool,
    mandate: Option<Mandate>, quotes: map<Currency, Quote>, collateral: map<Currency, Collateral>, scenario: Scenario,
      day: int)

  datatype Row = Row(command: Command, resource: nat)

  datatype Book = Book(
    profiles: map<Customer, Profile>,
    authorizations: seq<Authorization>,
    captures: seq<Capture>,
    refunds: seq<Refund>,
    disputes: seq<Dispute>,
    statements: seq<Statement>,
    sales: seq<SaleRow>,
    events: map<string, Row>,
    requests: map<(Customer, string, bool), Row>,
    journal: seq<Entry>)

  datatype Receipt = Receipt(resource: nat, replayed: bool)
  datatype Outcome = Outcome(book: Book, result: Result<Receipt, CardError>)

  // ---- Totals over rows ----

  function MerchantTotal(cs: seq<Capture>, a: nat): int {
    if cs == [] then 0
    else var c := cs[|cs| - 1]; MerchantTotal(cs[..|cs| - 1], a) + if c.authorization == a then c.merchantAmount else 0
  }

  function HoldReleased(cs: seq<Capture>, a: nat): int {
    if cs == [] then 0
    else var c := cs[|cs| - 1]; HoldReleased(cs[..|cs| - 1], a) + if c.authorization == a then c.holdReleasedUsd else 0
  }

  function RefundTotal(rs: seq<Refund>, i: nat): int {
    if rs == [] then 0
    else var r := rs[|rs| - 1]; RefundTotal(rs[..|rs| - 1], i) + if r.capture == i then r.amountUsd else 0
  }

  /** Disputed amounts of a capture: accepted ones, and with `pending` the open ones too. */
  function DisputeTotal(ds: seq<Dispute>, i: nat, pending: bool): int {
    if ds == [] then 0
    else
      var d := ds[|ds| - 1];
      DisputeTotal(ds[..|ds| - 1], i, pending)
      + if d.capture == i && (d.status.Accepted? || (pending && d.status.Open?)) then d.amountUsd else 0
  }

  function SoldOn(sales: seq<SaleRow>, customer: Customer, day: int): int {
    if sales == [] then 0
    else
      var s := sales[|sales| - 1];
      SoldOn(sales[..|sales| - 1], customer, day)
      + if s.customer == customer && s.day == day && IsFill(s.execution) then s.execution.result.proceeds else 0
  }

  // ---- Amounts of one capture ----

  function Converted(amount: Decimal, rate: Decimal, markup: Decimal): Result<Decimal, CardError> {
    var base :- Checked(Multiply(amount, rate, AMOUNT_POLICY));
    Checked(Multiply(base, UNIT + markup, AMOUNT_POLICY))
  }

  datatype Amounts = Amounts(settled: Decimal, tip: Decimal, release: Decimal, extra: Decimal, isFinal: bool)

  /**
   Merchant units of tip in a capture: the part of the running total beyond the authorized amount, not counted before.
   */
  function TipUnits(authorized: Decimal, previous: Decimal, total: Decimal): Decimal {
    PositiveRemainder(PositiveRemainder(total - authorized) - PositiveRemainder(previous - authorized))
  }

  /** A final capture gives back the whole remaining hold; what it did not consume counts as reversed. */
  function CaptureAmounts(a: Authorization, previous: Decimal, released: Decimal, amount: Decimal, final: bool,
      k: Conditions)
    : Result<Amounts, CardError>
  {
    var total :- Checked(FromCoefficient(previous + amount));
    var maximum := Multiply(a.merchantAmount, UNIT + k.maximumTip, AMOUNT_POLICY);
    if maximum.Failure? || total > maximum.value then Failure(TipExceeded)
    else if k.rate.None? then Failure(FxUnavailable)
    else
      var settled :- Converted(amount, k.rate.value, k.markup);
      var tip :- Converted(TipUnits(a.merchantAmount, previous, total), k.rate.value, k.markup);
      var remaining := PositiveRemainder(a.authorizedUsd - a.reversedUsd - released);
      var isFinal := final || total >= a.merchantAmount;
      var release := if isFinal then remaining else Minimum(remaining, settled);
      Success(Amounts(settled, tip, release, release - Minimum(remaining, settled), isFinal))
  }

  // ---- Repayment of one capture ----

  datatype Repayment = Repayment(cash: Decimal, auto: Decimal, freeze: bool, journal: seq<Entry>, rows: seq<Execution>)

  function MarketOf(p: Profile, mandate: Mandate, k: Conditions): Market {
    Market(k.quotes, k.collateral, p.cash, p.clearing, k.guardrail, mandate.fractional, k.scenario)
  }

  /** Auto-sell for a shortfall, within what the mandate still allows today; without a live mandate nothing is sold. */
  ghost function SaleFor(journal: seq<Entry>, p: Profile, shortfall: Decimal, soldToday: Decimal, k: Conditions)
      : Result<Sale, CardError>
  {
    if k.mandate.None? || !k.mandate.value.live then Success(Sale(journal, [], shortfall, 0))
    else
      var used :- Checked(FromCoefficient(soldToday));
      var allowed :- Checked(Sub(k.mandate.value.dailyMax, used));
      Sold(Sale(journal, [], Minimum(shortfall, PositiveRemainder(allowed)), 0), k.mandate.value.assets,
        MarketOf(p, k.mandate.value, k))
  }

  /** What cash can repay: no more than is settled and withdrawable. */
  function CashShare(journal: seq<Entry>, p: Profile, settled: Decimal): Result<Decimal, CardError> {
    var settledCash :- ReadBalance(journal, p.SettledCash());
    var withdrawable :- ReadBalance(journal, p.WithdrawableCash());
    Success(Minimum(settled, Minimum(PositiveRemainder(settledCash), PositiveRemainder(withdrawable))))
  }

  ghost function Shortfall(journal: seq<Entry>, p: Profile, shortfall: Decimal, soldToday: Decimal, k: Conditions)
      : Result<Sale, CardError>
  {
    if shortfall > 0 && p.mode.CashThenAutoSell? then SaleFor(journal, p, shortfall, soldToday, k)
      else Success(Sale(journal, [], shortfall, 0))
  }

  /** The repayment posting: cash and proceeds up to the shortfall; a remainder freezes spending. */
  ghost function RepaidFrom(sale: Sale, p: Profile, settled: Decimal, cash: Decimal): Result<Repayment, CardError> {
    var auto := Minimum(sale.proceeds, settled - cash);
    var after :- if cash + auto > 0 then Posted(sale.journal, RepaymentEntries(p, cash + auto))
      else Success(sale.journal);
    Success(Repayment(cash, auto, settled - (cash + auto) > 0, after, sale.rows))
  }

  /** Cash first, then auto-sell if the mode says so. Monthly statements are paid later. */
  ghost function Repaid(journal: seq<Entry>, p: Profile, settled: Decimal, soldToday: Decimal, k: Conditions)
      : Result<Repayment, CardError>
  {
    if p.mode.MonthlyStatement? then Success(Repayment(0, 0, false, journal, []))
    else
      var cash :- CashShare(journal, p, settled);
      var sale :- Shortfall(journal, p, settled - cash, soldToday, k);
      RepaidFrom(sale, p, settled, cash)
  }

  // ---- The split of a refund or an accepted dispute ----

  /** Adjustments reduce what is still owed for the capture first, and credit cash with the rest. */
  function Allocated(c: Capture, prior: Decimal, amount: Decimal): Result<Split, CardError> {
    if amount > c.settledUsd - prior then Failure(RefundExceeded)
    else
      var open := c.settledUsd - (c.cashRepaidUsd + c.autoSellRepaidUsd) - prior;
      var reduction := Minimum(amount, PositiveRemainder(open));
      Success(Split(reduction, amount - reduction))
  }

  function PriorAdjustments(b: Book, i: nat): int {
    RefundTotal(b.refunds, i) + DisputeTotal(b.disputes, i, false)
  }

  // ---- Transactions: what each one decides, and the rows it writes ----

  function AuthorizationStatusFor(p: Profile, k: Conditions): AuthorizationStatus {
    if k.usable && !p.frozen && k.enoughPower then Approved else Declined
  }

  ghost function PlanAuthorization(b: Book, c: Command, k: Conditions): Result<Authorization, CardError>
    requires c.AuthorizeCard? && c.customer in b.profiles
  {
    if k.rate.None? then Failure(FxUnavailable)
    else
      var usd :- Converted(c.merchantAmount, k.rate.value, k.markup);
      var p := b.profiles[c.customer];
      var status := AuthorizationStatusFor(p, k);
      if status.Approved? && Check(HoldEntries(p, usd)).Failure? then Failure(LedgerRejected)
      else if usd <= 0 then Failure(RowRejected)
      else Success(Authorization(c.customer, c.merchantAmount, c.currency, usd, status, 0, 0))
  }

  function AuthorizationEntries(p: Profile, a: Authorization): seq<Entry> {
    if a.status.Approved? then HoldEntries(p, a.authorizedUsd) else []
  }

  function WithAuthorization(b: Book, c: Command, a: Authorization): Book
    requires c.customer in b.profiles
  {
    b.(authorizations := b.authorizations + [a],
       events := b.events[c.id := Row(c, |b.authorizations|)],
       journal := b.journal + AuthorizationEntries(b.profiles[c.customer], a))
  }

  datatype CapturePlan = CapturePlan(row: Capture, authorization: Authorization, freeze: bool,
      journal: seq<Entry>, sales: seq<Execution>)

  /**
   The authorization a capture is for, its amounts, and the postings that settle it, as far as each check lets them.
   */
  function AuthorizationFor(b: Book, c: Command): Result<Authorization, CardError>
    requires c.CapturePayment?
  {
    if c.authorization >= |b.authorizations| || b.authorizations[c.authorization].customer != c.customer then
      Failure(AuthorizationNotFound)
    else if !b.authorizations[c.authorization].IsOpen() || b.authorizations[c.authorization].currency != c.currency then
      Failure(InvalidState)
    else Success(b.authorizations[c.authorization])
  }

  function AmountsFor(b: Book, c: Command, a: Authorization, k: Conditions): Result<Amounts, CardError>
    requires c.CapturePayment?
  {
    CaptureAmounts(a, MerchantTotal(b.captures, c.authorization), HoldReleased(b.captures, c.authorization),
      c.merchantAmount, c.final, k)
  }

  ghost function SettledFor(b: Book, c: Command, m: Amounts, k: Conditions): Result<Repayment, CardError>
    requires c.CapturePayment? && c.customer in b.profiles
  {
    var p := b.profiles[c.customer];
    var posted :- Posted(b.journal, CaptureEntries(p, m.settled, m.release));
    Repaid(posted, p, m.settled, SoldOn(b.sales, c.customer, k.day), k)
  }

  /** The rows of a capture whose amounts and postings are known. */
  function CaptureRows(c: Command, a: Authorization, m: Amounts, r: Repayment): Result<CapturePlan, CardError>
    requires c.CapturePayment?
  {
    var captured :- Checked(Add(a.capturedUsd, m.settled));
    var reversed :- Checked(Add(a.reversedUsd, m.extra));
    var status := if m.isFinal then AuthorizationStatus.Captured else PartiallyCaptured;
    Success(CapturePlan(
              Capture(c.authorization, c.merchantAmount, m.settled, m.tip, m.release, r.cash, r.auto, 0, Posting),
              a.(status := status, capturedUsd := captured, reversedUsd := reversed), r.freeze, r.journal, r.rows))
  }

  ghost function PlanCapture(b: Book, c: Command, k: Conditions): Result<CapturePlan, CardError>
    requires c.CapturePayment? && c.customer in b.profiles
  {
    var a :- AuthorizationFor(b, c);
    var m :- AmountsFor(b, c, a, k);
    var r :- SettledFor(b, c, m, k);
    CaptureRows(c, a, m, r)
  }

  function SaleRows(customer: Customer, day: int, rows: seq<Execution>): seq<SaleRow> {
    seq(|rows|, i requires 0 <= i < |rows| => SaleRow(customer, day, rows[i]))
  }

  function WithCapture(b: Book, c: Command, k: Conditions, plan: CapturePlan): Book
    requires c.CapturePayment? && c.customer in b.profiles && c.authorization < |b.authorizations|
  {
    var p := b.profiles[c.customer];
    b.(profiles := b.profiles[c.customer := p.(frozen := p.frozen || plan.freeze)],
       authorizations := b.authorizations[c.authorization := plan.authorization],
       captures := b.captures + [plan.row],
       sales := b.sales + SaleRows(c.customer, k.day, plan.sales),
       events := b.events[c.id := Row(c, |b.captures|)],
       journal := plan.journal)
  }

  ghost function PlanReversal(b: Book, c: Command): Result<Authorization, CardError>
    requires c.ReverseHold? && c.customer in b.profiles
  {
    if c.authorization >= |b.authorizations| || b.authorizations[c.authorization].customer != c.customer then
      Failure(AuthorizationNotFound)
    else
      var a := b.authorizations[c.authorization];
      if !a.IsOpen() then Failure(InvalidState)
      else
        var remaining := a.authorizedUsd - a.reversedUsd - HoldReleased(b.captures, c.authorization);
        if c.amount > remaining then Failure(CardError.InvalidCommand)
        else if Check(ReleaseEntries(b.profiles[c.customer], c.amount)).Failure? then Failure(LedgerRejected)
        else
          var reversed :- Checked(Add(a.reversedUsd, c.amount));
          Success(a.(reversedUsd := reversed, status := if remaining - c.amount > 0 then a.status
            else AuthorizationStatus.Reversed))
  }

  function WithReversal(b: Book, c: Command, a: Authorization): Book
    requires c.ReverseHold? && c.customer in b.profiles && c.authorization < |b.authorizations|
  {
    b.(authorizations := b.authorizations[c.authorization := a],
       events := b.events[c.id := Row(c, c.authorization)],
       journal := b.journal + ReleaseEntries(b.profiles[c.customer], c.amount))
  }

  /** The customer of a capture is the customer of its authorization. */
  predicate Owns(b: Book, customer: Customer, capture: nat) {
    capture < |b.captures| && b.captures[capture].authorization < |b.authorizations|
    && b.authorizations[b.captures[capture].authorization].customer == customer
  }

  ghost function PlanRefund(b: Book, c: Command): Result<Split, CardError>
    requires c.RefundPayment? && c.customer in b.profiles
  {
    if !Owns(b, c.customer, c.capture) then Failure(CaptureNotFound)
    else
      var capture := b.captures[c.capture];
      if c.amount > capture.settledUsd - capture.refundedUsd then Failure(RefundExceeded)
      else
        var split :- Allocated(capture, PriorAdjustments(b, c.capture), c.amount);
        if Check(RefundEntries(b.profiles[c.customer], split.reduction, split.credit)).Failure?
          then Failure(LedgerRejected)
        else Success(split)
  }

  function WithRefund(b: Book, c: Command, split: Split): Book
    requires c.RefundPayment? && c.customer in b.profiles && c.capture < |b.captures|
  {
    var capture := b.captures[c.capture];
    var refunded := capture.refundedUsd + c.amount;
    b.(captures := b.captures[c.capture :=
      capture.(refundedUsd := refunded, status := if refunded == capture.settledUsd then Refunded
      else PartiallyRefunded)],
       refunds := b.refunds + [Refund(c.capture, c.amount, split)],
       events := b.events[c.id := Row(c, |b.refunds|)],
       journal := b.journal + RefundEntries(b.profiles[c.customer], split.reduction, split.credit))
  }

  ghost function PlanDispute(b: Book, c: Command): Result<Dispute, CardError>
    requires c.OpenDispute? && c.customer in b.profiles
  {
    if !Owns(b, c.customer, c.capture) then Failure(CaptureNotFound)
    else
      var capture := b.captures[c.capture];
      var reserved :- Checked(FromCoefficient(DisputeTotal(b.disputes, c.capture, true)));
      if c.amount > capture.settledUsd - capture.refundedUsd - reserved then Failure(RefundExceeded)
      else Success(Dispute(c.capture, c.customer, c.amount, Open, Split(0, 0)))
  }

  function WithDispute(b: Book, c: Command, d: Dispute): Book {
    b.(disputes := b.disputes + [d], requests :=
      b.requests[(c.customer, c.id, c.PayStatement?) := Row(c, |b.disputes|)])
  }

  ghost function PlanPayment(b: Book, c: Command): Result<Statement, CardError>
    requires c.PayStatement? && c.customer in b.profiles
  {
    if c.statement >= |b.statements| || b.statements[c.statement].customer != c.customer
      then Failure(CardError.InvalidCommand)
    else
      var s := b.statements[c.statement];
      var p := b.profiles[c.customer];
      if s.paid || s.amountDueUsd <= 0 then Failure(InvalidState)
      else
        var settled :- ReadBalance(b.journal, p.SettledCash());
        var withdrawable :- ReadBalance(b.journal, p.WithdrawableCash());
        var receivable :- ReadBalance(b.journal, p.ReceivableKey());
        if Minimum(PositiveRemainder(settled), PositiveRemainder(withdrawable)) < s.amountDueUsd
          || PositiveRemainder(receivable) < s.amountDueUsd
        then Failure(InsufficientPower)
        else if Check(RepaymentEntries(p, s.amountDueUsd)).Failure? then Failure(LedgerRejected)
        else Success(s.(paid := true))
  }

  function WithPayment(b: Book, c: Command, s: Statement): Book
    requires c.PayStatement? && c.customer in b.profiles && c.statement < |b.statements|
  {
    b.(statements := b.statements[c.statement := s],
       requests := b.requests[(c.customer, c.id, c.PayStatement?) := Row(c, c.statement)],
       journal := b.journal + RepaymentEntries(b.profiles[c.customer], s.amountDueUsd))
  }

  /** Accepting credits the customer; the recheck here keeps all adjustments of a capture within its settled amount. */
  ghost function PlanResolution(b: Book, d: nat, accept: bool): Result<Dispute, CardError> {
    if d >= |b.disputes| then Failure(DisputeNotFound)
    else
      var dispute := b.disputes[d];
      if !dispute.status.Open? then Failure(InvalidState)
      else if dispute.customer !in b.profiles || dispute.capture >= |b.captures| then Failure(CaptureNotFound)
      else if !accept then Success(dispute.(status := Rejected))
      else
        var split :- Allocated(b.captures[dispute.capture], PriorAdjustments(b, dispute.capture), dispute.amountUsd);
        if Check(RefundEntries(b.profiles[dispute.customer], split.reduction, split.credit)).Failure?
          then Failure(LedgerRejected)
        else Success(dispute.(status := Accepted, split := split))
  }

  function WithResolution(b: Book, d: nat, dispute: Dispute): Book
    requires d < |b.disputes| && dispute.customer in b.profiles
  {
    b.(disputes := b.disputes[d := dispute],
       journal := if dispute.status.Accepted?
         then b.journal + RefundEntries(b.profiles[dispute.customer], dispute.split.reduction, dispute.split.credit)
         else b.journal)
  }

  // ---- Commands with replay protection ----

  predicate Authorizes(b: Book, customer: Customer, a: nat) {
    a < |b.authorizations| && b.authorizations[a].customer == customer
  }

  /**
   None when the command is new; else the answer a replay or a conflict gets. An event's payload does not name the
   customer, so the same event from another customer is a replay; a request's key does.
   */
  function Repeated(b: Book, c: Command): Option<Result<Receipt, CardError>> {
    if c.IsEvent() then
      if c.id !in b.events then None
      else if b.events[c.id].command.(customer := c.customer) != c then Some(Failure(EventConflict))
      else if c.ReverseHold? && !Authorizes(b, c.customer, c.authorization) then Some(Failure(AuthorizationNotFound))
      else Some(Success(Receipt(b.events[c.id].resource, true)))
    else
      var key := (c.customer, c.id, c.PayStatement?);
      if key !in b.requests then None
      else if b.requests[key].command == c then Some(Success(Receipt(b.requests[key].resource, true)))
      else Some(Failure(CardError.IdempotencyConflict))
  }

  /** The decision of a new command: which row it will answer with, or why it is refused. */
  ghost function Decision(b: Book, c: Command, k: Conditions): Result<nat, CardError>
    requires c.customer in b.profiles
  {
    match c
    case AuthorizeCard(_, _, _, _, _) => var _ :- PlanAuthorization(b, c, k); Success(|b.authorizations|)
    case CapturePayment(_, _, _, _, _, _, _) => var _ :- PlanCapture(b, c, k); Success(|b.captures|)
    case ReverseHold(_, _, a, _, _) => var _ :- PlanReversal(b, c); Success(a)
    case RefundPayment(_, _, _, _, _) => var _ :- PlanRefund(b, c); Success(|b.refunds|)
    case OpenDispute(_, _, _, _, _) => var _ :- PlanDispute(b, c); Success(|b.disputes|)
    case PayStatement(_, _, s) => var _ :- PlanPayment(b, c); Success(s)
  }

  ghost function Written(b: Book, c: Command, k: Conditions): Book
    requires c.customer in b.profiles && Decision(b, c, k).Success?
  {
    match c
    case AuthorizeCard(_, _, _, _, _) => WithAuthorization(b, c, PlanAuthorization(b, c, k).value)
    case CapturePayment(_, _, _, _, _, _, _) => WithCapture(b, c, k, PlanCapture(b, c, k).value)
    case ReverseHold(_, _, _, _, _) => WithReversal(b, c, PlanReversal(b, c).value)
    case RefundPayment(_, _, _, _, _) => WithRefund(b, c, PlanRefund(b, c).value)
    case OpenDispute(_, _, _, _, _) => WithDispute(b, c, PlanDispute(b, c).value)
    case PayStatement(_, _, _) => WithPayment(b, c, PlanPayment(b, c).value)
  }

  /** An unknown customer, a malformed command, a repetition and a refusal all leave the book as it was. */
  ghost function Executed(b: Book, c: Command, k: Conditions): Outcome {
    if !c.WellFormed() || c.customer !in b.profiles then Outcome(b, Failure(CardError.InvalidCommand))
    else if Repeated(b, c).Some? then Outcome(b, Repeated(b, c).value)
    else if Decision(b, c, k).Failure? then Outcome(b, Failure(Decision(b, c, k).error))
    else Outcome(Written(b, c, k), Success(Receipt(Decision(b, c, k).value, false)))
  }
}
