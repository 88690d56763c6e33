/**
 When a refund takes a receivable below zero: statements pay receivables down as a whole, refunds undo one capture.
 */
module CardOverdraft {
  import opened Results
  import opened Decimals
  import opened Entries
  import opened AutoSell
  import opened CardLedger
  import opened Card
  import opened CardHolds
  import opened CardReceivable
  import opened CardRuns

  function ReceivableOf(b: Book, c: Customer): int
    requires c in b.profiles
  {
    Balance(b.journal, b.profiles[c].ReceivableKey())
  }

  /** An adjustment of more than the customer owes in all, of a capture that still owes that much. */
  predicate TooMuch(b: Book, c: Customer, capture: nat, amount: Decimal)
    requires c in b.profiles && capture < |b.captures|
  {
    Minimum(amount, Owed(b, capture)) > ReceivableOf(b, c)
  }

  /** The step is a refund to this customer, or an accepted dispute of theirs, that takes effect and is too much. */
  ghost predicate Overdraws(b: Book, s: Step, c: Customer)
    requires c in b.profiles
  {
    match s
    case Execute(command, k) =>
      && command.RefundPayment? && command.customer == c && command.capture < |b.captures|
      && TakesPlace(b, command, k)
      && TooMuch(b, c, command.capture, command.amount)
    case Resolve(d, accept) =>
      && accept && d < |b.disputes| && b.disputes[d].customer == c && b.disputes[d].capture < |b.captures|
      && PlanResolution(b, d, accept).Success? && TooMuch(b, c, b.disputes[d].capture, b.disputes[d].amountUsd)
    case _ => false
  }

  /** The reduction of an adjustment is what the capture still owes, or the whole amount if that is less. */
  lemma ReductionIsOwed(b: Book, i: nat, amount: Decimal)
    requires i < |b.captures| && AdjustmentsSound(b, i) && amount > 0
    requires Allocated(b.captures[i], PriorAdjustments(b, i), amount).Success?
    ensures Allocated(b.captures[i], PriorAdjustments(b, i), amount).value.reduction == Minimum(amount, Owed(b, i))
    ensures Owed(b, i) >= 0
  {
  }

  lemma AdjustmentOverdraws(b: Book, u: Book, i: nat, customer: Customer, amount: Decimal, split: Split, c: Customer)
    requires ReceivablesSound(b) && i < |b.captures| && customer in b.profiles && c in b.profiles
    requires Adjusts(b, u, i, customer, amount, split)
    ensures ReceivableOf(u, c) == ReceivableOf(b, c) - if c == customer then Minimum(amount, Owed(b, i)) else 0
    ensures Owed(b, i) >= 0 && amount > 0
  {
    assert AdjustmentsSound(b, i);
    ReductionIsOwed(b, i, amount);
    AdjustmentMovesJournal(b, u, i, customer, amount, split, c);
  }

  lemma RefundMoves(b: Book, command: Command, c: Customer)
    requires Sound(b) && command.RefundPayment? && command.customer in b.profiles && command.amount > 0
             && c in b.profiles
    requires PlanRefund(b, command).Success?
    ensures command.capture < |b.captures|
    ensures ReceivableOf(WithRefund(b, command, PlanRefund(b, command).value), c) ==
            ReceivableOf(b, c) - if c == command.customer then Minimum(command.amount, Owed(b, command.capture)) else 0
    ensures Owed(b, command.capture) >= 0
  {
    var split := PlanRefund(b, command).value;
    RefundAdjusts(b, command);
    AdjustmentOverdraws(b, WithRefund(b, command, split), command.capture, command.customer, command.amount, split, c);
  }

  lemma AcceptanceMoves(b: Book, n: nat, c: Customer)
    requires Sound(b) && PlanResolution(b, n, true).Success? && c in b.profiles
    ensures n < |b.disputes| && b.disputes[n].capture < |b.captures|
    ensures var d := b.disputes[n];
            && ReceivableOf(WithResolution(b, n, PlanResolution(b, n, true).value), c) ==
               ReceivableOf(b, c) - (if c == d.customer then Minimum(d.amountUsd, Owed(b, d.capture)) else 0)
            && Owed(b, d.capture) >= 0 && d.amountUsd > 0
  {
    var d := PlanResolution(b, n, true).value;
    AcceptanceAdjusts(b, n);
    AdjustmentOverdraws(b, WithResolution(b, n, d), d.capture, d.customer, d.amountUsd, d.split, c);
  }

  // ---- No other step lowers a receivable below zero ----

  lemma AuthorizationMoves(b: Book, command: Command, a: Authorization, c: Customer)
    requires AccountsApart(b) && command.customer in b.profiles && c in b.profiles
    ensures ReceivableOf(WithAuthorization(b, command, a), c) == ReceivableOf(b, c)
  {
    var p := b.profiles[command.customer];
    BalanceOfConcat(b.journal, AuthorizationEntries(p, a), b.profiles[c].ReceivableKey());
    HoldEffect(p, a.authorizedUsd, b.profiles[c].ReceivableKey());
  }

  lemma ReversalMoves(b: Book, command: Command, a: Authorization, c: Customer)
    requires AccountsApart(b) && command.ReverseHold? && command.customer in b.profiles && c in b.profiles
    requires command.authorization < |b.authorizations|
    ensures ReceivableOf(WithReversal(b, command, a), c) == ReceivableOf(b, c)
  {
    var p := b.profiles[command.customer];
    BalanceOfConcat(b.journal, ReleaseEntries(p, command.amount), b.profiles[c].ReceivableKey());
    ReleaseEffect(p, command.amount, b.profiles[c].ReceivableKey());
  }

  lemma CaptureMoves(b: Book, command: Command, k: Conditions, c: Customer)
    requires Sound(b) && command.CapturePayment? && command.customer in b.profiles && c in b.profiles
    requires PlanCapture(b, command, k).Success?
    ensures command.authorization < |b.authorizations|
    ensures ReceivableOf(WithCapture(b, command, k, PlanCapture(b, command, k).value), c) >= ReceivableOf(b, c)
  {
    CapturePlanFacts(b, command, k);
    assert IsCardKey(b, b.profiles[c].ReceivableKey());
    assert MovesJournal(b, command, PlanCapture(b, command, k).value, b.profiles[c].ReceivableKey());
  }

  lemma PaymentStaysAbove(b: Book, command: Command, c: Customer)
    requires Sound(b) && command.PayStatement? && command.customer in b.profiles && c in b.profiles
    requires PlanPayment(b, command).Success? && ReceivableOf(b, c) >= 0
    ensures command.statement < |b.statements|
    ensures ReceivableOf(WithPayment(b, command, PlanPayment(b, command).value), c) >= 0
  {
    var s := b.statements[command.statement];
    var p := b.profiles[command.customer];
    BalanceOfConcat(b.journal, RepaymentEntries(p, s.amountDueUsd), b.profiles[c].ReceivableKey());
    RepaymentEffect(p, s.amountDueUsd, b.profiles[c].ReceivableKey());
  }

  lemma WrittenStaysAbove(b: Book, command: Command, k: Conditions, c: Customer)
    requires Sound(b) && c in b.profiles && ReceivableOf(b, c) >= 0
    requires command.WellFormed() && command.customer in b.profiles && Decision(b, command, k).Success?
    ensures var u := Written(b, command, k);
            && c in u.profiles
            && (command.RefundPayment? ==> command.capture < |b.captures|)
            && (ReceivableOf(u, c) < 0 <==>
                 command.RefundPayment? && command.customer == c && TooMuch(b, c, command.capture, command.amount))
  {
    match command
    case AuthorizeCard(_, _, _, _, _) => AuthorizationMoves(b, command, PlanAuthorization(b, command, k).value, c);
    case CapturePayment(_, _, _, _, _, _, _) => CaptureMoves(b, command, k, c);
    case ReverseHold(_, _, _, _, _) => ReversalMoves(b, command, PlanReversal(b, command).value, c);
    case RefundPayment(_, _, _, _, _) => RefundMoves(b, command, c);
    case OpenDispute(_, _, _, _, _) =>
    case PayStatement(_, _, _) => PaymentStaysAbove(b, command, c);
  }

  lemma CommandStaysAbove(b: Book, command: Command, k: Conditions, c: Customer)
    requires Sound(b) && c in b.profiles && ReceivableOf(b, c) >= 0
    ensures var u := Executed(b, command, k).book;
            c in u.profiles && (ReceivableOf(u, c) >= 0 <==> !Overdraws(b, Execute(command, k), c))
  {
    ExecutedWrites(b, command, k);
    if TakesPlace(b, command, k) {
      WrittenStaysAbove(b, command, k, c);
    }
  }

  lemma ResolutionStaysAbove(b: Book, d: nat, accept: bool, c: Customer)
    requires Sound(b) && c in b.profiles && ReceivableOf(b, c) >= 0
    ensures var u := After(b, Resolve(d, accept));
            c in u.profiles && (ReceivableOf(u, c) >= 0 <==> !Overdraws(b, Resolve(d, accept), c))
  {
    if accept && PlanResolution(b, d, accept).Success? {
      AcceptanceMoves(b, d, c);
    }
  }

  /** A receivable that was not negative stays so if and only if the step does not overdraw it. */
  lemma StepStaysAbove(b: Book, s: Step, c: Customer)
    requires Sound(b) && c in b.profiles && ReceivableOf(b, c) >= 0
    ensures c in After(b, s).profiles && (ReceivableOf(After(b, s), c) >= 0 <==> !Overdraws(b, s, c))
  {
    match s
    case Execute(command, k) => CommandStaysAbove(b, command, k, c);
    case Resolve(d, accept) => ResolutionStaysAbove(b, d, accept, c);
    case Elsewhere(es) =>
      BalanceOfConcat(b.journal, es, b.profiles[c].ReceivableKey());
      if SparesReceivables(b, es) {
        SparedBalance(b, es, c, b.profiles[c].ReceivableKey());
      }
    case _ =>
  }

  // ---- Over whole runs ----

  ghost predicate NotNegative(b: Book, c: Customer) {
    c in b.profiles && ReceivableOf(b, c) >= 0
  }

  ghost predicate StepOverdraws(b: Book, s: Step, c: Customer) {
    c in b.profiles && Overdraws(b, s, c)
  }

  /** In every state of the run. */
  ghost predicate NeverNegative(b: Book, steps: seq<Step>, c: Customer) {
    NotNegative(Run(b, steps), c) && (steps != [] ==> NeverNegative(b, steps[..|steps| - 1], c))
  }

  /** At every step of the run. */
  ghost predicate NeverOverdrawn(b: Book, steps: seq<Step>, c: Customer) {
    steps != [] ==>
      var front := steps[..|steps| - 1];
      NeverOverdrawn(b, front, c) && !StepOverdraws(Run(b, front), steps[|steps| - 1], c)
  }

  /** A customer's receivable is never negative in a run if and only if no step of the run overdraws it. */
  lemma {:induction false} NegativeExactlyByOverdraft(b: Book, steps: seq<Step>, c: Customer)
    requires Initial(b) && c in b.profiles
    ensures NeverNegative(b, steps, c) <==> NeverOverdrawn(b, steps, c)
  {
    if steps == [] {
      SparedBalance(b, b.journal, c, b.profiles[c].ReceivableKey());
    } else {
      var front := steps[..|steps| - 1];
      NegativeExactlyByOverdraft(b, front, c);
      RunsAreSound(b, front);
      RunKeepsRows(b, front);
      if NotNegative(Run(b, front), c) {
        StepStaysAbove(Run(b, front), steps[|steps| - 1], c);
      } else {
        assert !NeverNegative(b, front, c);
      }
    }
  }

  // ---- A run that overdraws ----

  const RICH: Customer := "C"

  /** One customer who pays by monthly statement, with `x` dollars of settled and withdrawable cash. */
  function Funded(x: Decimal): Book {
    Book(map[RICH := Profile(1, 2, 3, MonthlyStatement, false)], [], [], [], [], [], [], map[], map[],
         [Entry(1, USD, Settled, Debit, x), Entry(3, USD, Settled, Credit, x),
          Entry(1, USD, Withdrawable, Debit, x), Entry(3, USD, Withdrawable, Credit, x)])
  }

  /** Dollar for dollar, without markup or tip. */
  const PLAIN := Conditions(Some(UNIT), 0, 0, 0, true, true, None, map[], map[], Normal, 0)

  /** Buys for `x`, pays the statement, and returns goods for `y`. */
  function Returned(x: Decimal, y: Decimal): seq<Step> {
    [ Execute(AuthorizeCard(RICH, "a", x, USD, ""), PLAIN),
      Execute(Command.CapturePayment(RICH, "c", 0, x, USD, true, ""), PLAIN),
      Generate(RICH, (1, 31)),
      Execute(Command.PayStatement(RICH, "payment-1", 0), PLAIN),
      Execute(RefundPayment(RICH, "r", 0, y, ""), PLAIN) ]
  }

  lemma PlainAmount(x: Decimal)
    requires 0 <= x < LIMIT
    ensures Multiply(x, UNIT, AMOUNT_POLICY) == Success(x) && Converted(x, UNIT, 0) == Success(x)
  {
    RoutesAgree(x, AMOUNT_POLICY);
  }

  lemma Authorizes(x: Decimal)
    requires 0 < x < LIMIT
    ensures var b := Funded(x);
            var a := Authorization(RICH, x, USD, x, AuthorizationStatus.Approved, 0, 0);
            Executed(b, AuthorizeCard(RICH, "a", x, USD, ""), PLAIN).book ==
              WithAuthorization(b, AuthorizeCard(RICH, "a", x, USD, ""), a)
  {
    var b := Funded(x);
    var es := HoldEntries(b.profiles[RICH], x);
    PlainAmount(x);
    PairIsAccepted(es[0], es[1]);
  }

  /** Entries whose two sides are one small total in dollars are accepted. */
  lemma AcceptedByGross(es: seq<Entry>, total: Decimal)
    requires 2 <= |es| <= 6 && ValidEntries(es) && 0 <= total < LIMIT
    requires forall c, d :: Gross(es, c, d) == if c == USD then total else 0
    ensures Check(es).Success?
  {
    assert BalancedPerCurrency(es);
  }

  lemma CaptureAccepted(p: Profile, x: Decimal)
    requires 0 < x && 2 * x < LIMIT
    ensures Check(CaptureEntries(p, x, x)).Success?
  {
    var es := CaptureEntries(p, x, x);
    forall c, d ensures Gross(es, c, d) == if c == USD then 2 * x else 0 {
      MoveGross(p.receivable, p.clearing, Receivable, x, c, d);
      MoveGross(p.clearing, p.receivable, Held, x, c, d);
      GrossOfConcat(Move(p.receivable, p.clearing, Receivable, x), ReleaseEntries(p, x), c, d);
    }
    AcceptedByGross(es, 2 * x);
  }

  lemma PaymentGross(credit: AccountId, debit: AccountId, d: Dimension, amount: Decimal, c: Currency, side: Direction)
    ensures Gross(Payment(credit, debit, d, amount), c, side) == if c == USD then amount else 0
  {
    var es := Payment(credit, debit, d, amount);
    assert es[..1] == [es[0]] && es[..1][..0] == [];
    assert Gross(es[..1], c, side) == if c == USD && side == Credit then amount else 0;
  }

  lemma RepaymentAccepted(p: Profile, x: Decimal)
    requires 0 < x && 3 * x < LIMIT
    ensures Check(RepaymentEntries(p, x)).Success?
  {
    var es := RepaymentEntries(p, x);
    forall c, d ensures Gross(es, c, d) == if c == USD then 3 * x else 0 {
      var i, j, k := Payment(p.cash, p.clearing, Settled, x), Payment(p.cash, p.clearing, Withdrawable, x),
        Payment(p.receivable, p.clearing, Receivable, x);
      PaymentGross(p.cash, p.clearing, Settled, x, c, d);
      PaymentGross(p.cash, p.clearing, Withdrawable, x, c, d);
      PaymentGross(p.receivable, p.clearing, Receivable, x, c, d);
      GrossOfConcat(i, j, c, d);
      GrossOfConcat(i + j, k, c, d);
    }
    AcceptedByGross(es, 3 * x);
  }

  lemma PlainAmounts(a: Authorization, x: Decimal)
    requires 0 < x < LIMIT && a.merchantAmount == x && a.authorizedUsd == x && a.reversedUsd == 0
    ensures CaptureAmounts(a, 0, 0, x, true, PLAIN) == Success(Amounts(x, 0, x, 0, true))
  {
    PlainAmount(x);
    PlainAmount(0);
  }

  lemma Captures(b: Book, x: Decimal, a: Authorization)
    requires 0 < x && 2 * x < LIMIT && a == Authorization(RICH, x, USD, x, AuthorizationStatus.Approved, 0, 0)
    requires b.authorizations == [a] && b.captures == [] && RICH in b.profiles
             && b.profiles[RICH].mode.MonthlyStatement?
    ensures var c := Command.CapturePayment(RICH, "c", 0, x, USD, true, "");
            PlanCapture(b, c, PLAIN) ==
            Success(CapturePlan(Capture(0, x, x, 0, x, 0, 0, 0, Posting),
                                a.(status := AuthorizationStatus.Captured, capturedUsd := x), false,
                                b.journal + CaptureEntries(b.profiles[RICH], x, x), []))
  {
    var c := Command.CapturePayment(RICH, "c", 0, x, USD, true, "");
    PlainAmounts(a, x);
    assert AmountsFor(b, c, a, PLAIN) == Success(Amounts(x, 0, x, 0, true));
    CaptureAccepted(b.profiles[RICH], x);
    assert SettledFor(b, c, Amounts(x, 0, x, 0, true), PLAIN) ==
           Success(Repayment(0, 0, false, b.journal + CaptureEntries(b.profiles[RICH], x, x), []));
  }

  /** What the run knows of its book before the statement: one capture of `x`, owed in full, and the cash to pay it. */
  ghost predicate Owing(b: Book, x: Decimal, paid: Decimal) {
    && b.profiles == map[RICH := Profile(1, 2, 3, MonthlyStatement, false)]
    && b.captures == [Capture(0, x, x, 0, x, 0, 0, 0, Posting)] && |b.authorizations| == 1
    && b.authorizations[0].customer == RICH && b.refunds == [] && b.disputes == []
    && b.events.Keys == {"a", "c"} && b.requests.Keys <= {(RICH, "payment-1", true)}
    && Balance(b.journal, Key(2, USD, Receivable)) == x - paid
    && Balance(b.journal, Key(1, USD, Settled)) == x - paid && Balance(b.journal, Key(1, USD, Withdrawable)) == x - paid
  }

  lemma FundedBalances(x: Decimal, k: Key)
    requires k.account != 3
    ensures Balance(Funded(x).journal, k) == if k == Key(1, USD, Settled) || k == Key(1, USD, Withdrawable) then x
            else 0
  {
    var es := Funded(x).journal;
    assert es == [es[0], es[1]] + [es[2], es[3]];
    BalanceOfConcat([es[0], es[1]], [es[2], es[3]], k);
    PairBalance(es[0], es[1], k);
    PairBalance(es[2], es[3], k);
  }

  lemma AfterCapture(x: Decimal, k: Key)
    requires x > 0 && k.account != 3
    ensures var p := Funded(x).profiles[RICH];
            Balance(Funded(x).journal + HoldEntries(p, x) + CaptureEntries(p, x, x), k) ==
            if k == Key(1, USD, Settled) || k == Key(1, USD, Withdrawable) || k == Key(2, USD, Receivable) then x else 0
  {
    var p := Funded(x).profiles[RICH];
    FundedBalances(x, k);
    HoldEffect(p, x, k);
    CaptureEffect(p, x, x, k);
    BalanceOfConcat(Funded(x).journal, HoldEntries(p, x), k);
    BalanceOfConcat(Funded(x).journal + HoldEntries(p, x), CaptureEntries(p, x, x), k);
  }

  lemma NextStep(b: Book, steps: seq<Step>, n: nat)
    requires n < |steps|
    ensures Run(b, steps[..n + 1]) == After(Run(b, steps[..n]), steps[n])
  {
    assert steps[..n + 1][..n] == steps[..n];
  }

  lemma OneStep(x: Decimal, y: Decimal, a: Authorization)
    requires 0 < x && 3 * x < LIMIT && a == Authorization(RICH, x, USD, x, AuthorizationStatus.Approved, 0, 0)
    ensures Run(Funded(x), Returned(x, y)[..1]) == WithAuthorization(Funded(x), AuthorizeCard(RICH, "a", x, USD, ""), a)
  {
    Authorizes(x);
    NextStep(Funded(x), Returned(x, y), 0);
  }

  lemma CaptureRuns(b: Book, x: Decimal, a: Authorization)
    requires 0 < x && 2 * x < LIMIT && a == Authorization(RICH, x, USD, x, AuthorizationStatus.Approved, 0, 0)
    requires b.authorizations == [a] && b.captures == [] && RICH in b.profiles
             && b.profiles[RICH].mode.MonthlyStatement?
    requires "c" !in b.events
    ensures var c := Command.CapturePayment(RICH, "c", 0, x, USD, true, "");
            && PlanCapture(b, c, PLAIN).Success?
            && Executed(b, c, PLAIN).book == WithCapture(b, c, PLAIN, PlanCapture(b, c, PLAIN).value)
  {
    Captures(b, x, a);
  }

  lemma TwoSteps(x: Decimal, y: Decimal)
    requires 0 < x && 3 * x < LIMIT
    ensures var u := Run(Funded(x), Returned(x, y)[..2]);
            Owing(u, x, 0) && u.statements == [] && u.requests == map[]
  {
    var a := Authorization(RICH, x, USD, x, AuthorizationStatus.Approved, 0, 0);
    OneStep(x, y, a);
    NextStep(Funded(x), Returned(x, y), 1);
    var b := WithAuthorization(Funded(x), AuthorizeCard(RICH, "a", x, USD, ""), a);
    Captures(b, x, a);
    CaptureRuns(b, x, a);
    AfterCapture(x, Key(2, USD, Receivable));
    AfterCapture(x, Key(1, USD, Settled));
    AfterCapture(x, Key(1, USD, Withdrawable));
  }

  lemma Bills(b: Book, x: Decimal)
    requires Owing(b, x, 0) && b.statements == [] && 0 < x < LIMIT
    ensures Generated(b, RICH, (1, 31)) == b.(statements := [Statement(RICH, (1, 31), x, false)])
  {
  }

  lemma RepaidBalances(journal: seq<Entry>, p: Profile, x: Decimal)
    requires p.Apart()
    ensures var after := journal + RepaymentEntries(p, x);
            && Balance(after, p.ReceivableKey()) == Balance(journal, p.ReceivableKey()) - x
            && Balance(after, p.SettledCash()) == Balance(journal, p.SettledCash()) - x
            && Balance(after, p.WithdrawableCash()) == Balance(journal, p.WithdrawableCash()) - x
  {
    var es := RepaymentEntries(p, x);
    BalanceOfConcat(journal, es, p.ReceivableKey());
    BalanceOfConcat(journal, es, p.SettledCash());
    BalanceOfConcat(journal, es, p.WithdrawableCash());
    RepaymentEffect(p, x, p.ReceivableKey());
    RepaymentEffect(p, x, p.SettledCash());
    RepaymentEffect(p, x, p.WithdrawableCash());
  }

  lemma PaymentPlanned(b: Book, x: Decimal)
    requires Owing(b, x, 0) && b.statements == [Statement(RICH, (1, 31), x, false)]
    requires 0 < x && 3 * x < LIMIT
    ensures PlanPayment(b, Command.PayStatement(RICH, "payment-1", 0)) == Success(b.statements[0].(paid := true))
  {
    RepaymentAccepted(b.profiles[RICH], x);
  }

  lemma Pays(b: Book, x: Decimal)
    requires Owing(b, x, 0) && b.statements == [Statement(RICH, (1, 31), x, false)] && b.requests == map[]
    requires 0 < x && 3 * x < LIMIT
    ensures Owing(Executed(b, Command.PayStatement(RICH, "payment-1", 0), PLAIN).book, x, x)
  {
    PaymentPlanned(b, x);
    RepaidBalances(b.journal, b.profiles[RICH], x);
  }

  lemma Returns(b: Book, x: Decimal, y: Decimal)
    requires Owing(b, x, x) && 0 < y <= x < LIMIT
    ensures var u := Executed(b, RefundPayment(RICH, "r", 0, y, ""), PLAIN).book;
            RICH in u.profiles && ReceivableOf(u, RICH) == -y
  {
    var c := RefundPayment(RICH, "r", 0, y, "");
    var p := b.profiles[RICH];
    RefundIsAccepted(p, y, 0);
    assert PlanRefund(b, c) == Success(Split(y, 0));
    BalanceOfConcat(b.journal, RefundEntries(p, y, 0), p.ReceivableKey());
    RefundEffect(p, y, 0, p.ReceivableKey());
  }

  lemma Billed(b: Book, x: Decimal, s: Step)
    requires Owing(b, x, 0) && b.statements == [] && b.requests == map[] && 0 < x < LIMIT
             && s == Generate(RICH, (1, 31))
    ensures var u := After(b, s);
            Owing(u, x, 0) && u.statements == [Statement(RICH, (1, 31), x, false)] && u.requests == map[]
  {
    Bills(b, x);
  }

  lemma ThreeSteps(x: Decimal, y: Decimal)
    requires 0 < x && 3 * x < LIMIT
    ensures var u := Run(Funded(x), Returned(x, y)[..3]);
            Owing(u, x, 0) && u.statements == [Statement(RICH, (1, 31), x, false)] && u.requests == map[]
  {
    var before, after := Run(Funded(x), Returned(x, y)[..2]), Run(Funded(x), Returned(x, y)[..3]);
    assert after == After(before, Generate(RICH, (1, 31))) by {
      NextStep(Funded(x), Returned(x, y), 2);
    }
    assert Owing(before, x, 0) && before.statements == [] && before.requests == map[] by {
      TwoSteps(x, y);
    }
    Billed(before, x, Generate(RICH, (1, 31)));
  }

  lemma FourSteps(x: Decimal, y: Decimal)
    requires 0 < x && 3 * x < LIMIT
    ensures Owing(Run(Funded(x), Returned(x, y)[..4]), x, x)
  {
    ThreeSteps(x, y);
    Pays(Run(Funded(x), Returned(x, y)[..3]), x);
    NextStep(Funded(x), Returned(x, y), 3);
  }

  lemma FundedIsInitial(x: Decimal)
    ensures Initial(Funded(x))
  {
  }

  /** Buying for `x`, paying the statement and returning goods for `y` leaves the receivable at minus `y`. */
  lemma PaidThenReturned(x: Decimal, y: Decimal)
    requires 0 < y <= x && 3 * x < LIMIT
    ensures Initial(Funded(x))
    ensures var u := Run(Funded(x), Returned(x, y)); RICH in u.profiles && ReceivableOf(u, RICH) == -y
  {
    FundedIsInitial(x);
    FourSteps(x, y);
    NextStep(Funded(x), Returned(x, y), 4);
    assert Returned(x, y)[..5] == Returned(x, y);
    Returns(Run(Funded(x), Returned(x, y)[..4]), x, y);
  }
}
