/** Whole runs of the card product, from any customers' first day on. */
module CardRuns {
  import opened Results
  import opened Decimals
  import opened Entries
  import opened Sums
  import opened AutoSell
  import opened CardLedger
  import opened Card
  import opened CardHolds
  import opened CardReceivable

  datatype Step =
    | Execute(command: Command, conditions: Conditions)
    | Resolve(dispute: nat, accept: bool)
    | Generate(customer: Customer, period: (int, int))
    | Configure(customer: Customer, mode: RepaymentMode, frozen: bool)
    | Elsewhere(entries: seq<Entry>)

  /** The position of a customer's statement for a period, or the number of statements. */
  function StatementFor(ss: seq<Statement>, customer: Customer, period: (int, int)): (n: nat)
    ensures n <= |ss| && (n < |ss| ==> ss[n].customer == customer && ss[n].period == period)
  {
    if ss == [] then 0
    else
      var n := StatementFor(ss[..|ss| - 1], customer, period);
      if n < |ss| - 1 then n
      else if ss[|ss| - 1].customer == customer && ss[|ss| - 1].period == period then |ss| - 1 else |ss|
  }

  /** A monthly statement asks for the current receivable; generating it again refreshes it while it is unpaid. */
  function Generated(b: Book, customer: Customer, period: (int, int)): Book {
    if customer !in b.profiles || !b.profiles[customer].mode.MonthlyStatement? then b
    else
      var receivable := ReadBalance(b.journal, b.profiles[customer].ReceivableKey());
      var n := StatementFor(b.statements, customer, period);
      if receivable.Failure? || (n < |b.statements| && b.statements[n].paid) then b
      else
        var statement := Statement(customer, period, PositiveRemainder(receivable.value), false);
        b.(statements := if n < |b.statements| then b.statements[n := statement] else b.statements + [statement])
  }

  /** Other products post to these accounts too, but never to a receivable account. */
  predicate SparesReceivables(b: Book, es: seq<Entry>) {
    forall i, c | 0 <= i < |es| && c in b.profiles :: es[i].account != b.profiles[c].receivable
  }

  function Configured(profiles: map<Customer, Profile>, customer: Customer, mode: RepaymentMode,
      frozen: bool): map<Customer, Profile>
  {
    if customer in profiles then profiles[customer := profiles[customer].(mode := mode, frozen := frozen)] else profiles
  }

  ghost function After(b: Book, s: Step): Book {
    match s
    case Execute(c, k) => Executed(b, c, k).book
    case Resolve(d, accept) =>
      var plan := PlanResolution(b, d, accept);
      if plan.Failure? then b else WithResolution(b, d, plan.value)
    case Generate(customer, period) => Generated(b, customer, period)
    case Configure(customer, mode, frozen) =>
      b.(profiles := Configured(b.profiles, customer, mode, frozen))
    case Elsewhere(es) => b.(journal := if SparesReceivables(b, es) then b.journal + es else b.journal)
  }

  ghost function Run(b: Book, steps: seq<Step>): Book {
    if steps == [] then b else After(Run(b, steps[..|steps| - 1]), steps[|steps| - 1])
  }

  /** No card activity yet; other products may have posted already. */
  ghost predicate Initial(b: Book) {
    && AccountsApart(b) && b.authorizations == [] && b.captures == [] && b.refunds == [] && b.disputes == []
    && b.statements == [] && b.sales == [] && SparesReceivables(b, b.journal)
  }

  ghost predicate Sound(b: Book) {
    HoldsSound(b) && ReceivablesSound(b)
  }

  lemma {:induction false} SparedBalance(b: Book, es: seq<Entry>, c: Customer, k: Key)
    requires SparesReceivables(b, es) && c in b.profiles && k.account == b.profiles[c].receivable
    ensures Balance(es, k) == 0
  {
    if es != [] {
      SparedBalance(b, es[..|es| - 1], c, k);
      assert es[|es| - 1].account != b.profiles[c].receivable;
    }
  }

  lemma InitialIsSound(b: Book)
    requires Initial(b)
    ensures Sound(b)
  {
    forall c | c in b.profiles
      ensures Balance(b.journal, b.profiles[c].HeldKey()) == 0 && Balance(b.journal, b.profiles[c].ReceivableKey()) == 0
    {
      SparedBalance(b, b.journal, c, b.profiles[c].HeldKey());
      SparedBalance(b, b.journal, c, b.profiles[c].ReceivableKey());
    }
  }

  lemma AuthorizeKeepsSound(b: Book, c: Command, k: Conditions)
    requires Sound(b) && c.AuthorizeCard? && c.customer in b.profiles && PlanAuthorization(b, c, k).Success?
    ensures Sound(WithAuthorization(b, c, PlanAuthorization(b, c, k).value))
  {
    var x := PlanAuthorization(b, c, k).value;
    var u := WithAuthorization(b, c, x);
    AuthorizationKeepsHolds(b, c, k);
    forall d | d in b.profiles
      ensures Balance(u.journal, b.profiles[d].ReceivableKey()) == Balance(b.journal, b.profiles[d].ReceivableKey())
    {
      BalanceOfConcat(b.journal, AuthorizationEntries(b.profiles[c.customer], x), b.profiles[d].ReceivableKey());
      HoldEffect(b.profiles[c.customer], x.authorizedUsd, b.profiles[d].ReceivableKey());
    }
    forall d | 0 <= d < |u.disputes|
      ensures Owns(u, u.disputes[d].customer, u.disputes[d].capture) && u.disputes[d].amountUsd > 0
    {
      assert Owns(b, b.disputes[d].customer, b.disputes[d].capture);
    }
    SteadyKeepsReceivables(b, u);
  }

  lemma ReverseKeepsSound(b: Book, c: Command)
    requires Sound(b) && c.ReverseHold? && c.customer in b.profiles && c.amount > 0 && PlanReversal(b, c).Success?
    ensures c.authorization < |b.authorizations| && Sound(WithReversal(b, c, PlanReversal(b, c).value))
  {
    var x := PlanReversal(b, c).value;
    var u := WithReversal(b, c, x);
    ReversalKeepsHolds(b, c);
    forall d | d in b.profiles
      ensures Balance(u.journal, b.profiles[d].ReceivableKey()) == Balance(b.journal, b.profiles[d].ReceivableKey())
    {
      BalanceOfConcat(b.journal, ReleaseEntries(b.profiles[c.customer], c.amount), b.profiles[d].ReceivableKey());
      ReleaseEffect(b.profiles[c.customer], c.amount, b.profiles[d].ReceivableKey());
    }
    forall d | 0 <= d < |u.disputes|
      ensures Owns(u, u.disputes[d].customer, u.disputes[d].capture) && u.disputes[d].amountUsd > 0
    {
      assert Owns(b, b.disputes[d].customer, b.disputes[d].capture);
    }
    SteadyKeepsReceivables(b, u);
  }

  lemma CaptureKeepsSound(b: Book, c: Command, k: Conditions)
    requires Sound(b) && c.CapturePayment? && c.customer in b.profiles && c.merchantAmount > 0
             && PlanCapture(b, c, k).Success?
    ensures c.authorization < |b.authorizations| && Sound(WithCapture(b, c, k, PlanCapture(b, c, k).value))
  {
    CapturePlanFacts(b, c, k);
    BookedCaptureKeepsHolds(b, c, k, PlanCapture(b, c, k).value);
    BookedCaptureKeepsReceivables(b, c, k, PlanCapture(b, c, k).value);
  }

  lemma AdjustmentKeepsHolds(b: Book, u: Book, i: nat, customer: Customer, amount: Decimal, split: Split)
    requires Sound(b) && i < |b.captures| && customer in b.profiles && Adjusts(b, u, i, customer, amount, split)
    ensures HoldsSound(u)
  {
    assert AdjustmentsSound(b, i);
    forall d | d in b.profiles
      ensures Balance(u.journal, b.profiles[d].HeldKey()) == Balance(b.journal, b.profiles[d].HeldKey())
    {
      AdjustmentMovesJournal(b, u, i, customer, amount, split, d);
    }
    HoldsUntouched(b, u);
  }

  lemma RefundKeepsSound(b: Book, c: Command)
    requires Sound(b) && c.RefundPayment? && c.customer in b.profiles && c.amount > 0 && PlanRefund(b, c).Success?
    ensures c.capture < |b.captures| && Sound(WithRefund(b, c, PlanRefund(b, c).value))
  {
    RefundAdjusts(b, c);
    AdjustmentKeepsHolds(b, WithRefund(b, c, PlanRefund(b, c).value), c.capture, c.customer, c.amount,
      PlanRefund(b, c).value);
    AdjustmentKeepsReceivables(b, WithRefund(b, c, PlanRefund(b, c).value), c.capture, c.customer, c.amount,
      PlanRefund(b, c).value);
  }

  /** Rows and journal balances that holds and receivables do not see. */
  lemma SteadyKeepsSound(b: Book, u: Book)
    requires Sound(b) && Steady(b, u) && RowsLinked(u) && u.authorizations == b.authorizations
    requires forall c | c in b.profiles ::
             Balance(u.journal, b.profiles[c].HeldKey()) == Balance(b.journal, b.profiles[c].HeldKey())
    ensures Sound(u)
  {
    SteadyKeepsReceivables(b, u);
    HoldsUntouched(b, u);
  }

  lemma DisputeKeepsSound(b: Book, c: Command)
    requires Sound(b) && c.OpenDispute? && c.customer in b.profiles && c.amount > 0 && PlanDispute(b, c).Success?
    ensures Sound(WithDispute(b, c, PlanDispute(b, c).value))
  {
    var d := PlanDispute(b, c).value;
    var u := WithDispute(b, c, d);
    forall i: nat | i < |b.captures|
      ensures DisputeTotal(u.disputes, i, false) == DisputeTotal(b.disputes, i, false)
      ensures DisputeReductions(u.disputes, i) == DisputeReductions(b.disputes, i)
              && DisputeCredits(u.disputes, i) == DisputeCredits(b.disputes, i)
    {
      DisputeAppended(b.disputes, d, i);
    }
    forall e | 0 <= e < |u.disputes|
      ensures Owns(u, u.disputes[e].customer, u.disputes[e].capture) && u.disputes[e].amountUsd > 0
    {
      assert e < |b.disputes| ==> Owns(b, b.disputes[e].customer, b.disputes[e].capture);
      assert Owns(b, c.customer, c.capture);
    }
    SteadyKeepsSound(b, u);
  }

  lemma ResolveKeepsSound(b: Book, n: nat, accept: bool)
    requires Sound(b) && PlanResolution(b, n, accept).Success?
    ensures n < |b.disputes| && Sound(WithResolution(b, n, PlanResolution(b, n, accept).value))
  {
    var d := PlanResolution(b, n, accept).value;
    var u := WithResolution(b, n, d);
    if accept {
      AcceptanceAdjusts(b, n);
      AdjustmentKeepsHolds(b, u, d.capture, d.customer, d.amountUsd, d.split);
      AdjustmentKeepsReceivables(b, u, d.capture, d.customer, d.amountUsd, d.split);
    } else {
      RejectionIsSteady(b, n, d);
      SteadyKeepsSound(b, u);
    }
  }

  lemma RejectionIsSteady(b: Book, n: nat, d: Dispute)
    requires Sound(b) && n < |b.disputes| && b.disputes[n].status.Open? && d == b.disputes[n].(status := Rejected)
             && d.customer in b.profiles
    ensures Steady(b, WithResolution(b, n, d)) && RowsLinked(WithResolution(b, n, d))
  {
    var u := WithResolution(b, n, d);
    forall i: nat | i < |b.captures|
      ensures DisputeTotal(u.disputes, i, false) == DisputeTotal(b.disputes, i, false)
      ensures DisputeReductions(u.disputes, i) == DisputeReductions(b.disputes, i)
              && DisputeCredits(u.disputes, i) == DisputeCredits(b.disputes, i)
    {
      DisputeResolved(b.disputes, n, d, i);
    }
    forall e | 0 <= e < |u.disputes|
      ensures Owns(u, u.disputes[e].customer, u.disputes[e].capture) && u.disputes[e].amountUsd > 0
    {
      assert Owns(b, b.disputes[e].customer, b.disputes[e].capture) && b.disputes[e].amountUsd > 0;
    }
  }

  /** Rows of disputes keep pointing at captures of their customers. */
  lemma LinksKept(b: Book, u: Book)
    requires RowsLinked(b) && u.captures == b.captures && u.authorizations == b.authorizations && u.refunds == b.refunds
             && u.disputes == b.disputes
    ensures RowsLinked(u)
  {
    forall e | 0 <= e < |u.disputes|
      ensures Owns(u, u.disputes[e].customer, u.disputes[e].capture) && u.disputes[e].amountUsd > 0
    {
      assert Owns(b, b.disputes[e].customer, b.disputes[e].capture) && b.disputes[e].amountUsd > 0;
    }
  }

  lemma PaymentIsSteady(b: Book, c: Command)
    requires Sound(b) && c.PayStatement? && c.customer in b.profiles && PlanPayment(b, c).Success?
    ensures c.statement < |b.statements|
    ensures var u := WithPayment(b, c, PlanPayment(b, c).value);
            && Steady(b, u) && RowsLinked(u)
            && forall d | d in b.profiles ::
                 Balance(u.journal, b.profiles[d].HeldKey()) == Balance(b.journal, b.profiles[d].HeldKey())
  {
    var u := WithPayment(b, c, PlanPayment(b, c).value);
    forall d | d in b.profiles
      ensures Balance(u.journal, b.profiles[d].ReceivableKey()) - Balance(b.journal, b.profiles[d].ReceivableKey()) ==
              PaidTotal(b.statements, d) - PaidTotal(u.statements, d)
      ensures Balance(u.journal, b.profiles[d].HeldKey()) == Balance(b.journal, b.profiles[d].HeldKey())
    {
      PaymentMoves(b, c.customer, c.statement, d);
    }
    OnlyPaid(b, u);
  }

  /** A book that differs in statements, requests and postings alone. */
  lemma OnlyPaid(b: Book, u: Book)
    requires RowsLinked(b) && u == b.(statements := u.statements, requests := u.requests, journal := u.journal)
    requires forall d | d in b.profiles ::
             Balance(u.journal, b.profiles[d].ReceivableKey()) - Balance(b.journal, b.profiles[d].ReceivableKey()) ==
             PaidTotal(b.statements, d) - PaidTotal(u.statements, d)
    ensures Steady(b, u) && RowsLinked(u)
  {
    LinksKept(b, u);
  }

  lemma PaymentKeepsSound(b: Book, c: Command)
    requires Sound(b) && c.PayStatement? && c.customer in b.profiles && PlanPayment(b, c).Success?
    ensures c.statement < |b.statements| && Sound(WithPayment(b, c, PlanPayment(b, c).value))
  {
    PaymentIsSteady(b, c);
    SteadyKeepsSound(b, WithPayment(b, c, PlanPayment(b, c).value));
  }

  lemma PaymentMoves(b: Book, customer: Customer, n: nat, d: Customer)
    requires AccountsApart(b) && customer in b.profiles && d in b.profiles && n < |b.statements|
    requires b.statements[n].customer == customer && !b.statements[n].paid
    ensures var es := RepaymentEntries(b.profiles[customer], b.statements[n].amountDueUsd);
            var paid := b.statements[n := b.statements[n].(paid := true)];
            && Balance(b.journal + es, b.profiles[d].ReceivableKey())
               - Balance(b.journal, b.profiles[d].ReceivableKey()) ==
               PaidTotal(b.statements, d) - PaidTotal(paid, d)
            && Balance(b.journal + es, b.profiles[d].HeldKey()) == Balance(b.journal, b.profiles[d].HeldKey())
  {
    var s := b.statements[n];
    var es := RepaymentEntries(b.profiles[customer], s.amountDueUsd);
    BalanceOfConcat(b.journal, es, b.profiles[d].ReceivableKey());
    BalanceOfConcat(b.journal, es, b.profiles[d].HeldKey());
    RepaymentEffect(b.profiles[customer], s.amountDueUsd, b.profiles[d].ReceivableKey());
    RepaymentEffect(b.profiles[customer], s.amountDueUsd, b.profiles[d].HeldKey());
    StatementReplaced(b.statements, n, s.(paid := true), d);
  }

  lemma GenerateKeepsSound(b: Book, customer: Customer, period: (int, int))
    requires Sound(b)
    ensures Sound(Generated(b, customer, period))
  {
    var u := Generated(b, customer, period);
    forall d | d in b.profiles ensures PaidTotal(u.statements, d) == PaidTotal(b.statements, d) {
      GeneratedIsUnpaid(b, customer, period, d);
    }
    OnlyPaid(b, u);
    SteadyKeepsSound(b, u);
  }

  lemma GeneratedIsUnpaid(b: Book, customer: Customer, period: (int, int), d: Customer)
    ensures PaidTotal(Generated(b, customer, period).statements, d) == PaidTotal(b.statements, d)
  {
    var u := Generated(b, customer, period);
    if u != b {
      var n := StatementFor(b.statements, customer, period);
      if n < |b.statements| {
        StatementReplaced(b.statements, n, u.statements[n], d);
      } else {
        assert u.statements[..n] == b.statements;
      }
    }
  }

  lemma ElsewhereKeepsSound(b: Book, es: seq<Entry>)
    requires Sound(b)
    ensures Sound(After(b, Elsewhere(es)))
  {
    var u := After(b, Elsewhere(es));
    if SparesReceivables(b, es) {
      forall d | d in b.profiles
        ensures Balance(u.journal, b.profiles[d].ReceivableKey()) == Balance(b.journal, b.profiles[d].ReceivableKey())
        ensures Balance(u.journal, b.profiles[d].HeldKey()) == Balance(b.journal, b.profiles[d].HeldKey())
      {
        BalanceOfConcat(b.journal, es, b.profiles[d].ReceivableKey());
        BalanceOfConcat(b.journal, es, b.profiles[d].HeldKey());
        SparedBalance(b, es, d, b.profiles[d].ReceivableKey());
        SparedBalance(b, es, d, b.profiles[d].HeldKey());
      }
    }
    LinksKept(b, u);
    SteadyKeepsSound(b, u);
  }

  lemma ConfigureKeepsSound(b: Book, customer: Customer, mode: RepaymentMode, frozen: bool)
    requires Sound(b)
    ensures Sound(b.(profiles := Configured(b.profiles, customer, mode, frozen)))
  {
    ProfilesKeepSound(b, Configured(b.profiles, customer, mode, frozen));
  }

  /** Modes and freezes are invisible to balances. */
  lemma ProfilesKeepSound(b: Book, profiles: map<Customer, Profile>)
    requires Sound(b) && SameAccounts(b, b.(profiles := profiles))
    ensures Sound(b.(profiles := profiles))
  {
    var u := b.(profiles := profiles);
    LinksKept(b, u);
    SteadyKeepsSound(b, u);
  }

  /** A command that is well formed, new and decided is written; any other leaves the book alone. */
  ghost predicate TakesPlace(b: Book, c: Command, k: Conditions) {
    c.WellFormed() && c.customer in b.profiles && Repeated(b, c).None? && Decision(b, c, k).Success?
  }

  lemma ExecutedWrites(b: Book, c: Command, k: Conditions)
    ensures TakesPlace(b, c, k) ==> Executed(b, c, k).book == Written(b, c, k)
    ensures !TakesPlace(b, c, k) ==> Executed(b, c, k).book == b
  {
  }

  lemma WrittenKeepsSound(b: Book, c: Command, k: Conditions)
    requires Sound(b) && c.WellFormed() && c.customer in b.profiles && Decision(b, c, k).Success?
    ensures Sound(Written(b, c, k))
  {
    match c
    case AuthorizeCard(_, _, _, _, _) => AuthorizeKeepsSound(b, c, k);
    case CapturePayment(_, _, _, _, _, _, _) => CaptureKeepsSound(b, c, k);
    case ReverseHold(_, _, _, _, _) => ReverseKeepsSound(b, c);
    case RefundPayment(_, _, _, _, _) => RefundKeepsSound(b, c);
    case OpenDispute(_, _, _, _, _) => DisputeKeepsSound(b, c);
    case PayStatement(_, _, _) => PaymentKeepsSound(b, c);
  }

  lemma ExecuteKeepsSound(b: Book, c: Command, k: Conditions)
    requires Sound(b)
    ensures Sound(Executed(b, c, k).book)
  {
    ExecutedWrites(b, c, k);
    if TakesPlace(b, c, k) {
      WrittenKeepsSound(b, c, k);
    }
  }

  lemma StepKeepsSound(b: Book, s: Step)
    requires Sound(b)
    ensures Sound(After(b, s))
  {
    match s
    case Execute(c, k) => ExecuteKeepsSound(b, c, k);
    case Resolve(d, accept) =>
      if PlanResolution(b, d, accept).Success? {
        ResolveKeepsSound(b, d, accept);
      }
    case Generate(customer, period) => GenerateKeepsSound(b, customer, period);
    case Configure(customer, mode, frozen) => ConfigureKeepsSound(b, customer, mode, frozen);
    case Elsewhere(es) => ElsewhereKeepsSound(b, es);
  }

  lemma {:induction false} RunsAreSound(b: Book, steps: seq<Step>)
    requires Initial(b)
    ensures Sound(Run(b, steps))
  {
    if steps == [] {
      InitialIsSound(b);
    } else {
      RunsAreSound(b, steps[..|steps| - 1]);
      StepKeepsSound(Run(b, steps[..|steps| - 1]), steps[|steps| - 1]);
    }
  }

  // ---- The guarantees over every run ----

  /** A customer's HELD balance is the sum, over their open authorizations, of authorized - reversed - released. */
  lemma HeldIsOpenAuthorizations(b: Book, steps: seq<Step>, c: Customer)
    requires Initial(b) && c in Run(b, steps).profiles
    ensures var u := Run(b, steps);
            && Balance(u.journal, u.profiles[c].HeldKey()) == Sum(HeldTerm(u, c), |u.authorizations|)
            && (forall a: nat | a < |u.authorizations| :: HeldTerm(u, c)(a) >= 0)
            && Balance(u.journal, u.profiles[c].HeldKey()) >= 0
  {
    RunsAreSound(b, steps);
    var u := Run(b, steps);
    forall a: nat | a < |u.authorizations| ensures HeldTerm(u, c)(a) >= 0 {
      assert HoldSound(u, a);
    }
    SumNonNegative(HeldTerm(u, c), |u.authorizations|);
  }

  /** When an authorization closes, its amount is split exactly into what was reversed and what captures consumed. */
  lemma ClosedHoldIsAccountedFor(b: Book, steps: seq<Step>, a: nat)
    requires Initial(b) && a < |Run(b, steps).authorizations| && !Run(b, steps).authorizations[a].IsOpen()
    ensures var u := Run(b, steps);
            var x := u.authorizations[a];
            && HeldTerm(u, x.customer)(a) == 0 && x.capturedUsd == SettledTotal(u.captures, a)
            && (!x.status.Declined? ==> x.authorizedUsd == x.reversedUsd + Consumed(u.captures, a))
  {
    RunsAreSound(b, steps);
    assert HoldSound(Run(b, steps), a);
  }

  /** A RECEIVABLE balance is what captures owe after repayments and reductions, minus statement payments. */
  lemma ReceivableIsOwed(b: Book, steps: seq<Step>, c: Customer)
    requires Initial(b) && c in Run(b, steps).profiles
    ensures var u := Run(b, steps);
            var balance := Balance(u.journal, u.profiles[c].ReceivableKey());
            && balance == Sum(OwedTerm(u, c), |u.captures|) - PaidTotal(u.statements, c)
            && Sum(OwedTerm(u, c), |u.captures|) >= 0
            && ((forall s | 0 <= s < |u.statements| && u.statements[s].customer == c :: !u.statements[s].paid) ==>
               balance >= 0)
  {
    RunsAreSound(b, steps);
    OwedIsNonNegative(Run(b, steps), c);
  }

  /** After any run the adjustments of a capture stay within its settled amount and split the one way. */
  lemma AdjustmentsArePathIndependent(b: Book, steps: seq<Step>, i: nat)
    requires Initial(b) && i < |Run(b, steps).captures|
    ensures var u := Run(b, steps);
            var c := u.captures[i];
            var total := PriorAdjustments(u, i);
            && 0 <= total <= c.settledUsd
            && Reductions(u.refunds, u.disputes, i) == Minimum(total, c.settledUsd - RepaidFor(c))
            && RefundCredits(u.refunds, i) + DisputeCredits(u.disputes, i) ==
               total - Minimum(total, c.settledUsd - RepaidFor(c))
  {
    RunsAreSound(b, steps);
    AdjustmentsSplit(Run(b, steps), i);
  }

  lemma AdjustmentsSplit(u: Book, i: nat)
    requires Sound(u) && i < |u.captures|
    ensures var c := u.captures[i];
            var total := PriorAdjustments(u, i);
            && 0 <= total <= c.settledUsd
            && Reductions(u.refunds, u.disputes, i) == Minimum(total, c.settledUsd - RepaidFor(c))
            && RefundCredits(u.refunds, i) + DisputeCredits(u.disputes, i) ==
               total - Minimum(total, c.settledUsd - RepaidFor(c))
  {
    assert AdjustmentsSound(u, i);
  }

  // ---- Each event and request once ----

  ghost predicate KeepsCustomers(b: Book, u: Book) {
    && u.profiles.Keys == b.profiles.Keys && |b.authorizations| <= |u.authorizations|
    && forall a | 0 <= a < |b.authorizations| :: u.authorizations[a].customer == b.authorizations[a].customer
  }

  ghost predicate KeepsAnswers(b: Book, u: Book) {
    && (forall e | e in b.events :: e in u.events && u.events[e] == b.events[e])
    && (forall r | r in b.requests :: r in u.requests && u.requests[r] == b.requests[r])
  }

  ghost predicate KeepsRows(b: Book, u: Book) {
    KeepsCustomers(b, u) && KeepsAnswers(b, u)
  }

  lemma CaptureKeepsCustomers(b: Book, c: Command, k: Conditions)
    requires c.CapturePayment? && c.customer in b.profiles && PlanCapture(b, c, k).Success?
    ensures c.authorization < |b.authorizations| && KeepsCustomers(b, WithCapture(b, c, k, PlanCapture(b, c, k).value))
  {
    CaptureParts(b, c, k);
  }

  lemma WrittenKeepsCustomers(b: Book, c: Command, k: Conditions)
    requires c.customer in b.profiles && Decision(b, c, k).Success?
    ensures KeepsCustomers(b, Written(b, c, k))
  {
    match c
    case CapturePayment(_, _, _, _, _, _, _) => CaptureKeepsCustomers(b, c, k);
    case _ =>
  }

  lemma WrittenKeepsAnswers(b: Book, c: Command, k: Conditions)
    requires c.customer in b.profiles && Repeated(b, c).None? && Decision(b, c, k).Success?
    ensures KeepsAnswers(b, Written(b, c, k))
  {
    assert c.IsEvent() ==> c.id !in b.events;
    assert !c.IsEvent() ==> (c.customer, c.id, c.PayStatement?) !in b.requests;
  }

  lemma CommandKeepsRows(b: Book, c: Command, k: Conditions)
    ensures KeepsRows(b, Executed(b, c, k).book)
  {
    ExecutedWrites(b, c, k);
    if TakesPlace(b, c, k) {
      WrittenKeepsCustomers(b, c, k);
      WrittenKeepsAnswers(b, c, k);
    }
  }

  lemma {:induction false} RunKeepsRows(b: Book, steps: seq<Step>)
    ensures KeepsRows(b, Run(b, steps))
  {
    if steps != [] {
      RunKeepsRows(b, steps[..|steps| - 1]);
      var before := Run(b, steps[..|steps| - 1]);
      var s := steps[|steps| - 1];
      if s.Execute? {
        CommandKeepsRows(before, s.command, s.conditions);
      }
    }
  }

  /** The row a command that succeeded is answered from. */
  ghost predicate Answered(b: Book, c: Command, resource: nat) {
    if c.IsEvent() then
      && c.id in b.events && b.events[c.id].command.(customer := c.customer) == c && b.events[c.id].resource == resource
      && (c.ReverseHold? ==> Authorizes(b, c.customer, c.authorization))
    else
      var key := (c.customer, c.id, c.PayStatement?);
      key in b.requests && b.requests[key] == Row(c, resource)
  }

  lemma SuccessIsAnswered(b: Book, c: Command, k: Conditions)
    requires Executed(b, c, k).result.Success?
    ensures Answered(Executed(b, c, k).book, c, Executed(b, c, k).result.value.resource)
  {
    if Repeated(b, c).None? {
      WrittenKeepsCustomers(b, c, k);
    }
  }

  /** An event or request that took effect once is only answered ever after: same resource, nothing changed. */
  lemma TakesEffectOnce(b: Book, c: Command, k: Conditions, steps: seq<Step>, again: Conditions)
    requires Executed(b, c, k).result.Success?
    ensures var first := Executed(b, c, k);
            var later := Run(first.book, steps);
            Executed(later, c, again) == Outcome(later, Success(Receipt(first.result.value.resource, true)))
  {
    var first := Executed(b, c, k);
    RunKeepsRows(first.book, steps);
    SuccessIsAnswered(b, c, k);
    assert Answered(Run(first.book, steps), c, first.result.value.resource);
  }
}
