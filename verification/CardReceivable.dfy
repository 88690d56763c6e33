/** Receivables: a customer's RECEIVABLE balance is what their captures still owe, minus what statements paid. */
module CardReceivable {
  import opened Results
  import opened Decimals
  import opened Entries
  import opened Sums
  import opened AutoSell
  import opened CardLedger
  import opened Card
  import opened CardHolds

  // ---- Totals ----

  /** What refunds and accepted disputes of a capture took off the receivable, or credited to cash. */
  function Reductions(rs: seq<Refund>, ds: seq<Dispute>, i: nat): int {
    RefundReductions(rs, i) + DisputeReductions(ds, i)
  }

  function RefundReductions(rs: seq<Refund>, i: nat): int {
    if rs == [] then 0
    else var r := rs[|rs| - 1]; RefundReductions(rs[..|rs| - 1], i) + if r.capture == i then r.split.reduction else 0
  }

  function RefundCredits(rs: seq<Refund>, i: nat): int {
    if rs == [] then 0
    else var r := rs[|rs| - 1]; RefundCredits(rs[..|rs| - 1], i) + if r.capture == i then r.split.credit else 0
  }

  function DisputeReductions(ds: seq<Dispute>, i: nat): int {
    if ds == [] then 0
    else
      var d := ds[|ds| - 1];
      DisputeReductions(ds[..|ds| - 1], i) + if d.capture == i && d.status.Accepted? then d.split.reduction else 0
  }

  function DisputeCredits(ds: seq<Dispute>, i: nat): int {
    if ds == [] then 0
    else
      var d := ds[|ds| - 1];
      DisputeCredits(ds[..|ds| - 1], i) + if d.capture == i && d.status.Accepted? then d.split.credit else 0
  }

  function PaidTotal(ss: seq<Statement>, c: Customer): int {
    if ss == [] then 0
    else var s := ss[|ss| - 1]; PaidTotal(ss[..|ss| - 1], c) + if s.customer == c && s.paid then s.amountDueUsd else 0
  }

  function RepaidFor(c: Capture): Decimal {
    c.cashRepaidUsd + c.autoSellRepaidUsd
  }

  /** What a capture still owes. */
  function Owed(b: Book, i: nat): int
    requires i < |b.captures|
  {
    b.captures[i].settledUsd - RepaidFor(b.captures[i]) - Reductions(b.refunds, b.disputes, i)
  }

  function OwedTerm(b: Book, c: Customer): nat -> int {
    (i: nat) => if Owns(b, c, i) then Owed(b, i) else 0
  }

  // ---- The invariant ----

  /**
   Path independence: whatever the sequence of adjustments, their total P stays within the settled amount, the
   receivable fell by min(P, settled - repaid), and cash was credited with the rest.
   */
  ghost predicate AdjustmentsSound(b: Book, i: nat)
    requires i < |b.captures|
  {
    var c := b.captures[i];
    var total := PriorAdjustments(b, i);
    && 0 < c.settledUsd < LIMIT && 0 <= c.cashRepaidUsd && 0 <= c.autoSellRepaidUsd && RepaidFor(c) <= c.settledUsd
    && RefundTotal(b.refunds, i) == c.refundedUsd && c.refundedUsd >= 0 && DisputeTotal(b.disputes, i, false) >= 0
    && total <= c.settledUsd && StatusFits(c)
    && Reductions(b.refunds, b.disputes, i) == Minimum(total, c.settledUsd - RepaidFor(c))
    && RefundCredits(b.refunds, i) + DisputeCredits(b.disputes, i) ==
       total - Minimum(total, c.settledUsd - RepaidFor(c))
  }

  /** A capture's status says how much of it was refunded. */
  predicate StatusFits(c: Capture) {
    && (c.status.Posting? <==> c.refundedUsd == 0)
    && (c.status.Refunded? <==> c.refundedUsd == c.settledUsd)
  }

  ghost predicate RowsLinked(b: Book) {
    && (forall i | 0 <= i < |b.captures| :: b.captures[i].authorization < |b.authorizations|)
    && (forall r | 0 <= r < |b.refunds| :: b.refunds[r].capture < |b.captures| && b.refunds[r].amountUsd > 0)
    && (forall d | 0 <= d < |b.disputes| :: Owns(b, b.disputes[d].customer, b.disputes[d].capture)
          && b.disputes[d].amountUsd > 0)
  }

  ghost predicate ReceivablesMatch(b: Book) {
    forall c | c in b.profiles ::
      Balance(b.journal, b.profiles[c].ReceivableKey()) ==
        Sum(OwedTerm(b, c), |b.captures|) - PaidTotal(b.statements, c)
  }

  ghost predicate ReceivablesSound(b: Book) {
    && AccountsApart(b) && RowsLinked(b)
    && (forall i: nat | i < |b.captures| :: AdjustmentsSound(b, i))
    && ReceivablesMatch(b)
  }

  /** One adjustment more: the split keeps the totals on their closed form. */
  lemma OneMoreAdjustment(c: Capture, prior: Decimal, amount: Decimal)
    requires amount > 0 && Allocated(c, prior, amount).Success? && 0 <= RepaidFor(c) <= c.settledUsd && prior >= 0
    ensures var split := Allocated(c, prior, amount).value;
            var owed := c.settledUsd - RepaidFor(c);
            && split.reduction >= 0 && split.credit >= 0 && split.reduction + split.credit == amount
            && Minimum(prior, owed) + split.reduction == Minimum(prior + amount, owed)
            && prior + amount <= c.settledUsd
  {
  }

  /** Adjustments made one after the other, in any amounts and any order, split as one adjustment of their total. */
  function AllocatedAll(c: Capture, amounts: seq<Decimal>): Result<Split, CardError> {
    if amounts == [] then Success(Split(0, 0))
    else
      var before :- AllocatedAll(c, amounts[..|amounts| - 1]);
      var last :- Allocated(c, Plus(amounts[..|amounts| - 1]), amounts[|amounts| - 1]);
      Success(Split(before.reduction + last.reduction, before.credit + last.credit))
  }

  lemma {:induction false} AllocationIgnoresOrder(c: Capture, amounts: seq<Decimal>)
    requires 0 <= RepaidFor(c) <= c.settledUsd && forall i | 0 <= i < |amounts| :: amounts[i] > 0
    ensures Plus(amounts) >= 0
    ensures Plus(amounts) <= c.settledUsd ==> AllocatedAll(c, amounts) == Allocated(c, 0, Plus(amounts))
    ensures AllocatedAll(c, amounts).Success? <==> Plus(amounts) <= c.settledUsd
  {
    if amounts != [] {
      var n := |amounts| - 1;
      AllocationIgnoresOrder(c, amounts[..n]);
      if AllocatedAll(c, amounts[..n]).Success? {
        if Allocated(c, Plus(amounts[..n]), amounts[n]).Success? {
          OneMoreAdjustment(c, Plus(amounts[..n]), amounts[n]);
        }
      }
    }
  }

  // ---- How each transaction moves the sums ----

  /** A book that changes what one capture owes and what statements paid by exactly what the receivable moved. */
  lemma ReceivablesByCapture(b: Book, u: Book, i: nat, customer: Customer)
    requires ReceivablesMatch(b) && SameAccounts(b, u)
    requires |b.captures| <= |u.captures| <= |b.captures| + 1 && i <= |b.captures|
             && (i == |b.captures| || |u.captures| == |b.captures|)
    requires forall c, j: nat | c in b.profiles && j < |b.captures| && j != i :: OwedTerm(u, c)(j) == OwedTerm(b, c)(j)
    requires forall c | c in b.profiles ::
               Balance(u.journal, b.profiles[c].ReceivableKey()) - Balance(b.journal, b.profiles[c].ReceivableKey()) ==
               OwedTerm(u, c)(i) - OwedTerm(b, c)(i) - (PaidTotal(u.statements, c) - PaidTotal(b.statements, c))
    ensures ReceivablesMatch(u)
  {
    forall c | c in u.profiles
      ensures Balance(u.journal, u.profiles[c].ReceivableKey()) ==
              Sum(OwedTerm(u, c), |u.captures|) - PaidTotal(u.statements, c)
    {
      assert Balance(b.journal, b.profiles[c].ReceivableKey()) ==
          Sum(OwedTerm(b, c), |b.captures|) - PaidTotal(b.statements, c);
      SumChange(OwedTerm(b, c), OwedTerm(u, c), |b.captures|, i);
    }
  }

  lemma {:induction false} RefundAppended(rs: seq<Refund>, r: Refund, i: nat)
    ensures RefundTotal(rs + [r], i) == RefundTotal(rs, i) + if r.capture == i then r.amountUsd else 0
    ensures RefundReductions(rs + [r], i) == RefundReductions(rs, i) + if r.capture == i then r.split.reduction else 0
    ensures RefundCredits(rs + [r], i) == RefundCredits(rs, i) + if r.capture == i then r.split.credit else 0
  {
    assert (rs + [r])[..|rs|] == rs;
  }

  lemma {:induction false} NoRefunds(rs: seq<Refund>, i: nat)
    requires forall r | 0 <= r < |rs| :: rs[r].capture != i
    ensures RefundTotal(rs, i) == 0 && RefundReductions(rs, i) == 0 && RefundCredits(rs, i) == 0
  {
    if rs != [] {
      NoRefunds(rs[..|rs| - 1], i);
    }
  }

  lemma {:induction false} NoDisputes(ds: seq<Dispute>, i: nat)
    requires forall d | 0 <= d < |ds| :: ds[d].capture != i
    ensures DisputeTotal(ds, i, false) == 0 && DisputeReductions(ds, i) == 0 && DisputeCredits(ds, i) == 0
  {
    if ds != [] {
      NoDisputes(ds[..|ds| - 1], i);
    }
  }

  lemma DisputeAppended(ds: seq<Dispute>, d: Dispute, i: nat)
    requires d.status.Open?
    ensures DisputeTotal(ds + [d], i, false) == DisputeTotal(ds, i, false)
    ensures DisputeReductions(ds + [d], i) == DisputeReductions(ds, i)
            && DisputeCredits(ds + [d], i) == DisputeCredits(ds, i)
  {
    assert (ds + [d])[..|ds|] == ds;
  }

  /** Resolving an open dispute adds its amount and split when it is accepted, and nothing otherwise. */
  lemma {:induction false} DisputeResolved(ds: seq<Dispute>, n: nat, d: Dispute, i: nat)
    requires n < |ds| && ds[n].status.Open? && d == ds[n].(status := d.status, split := d.split) && !d.status.Open?
    ensures DisputeTotal(ds[n := d], i, false) == DisputeTotal(ds, i, false) + if d.capture == i && d.status.Accepted?
            then d.amountUsd else 0
    ensures DisputeReductions(ds[n := d], i) == DisputeReductions(ds, i) + if d.capture == i && d.status.Accepted?
            then d.split.reduction else 0
    ensures DisputeCredits(ds[n := d], i) == DisputeCredits(ds, i) + if d.capture == i && d.status.Accepted?
            then d.split.credit else 0
  {
    var last := |ds| - 1;
    if n == last {
      assert ds[n := d][..last] == ds[..last];
    } else {
      assert ds[n := d][..last] == ds[..last][n := d];
      DisputeResolved(ds[..last], n, d, i);
    }
  }

  lemma {:induction false} StatementReplaced(ss: seq<Statement>, n: nat, s: Statement, c: Customer)
    requires n < |ss|
    ensures PaidTotal(ss[n := s], c) == PaidTotal(ss, c)
              - (if ss[n].customer == c && ss[n].paid then ss[n].amountDueUsd else 0)
              + (if s.customer == c && s.paid then s.amountDueUsd else 0)
  {
    var last := |ss| - 1;
    if n == last {
      assert ss[n := s][..last] == ss[..last];
    } else {
      assert ss[n := s][..last] == ss[..last][n := s];
      StatementReplaced(ss[..last], n, s, c);
    }
  }

  // ---- Captures ----

  lemma CaptureKeepsAdjustments(b: Book, c: Command, k: Conditions, plan: CapturePlan, i: nat)
    requires RowsLinked(b) && (forall j: nat | j < |b.captures| :: AdjustmentsSound(b, j))
    requires c.CapturePayment? && c.customer in b.profiles && c.authorization < |b.authorizations|
             && SplitsHold(b, c, plan)
    requires i <= |b.captures|
    ensures AdjustmentsSound(WithCapture(b, c, k, plan), i)
  {
    if i < |b.captures| {
      assert AdjustmentsSound(b, i);
    } else {
      NoRefunds(b.refunds, i);
      NoDisputes(b.disputes, i);
    }
  }

  lemma CaptureKeepsLinks(b: Book, c: Command, k: Conditions, plan: CapturePlan)
    requires RowsLinked(b) && c.CapturePayment? && c.customer in b.profiles && c.authorization < |b.authorizations|
             && SplitsHold(b, c, plan)
    ensures RowsLinked(WithCapture(b, c, k, plan))
  {
    var u := WithCapture(b, c, k, plan);
    forall d | 0 <= d < |u.disputes|
      ensures Owns(u, u.disputes[d].customer, u.disputes[d].capture) && u.disputes[d].amountUsd > 0
    {
      assert Owns(b, b.disputes[d].customer, b.disputes[d].capture);
    }
  }

  lemma CaptureOwes(b: Book, c: Command, k: Conditions, plan: CapturePlan, d: Customer, j: nat)
    requires RowsLinked(b) && c.CapturePayment? && c.customer in b.profiles && c.authorization < |b.authorizations|
             && SplitsHold(b, c, plan)
    requires j <= |b.captures|
    ensures OwedTerm(WithCapture(b, c, k, plan), d)(j) ==
            if j < |b.captures| then OwedTerm(b, d)(j)
            else if d == c.customer then plan.row.settledUsd - RepaidFor(plan.row) else 0
  {
    if j == |b.captures| {
      NoRefunds(b.refunds, j);
      NoDisputes(b.disputes, j);
    }
  }

  lemma CaptureMovesReceivables(b: Book, c: Command, k: Conditions, plan: CapturePlan)
    requires AccountsApart(b) && RowsLinked(b) && ReceivablesMatch(b) && c.CapturePayment? && c.customer in b.profiles
    requires c.authorization < |b.authorizations| && SplitsHold(b, c, plan)
    requires forall key | IsCardKey(b, key) :: MovesJournal(b, c, plan, key)
    ensures ReceivablesMatch(WithCapture(b, c, k, plan))
  {
    var u := WithCapture(b, c, k, plan);
    var n := |b.captures|;
    forall d, j: nat | d in b.profiles && j < n ensures OwedTerm(u, d)(j) == OwedTerm(b, d)(j) {
      CaptureOwes(b, c, k, plan, d, j);
    }
    forall d | d in b.profiles
      ensures Balance(u.journal, b.profiles[d].ReceivableKey()) - Balance(b.journal, b.profiles[d].ReceivableKey()) ==
              OwedTerm(u, d)(n) - OwedTerm(b, d)(n)
    {
      CaptureOwes(b, c, k, plan, d, n);
      assert IsCardKey(b, b.profiles[d].ReceivableKey());
      assert MovesJournal(b, c, plan, b.profiles[d].ReceivableKey());
    }
    ReceivablesByCapture(b, u, n, c.customer);
  }

  lemma BookedCaptureKeepsReceivables(b: Book, c: Command, k: Conditions, plan: CapturePlan)
    requires ReceivablesSound(b) && c.CapturePayment? && c.customer in b.profiles
    requires c.authorization < |b.authorizations| && SplitsHold(b, c, plan)
    requires forall key | IsCardKey(b, key) :: MovesJournal(b, c, plan, key)
    ensures ReceivablesSound(WithCapture(b, c, k, plan))
  {
    forall i: nat | i <= |b.captures| ensures AdjustmentsSound(WithCapture(b, c, k, plan), i) {
      CaptureKeepsAdjustments(b, c, k, plan, i);
    }
    CaptureKeepsLinks(b, c, k, plan);
    CaptureMovesReceivables(b, c, k, plan);
  }

  // ---- Refunds and accepted disputes ----

  /** A book in which one more adjustment of one capture was made and posted. */
  ghost predicate Adjusts(b: Book, u: Book, i: nat, customer: Customer, amount: Decimal, split: Split)
    requires i < |b.captures| && customer in b.profiles
  {
    && SameAccounts(b, u) && u.statements == b.statements && u.authorizations == b.authorizations
    && Owns(b, customer, i) && amount > 0 && Allocated(b.captures[i], PriorAdjustments(b, i), amount) == Success(split)
    && |u.captures| == |b.captures| && (forall j | 0 <= j < |b.captures| :: SameCapture(b.captures[j], u.captures[j]))
    && (forall j: nat | j < |b.captures| :: AdjustedBy(b, u, i, amount, split, j))
    && u.journal == b.journal + RefundEntries(b.profiles[customer], split.reduction, split.credit)
  }

  /** The totals of capture `j` moved by the adjustment if it is the one adjusted, and not otherwise. */
  ghost predicate AdjustedBy(b: Book, u: Book, i: nat, amount: Decimal, split: Split, j: nat)
    requires j < |b.captures| == |u.captures|
  {
    && PriorAdjustments(u, j) == PriorAdjustments(b, j) + (if j == i then amount else 0)
    && Reductions(u.refunds, u.disputes, j) ==
       Reductions(b.refunds, b.disputes, j) + (if j == i then split.reduction else 0)
    && RefundCredits(u.refunds, j) + DisputeCredits(u.disputes, j) ==
       RefundCredits(b.refunds, j) + DisputeCredits(b.disputes, j) + (if j == i then split.credit else 0)
    && DisputeTotal(u.disputes, j, false) >= DisputeTotal(b.disputes, j, false)
    && RefundTotal(u.refunds, j) - u.captures[j].refundedUsd == RefundTotal(b.refunds, j) - b.captures[j].refundedUsd
    && u.captures[j].refundedUsd >= b.captures[j].refundedUsd
    && (StatusFits(b.captures[j]) && b.captures[j].refundedUsd >= 0 ==> StatusFits(u.captures[j]))
  }

  lemma AdjustmentKeepsSound(b: Book, u: Book, i: nat, customer: Customer, amount: Decimal, split: Split, j: nat)
    requires i < |b.captures| && customer in b.profiles && Adjusts(b, u, i, customer, amount, split)
    requires j < |b.captures| && AdjustmentsSound(b, j) && AdjustmentsSound(b, i)
    ensures AdjustmentsSound(u, j)
  {
    assert SameCapture(b.captures[j], u.captures[j]);
    assert AdjustedBy(b, u, i, amount, split, j);
    OneMoreAdjustment(b.captures[i], PriorAdjustments(b, i), amount);
  }

  lemma AdjustmentOwes(b: Book, u: Book, i: nat, customer: Customer, amount: Decimal, split: Split, d: Customer, j: nat)
    requires i < |b.captures| && customer in b.profiles && Adjusts(b, u, i, customer, amount, split) && j < |b.captures|
    ensures OwedTerm(u, d)(j) == OwedTerm(b, d)(j) - if j == i && d == customer then split.reduction else 0
  {
    assert SameCapture(b.captures[j], u.captures[j]);
    assert AdjustedBy(b, u, i, amount, split, j);
  }

  lemma AdjustmentMovesJournal(b: Book, u: Book, i: nat, customer: Customer, amount: Decimal, split: Split, d: Customer)
    requires AccountsApart(b) && i < |b.captures| && customer in b.profiles && AdjustmentsSound(b, i)
    requires Adjusts(b, u, i, customer, amount, split) && d in b.profiles
    ensures Balance(u.journal, b.profiles[d].ReceivableKey()) ==
            Balance(b.journal, b.profiles[d].ReceivableKey()) - if d == customer then split.reduction else 0
    ensures Balance(u.journal, b.profiles[d].HeldKey()) == Balance(b.journal, b.profiles[d].HeldKey())
  {
    var es := RefundEntries(b.profiles[customer], split.reduction, split.credit);
    OneMoreAdjustment(b.captures[i], PriorAdjustments(b, i), amount);
    BalanceOfConcat(b.journal, es, b.profiles[d].ReceivableKey());
    BalanceOfConcat(b.journal, es, b.profiles[d].HeldKey());
    RefundEffect(b.profiles[customer], split.reduction, split.credit, b.profiles[d].ReceivableKey());
    RefundEffect(b.profiles[customer], split.reduction, split.credit, b.profiles[d].HeldKey());
  }

  lemma AdjustmentMovesReceivables(b: Book, u: Book, i: nat, customer: Customer, amount: Decimal, split: Split)
    requires AccountsApart(b) && ReceivablesMatch(b) && i < |b.captures| && customer in b.profiles
             && AdjustmentsSound(b, i)
    requires Adjusts(b, u, i, customer, amount, split)
    ensures ReceivablesMatch(u)
  {
    forall d, j: nat | d in b.profiles && j < |b.captures| && j != i ensures OwedTerm(u, d)(j) == OwedTerm(b, d)(j) {
      AdjustmentOwes(b, u, i, customer, amount, split, d, j);
    }
    forall d | d in b.profiles
      ensures Balance(u.journal, b.profiles[d].ReceivableKey()) - Balance(b.journal, b.profiles[d].ReceivableKey()) ==
              OwedTerm(u, d)(i) - OwedTerm(b, d)(i)
    {
      AdjustmentOwes(b, u, i, customer, amount, split, d, i);
      AdjustmentMovesJournal(b, u, i, customer, amount, split, d);
    }
    ReceivablesByCapture(b, u, i, customer);
  }

  lemma AdjustmentKeepsReceivables(b: Book, u: Book, i: nat, customer: Customer, amount: Decimal, split: Split)
    requires ReceivablesSound(b) && i < |b.captures| && customer in b.profiles
             && Adjusts(b, u, i, customer, amount, split)
    requires RowsLinked(u)
    ensures ReceivablesSound(u)
  {
    assert AdjustmentsSound(b, i);
    forall j: nat | j < |u.captures| ensures AdjustmentsSound(u, j) {
      assert AdjustmentsSound(b, j);
      AdjustmentKeepsSound(b, u, i, customer, amount, split, j);
    }
    AdjustmentMovesReceivables(b, u, i, customer, amount, split);
  }

  lemma RefundAdjusts(b: Book, c: Command)
    requires RowsLinked(b) && c.RefundPayment? && c.customer in b.profiles && c.amount > 0 && PlanRefund(b, c).Success?
    ensures c.capture < |b.captures|
    ensures Adjusts(b, WithRefund(b, c, PlanRefund(b, c).value), c.capture, c.customer, c.amount,
            PlanRefund(b, c).value)
    ensures RowsLinked(WithRefund(b, c, PlanRefund(b, c).value))
  {
    var split := PlanRefund(b, c).value;
    var u := WithRefund(b, c, split);
    forall j: nat | j < |b.captures| ensures AdjustedBy(b, u, c.capture, c.amount, split, j) {
      RefundAppended(b.refunds, Refund(c.capture, c.amount, split), j);
    }
    forall d | 0 <= d < |u.disputes|
      ensures Owns(u, u.disputes[d].customer, u.disputes[d].capture) && u.disputes[d].amountUsd > 0
    {
      assert Owns(b, b.disputes[d].customer, b.disputes[d].capture);
    }
  }

  lemma AcceptanceAdjusts(b: Book, n: nat)
    requires RowsLinked(b) && PlanResolution(b, n, true).Success?
    ensures n < |b.disputes| && b.disputes[n].capture < |b.captures|
    ensures var d := PlanResolution(b, n, true).value;
            && Adjusts(b, WithResolution(b, n, d), d.capture, d.customer, d.amountUsd, d.split)
            && RowsLinked(WithResolution(b, n, d))
  {
    var d := PlanResolution(b, n, true).value;
    var u := WithResolution(b, n, d);
    assert Owns(b, b.disputes[n].customer, b.disputes[n].capture) && b.disputes[n].amountUsd > 0;
    forall j: nat | j < |b.captures| ensures AdjustedBy(b, u, d.capture, d.amountUsd, d.split, j) {
      DisputeResolved(b.disputes, n, d, j);
    }
    forall e | 0 <= e < |u.disputes|
      ensures Owns(u, u.disputes[e].customer, u.disputes[e].capture) && u.disputes[e].amountUsd > 0
    {
      assert Owns(b, b.disputes[e].customer, b.disputes[e].capture) && b.disputes[e].amountUsd > 0;
    }
  }

  // ---- Transactions that adjust no capture ----

  /** Captures, refunds and accepted disputes as they were; the receivable moved only by what statements paid. */
  ghost predicate Steady(b: Book, u: Book) {
    && SameAccounts(b, u) && u.captures == b.captures && u.refunds == b.refunds
    && |u.authorizations| >= |b.authorizations|
    && (forall a | 0 <= a < |b.authorizations| :: u.authorizations[a].customer == b.authorizations[a].customer)
    && (forall i: nat | i < |b.captures| ::
          && DisputeTotal(u.disputes, i, false) == DisputeTotal(b.disputes, i, false)
          && DisputeReductions(u.disputes, i) == DisputeReductions(b.disputes, i)
          && DisputeCredits(u.disputes, i) == DisputeCredits(b.disputes, i))
    && (forall c | c in b.profiles ::
          Balance(u.journal, b.profiles[c].ReceivableKey()) - Balance(b.journal, b.profiles[c].ReceivableKey()) ==
          PaidTotal(b.statements, c) - PaidTotal(u.statements, c))
  }

  lemma SteadyKeepsReceivables(b: Book, u: Book)
    requires ReceivablesSound(b) && Steady(b, u) && RowsLinked(u)
    ensures ReceivablesSound(u)
  {
    forall i: nat | i < |u.captures| ensures AdjustmentsSound(u, i) {
      assert AdjustmentsSound(b, i);
    }
    forall c, i: nat | c in b.profiles && i < |b.captures| ensures OwedTerm(u, c)(i) == OwedTerm(b, c)(i) {
      assert b.captures[i].authorization < |b.authorizations|;
    }
    forall c | c in u.profiles
      ensures Balance(u.journal, u.profiles[c].ReceivableKey()) ==
              Sum(OwedTerm(u, c), |u.captures|) - PaidTotal(u.statements, c)
    {
      assert Balance(b.journal, b.profiles[c].ReceivableKey()) ==
          Sum(OwedTerm(b, c), |b.captures|) - PaidTotal(b.statements, c);
      SumSame(OwedTerm(b, c), OwedTerm(u, c), |b.captures|);
    }
  }

  /** Nothing owed is negative: a receivable is short only of what statements paid. */
  lemma OwedIsNonNegative(b: Book, c: Customer)
    requires ReceivablesSound(b) && c in b.profiles
    ensures Sum(OwedTerm(b, c), |b.captures|) >= 0
    ensures Balance(b.journal, b.profiles[c].ReceivableKey()) >= -PaidTotal(b.statements, c)
    ensures (forall s | 0 <= s < |b.statements| && b.statements[s].customer == c :: !b.statements[s].paid) ==>
              Balance(b.journal, b.profiles[c].ReceivableKey()) >= 0
  {
    forall i: nat | i < |b.captures| ensures OwedTerm(b, c)(i) >= 0 {
      assert AdjustmentsSound(b, i);
    }
    SumNonNegative(OwedTerm(b, c), |b.captures|);
    if forall s | 0 <= s < |b.statements| && b.statements[s].customer == c :: !b.statements[s].paid {
      NothingPaid(b.statements, c);
    }
  }

  lemma {:induction false} NothingPaid(ss: seq<Statement>, c: Customer)
    requires forall s | 0 <= s < |ss| && ss[s].customer == c :: !ss[s].paid
    ensures PaidTotal(ss, c) == 0
  {
    if ss != [] {
      NothingPaid(ss[..|ss| - 1], c);
    }
  }
}
