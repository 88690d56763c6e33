/** The postings of the card product: what each builder books, and on which balances. */
module CardLedger {
  import opened Results
  import opened Decimals
  import opened Entries
  import opened AutoSell

  datatype RepaymentMode = CashOnly | CashThenAutoSell | MonthlyStatement

  /** A customer's ledger accounts and card settings. */
  datatype Profile = Profile(cash: AccountId, receivable: AccountId, clearing: AccountId, mode: RepaymentMode,
      frozen: bool)
  {
    predicate Apart() {
      cash != receivable && cash != clearing && receivable != clearing
    }

    function HeldKey(): Key {
      Key(receivable, USD, Held)
    }

    function ReceivableKey(): Key {
      Key(receivable, USD, Receivable)
    }

    function SettledCash(): Key {
      Key(cash, USD, Settled)
    }

    function WithdrawableCash(): Key {
      Key(cash, USD, Withdrawable)
    }
  }

  /** One amount from one account to another within a dimension. */
  function Move(debit: AccountId, credit: AccountId, d: Dimension, amount: Decimal): seq<Entry> {
    [Entry(debit, USD, d, Debit, amount), Entry(credit, USD, d, Credit, amount)]
  }

  /** The same with the crediting side written first. */
  function Payment(credit: AccountId, debit: AccountId, d: Dimension, amount: Decimal): seq<Entry> {
    [Entry(credit, USD, d, Credit, amount), Entry(debit, USD, d, Debit, amount)]
  }

  function HoldEntries(p: Profile, amount: Decimal): seq<Entry> {
    Move(p.receivable, p.clearing, Held, amount)
  }

  function ReleaseEntries(p: Profile, amount: Decimal): seq<Entry> {
    Move(p.clearing, p.receivable, Held, amount)
  }

  function CaptureEntries(p: Profile, settled: Decimal, hold: Decimal): seq<Entry> {
    Move(p.receivable, p.clearing, Receivable, settled) + if hold > 0 then ReleaseEntries(p, hold) else []
  }

  /** Repayments of captures and statements: both cash dimensions fall with the receivable. */
  function RepaymentEntries(p: Profile, amount: Decimal): seq<Entry> {
    Payment(p.cash, p.clearing, Settled, amount) + Payment(p.cash, p.clearing, Withdrawable, amount)
    + Payment(p.receivable, p.clearing, Receivable, amount)
  }

  function RefundEntries(p: Profile, reduction: Decimal, credit: Decimal): seq<Entry> {
    (if reduction > 0 then Move(p.clearing, p.receivable, Receivable, reduction) else [])
    + (if credit > 0 then Move(p.cash, p.clearing, Settled, credit) + Move(p.cash, p.clearing, Withdrawable, credit)
      else [])
  }

  lemma MoveEffect(debit: AccountId, credit: AccountId, d: Dimension, amount: Decimal, k: Key)
    requires debit != credit
    ensures Balance(Move(debit, credit, d, amount), k) ==
            if k == Key(debit, USD, d) then amount else if k == Key(credit, USD, d) then -amount else 0
    ensures BalancedPerDimension(Move(debit, credit, d, amount))
  {
    var es := Move(debit, credit, d, amount);
    PairBalance(es[0], es[1], k);
    forall c, e ensures DimensionTotal(es, c, e) == 0 {
      PairTotal(es[0], es[1], c, e);
    }
  }

  lemma PaymentEffect(credit: AccountId, debit: AccountId, d: Dimension, amount: Decimal, k: Key)
    requires debit != credit
    ensures Balance(Payment(credit, debit, d, amount), k) ==
            if k == Key(debit, USD, d) then amount else if k == Key(credit, USD, d) then -amount else 0
    ensures BalancedPerDimension(Payment(credit, debit, d, amount))
  {
    var es := Payment(credit, debit, d, amount);
    PairBalance(es[0], es[1], k);
    forall c, e ensures DimensionTotal(es, c, e) == 0 {
      PairTotal(es[0], es[1], c, e);
    }
  }

  lemma HoldEffect(p: Profile, amount: Decimal, k: Key)
    requires p.Apart()
    ensures k.account != p.clearing ==> Balance(HoldEntries(p, amount), k) == if k == p.HeldKey() then amount else 0
    ensures BalancedPerDimension(HoldEntries(p, amount))
  {
    MoveEffect(p.receivable, p.clearing, Held, amount, k);
  }

  lemma ReleaseEffect(p: Profile, amount: Decimal, k: Key)
    requires p.Apart()
    ensures k.account != p.clearing ==> Balance(ReleaseEntries(p, amount), k) == if k == p.HeldKey() then -amount else 0
    ensures BalancedPerDimension(ReleaseEntries(p, amount))
  {
    MoveEffect(p.clearing, p.receivable, Held, amount, k);
  }

  lemma CaptureEffect(p: Profile, settled: Decimal, hold: Decimal, k: Key)
    requires p.Apart() && hold >= 0
    ensures k.account != p.clearing ==>
              Balance(CaptureEntries(p, settled, hold), k) ==
              if k == p.ReceivableKey() then settled else if k == p.HeldKey() then -hold else 0
    ensures BalancedPerDimension(CaptureEntries(p, settled, hold))
  {
    var first := Move(p.receivable, p.clearing, Receivable, settled);
    var second := if hold > 0 then ReleaseEntries(p, hold) else [];
    MoveEffect(p.receivable, p.clearing, Receivable, settled, k);
    ReleaseEffect(p, hold, k);
    BalanceOfConcat(first, second, k);
    BalancedConcat(first, second);
  }

  lemma RepaymentEffect(p: Profile, amount: Decimal, k: Key)
    requires p.Apart()
    ensures k.account != p.clearing ==>
              Balance(RepaymentEntries(p, amount), k) ==
              if k == p.SettledCash() || k == p.WithdrawableCash() || k == p.ReceivableKey() then -amount else 0
    ensures BalancedPerDimension(RepaymentEntries(p, amount))
  {
    var a, b, c := Payment(p.cash, p.clearing, Settled, amount), Payment(p.cash, p.clearing, Withdrawable, amount),
      Payment(p.receivable, p.clearing, Receivable, amount);
    PaymentEffect(p.cash, p.clearing, Settled, amount, k);
    PaymentEffect(p.cash, p.clearing, Withdrawable, amount, k);
    PaymentEffect(p.receivable, p.clearing, Receivable, amount, k);
    BalanceOfConcat(a, b, k);
    BalanceOfConcat(a + b, c, k);
    BalancedConcat(a, b);
    BalancedConcat(a + b, c);
  }

  lemma RefundEffect(p: Profile, reduction: Decimal, credit: Decimal, k: Key)
    requires p.Apart() && reduction >= 0 && credit >= 0
    ensures k.account != p.clearing ==>
              Balance(RefundEntries(p, reduction, credit), k) ==
              if k == p.ReceivableKey() then -reduction
              else if k == p.SettledCash() || k == p.WithdrawableCash() then credit else 0
    ensures BalancedPerDimension(RefundEntries(p, reduction, credit))
  {
    var first := if reduction > 0 then Move(p.clearing, p.receivable, Receivable, reduction) else [];
    var a, b := Move(p.cash, p.clearing, Settled, credit), Move(p.cash, p.clearing, Withdrawable, credit);
    var second := if credit > 0 then a + b else [];
    MoveEffect(p.clearing, p.receivable, Receivable, reduction, k);
    MoveEffect(p.cash, p.clearing, Settled, credit, k);
    MoveEffect(p.cash, p.clearing, Withdrawable, credit, k);
    BalanceOfConcat(a, b, k);
    BalancedConcat(a, b);
    BalanceOfConcat(first, second, k);
    BalancedConcat(first, second);
  }

  lemma MoveGross(debit: AccountId, credit: AccountId, d: Dimension, amount: Decimal, c: Currency, side: Direction)
    ensures Gross(Move(debit, credit, d, amount), c, side) == if c == USD then amount else 0
  {
    var es := Move(debit, credit, d, amount);
    assert es[..1] == [es[0]] && es[..1][..0] == [];
    assert Gross(es[..1], c, side) == if c == USD && side == Debit then amount else 0;
  }

  lemma RefundGross(p: Profile, reduction: Decimal, credit: Decimal, c: Currency, side: Direction)
    requires reduction >= 0 && credit >= 0
    ensures Gross(RefundEntries(p, reduction, credit), c, side) == if c == USD then reduction + 2 * credit else 0
  {
    var first := if reduction > 0 then Move(p.clearing, p.receivable, Receivable, reduction) else [];
    var a, b := Move(p.cash, p.clearing, Settled, credit), Move(p.cash, p.clearing, Withdrawable, credit);
    MoveGross(p.clearing, p.receivable, Receivable, reduction, c, side);
    MoveGross(p.cash, p.clearing, Settled, credit, c, side);
    MoveGross(p.cash, p.clearing, Withdrawable, credit, c, side);
    GrossOfConcat(a, b, c, side);
    GrossOfConcat(first, if credit > 0 then a + b else [], c, side);
  }

  /** A split of a positive amount always makes a posting, and the ledger takes it whenever its sides fit a decimal. */
  lemma RefundIsAccepted(p: Profile, reduction: Decimal, credit: Decimal)
    requires reduction >= 0 && credit >= 0 && reduction + credit > 0
    ensures |RefundEntries(p, reduction, credit)| >= 2
    ensures Check(RefundEntries(p, reduction, credit)).Success? <==> reduction + 2 * credit < LIMIT
  {
    var es := RefundEntries(p, reduction, credit);
    RefundEntriesAreValid(p, reduction, credit);
    forall c, side ensures Gross(es, c, side) == if c == USD then reduction + 2 * credit else 0 {
      RefundGross(p, reduction, credit, c, side);
    }
    assert -LIMIT < Gross(es, USD, Debit) < LIMIT <==> reduction + 2 * credit < LIMIT;
  }

  lemma RefundEntriesAreValid(p: Profile, reduction: Decimal, credit: Decimal)
    requires reduction >= 0 && credit >= 0 && reduction + credit > 0
    ensures ValidEntries(RefundEntries(p, reduction, credit)) && 2 <= |RefundEntries(p, reduction, credit)| <= 6
  {
  }
}
