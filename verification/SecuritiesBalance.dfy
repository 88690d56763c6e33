/**
 Cash of the securities product: balanced postings, provisional proceeds never overdrawn, purchases at their price.
 */
module SecuritiesBalance {
  import opened Results
  import opened Decimals
  import opened Entries
  import opened Securities
  import opened SecuritiesRuns

  // ---- Every posting balances each dimension ----

  lemma ApplyStaysBalanced(b: Book, n: nat, e: BrokerEvent)
    requires RolesApart(b) && BalancedPerDimension(b.journal)
    ensures BalancedPerDimension(Applied(b, n, e).book.journal)
  {
    if Applied(b, n, e).result.Success? && e.id !in b.events && e.kind.Filling? {
      var o := b.orders[n];
      PlanFillFacts(b, o, e);
      var plan := PlanFill(b, o, e).value;
      FillPostingMoves(b, o, e.kind.quantity, plan.consideration, o.owner);
      BalancedConcat(b.journal, plan.entries);
    }
  }

  lemma CustodyBalanced(credit: AccountId, debit: AccountId, c: Currency, amount: Decimal)
    requires credit != debit
    ensures BalancedPerDimension(Pair(credit, debit, c, Settled, amount))
  {
    PairEffect(credit, debit, c, Settled, amount, Key(credit, c, Settled));
  }

  lemma ReserveStaysBalanced(b: Book, owner: Owner, quantity: Decimal)
    requires RolesApart(b) && BalancedPerDimension(b.journal)
    ensures BalancedPerDimension(Reserved(b, owner, quantity).book.journal)
  {
    if ReserveRefusal(b, owner, quantity).None? {
      CustodyBalanced(b.accounts[owner].customer, b.accounts[owner].locked, owner.symbol, quantity);
      BalancedConcat(b.journal, LockEntries(b.accounts[owner], owner.symbol, quantity));
    }
  }

  lemma ReleaseStaysBalanced(b: Book, i: nat)
    requires RolesApart(b) && BalancedPerDimension(b.journal)
    ensures BalancedPerDimension(Released(b, i).book.journal)
  {
    if i < |b.reservations| && b.reservations[i].owner in b.accounts {
      var r := b.reservations[i];
      CustodyBalanced(b.accounts[r.owner].locked, b.accounts[r.owner].customer, r.owner.symbol, r.quantity);
      BalancedConcat(b.journal, ReleaseEntries(b.accounts[r.owner], r.owner.symbol, r.quantity));
    }
  }

  lemma StepStaysBalanced(b: Book, s: Step)
    requires RolesApart(b) && BalancedPerDimension(b.journal) && (s.Elsewhere? ==> BalancedPerDimension(s.entries))
    ensures BalancedPerDimension(After(b, s).journal)
  {
    match s
    case Submit(owner, buy, quantity, price, e) =>
      ApplyStaysBalanced(b.(orders := b.orders + [Order(owner, buy, quantity, 0, 0, PendingSubmission, 0)]), |b.orders|,
        e);
    case Apply(n, e) => ApplyStaysBalanced(b, n, e);
    case Cancel(_) =>
    case Reserve(owner, quantity) => ReserveStaysBalanced(b, owner, quantity);
    case Release(i) => ReleaseStaysBalanced(b, i);
    case Elsewhere(es) => BalancedConcat(b.journal, es);
  }

  lemma {:induction false} RunsStayBalanced(b: Book, steps: seq<Step>)
    requires Initial(b) && BalancedPerDimension(b.journal)
    requires forall i | 0 <= i < |steps| && steps[i].Elsewhere? :: BalancedPerDimension(steps[i].entries)
    ensures BalancedPerDimension(Run(b, steps).journal)
  {
    if steps != [] {
      var n := |steps| - 1;
      RunsStayBalanced(b, steps[..n]);
      RunsAreSound(b, steps[..n]);
      StepStaysBalanced(Run(b, steps[..n]), steps[n]);
    }
  }

  /** Over every run of the securities product the ledger sums to zero in each currency and dimension. */
  lemma ZeroSumPerDimension(b: Book, steps: seq<Step>, c: Currency, d: Dimension)
    requires Initial(b) && BalancedPerDimension(b.journal)
    requires forall i | 0 <= i < |steps| && steps[i].Elsewhere? :: BalancedPerDimension(steps[i].entries)
    ensures DimensionTotal(Run(b, steps).journal, c, d) == 0
  {
    RunsStayBalanced(b, steps);
  }

  // ---- Every posting passes the ledger's check ----

  lemma ApplyIsAccepted(b: Book, n: nat, e: BrokerEvent)
    requires MadeOfPostings(b.journal)
    ensures MadeOfPostings(Applied(b, n, e).book.journal)
  {
    if Applied(b, n, e).result.Success? && e.id !in b.events && e.kind.Filling? {
      PostingAppended(b.journal, PlanFill(b, b.orders[n], e).value.entries);
    }
  }

  lemma StepIsAccepted(b: Book, s: Step)
    requires MadeOfPostings(b.journal) && (s.Elsewhere? ==> Check(s.entries).Success?)
    ensures MadeOfPostings(After(b, s).journal)
  {
    match s
    case Submit(owner, buy, quantity, price, e) =>
      ApplyIsAccepted(b.(orders := b.orders + [Order(owner, buy, quantity, 0, 0, PendingSubmission, 0)]), |b.orders|,
        e);
    case Apply(n, e) => ApplyIsAccepted(b, n, e);
    case Cancel(_) =>
    case Reserve(owner, quantity) =>
      if ReserveRefusal(b, owner, quantity).None? {
        PostingAppended(b.journal, LockEntries(b.accounts[owner], owner.symbol, quantity));
      }
    case Release(i) =>
      if Released(b, i).book != b {
        var r := b.reservations[i];
        PostingAppended(b.journal, ReleaseEntries(b.accounts[r.owner], r.owner.symbol, r.quantity));
      }
    case Elsewhere(es) => PostingAppended(b.journal, es);
  }

  /** Over every run of the securities product the journal is made of postings that pass the ledger's check. */
  lemma {:induction false} JournalIsAccepted(b: Book, steps: seq<Step>)
    requires MadeOfPostings(b.journal)
    requires forall i | 0 <= i < |steps| && steps[i].Elsewhere? :: Check(steps[i].entries).Success?
    ensures MadeOfPostings(Run(b, steps).journal)
  {
    if steps != [] {
      var n := |steps| - 1;
      JournalIsAccepted(b, steps[..n]);
      StepIsAccepted(Run(b, steps[..n]), steps[n]);
    }
  }

  // ---- Provisional proceeds ----

  function Provisional(b: Book, account: Paper): int
    requires account in b.cash
  {
    Balance(b.journal, CashKey(b, account, ProvisionalBuying))
  }

  /** Postings of other products leave provisional proceeds alone: nothing else in the repository posts them. */
  predicate SparesProvisional(b: Book, es: seq<Entry>) {
    forall i, m | 0 <= i < |es| && m in b.cash ::
        es[i].dimension != ProvisionalBuying || es[i].account != b.cash[m].cash
  }

  lemma {:induction false} SparedProvisional(b: Book, es: seq<Entry>, m: Paper)
    requires SparesProvisional(b, es) && m in b.cash
    ensures Balance(es, CashKey(b, m, ProvisionalBuying)) == 0
  {
    if es != [] {
      SparedProvisional(b, es[..|es| - 1], m);
      assert es[|es| - 1].dimension != ProvisionalBuying || es[|es| - 1].account != b.cash[m].cash;
    }
  }

  /** A purchase takes at most what is there; a sale only adds. */
  lemma FillProvisional(b: Book, o: Order, quantity: Decimal, consideration: Decimal, m: Paper)
    requires RolesApart(b) && b.Knows(o.owner) && m in b.cash && Provisional(b, m) >= 0 && consideration > 0
    requires FillEntries(b, o, quantity, consideration).Success?
    ensures Balance(b.journal + FillEntries(b, o, quantity, consideration).value, CashKey(b, m, ProvisionalBuying)) >= 0
  {
    var s, c := b.accounts[o.owner], b.cash[o.owner.account];
    var k := CashKey(b, m, ProvisionalBuying);
    var es := FillEntries(b, o, quantity, consideration).value;
    BalanceOfConcat(b.journal, es, k);
    if o.buy {
      var provisional := ReadBalance(b.journal, CashKey(b, o.owner.account, ProvisionalBuying)).value;
      BuyProvisional(s, c, o.owner.symbol, quantity, consideration, provisional, k);
    } else {
      SellProvisional(s, c, o.owner.symbol, quantity, consideration, k);
    }
  }

  lemma SellProvisional(s: SecurityAccounts, c: CashAccounts, symbol: Currency, quantity: Decimal,
      consideration: Decimal, k: Key)
    requires c.cash != c.funding && k.dimension == ProvisionalBuying && k.account != c.funding
    ensures Balance(SellEntries(s, c, symbol, quantity, consideration), k) ==
            if k == Key(c.cash, USD, ProvisionalBuying) then consideration else 0
  {
    var a := Pair(s.customer, s.inventory, symbol, Settled, quantity);
    var b := [Entry(c.cash, USD, ProvisionalBuying, Debit, consideration),
              Entry(c.funding, USD, ProvisionalBuying, Credit, consideration)];
    PairBalance(a[0], a[1], k);
    PairBalance(b[0], b[1], k);
    BalanceOfConcat(a, b, k);
  }

  lemma BuyProvisional(s: SecurityAccounts, c: CashAccounts, symbol: Currency, quantity: Decimal,
      consideration: Decimal,
                       provisional: Decimal, k: Key)
    requires c.cash != c.funding && k.dimension == ProvisionalBuying && k.account != c.funding
    ensures var first := FromProvisional(provisional, consideration);
            Balance(BuyEntries(s, c, symbol, quantity, consideration, provisional), k) ==
            if k == Key(c.cash, USD, ProvisionalBuying) && first > 0 then -first else 0
  {
    var first := FromProvisional(provisional, consideration);
    var rest := consideration - first;
    var shares := [Entry(s.customer, symbol, Settled, Debit, quantity),
      Entry(s.inventory, symbol, Settled, Credit, quantity)];
    var part := if first > 0 then Pair(c.cash, c.funding, USD, ProvisionalBuying, first) else [];
    var x, y := Pair(c.cash, c.funding, USD, Settled, rest), Pair(c.cash, c.funding, USD, Withdrawable, rest);
    PairBalance(shares[0], shares[1], k);
    PairEffect(c.cash, c.funding, USD, ProvisionalBuying, first, k);
    PairBalance(x[0], x[1], k);
    PairBalance(y[0], y[1], k);
    BalanceOfConcat(x, y, k);
    BalanceOfConcat(shares, part, k);
    BalanceOfConcat(shares + part, if rest > 0 then x + y else [], k);
  }

  lemma ApplyProvisional(b: Book, n: nat, e: BrokerEvent, m: Paper)
    requires RolesApart(b) && m in b.cash && Provisional(b, m) >= 0
    ensures m in Applied(b, n, e).book.cash && Provisional(Applied(b, n, e).book, m) >= 0
  {
    if Applied(b, n, e).result.Success? && e.id !in b.events && e.kind.Filling? {
      var o := b.orders[n];
      PlanFillFacts(b, o, e);
      PlanIsPositive(b, o, e);
      FillProvisional(b, o, e.kind.quantity, PlanFill(b, o, e).value.consideration, m);
    }
  }

  lemma ConsiderationIsPositive(o: Order, quantity: Decimal, price: Decimal)
    requires Consideration(o, quantity, price).Success?
    ensures Consideration(o, quantity, price).value > 0
  {
  }

  /** A planned fill has a positive price in dollars, which for a purchase the buying power covers. */
  lemma PlanIsPositive(b: Book, o: Order, e: BrokerEvent)
    requires e.kind.Filling? && b.Knows(o.owner) && PlanFill(b, o, e).Success?
    ensures Consideration(o, e.kind.quantity, e.kind.price) == Success(PlanFill(b, o, e).value.consideration)
    ensures PlanFill(b, o, e).value.consideration > 0
    ensures Affordable(b, o, PlanFill(b, o, e).value.consideration).Success?
  {
    ConsiderationIsPositive(o, e.kind.quantity, e.kind.price);
  }

  /** Shares move in the settled dimension. */
  lemma CustodyProvisional(journal: seq<Entry>, credit: AccountId, debit: AccountId, c: Currency, amount: Decimal,
      k: Key)
    requires k.dimension == ProvisionalBuying
    ensures Balance(journal + Pair(credit, debit, c, Settled, amount), k) == Balance(journal, k)
  {
    var es := Pair(credit, debit, c, Settled, amount);
    PairBalance(es[0], es[1], k);
    BalanceOfConcat(journal, es, k);
  }

  lemma ReserveProvisional(b: Book, owner: Owner, quantity: Decimal, m: Paper)
    requires m in b.cash
    ensures var u := Reserved(b, owner, quantity).book; u.cash == b.cash && Provisional(u, m) == Provisional(b, m)
  {
    if ReserveRefusal(b, owner, quantity).None? {
      CustodyProvisional(b.journal, b.accounts[owner].customer, b.accounts[owner].locked, owner.symbol, quantity,
                         CashKey(b, m, ProvisionalBuying));
    }
  }

  lemma ReleaseProvisional(b: Book, i: nat, m: Paper)
    requires m in b.cash
    ensures var u := Released(b, i).book; u.cash == b.cash && Provisional(u, m) == Provisional(b, m)
  {
    if i < |b.reservations| && b.reservations[i].owner in b.accounts {
      var r := b.reservations[i];
      CustodyProvisional(b.journal, b.accounts[r.owner].locked, b.accounts[r.owner].customer, r.owner.symbol,
        r.quantity,
                         CashKey(b, m, ProvisionalBuying));
    }
  }

  lemma StepProvisional(b: Book, s: Step, m: Paper)
    requires RolesApart(b) && m in b.cash && Provisional(b, m) >= 0
             && (s.Elsewhere? ==> SparesProvisional(b, s.entries))
    ensures m in After(b, s).cash && Provisional(After(b, s), m) >= 0
  {
    match s
    case Submit(owner, buy, quantity, price, e) =>
      ApplyProvisional(b.(orders := b.orders + [Order(owner, buy, quantity, 0, 0, PendingSubmission, 0)]), |b.orders|,
        e, m);
    case Apply(n, e) => ApplyProvisional(b, n, e, m);
    case Cancel(_) =>
    case Reserve(owner, quantity) => ReserveProvisional(b, owner, quantity, m);
    case Release(i) => ReleaseProvisional(b, i, m);
    case Elsewhere(es) =>
      BalanceOfConcat(b.journal, es, CashKey(b, m, ProvisionalBuying));
      SparedProvisional(b, es, m);
  }

  /** The other products of a run, seen from its first book. */
  ghost predicate Sparing(b: Book, steps: seq<Step>) {
    SparesProvisional(b, b.journal)
    && forall i | 0 <= i < |steps| && steps[i].Elsewhere? :: SparesProvisional(b, steps[i].entries)
  }

  /** Over every run no customer's provisional proceeds are ever overdrawn. */
  lemma {:induction false} ProvisionalIsNeverOverdrawn(b: Book, steps: seq<Step>, m: Paper)
    requires Initial(b) && Sparing(b, steps) && m in b.cash
    ensures m in Run(b, steps).cash && Provisional(Run(b, steps), m) >= 0
  {
    if steps == [] {
      SparedProvisional(b, b.journal, m);
    } else {
      var n := |steps| - 1;
      ProvisionalIsNeverOverdrawn(b, steps[..n], m);
      RunsAreSound(b, steps[..n]);
      RunKeepsEvents(b, steps[..n]);
      StepProvisional(Run(b, steps[..n]), steps[n], m);
    }
  }

  // ---- Purchases ----

  /** What a customer can buy with: settled cash and provisional proceeds. */
  function Power(b: Book, account: Paper): int
    requires account in b.cash
  {
    Balance(b.journal, CashKey(b, account, Settled)) + Provisional(b, account)
  }

  lemma PurchasePower(b: Book, o: Order, quantity: Decimal, consideration: Decimal)
    requires RolesApart(b) && b.Knows(o.owner) && o.buy && consideration > 0 && Provisional(b, o.owner.account) >= 0
    requires FillEntries(b, o, quantity, consideration).Success? && Affordable(b, o, consideration).Success?
    ensures var es := FillEntries(b, o, quantity, consideration).value;
            var m := o.owner.account;
            && Balance(b.journal + es, CashKey(b, m, Settled))
               + Balance(b.journal + es, CashKey(b, m, ProvisionalBuying)) ==
               Power(b, m) - consideration
            && consideration <= Power(b, m)
  {
    var s, c := b.accounts[o.owner], b.cash[o.owner.account];
    var m := o.owner.account;
    var provisional := ReadBalance(b.journal, CashKey(b, m, ProvisionalBuying)).value;
    var es := FillEntries(b, o, quantity, consideration).value;
    BuyEffect(s, c, o.owner.symbol, quantity, consideration, provisional, CashKey(b, m, Settled));
    BuyEffect(s, c, o.owner.symbol, quantity, consideration, provisional, CashKey(b, m, ProvisionalBuying));
    BalanceOfConcat(b.journal, es, CashKey(b, m, Settled));
    BalanceOfConcat(b.journal, es, CashKey(b, m, ProvisionalBuying));
  }

  /** After any run a purchase takes exactly its price from the buying power, and never more than there is. */
  lemma PurchaseCostsItsPrice(b: Book, steps: seq<Step>, n: nat, e: BrokerEvent)
    requires Initial(b) && Sparing(b, steps) && n < |Run(b, steps).orders| && Run(b, steps).orders[n].buy
    requires e.kind.Filling? && e.id !in Run(b, steps).events && Applied(Run(b, steps), n, e).result.Success?
    ensures var u := Run(b, steps);
            var v := Applied(u, n, e).book;
            var m := u.orders[n].owner.account;
            && m in u.cash && m in v.cash && |v.fills| == |u.fills| + 1
            && Power(v, m) == Power(u, m) - v.fills[|u.fills|].consideration && Power(v, m) >= 0
            && v.fills[|u.fills|].consideration > 0
  {
    var u := Run(b, steps);
    var o := u.orders[n];
    RunsAreSound(b, steps);
    RunKeepsEvents(b, steps);
    ProvisionalIsNeverOverdrawn(b, steps, o.owner.account);
    var plan := PlanFill(u, o, e).value;
    PlanFillFacts(u, o, e);
    PlanIsPositive(u, o, e);
    PurchasePower(u, o, e.kind.quantity, plan.consideration);
    assert e.id !in u.posted;
  }
}
