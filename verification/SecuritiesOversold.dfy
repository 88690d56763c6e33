/** A run in which a sale placed before its shares were reserved is filled after: custody is left without the shares. */
module SecuritiesOversold {
  import opened Results
  import opened Decimals
  import opened Entries
  import opened Sums
  import opened Securities
  import opened SecuritiesRuns
  import opened SecuritiesBalance
  import opened SecuritiesPrices
  import opened SecuritiesCustody
  import opened LedgerPostings
  import Ledger
  import Positions

  const OWNER := Owner("P", "AAPL")
  const FUNDING: seq<Entry> := [Entry(4, USD, Settled, Debit, UNIT), Entry(5, USD, Settled, Credit, UNIT)]

  /** A customer with one dollar and no shares. */
  const FUNDED := Book(map[OWNER := SecurityAccounts(1, 2, 3)], map["P" := CashAccounts(4, 5)], [], [], map[], [],
    map[], map[], FUNDING)

  const BOUGHT := BrokerEvent("event-01", 0, [1], 1, Filling(UNIT, UNIT, 1))
  const OPENED := BrokerEvent("event-02", 1, [1], 1, Opened)
  const SOLD := BrokerEvent("event-03", 1, [1], 2, Filling(UNIT, UNIT, 1))

  /** Buy a share, offer it for sale, reserve it, and then the sale fills. */
  const OVERSOLD: seq<Step> := [
    Submit(OWNER, true, UNIT, UNIT, BOUGHT),
    Submit(OWNER, false, UNIT, UNIT, OPENED),
    Reserve(OWNER, UNIT),
    Apply(1, SOLD)
  ]

  lemma OneAtOne()
    ensures Multiply(UNIT, UNIT, NOTIONAL_POLICY) == Success(UNIT)
    ensures Multiply(UNIT, UNIT, Positions.AVERAGE_POLICY) == Success(UNIT)
    ensures Divide(UNIT, UNIT, Positions.AVERAGE_POLICY) == Success(UNIT)
  {
    assert 100 * CENT == UNIT && IsRounded(UNIT * UNIT, UNIT * CENT, HalfEven, 100);
    ProductInCents(UNIT, UNIT, UNIT);
    assert IsRounded(UNIT * UNIT, UNIT, HalfEven, UNIT);
    RoundingIsUnique(UNIT * UNIT, UNIT, HalfEven, UNIT);
  }

  lemma EventKeys()
    ensures Ledger.IsKey("fill." + "event-01") && Ledger.IsKey("fill." + "event-03")
  {
    assert "fill." + "event-01" == "fill.event-01" && "fill." + "event-03" == "fill.event-03";
  }

  /** Pairs of one amount in two currencies, or twice in one, make a posting. */
  lemma PairSide(a: Entry, b: Entry, c: Currency, d: Direction)
    requires a.currency == b.currency && a.amount == b.amount && a.direction != b.direction
    ensures Gross([a, b], c, d) == if c == a.currency then a.amount else 0
  {
    assert [a, b][..1] == [a] && [a][..0] == [];
    assert Gross([a], c, d) == if c == a.currency && d == a.direction then a.amount else 0;
  }

  lemma BuyIsAccepted()
    ensures Check(BuyEntries(SecurityAccounts(1, 2, 3), CashAccounts(4, 5), "AAPL", UNIT, UNIT, 0)).Success?
  {
    var es := BuyEntries(SecurityAccounts(1, 2, 3), CashAccounts(4, 5), "AAPL", UNIT, UNIT, 0);
    var a, b, c := [es[0], es[1]], [es[2], es[3]], [es[4], es[5]];
    assert es == a + b + c;
    forall x, d ensures Gross(es, x, d) == (if x == "AAPL" then UNIT else 0) + (if x == USD then 2 * UNIT else 0) {
      PairSide(es[0], es[1], x, d);
      PairSide(es[2], es[3], x, d);
      PairSide(es[4], es[5], x, d);
      GrossOfConcat(a, b, x, d);
      GrossOfConcat(a + b, c, x, d);
    }
    assert ValidCurrency("AAPL") && ValidCurrency(USD);
    assert ValidEntries(es);
  }

  lemma SellIsAccepted()
    ensures Check(SellEntries(SecurityAccounts(1, 2, 3), CashAccounts(4, 5), "AAPL", UNIT, UNIT)).Success?
  {
    var es := SellEntries(SecurityAccounts(1, 2, 3), CashAccounts(4, 5), "AAPL", UNIT, UNIT);
    var a, b := [es[0], es[1]], [es[2], es[3]];
    assert es == a + b;
    forall x, d ensures Gross(es, x, d) == (if x == "AAPL" then UNIT else 0) + (if x == USD then UNIT else 0) {
      PairSide(es[0], es[1], x, d);
      PairSide(es[2], es[3], x, d);
      GrossOfConcat(a, b, x, d);
    }
    assert ValidCurrency("AAPL") && ValidCurrency(USD);
    assert ValidEntries(es);
  }

  lemma FundedBalances()
    ensures Balance(FUNDING, Key(4, USD, Settled)) == UNIT && Balance(FUNDING, Key(4, USD, ProvisionalBuying)) == 0
  {
    PairBalance(FUNDING[0], FUNDING[1], Key(4, USD, Settled));
    PairBalance(FUNDING[0], FUNDING[1], Key(4, USD, ProvisionalBuying));
  }

  predicate SameAccounts(b: Book) {
    b.accounts == FUNDED.accounts && b.cash == FUNDED.cash
  }

  const SHARE := Positions.Position(UNIT, UNIT, UNIT, 0)

  // ---- The purchase ----

  lemma PurchasePlanned(b: Book, o: Order)
    requires b == FUNDED.(orders := [o]) && o == Order(OWNER, true, UNIT, 0, 0, PendingSubmission, 0)
    ensures PlanFill(b, o, BOUGHT).Success?
    ensures var plan := PlanFill(b, o, BOUGHT).value; plan.position == SHARE && plan.consideration == UNIT
  {
    OneAtOne();
    EventKeys();
    BuyIsAccepted();
    FundedBalances();
    assert ValidCurrency(USD);
    assert Consideration(o, UNIT, UNIT) == Success(UNIT);
    assert FillEntries(b, o, UNIT, UNIT) ==
      Success(BuyEntries(SecurityAccounts(1, 2, 3), CashAccounts(4, 5), "AAPL", UNIT, UNIT, 0));
    assert PositionAfter(b, o, UNIT, UNIT) == Success(SHARE);
    assert FilledAfter(o, BOUGHT, UNIT).Success?;
  }

  ghost predicate AfterPurchase(b: Book) {
    && SameAccounts(b) && |b.orders| == 1 && b.Position(OWNER) == SHARE && OWNER in b.positions && b.reservations == []
    && b.events.Keys == {"event-01"} && b.posted.Keys == {"event-01"} && |b.fills| == 1 && b.fills[0].order == 0
  }

  lemma Purchases()
    ensures AfterPurchase(After(FUNDED, OVERSOLD[0]))
  {
    var o := Order(OWNER, true, UNIT, 0, 0, PendingSubmission, 0);
    OneAtOne();
    FundedBalances();
    assert ValidCurrency(USD);
    assert Capacity(FUNDED, o, UNIT).Success?;
    PurchasePlanned(FUNDED.(orders := [o]), o);
    assert FUNDED.orders + [o] == [o];
  }

  // ---- The offer and the reservation ----

  ghost predicate AfterOffer(b: Book) {
    && SameAccounts(b) && |b.orders| == 2 && b.Position(OWNER) == SHARE && OWNER in b.positions && b.reservations == []
    && b.events.Keys == {"event-01", "event-02"} && b.posted.Keys == {"event-01"}
    && |b.fills| == 1 && b.fills[0].order == 0 && b.orders[1] == Order(OWNER, false, UNIT, 0, 0, Open, 0)
  }

  lemma Offers(b: Book)
    requires AfterPurchase(b)
    ensures AfterOffer(After(b, OVERSOLD[1]))
  {
    var o := Order(OWNER, false, UNIT, 0, 0, PendingSubmission, 0);
    assert Capacity(b, o, UNIT).Success?;
    assert (b.orders + [o])[1] == o;
  }

  ghost predicate AfterReservation(b: Book) {
    && SameAccounts(b) && |b.orders| == 2 && b.Position(OWNER) == SHARE
    && b.reservations == [Reservation(OWNER, UNIT, true)]
    && b.events.Keys == {"event-01", "event-02"} && b.posted.Keys == {"event-01"}
    && |b.fills| == 1 && b.fills[0].order == 0 && b.orders[1] == Order(OWNER, false, UNIT, 0, 0, Open, 0)
  }

  lemma Reserves(b: Book)
    requires AfterOffer(b)
    ensures AfterReservation(After(b, OVERSOLD[2]))
  {
    var es := LockEntries(b.accounts[OWNER], "AAPL", UNIT);
    PairIsAccepted(es[0], es[1]);
    assert ValidCurrency("AAPL");
  }

  // ---- The sale ----

  lemma SalePlanned(b: Book)
    requires AfterReservation(b)
    ensures PlanFill(b, b.orders[1], SOLD).Success? && PlanFill(b, b.orders[1], SOLD).value.position.quantity == 0
  {
    var o := b.orders[1];
    OneAtOne();
    EventKeys();
    SellIsAccepted();
    assert Consideration(o, UNIT, UNIT) == Success(UNIT);
    assert FillEntries(b, o, UNIT, UNIT) ==
      Success(SellEntries(SecurityAccounts(1, 2, 3), CashAccounts(4, 5), "AAPL", UNIT, UNIT));
    assert PositionAfter(b, o, UNIT, UNIT) == Success(Positions.Position(0, 0, 0, 0));
    assert !exists f :: f in b.fills && f.order == SOLD.order && f.sequence == 1;
    assert FilledAfter(o, SOLD, UNIT).Success?;
  }

  lemma Sells(b: Book)
    requires AfterReservation(b)
    ensures var u := After(b, OVERSOLD[3]);
            u.Position(OWNER).quantity == 0 && u.reservations == [Reservation(OWNER, UNIT, true)]
  {
    SalePlanned(b);
  }

  lemma NextStep(n: nat)
    requires n < |OVERSOLD|
    ensures Run(FUNDED, OVERSOLD[..n + 1]) == After(Run(FUNDED, OVERSOLD[..n]), OVERSOLD[n])
  {
    assert OVERSOLD[..n + 1][..n] == OVERSOLD[..n];
  }

  lemma FundedIsInitial()
    ensures Initial(FUNDED)
  {
  }

  lemma Uncovered(b: Book)
    requires b.Position(OWNER).quantity == 0 && b.reservations == [Reservation(OWNER, UNIT, true)]
    ensures !Covered(b, OWNER)
  {
    assert ActiveTerm(b.reservations, OWNER)(0) == UNIT;
    assert InCustody(b, OWNER) == Sum(ActiveTerm(b.reservations, OWNER), 0) + UNIT;
  }

  lemma SoldInTheEnd()
    ensures var u := Run(FUNDED, OVERSOLD);
            u.Position(OWNER).quantity == 0 && u.reservations == [Reservation(OWNER, UNIT, true)]
  {
    ReservedAfterThree();
    NextStep(3);
    Sells(Run(FUNDED, OVERSOLD[..3]));
    assert OVERSOLD[..4] == OVERSOLD;
  }

  lemma ReservedAfterThree()
    ensures AfterReservation(Run(FUNDED, OVERSOLD[..3]))
  {
    OfferedAfterTwo();
    NextStep(2);
    Reserves(Run(FUNDED, OVERSOLD[..2]));
  }

  lemma OfferedAfterTwo()
    ensures AfterOffer(Run(FUNDED, OVERSOLD[..2]))
  {
    NextStep(0);
    assert OVERSOLD[..0] == [];
    Purchases();
    NextStep(1);
    Offers(Run(FUNDED, OVERSOLD[..1]));
  }

  /** The run starts from nothing traded, and ends with a share in custody and none in the position. */
  lemma CustodyIsSold()
    ensures Initial(FUNDED) && !Covered(Run(FUNDED, OVERSOLD), OWNER)
  {
    FundedIsInitial();
    SoldInTheEnd();
    Uncovered(Run(FUNDED, OVERSOLD));
  }
}
