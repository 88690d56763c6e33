/**
 What a conversion's status and legs say about each other, that its second leg spends what its first brought, and that
 nobody converts or withdraws crypto they do not have.
 */
module CryptoStatus {
  import opened Results
  import opened Decimals
  import opened Entries
  import opened Router
  import opened Crypto
  import opened CryptoRuns
  import opened CryptoFunds
  import Ledger

  // ---- One conversion ----

  predicate IsFilled(r: Option<Route>) {
    r.Some? && r.value.status.RouteFilled?
  }

  predicate IsPartial(r: Option<Route>) {
    r.Some? && r.value.status.RoutePartial?
  }

  predicate IsFailed(r: Option<Route>) {
    r.Some? && (r.value.status.RouteFailed? || r.value.status.RouteBlocked?)
  }

  predicate HasSale(x: Conversion) {
    x.source != USD
  }

  predicate HasTwoLegs(x: Conversion) {
    x.source != USD && x.destination != USD
  }

  /** FILLED when every leg is, PARTIALLY_FILLED when every leg traded but not all of it, FAILED when a leg failed. */
  ghost predicate StatusFits(x: Conversion, first: Option<Route>, second: Option<Route>) {
    match x.status
    case Routing => (first.None? || (HasTwoLegs(x) && !IsFailed(first))) && second.None?
    case Filled => IsFilled(first) && (HasTwoLegs(x) ==> IsFilled(second))
    case PartiallyFilled =>
      if HasTwoLegs(x) then !IsFailed(first) && (IsPartial(second) || (IsFilled(second) && IsPartial(first)))
      else IsPartial(first)
    case Failed => IsFailed(first) || (HasTwoLegs(x) && IsFailed(second))
    case ReviewRequired =>
      && HasSale(x) && first.Some? && first.value.filled > 0
      && (HasTwoLegs(x) ==> IsFailed(second) && second.value.filled == 0)
  }

  /**
   A sale sells what was reserved; a purchase spends what was reserved, or what the sale brought, on the destination.
   */
  ghost predicate LegsFollow(x: Conversion, first: Option<Route>, second: Option<Route>) {
    && (first.Some? ==>
         first.value.input == x.amount && first.value.asset == if HasSale(x) then x.source else x.destination)
    && (second.Some? ==>
         && HasTwoLegs(x) && first.Some? && second.value.input == first.value.final
         && second.value.asset == x.destination)
  }

  ghost predicate ConversionFits(b: Book, i: nat)
    requires i < |b.conversions|
  {
    var x, first, second := b.conversions[i], RouteOf(b, i, 1), RouteOf(b, i, 2);
    StatusFits(x, first, second) && LegsFollow(x, first, second) && x.source != x.destination
  }

  ghost predicate AllFit(b: Book) {
    forall i: nat | i < |b.conversions| :: ConversionFits(b, i)
  }

  lemma OthersFit(b: Book, u: Book, i: nat, more: seq<Leg>)
    requires AllFit(b) && i < |u.conversions| == |b.conversions| && u.legs == b.legs + more
    requires forall j | 0 <= j < |b.conversions| && j != i :: u.conversions[j] == b.conversions[j]
    requires forall l | 0 <= l < |more| :: more[l].conversion == i
    requires ConversionFits(u, i)
    ensures AllFit(u)
  {
    forall j: nat | j < |u.conversions| ensures ConversionFits(u, j) {
      if j != i {
        SameRoute(b, u, more, j, 1);
        SameRoute(b, u, more, j, 2);
        assert ConversionFits(b, j);
      }
    }
  }

  /** What the router reports for a sale or a purchase: its own input and asset, and never BLOCKED. */
  lemma SaleReport(asset: string, quantity: Decimal, rate: Decimal, cs: Candidates, r: Route)
    requires SaleRoute(asset, quantity, rate, cs) == Success(r)
    ensures r.input == quantity && r.asset == asset && !r.status.RouteBlocked?
    ensures r.filled > 0 ==> !r.status.RouteFailed?
  {
  }

  lemma PurchaseReport(asset: string, budget: Decimal, rate: Decimal, cs: Candidates, r: Route)
    requires PurchaseRoute(asset, budget, rate, cs) == Success(r)
    ensures r.input == budget && r.asset == asset && !r.status.RouteBlocked?
  {
  }

  lemma SaleFits(b: Book, i: nat, r: Route, review: bool)
    requires AllFit(b) && i < |b.conversions| && b.Knows(b.conversions[i].customer, b.conversions[i].source)
    requires b.conversions[i].source != USD && !HasLeg(b, i, 1) && !HasLeg(b, i, 2)
    requires r.input == b.conversions[i].amount && r.asset == b.conversions[i].source && !r.status.RouteBlocked?
    requires (r.filled > 0 ==> !r.status.RouteFailed?) && (review ==> r.filled > 0)
    ensures AllFit(WithSell(b, i, r, review))
  {
    var x, u := b.conversions[i], WithSell(b, i, r, review);
    SaleRoutes(b, i, r, review);
    SecondOfSale(b, i, r, review);
    assert ConversionFits(b, i);
    OthersFit(b, u, i, SellLegs(i, x, r, review));
  }

  /** Only a reviewed sale of a conversion into another asset records a second leg, and blocks it. */
  lemma SecondOfSale(b: Book, i: nat, r: Route, review: bool)
    requires i < |b.conversions| && b.Knows(b.conversions[i].customer, b.conversions[i].source)
    requires b.conversions[i].source != USD && !HasLeg(b, i, 1) && !HasLeg(b, i, 2)
    ensures var x := b.conversions[i];
            RouteOf(WithSell(b, i, r, review), i, 2) ==
            if review && x.destination != USD then Some(Blocked(x.destination, r.final)) else None
  {
    var x, u := b.conversions[i], WithSell(b, i, r, review);
    var more := SellLegs(i, x, r, review)[1..];
    assert SellLegs(i, x, r, review) == [Leg(i, 1, r)] + more;
    if |more| == 1 {
      var v := b.(legs := b.legs + [Leg(i, 1, r)]);
      assert u.legs == v.legs + ([more[0]] + []);
      HasLegAfter(b, v, [Leg(i, 1, r)], i, 2);
      FoundRoute(v, u, i, more[0], []);
    } else {
      SameRoute(b, u, SellLegs(i, x, r, review), i, 2);
    }
  }

  lemma PurchaseFits(b: Book, i: nat, r: Route)
    requires AllFit(b) && i < |b.conversions| && b.Knows(b.conversions[i].customer, b.conversions[i].source)
    requires (b.conversions[i].customer, r.asset) in b.assets && !HasLeg(b, i, BuySequence(b.conversions[i]))
    requires b.conversions[i].status.Routing? && Budget(b, i) == Some(r.input)
    requires r.asset == b.conversions[i].destination != USD && !r.status.RouteBlocked?
    ensures AllFit(WithBuy(b, i, r))
  {
    var x, u := b.conversions[i], WithBuy(b, i, r);
    PurchaseRoutes(b, i, r);
    if x.source == USD {
      SameRoute(b, u, [Leg(i, 1, r)], i, 2);
    }
    assert ConversionFits(b, i);
    OthersFit(b, u, i, [Leg(i, BuySequence(x), r)]);
  }

  lemma SaleStepFits(b: Book, i: nat, rate: Decimal, venues: Candidates, flagged: bool)
    requires AllFit(b)
    ensures AllFit(SaleSettled(b, i, rate, venues, flagged).book)
  {
    if SaleSettled(b, i, rate, venues, flagged).book != b {
      var x := b.conversions[i];
      var r := SaleRoute(x.source, x.amount, rate, venues).value;
      SaleReport(x.source, x.amount, rate, venues, r);
      assert !HasLeg(b, i, 1) && !HasLeg(b, i, 2);
      SaleFits(b, i, r, flagged && r.filled > 0);
    }
  }

  lemma PurchaseStepFits(b: Book, i: nat, rate: Decimal, venues: Candidates)
    requires AllFit(b)
    ensures AllFit(PurchaseSettled(b, i, rate, venues).book)
  {
    if PurchaseSettled(b, i, rate, venues).book != b {
      var x := b.conversions[i];
      var r := PurchaseRoute(x.destination, Budget(b, i).value, rate, venues).value;
      PurchaseReport(x.destination, Budget(b, i).value, rate, venues, r);
      PurchaseFits(b, i, r);
    }
  }

  lemma OtherStepFits(b: Book, s: Step)
    requires Sound(b) && AllFit(b) && !s.SettleSale? && !s.SettlePurchase?
    ensures AllFit(After(b, s))
  {
    var u := After(b, s);
    LegsUntouched(b, s);
    assert forall i: nat | i < |b.conversions| :: u.conversions[i] == b.conversions[i];
    NewRowsRoute(b, s);
    forall i: nat | i < |u.conversions| ensures ConversionFits(u, i) {
      SameRoute(b, u, [], i, 1);
      SameRoute(b, u, [], i, 2);
      if i < |b.conversions| {
        assert ConversionFits(b, i);
      } else {
        assert !HasLeg(b, i, 1) && !HasLeg(b, i, 2);
      }
    }
  }

  lemma NewRowsRoute(b: Book, s: Step)
    requires !s.SettleSale? && !s.SettlePurchase?
    ensures var u := After(b, s);
            forall i | |b.conversions| <= i < |u.conversions| ::
              u.conversions[i].status.Routing? && u.conversions[i].source != u.conversions[i].destination
  {
    match s
    case ApplyEvent(id, e) => EventLeavesLegs(b, id, e);
    case _ =>
  }

  lemma {:induction false} RunsFit(b: Book, steps: seq<Step>)
    requires Initial(b)
    ensures AllFit(Run(b, steps))
  {
    if steps != [] {
      var before, s := Run(b, steps[..|steps| - 1]), steps[|steps| - 1];
      RunsFit(b, steps[..|steps| - 1]);
      RunsAreSound(b, steps[..|steps| - 1]);
      match s
      case SettleSale(i, rate, venues, flagged) => SaleStepFits(before, i, rate, venues, flagged);
      case SettlePurchase(i, rate, venues) => PurchaseStepFits(before, i, rate, venues);
      case _ => OtherStepFits(before, s);
    }
  }

  /**
   Over every run a conversion's status says what its legs did, its first leg trades exactly what was reserved, and its
   second spends exactly what the first brought.
   */
  lemma StatusSaysLegs(b: Book, steps: seq<Step>, i: nat)
    requires Initial(b) && i < |Run(b, steps).conversions|
    ensures ConversionFits(Run(b, steps), i)
  {
    RunsFit(b, steps);
  }

  /** Settling a sale, now or again, answers whether the conversion is finished by it. */
  lemma SaleAnswersIfFinished(b: Book, i: nat, rate: Decimal, venues: Candidates, flagged: bool)
    requires SaleSettled(b, i, rate, venues, flagged).result.Success?
    ensures var o := SaleSettled(b, i, rate, venues, flagged);
            && i < |b.conversions| == |o.book.conversions|
            && (o.result.value <==> o.book.conversions[i].status != Routing)
            && (b.conversions[i].status != Routing ==> o.book == b)
  {
  }

  /** A crypto source is sold exactly while routing and before any leg, if the route's postings and rows are taken. */
  lemma SaleSettlesExactly(b: Book, i: nat, rate: Decimal, venues: Candidates, flagged: bool)
    requires i < |b.conversions| && b.conversions[i].source != USD
    requires b.Knows(b.conversions[i].customer, b.conversions[i].source)
    ensures var x, o := b.conversions[i], SaleSettled(b, i, rate, venues, flagged);
            var route := SaleRoute(x.source, x.amount, rate, venues);
            o.book != b <==>
              && x.status == Routing && (forall l | 0 <= l < |b.legs| :: b.legs[l].conversion != i)
              && route.Success? && StoredRoute(route.value)
              && var review := flagged && route.value.filled > 0;
                 AllPass(SellPostings(b, x, route.value, review))
                 && (review && x.destination != USD ==> StoredRoute(Blocked(x.destination, route.value.final)))
  {
    var x := b.conversions[i];
    var route := SaleRoute(x.source, x.amount, rate, venues);
    if route.Success? {
      SaleLegsStored(i, x, route.value, flagged && route.value.filled > 0);
    }
  }

  lemma SaleLegsStored(i: nat, x: Conversion, r: Route, review: bool)
    ensures StoredLegs(SellLegs(i, x, r, review)) <==>
            StoredRoute(r) && (review && x.destination != USD ==> StoredRoute(Blocked(x.destination, r.final)))
  {
    var ls := SellLegs(i, x, r, review);
    assert ls[0] == Leg(i, 1, r);
    if review && x.destination != USD {
      assert ls[1] == Leg(i, 2, Blocked(x.destination, r.final));
    }
  }

  /** The destination is bought exactly while routing, after the sale if there is one, and before its own leg. */
  lemma PurchaseSettlesExactly(b: Book, i: nat, rate: Decimal, venues: Candidates)
    requires i < |b.conversions| && b.Knows(b.conversions[i].customer, b.conversions[i].source)
    requires b.conversions[i].destination != USD && b.Knows(b.conversions[i].customer, b.conversions[i].destination)
    ensures var x, o := b.conversions[i], PurchaseSettled(b, i, rate, venues);
            var sequence := if x.source == USD then 1 else 2;
            o.book != b <==>
              && x.status == Routing && !HasLeg(b, i, sequence) && (x.source != USD ==> HasLeg(b, i, 1))
              && var budget := if x.source == USD then x.amount else LegAt(b, i, 1).route.final;
                 var route := PurchaseRoute(x.destination, budget, rate, venues);
                 route.Success? && StoredRoute(route.value)
                 && (x.customer, route.value.asset) in b.assets && AllPass(BuyPostings(b, x, route.value))
  {
  }

  // ---- Who may convert or withdraw ----

  /** The funds a reservation needs: settled, and for dollars withdrawable too. */
  ghost predicate CanReserve(b: Book, c: Customer, a: Asset, amount: Decimal)
    requires b.Knows(c, a)
  {
    && amount <= Total(b.postings, FundKey(b, c, a, Settled))
    && (a == USD ==> amount <= Total(b.postings, FundKey(b, c, a, Withdrawable)))
  }

  /** Balances are NUMERIC(38,18). */
  ghost predicate Readable(b: Book, c: Customer, a: Asset)
    requires b.Knows(c, a)
  {
    && -LIMIT < Total(b.postings, FundKey(b, c, a, Settled)) < LIMIT
    && -LIMIT < Total(b.postings, FundKey(b, c, a, Withdrawable)) < LIMIT && ValidCurrency(a)
  }

  lemma RefusalIsLack(b: Book, c: Customer, a: Asset, amount: Decimal)
    requires b.Knows(c, a)
    ensures ReserveRefusal(b, c, a, amount).None? ==> CanReserve(b, c, a, amount)
    ensures Readable(b, c, a) && CanReserve(b, c, a, amount) ==> ReserveRefusal(b, c, a, amount).None?
  {
  }

  /**
   A well-formed new command for two known assets starts a conversion if and only if the customer has its source amount
   free and the ledger takes the reservation; the row is the command's.
   */
  lemma ConversionStartsExactly(b: Book, c: ConvertCommand)
    requires Ledger.IsKey(c.key) && c.amount > 0 && c.source != c.destination
    requires ValidCurrency(c.source) && ValidCurrency(c.destination) && (c.customer, c.key) !in b.conversionKeys
    requires b.Knows(c.customer, c.source) && b.Knows(c.customer, c.destination) && Readable(b, c.customer, c.source)
    ensures var o := ConversionReserved(b, c);
            && (o.result.Success? <==>
                 && CanReserve(b, c.customer, c.source, c.amount)
                 && Check(ReserveEntries(b, c.customer, c.source, c.amount)).Success?)
            && (o.result.Success? ==>
                 && o.result.value == |b.conversions|
                 && o.book.conversions ==
                    b.conversions + [Conversion(c.customer, c.source, c.destination, c.amount, Routing)])
            && (o.result.Failure? ==> o.book == b)
  {
    RefusalIsLack(b, c.customer, c.source, c.amount);
  }

  /** The same for a withdrawal. */
  lemma WithdrawalStartsExactly(b: Book, c: WithdrawCommand)
    requires Ledger.IsKey(c.key) && c.quantity > 0 && c.asset != USD && (c.customer, c.key) !in b.withdrawalKeys
    requires b.Knows(c.customer, c.asset) && Readable(b, c.customer, c.asset)
    ensures var o := WithdrawalRequested(b, c);
            && (o.result.Success? <==>
                 && CanReserve(b, c.customer, c.asset, c.quantity)
                 && Check(ReserveEntries(b, c.customer, c.asset, c.quantity)).Success?)
            && (o.result.Success? ==>
                  && o.result.value == |b.withdrawals| && |o.book.withdrawals| == |b.withdrawals| + 1
                  && var x := o.book.withdrawals[|b.withdrawals|];
                     x.customer == c.customer && x.asset == c.asset && x.quantity == c.quantity && x.status.Approved?)
            && (o.result.Failure? ==> o.book == b)
  {
    RefusalIsLack(b, c.customer, c.asset, c.quantity);
  }

  // ---- Nobody spends crypto they do not have ----

  /** Other products never take settled crypto of this customer, on balance. */
  ghost predicate GivesOnly(b: Book, s: Step, k: Key) {
    s.Elsewhere? && SparesHeld(b, s.entries) ==> Balance(s.entries, k) >= 0
  }

  ghost predicate GivingRun(b: Book, steps: seq<Step>, k: Key) {
    steps != [] ==>
      GivingRun(b, steps[..|steps| - 1], k) && GivesOnly(Run(b, steps[..|steps| - 1]), steps[|steps| - 1], k)
  }

  lemma ReserveStaysAbove(b: Book, x: ConvertCommand, c: Customer, a: Asset)
    requires AccountsApart(b) && b.Knows(c, a) && Total(b.postings, FundKey(b, c, a, Settled)) >= 0
    ensures SameAccounts(b, ConversionReserved(b, x).book)
    ensures Total(ConversionReserved(b, x).book.postings, FundKey(b, c, a, Settled)) >= 0
  {
    if ConversionReserved(b, x).book != b {
      RefusalIsLack(b, x.customer, x.source, x.amount);
      ReserveEffect(b, x.customer, x.source, x.amount, c, a, FundKey(b, c, a, Settled));
    }
  }

  lemma RequestStaysAbove(b: Book, x: WithdrawCommand, c: Customer, a: Asset)
    requires AccountsApart(b) && b.Knows(c, a) && Total(b.postings, FundKey(b, c, a, Settled)) >= 0
    ensures SameAccounts(b, WithdrawalRequested(b, x).book)
    ensures Total(WithdrawalRequested(b, x).book.postings, FundKey(b, c, a, Settled)) >= 0
  {
    if WithdrawalRequested(b, x).book != b {
      RefusalIsLack(b, x.customer, x.asset, x.quantity);
      ReserveEffect(b, x.customer, x.asset, x.quantity, c, a, FundKey(b, c, a, Settled));
    }
  }

  lemma SaleStaysAbove(b: Book, i: nat, rate: Decimal, venues: Candidates, flagged: bool, c: Customer, a: Asset)
    requires AccountsApart(b) && b.Knows(c, a) && a != USD && Total(b.postings, FundKey(b, c, a, Settled)) >= 0
    ensures var u := SaleSettled(b, i, rate, venues, flagged).book;
            SameAccounts(b, u) && Total(u.postings, FundKey(b, c, a, Settled)) >= 0
  {
    if SaleSettled(b, i, rate, venues, flagged).book != b {
      var x := b.conversions[i];
      var r := SaleRoute(x.source, x.amount, rate, venues).value;
      SalePostingsMove(b, x, r, flagged && r.filled > 0, c, a, Settled);
      TotalOfConcat(b.postings, SellPostings(b, x, r, flagged && r.filled > 0), FundKey(b, c, a, Settled));
    }
  }

  lemma PurchaseStaysAbove(b: Book, i: nat, rate: Decimal, venues: Candidates, c: Customer, a: Asset)
    requires AccountsApart(b) && b.Knows(c, a) && a != USD && Total(b.postings, FundKey(b, c, a, Settled)) >= 0
    ensures var u := PurchaseSettled(b, i, rate, venues).book;
            SameAccounts(b, u) && Total(u.postings, FundKey(b, c, a, Settled)) >= 0
  {
    if PurchaseSettled(b, i, rate, venues).book != b {
      var x := b.conversions[i];
      var r := PurchaseRoute(x.destination, Budget(b, i).value, rate, venues).value;
      PurchasePostingsMove(b, x, r, c, a, Settled);
      TotalOfConcat(b.postings, BuyPostings(b, x, r), FundKey(b, c, a, Settled));
    }
  }

  lemma EventStaysAbove(b: Book, id: string, e: EventRow, c: Customer, a: Asset)
    requires Sound(b) && b.Knows(c, a) && Total(b.postings, FundKey(b, c, a, Settled)) >= 0
    ensures var u := EventApplied(b, id, e).book;
            SameAccounts(b, u) && Total(u.postings, FundKey(b, c, a, Settled)) >= 0
  {
    if EventApplied(b, id, e).book != b {
      assert WithdrawalSound(b, e.withdrawal);
      TransitionRows(b, e.withdrawal, e.kind);
      TransitionShifts(b, e.withdrawal, e.kind, c, a);
    }
  }

  lemma StepStaysAbove(b: Book, s: Step, c: Customer, a: Asset)
    requires Sound(b) && b.Knows(c, a) && a != USD && Total(b.postings, FundKey(b, c, a, Settled)) >= 0
    requires GivesOnly(b, s, FundKey(b, c, a, Settled))
    ensures SameAccounts(b, After(b, s)) && Total(After(b, s).postings, FundKey(b, c, a, Settled)) >= 0
  {
    match s
    case ReserveConversion(x) => ReserveStaysAbove(b, x, c, a);
    case SettleSale(i, rate, venues, flagged) => SaleStaysAbove(b, i, rate, venues, flagged, c, a);
    case SettlePurchase(i, rate, venues) => PurchaseStaysAbove(b, i, rate, venues, c, a);
    case RequestWithdrawal(x) => RequestStaysAbove(b, x, c, a);
    case ApplyEvent(id, e) => EventStaysAbove(b, id, e, c, a);
    case Elsewhere(es) =>
  }

  /** Over every run in which other products only give, a customer's settled crypto is never negative. */
  lemma {:induction false} SettledCryptoIsNeverNegative(b: Book, steps: seq<Step>, c: Customer, a: Asset)
    requires Initial(b) && b.Knows(c, a) && a != USD && Total(b.postings, FundKey(b, c, a, Settled)) >= 0
    requires GivingRun(b, steps, FundKey(b, c, a, Settled))
    ensures SameAccounts(b, Run(b, steps)) && Total(Run(b, steps).postings, FundKey(b, c, a, Settled)) >= 0
  {
    if steps != [] {
      SettledCryptoIsNeverNegative(b, steps[..|steps| - 1], c, a);
      RunsAreSound(b, steps[..|steps| - 1]);
      StepStaysAbove(Run(b, steps[..|steps| - 1]), steps[|steps| - 1], c, a);
    }
  }
}
