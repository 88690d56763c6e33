/**
 What a route report says about its venues: each order's size and amounts, the totals over them, the fee and the status.
 */
module RouterReports {
  import opened Results
  import opened Decimals
  import opened Router

  /** `v` is the value nearest to `n` steps of 10^-36, ties to even. */
  ghost predicate Nearest(n: int, v: Decimal) {
    IsRounded(n, UNIT, HalfEven, v)
  }

  lemma ProductIsNearest(x: Decimal, y: Decimal, v: Decimal)
    ensures Multiply(x, y, CALCULATION_POLICY) == Success(v) <==> -LIMIT < v < LIMIT && Nearest(x * y, v)
  {
    RoundingIsUnique(x * y, UNIT, HalfEven, v);
  }

  function Most(x: int): int {
    if x > 0 then x else 0
  }

  /** What children filled. */
  function FilledBy(cs: seq<Child>): int {
    if cs == [] then 0 else FilledBy(cs[..|cs| - 1]) + Most(cs[|cs| - 1].filled)
  }

  // ---- One order ----

  /**
   What a venue made of an order: its own quantity and price, worth quantity times price less its fee rate of that; no
   answer, or one whose amounts are no decimals, is no fill.
   */
  ghost predicate Answers(c: Candidate, child: Child) {
    && child.quote == c.quote && child.effective == c.effective
    && (c.answer.None? ==> child.filled == 0 && child.price == 0)
    && (child.filled > 0 ==>
         && c.answer == Some(Fill(child.filled, child.price))
         && Nearest(child.filled * child.price, child.gross) && Nearest(child.gross * c.quote.feeRate, child.venueFee))
    && (child.filled <= 0 ==> child.gross == 0 && child.venueFee == 0)
    && (child.filled <= 0 && c.answer.Some? && c.answer.value.quantity > 0 ==>
         !Payable(c.answer.value.quantity, c.answer.value.price, c.quote.feeRate))
  }

  /** Gross and venue fee of a fill are decimals. */
  ghost predicate Payable(quantity: Decimal, price: Decimal, feeRate: Decimal) {
    exists gross, fee ::
      && -LIMIT < gross < LIMIT && -LIMIT < fee < LIMIT
      && Nearest(quantity * price, gross) && Nearest(gross * feeRate, fee)
  }

  lemma ExecuteAnswers(c: Candidate, quantity: Decimal)
    ensures Answers(c, Execute(c, quantity)) && Execute(c, quantity).requested == quantity
  {
    if c.answer.Some? && c.answer.value.quantity > 0 {
      var fill := c.answer.value;
      var gross := Multiply(fill.quantity, fill.price, CALCULATION_POLICY);
      forall g | -LIMIT < g < LIMIT && Nearest(fill.quantity * fill.price, g) ensures gross == Success(g) {
        ProductIsNearest(fill.quantity, fill.price, g);
      }
      if gross.Success? {
        ProductIsNearest(fill.quantity, fill.price, gross.value);
        var fee := Multiply(gross.value, c.quote.feeRate, CALCULATION_POLICY);
        forall f | -LIMIT < f < LIMIT && Nearest(gross.value * c.quote.feeRate, f) ensures fee == Success(f) {
          ProductIsNearest(gross.value, c.quote.feeRate, f);
        }
        if fee.Success? {
          ProductIsNearest(gross.value, c.quote.feeRate, fee.value);
        }
      }
    }
  }

  lemma OneMoreFilled(cs: seq<Child>, c: Child)
    ensures FilledBy(cs + [c]) == FilledBy(cs) + Most(c.filled)
  {
    assert (cs + [c])[..|cs|] == cs;
  }

  // ---- Sales ----

  /** The i-th order goes to the i-th candidate: what is left, or what the venue has if that is less. */
  ghost predicate SaleOrder(c: Candidate, left: Decimal, child: Child) {
    Answers(c, child) && child.requested == (if left <= c.quote.available then left else c.quote.available)
  }

  ghost predicate SaleOrders(children: seq<Child>, cs: seq<Candidate>, quantity: Decimal) {
    |children| <= |cs| && forall i: nat | i < |children| :: SaleOrderAt(children, i, cs, quantity)
  }

  ghost predicate SaleOrderAt(children: seq<Child>, i: nat, cs: seq<Candidate>, quantity: Decimal)
    requires i < |children| <= |cs|
  {
    SaleOrder(cs[i], quantity - FilledBy(children[..i]), children[i])
  }

  /** What the loop of a sale has: the totals of its children, and the rest of the quantity. */
  ghost predicate SaleSums(p: Progress, quantity: Decimal) {
    && p.filled == FilledBy(p.children) && p.gross == Gross(p.children) && p.venueFee == VenueFees(p.children)
    && p.remaining == quantity - p.filled
  }

  lemma SoldJoins(p: Progress, c: Candidate)
    requires SoldTo(p, c).Success?
    ensures var child, q := Execute(c, Least(p.remaining, c.quote.available)), SoldTo(p, c).value;
            && q.children == p.children + [child] && q.filled == p.filled + Most(child.filled)
            && q.remaining == p.remaining - Most(child.filled)
  {
  }

  lemma SoldToOrders(p: Progress, c: Candidate, quantity: Decimal)
    requires SaleSums(p, quantity) && SoldTo(p, c).Success?
    ensures var q := SoldTo(p, c).value;
            && SaleSums(q, quantity) && |q.children| == |p.children| + 1 && q.children[..|p.children|] == p.children
            && SaleOrder(c, quantity - FilledBy(p.children), q.children[|p.children|])
  {
    var child := Execute(c, Least(p.remaining, c.quote.available));
    ExecuteAnswers(c, Least(p.remaining, c.quote.available));
    SoldJoins(p, c);
    OneMoreFilled(p.children, child);
    SumsOfOneMore(p.children, child, 0);
  }

  /** The loop asks candidates in order, each for what is left, and stops early only when nothing is. */
  lemma {:induction false} SoldThroughOrders(quantity: Decimal, cs: seq<Candidate>)
    requires quantity > 0 && SoldThrough(Progress([], 0, 0, 0, quantity), cs).Success?
    ensures var p := SoldThrough(Progress([], 0, 0, 0, quantity), cs).value;
            && SaleSums(p, quantity) && SaleOrders(p.children, cs, quantity)
            && (|p.children| == |cs| || p.remaining <= 0)
  {
    if cs != [] {
      var n := |cs| - 1;
      var begin := Progress([], 0, 0, 0, quantity);
      SoldThroughOrders(quantity, cs[..n]);
      var p := SoldThrough(begin, cs[..n]).value;
      if p.remaining > 0 {
        SoldToOrders(p, cs[n], quantity);
        OrdersExtend(p.children, SoldTo(p, cs[n]).value.children, cs, quantity);
      } else {
        forall i: nat | i < |p.children| ensures SaleOrderAt(p.children, i, cs, quantity) {
          SaleOrderKept(p.children, p.children, i, cs, quantity);
        }
      }
    }
  }

  lemma SaleOrderKept(children: seq<Child>, more: seq<Child>, i: nat, cs: seq<Candidate>, quantity: Decimal)
    requires |children| < |cs| && i < |children| <= |more| <= |cs| && more[..|children|] == children
    requires SaleOrderAt(children, i, cs[..|cs| - 1], quantity)
    ensures SaleOrderAt(more, i, cs, quantity)
  {
    assert more[..i] == children[..i] && more[i] == children[i];
  }

  lemma OrdersExtend(children: seq<Child>, more: seq<Child>, cs: seq<Candidate>, quantity: Decimal)
    requires |cs| > 0 && |children| == |cs| - 1 && SaleOrders(children, cs[..|cs| - 1], quantity)
    requires |more| == |cs| && more[..|children|] == children
    requires SaleOrder(cs[|cs| - 1], quantity - FilledBy(children), more[|children|])
    ensures SaleOrders(more, cs, quantity)
  {
    forall i: nat | i < |more| ensures SaleOrderAt(more, i, cs, quantity) {
      if i < |children| {
        SaleOrderKept(children, more, i, cs, quantity);
      }
    }
  }

  /** FILLED, PARTIALLY_FILLED or FAILED: nothing left, some sold, or nothing sold. */
  predicate SaleStatus(r: Route) {
    && (r.status == RouteFailed <==> r.filled <= 0)
    && (r.status == RouteFilled <==> r.filled > 0 && r.filled >= r.input)
    && (r.status == RoutePartial <==> 0 < r.filled < r.input)
  }

  /** The fee on the total gross, when something was traded. */
  ghost predicate FeeOnTotal(r: Route) {
    if r.filled > 0 then Nearest(r.gross * r.rate, r.platformFee) else r.platformFee == 0
  }

  lemma FeeIsNearest(gross: Decimal, rate: Decimal)
    ensures Nearest(gross * rate, Fee(gross, rate))
  {
    RoundingIsUnique(gross * rate, UNIT, HalfEven, Fee(gross, rate));
  }

  lemma StatusOfSale(start: Route, p: Progress)
    requires Finalized(Selling, start, p).Success? && start.status == RouteFailed
    ensures var r := Finalized(Selling, start, p).value;
            if p.filled <= 0 then r.status == RouteFailed
            else if p.remaining <= 0 then r.status == RouteFilled else r.status == RoutePartial
  {
  }

  /**
   The report of a sale: candidates were asked in order for what was left, each fill is priced by its venue, the totals
   are theirs, the platform's fee is on their gross, and the status says whether anything is left.
   */
  lemma SaleReportIsItsOrders(asset: string, quantity: Decimal, rate: Decimal, cs: Candidates, r: Route)
    requires SaleRoute(asset, quantity, rate, cs) == Success(r)
    ensures r.asset == asset != "" && asset != USD && r.input == quantity > 0 && 0 <= r.rate == rate < UNIT
    ensures SaleOrders(r.children, cs, quantity) && (|r.children| == |cs| || r.filled >= quantity)
    ensures r.filled == FilledBy(r.children) && r.gross == Gross(r.children) && r.venueFee == VenueFees(r.children)
    ensures FeeOnTotal(r) && SaleStatus(r)
  {
    SoldThroughOrders(quantity, cs);
    var start, p := Start(Selling, asset, quantity, rate, cs), SoldThrough(Progress([], 0, 0, 0, quantity), cs).value;
    FinalizedFacts(Selling, start, p);
    StatusOfSale(start, p);
    FeeIsNearest(p.gross, rate);
  }

  // ---- Purchases ----

  /** What children have charged to a budget: gross, venue fee, and the platform's fee on each gross. */
  function Charges(cs: seq<Child>, rate: Decimal): int {
    Gross(cs) + VenueFees(cs) + FeesByChild(cs, rate)
  }

  /** The most that can be bought for `left`, cut down: at the venue's net price and the platform's fee on its ask. */
  ghost predicate MostFor(c: Candidate, left: Decimal, rate: Decimal, most: Decimal) {
    exists fee ::
      Nearest(c.quote.ask * rate, fee) && c.effective + fee != 0
      && IsRounded(left * UNIT, c.effective + fee, TowardZero, most)
  }

  /** An order of a purchase: the most the budget left can pay, or what the venue has if that is less. */
  ghost predicate PurchaseOrder(c: Candidate, left: Decimal, rate: Decimal, child: Child) {
    && Answers(c, child) && child.requested > 0
    && exists most ::
         MostFor(c, left, rate, most)
         && child.requested == (if most <= c.quote.available then most else c.quote.available)
  }

  ghost predicate FromOneOf(cs: seq<Candidate>, left: Decimal, rate: Decimal, child: Child) {
    exists j :: 0 <= j < |cs| && PurchaseOrder(cs[j], left, rate, child)
  }

  ghost predicate PurchaseOrders(children: seq<Child>, cs: seq<Candidate>, budget: Decimal, rate: Decimal) {
    forall i: nat | i < |children| :: OrderAt(children, i, cs, budget, rate)
  }

  ghost predicate OrderAt(children: seq<Child>, i: nat, cs: seq<Candidate>, budget: Decimal, rate: Decimal)
    requires i < |children|
  {
    FromOneOf(cs, budget - Charges(children[..i], rate), rate, children[i])
  }

  ghost predicate PurchaseSums(p: Progress, budget: Decimal, rate: Decimal) {
    p.filled == FilledBy(p.children) && PurchaseKept(p, budget, rate) && IdleCostNothing(p.children)
  }

  lemma AffordableIsMost(p: Progress, c: Candidate, rate: Decimal)
    requires Affordable(p, c, rate).Success?
    ensures MostFor(c, p.remaining, rate, Affordable(p, c, rate).value)
  {
    var fee := Multiply(c.quote.ask, rate, CALCULATION_POLICY).value;
    ProductIsNearest(c.quote.ask, rate, fee);
    FullScaleRounding(p.remaining, c.effective + fee, QUANTITY_POLICY);
  }

  lemma BoughtFromOrders(p: Progress, c: Candidate, budget: Decimal, rate: Decimal)
    requires PurchaseSums(p, budget, rate) && BoughtFrom(p, c, rate).Success?
    ensures var q := BoughtFrom(p, c, rate).value;
            && PurchaseSums(q, budget, rate)
            && (q.children == p.children
                 || (|q.children| == |p.children| + 1 && q.children[..|p.children|] == p.children
                      && PurchaseOrder(c, budget - Charges(p.children, rate), rate, q.children[|p.children|])))
  {
    var most := Affordable(p, c, rate).value;
    var allocation := Least(most, c.quote.available);
    BoughtFromKeeps(p, c, budget, rate);
    if allocation > 0 {
      var child := Execute(c, allocation);
      ExecuteAnswers(c, allocation);
      AffordableIsMost(p, c, rate);
      BoughtJoins(p, child, rate);
      OneMoreFilled(p.children, child);
    }
  }

  lemma BoughtJoins(p: Progress, child: Child, rate: Decimal)
    requires Bought(p, child, rate).Success?
    ensures Bought(p, child, rate).value.children == p.children + [child]
    ensures Bought(p, child, rate).value.filled == p.filled + Most(child.filled)
  {
  }

  lemma {:induction false} BoughtThroughOrders(budget: Decimal, rate: Decimal, cs: seq<Candidate>)
    requires budget > 0 && BoughtThrough(Progress([], 0, 0, 0, budget), cs, rate).Success?
    ensures var p := BoughtThrough(Progress([], 0, 0, 0, budget), cs, rate).value;
            PurchaseSums(p, budget, rate) && PurchaseOrders(p.children, cs, budget, rate)
  {
    if cs != [] {
      var n := |cs| - 1;
      BoughtThroughOrders(budget, rate, cs[..n]);
      NextPurchase(BoughtThrough(Progress([], 0, 0, 0, budget), cs[..n], rate).value, cs, budget, rate);
    }
  }

  lemma NextPurchase(p: Progress, cs: seq<Candidate>, budget: Decimal, rate: Decimal)
    requires |cs| > 0 && PurchaseSums(p, budget, rate) && PurchaseOrders(p.children, cs[..|cs| - 1], budget, rate)
    ensures p.remaining <= COMPLETION_DUST ==> PurchaseOrders(p.children, cs, budget, rate)
    ensures p.remaining > COMPLETION_DUST && BoughtFrom(p, cs[|cs| - 1], rate).Success? ==>
              var q := BoughtFrom(p, cs[|cs| - 1], rate).value;
              PurchaseSums(q, budget, rate) && PurchaseOrders(q.children, cs, budget, rate)
  {
    if p.remaining <= COMPLETION_DUST {
      PurchasesExtend(p.children, p.children, cs, budget, rate);
    } else if BoughtFrom(p, cs[|cs| - 1], rate).Success? {
      LastOrder(p, cs, budget, rate);
      PurchasesExtend(p.children, BoughtFrom(p, cs[|cs| - 1], rate).value.children, cs, budget, rate);
    }
  }

  lemma LastOrder(p: Progress, cs: seq<Candidate>, budget: Decimal, rate: Decimal)
    requires |cs| > 0 && PurchaseSums(p, budget, rate) && BoughtFrom(p, cs[|cs| - 1], rate).Success?
    ensures var more := BoughtFrom(p, cs[|cs| - 1], rate).value.children;
            && |p.children| <= |more| <= |p.children| + 1 && more[..|p.children|] == p.children
            && PurchaseSums(BoughtFrom(p, cs[|cs| - 1], rate).value, budget, rate)
            && (|more| > |p.children| ==>
                 FromOneOf(cs, budget - Charges(p.children, rate), rate, more[|p.children|]))
  {
    BoughtFromOrders(p, cs[|cs| - 1], budget, rate);
  }

  lemma FromMore(cs: seq<Candidate>, left: Decimal, rate: Decimal, child: Child)
    requires |cs| > 0 && FromOneOf(cs[..|cs| - 1], left, rate, child)
    ensures FromOneOf(cs, left, rate, child)
  {
    var j :| 0 <= j < |cs| - 1 && PurchaseOrder(cs[..|cs| - 1][j], left, rate, child);
    assert cs[..|cs| - 1][j] == cs[j];
  }

  lemma OrderKept(children: seq<Child>, more: seq<Child>, i: nat, cs: seq<Candidate>, budget: Decimal, rate: Decimal)
    requires |cs| > 0 && i < |children| <= |more| && more[..|children|] == children
    requires OrderAt(children, i, cs[..|cs| - 1], budget, rate)
    ensures OrderAt(more, i, cs, budget, rate)
  {
    assert more[..i] == children[..i] && more[i] == children[i];
    FromMore(cs, budget - Charges(children[..i], rate), rate, children[i]);
  }

  lemma PurchasesExtend(children: seq<Child>, more: seq<Child>, cs: seq<Candidate>, budget: Decimal, rate: Decimal)
    requires |cs| > 0 && PurchaseOrders(children, cs[..|cs| - 1], budget, rate)
    requires |children| <= |more| <= |children| + 1 && more[..|children|] == children
    requires |more| > |children| ==> FromOneOf(cs, budget - Charges(children, rate), rate, more[|children|])
    ensures PurchaseOrders(more, cs, budget, rate)
  {
    forall i: nat | i < |more| ensures OrderAt(more, i, cs, budget, rate) {
      if i < |children| {
        OrderKept(children, more, i, cs, budget, rate);
      }
    }
  }

  /** FILLED up to the dust of 0.000001 dollars. */
  predicate PurchaseStatus(r: Route) {
    && (r.status == RouteFailed <==> r.filled <= 0)
    && (r.status == RouteFilled <==> r.filled > 0 && r.unspent <= 1_000_000_000_000)
    && (r.status == RoutePartial <==> r.filled > 0 && r.unspent > 1_000_000_000_000)
  }

  lemma StatusOfPurchase(start: Route, p: Progress)
    requires Finalized(Buying, start, p).Success? && start.status == RouteFailed
    ensures var r := Finalized(Buying, start, p).value;
            && r.filled == p.filled && r.venueFee == p.venueFee
            && if p.filled <= 0 then r.status == RouteFailed
               else if p.remaining <= 1_000_000_000_000 then r.status == RouteFilled else r.status == RoutePartial
  {
  }

  /** The report of a purchase, the same way; what is unspent is the budget less everything charged. */
  lemma PurchaseReportIsItsOrders(asset: string, budget: Decimal, rate: Decimal, cs: Candidates, r: Route)
    requires PurchaseRoute(asset, budget, rate, cs) == Success(r)
    ensures r.asset == asset != "" && asset != USD && r.input == budget > 0 && 0 <= r.rate == rate < UNIT
    ensures PurchaseOrders(r.children, cs, budget, rate) && r.unspent == budget - Charges(r.children, rate) >= 0
    ensures r.filled == FilledBy(r.children) && r.gross == Gross(r.children) && r.venueFee == VenueFees(r.children)
    ensures FeeOnTotal(r) && PurchaseStatus(r)
  {
    BoughtThroughOrders(budget, rate, cs);
    var start, p := Start(Buying, asset, budget, rate, cs),
      BoughtThrough(Progress([], 0, 0, 0, budget), cs, rate).value;
    FinalizedFacts(Buying, start, p);
    ResidueOfPurchase(start, p, r);
    StatusOfPurchase(start, p);
    FeeIsNearest(p.gross, rate);
  }

  // ---- The reference price ----

  lemma {:induction false} ReferenceIsFirstVenue(cs: seq<Candidate>)
    requires cs != []
    ensures exists j :: 0 <= j < |cs| && cs[j].quote == Reference(cs)
    ensures forall i | 0 <= i < |cs| :: Reference(cs).venue <= cs[i].quote.venue
  {
    var n := |cs| - 1;
    if n > 0 {
      ReferenceIsFirstVenue(cs[..n]);
      var j :| 0 <= j < n && cs[..n][j].quote == Reference(cs[..n]);
      assert cs[j].quote == Reference(cs[..n]) && forall i | 0 <= i < n :: cs[i] == cs[..n][i];
    }
    assert Reference(cs) == cs[n].quote || (n > 0 && Reference(cs) == Reference(cs[..n]));
  }

  /** The reference price is the bid, or for a purchase the ask, of the venue first by name among the candidates. */
  lemma ReferenceIsReported(asset: string, input: Decimal, rate: Decimal, cs: Candidates, r: Route)
    requires cs != [] && (SaleRoute(asset, input, rate, cs) == Success(r)
             || PurchaseRoute(asset, input, rate, cs) == Success(r))
    ensures exists j ::
              && 0 <= j < |cs| && (forall i | 0 <= i < |cs| :: cs[j].quote.venue <= cs[i].quote.venue)
              && (SaleRoute(asset, input, rate, cs) == Success(r) ==> r.reference == cs[j].quote.bid)
              && (PurchaseRoute(asset, input, rate, cs) == Success(r) ==> r.reference == cs[j].quote.ask)
  {
    ReferenceIsFirstVenue(cs);
    if SaleRoute(asset, input, rate, cs) == Success(r) {
      FinalizedFacts(Selling, Start(Selling, asset, input, rate, cs),
        SoldThrough(Progress([], 0, 0, 0, input), cs).value);
    }
    if PurchaseRoute(asset, input, rate, cs) == Success(r) {
      FinalizedFacts(Buying, Start(Buying, asset, input, rate, cs),
        BoughtThrough(Progress([], 0, 0, 0, input), cs, rate).value);
    }
  }
}
