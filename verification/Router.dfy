/**
 The venue router: it spreads one leg of a conversion over venues and reports totals, fees and what is left. Quotes,
 their order and what a venue answers are inputs; the amounts are what this module is about.
 */
module Router {
  import opened Results
  import opened Decimals

  const USD := "USD"
  const CALCULATION_POLICY := Policy("crypto-routing-calculation-v1", SCALE, HalfEven)
  const QUANTITY_POLICY := Policy("crypto-routing-quantity-v1", SCALE, TowardZero)

  /** 0.000001 dollars: less than this is not worth another order. */
  const COMPLETION_DUST: Decimal := 1_000_000_000_000

  const VENUES: nat := 3

  datatype Side = Buying | Selling

  datatype Quote = Quote(venue: nat, bid: Decimal, ask: Decimal, feeRate: Decimal, available: Decimal)
  datatype Fill = Fill(quantity: Decimal, price: Decimal)

  /**
   An executable quote, its net unit price, and the venue's answer to an order; no answer is an error or a timeout.
   */
  datatype Candidate = Candidate(quote: Quote, effective: Decimal, answer: Option<Fill>)

  /** At most one candidate for each venue the router is built with. */
  type Candidates = cs: seq<Candidate> | |cs| <= VENUES

  datatype Child = Child(
    quote: Quote, effective: Decimal, requested: Decimal, filled: Decimal, price: Decimal,
    gross: Decimal, venueFee: Decimal)

  datatype RouteStatus = RouteFilled | RoutePartial | RouteFailed | RouteBlocked

  /** What the router reports for one leg; `rate` is the platform's fee rate. */
  datatype Route = Route(
    asset: string, input: Decimal, filled: Decimal, reference: Decimal, gross: Decimal, venueFee: Decimal,
    platformFee: Decimal, final: Decimal, unspent: Decimal, status: RouteStatus, rate: Decimal,
    children: seq<Child>)
  {
    /** What a purchase neither spends nor gives back. */
    function Residue(): int {
      input - final - unspent
    }
  }

  datatype RouteError = InvalidRequest | OverBudget | Calculation

  function Checked(r: Result<Decimal, Error>): Result<Decimal, RouteError> {
    if r.Success? then Success(r.value) else Failure(Calculation)
  }

  function Least(x: Decimal, y: Decimal): Decimal {
    if x <= y then x else y
  }

  // ---- One order at one venue ----

  /** A fill whose amounts cannot be calculated counts as no fill. */
  function Execute(c: Candidate, quantity: Decimal): Child {
    var none := Child(c.quote, c.effective, quantity, 0, 0, 0, 0);
    if c.answer.None? then none
    else
      var fill := c.answer.value;
      var none := none.(filled := fill.quantity, price := fill.price);
      if fill.quantity <= 0 then none
      else
        var gross := Multiply(fill.quantity, fill.price, CALCULATION_POLICY);
        if gross.Failure? then none.(filled := 0)
        else
          var fee := Multiply(gross.value, c.quote.feeRate, CALCULATION_POLICY);
          if fee.Failure? then none.(filled := 0) else none.(gross := gross.value, venueFee := fee.value)
  }

  /** What the router has so far; `remaining` is quantity for a sale and budget for a purchase. */
  datatype Progress = Progress(
    children: seq<Child>, filled: Decimal, gross: Decimal, venueFee: Decimal, remaining: Decimal)

  function WithChild(p: Progress, child: Child): Result<Progress, RouteError> {
    var filled :- Checked(Add(p.filled, child.filled));
    var gross :- Checked(Add(p.gross, child.gross));
    var venueFee :- Checked(Add(p.venueFee, child.venueFee));
    Success(p.(filled := filled, gross := gross, venueFee := venueFee))
  }

  /** A filled order of a sale: less remains to be sold. */
  function Delivered(p: Progress, child: Child): Result<Progress, RouteError> {
    var remaining :- Checked(Sub(p.remaining, child.filled));
    WithChild(p.(children := p.children + [child], remaining := remaining), child)
  }

  function SoldTo(p: Progress, c: Candidate): Result<Progress, RouteError> {
    var child := Execute(c, Least(p.remaining, c.quote.available));
    if child.filled <= 0 then Success(p.(children := p.children + [child])) else Delivered(p, child)
  }

  /** The loop of a sale: candidates in order until nothing remains. */
  function SoldThrough(p: Progress, cs: seq<Candidate>): Result<Progress, RouteError> {
    if cs == [] then Success(p)
    else
      var q :- SoldThrough(p, cs[..|cs| - 1]);
      if q.remaining <= 0 then Success(q) else SoldTo(q, cs[|cs| - 1])
  }

  /** How much of the budget's worth a venue could fill, both fees included. */
  function Affordable(p: Progress, c: Candidate, rate: Decimal): Result<Decimal, RouteError> {
    var unitFee :- Checked(Multiply(c.quote.ask, rate, CALCULATION_POLICY));
    var unitCost :- Checked(Add(c.effective, unitFee));
    Checked(Divide(p.remaining, unitCost, QUANTITY_POLICY))
  }

  /** The cost of one child: its gross, its venue fee, and the platform's fee on this gross alone. */
  function ChildCost(child: Child, rate: Decimal): Result<Decimal, RouteError> {
    var platformFee :- Checked(Multiply(child.gross, rate, CALCULATION_POLICY));
    var cost :- Checked(Add(child.gross, child.venueFee));
    Checked(Add(cost, platformFee))
  }

  /** A filled order of a purchase: its cost leaves the budget, which it may not exceed. */
  function Charged(p: Progress, child: Child, cost: Decimal): Result<Progress, RouteError> {
    var remaining :- Checked(Sub(p.remaining, cost));
    if remaining < 0 then Failure(OverBudget)
    else WithChild(p.(children := p.children + [child], remaining := remaining), child)
  }

  function Bought(p: Progress, child: Child, rate: Decimal): Result<Progress, RouteError> {
    if child.filled <= 0 then Success(p.(children := p.children + [child]))
    else
      var cost :- ChildCost(child, rate);
      Charged(p, child, cost)
  }

  function BoughtFrom(p: Progress, c: Candidate, rate: Decimal): Result<Progress, RouteError> {
    var affordable :- Affordable(p, c, rate);
    var allocation := Least(affordable, c.quote.available);
    if allocation <= 0 then Success(p) else Bought(p, Execute(c, allocation), rate)
  }

  /** The loop of a purchase: candidates in order until only dust remains of the budget. */
  function BoughtThrough(p: Progress, cs: seq<Candidate>, rate: Decimal): Result<Progress, RouteError> {
    if cs == [] then Success(p)
    else
      var q :- BoughtThrough(p, cs[..|cs| - 1], rate);
      if q.remaining <= COMPLETION_DUST then Success(q) else BoughtFrom(q, cs[|cs| - 1], rate)
  }

  // ---- The report ----

  /** The quote of the venue first by name. */
  function Reference(cs: seq<Candidate>): Quote
    requires cs != []
  {
    var last := cs[|cs| - 1].quote;
    if |cs| == 1 then last
    else
      var first := Reference(cs[..|cs| - 1]);
      if last.venue < first.venue then last else first
  }

  function ReferencePrice(side: Side, cs: seq<Candidate>): Decimal
    requires cs != []
  {
    if side.Buying? then Reference(cs).ask else Reference(cs).bid
  }

  /** What the customer pays for a purchase or gets for a sale. */
  function FinalAmount(side: Side, gross: Decimal, venueFee: Decimal, platformFee: Decimal)
    : Result<Decimal, RouteError>
  {
    if side.Buying? then
      var cost :- Checked(Add(gross, venueFee));
      Checked(Add(cost, platformFee))
    else
      var net :- Checked(Sub(gross, venueFee));
      Checked(Sub(net, platformFee))
  }

  /** The average price and the improvement on the reference price are reported only, but must be representable. */
  function Reportable(side: Side, p: Progress, reference: Decimal): Result<(), RouteError> {
    var average :- Checked(Divide(p.gross, p.filled, CALCULATION_POLICY));
    var expected :- Checked(Multiply(p.filled, reference, CALCULATION_POLICY));
    var improvement :- Checked(if side.Buying? then Sub(expected, p.gross) else Sub(p.gross, expected));
    Success(())
  }

  predicate Complete(side: Side, remaining: Decimal) {
    remaining <= if side.Buying? then COMPLETION_DUST else 0
  }

  /** `start` is the report before anything was routed. */
  function Finalized(side: Side, start: Route, p: Progress): Result<Route, RouteError> {
    var r := start.(
             filled := p.filled, gross := p.gross, venueFee := p.venueFee, children := p.children,
             unspent := if side.Buying? then p.remaining else 0);
    if p.filled <= 0 then Success(r)
    else
      var platformFee :- Checked(Multiply(p.gross, r.rate, CALCULATION_POLICY));
      var final :- FinalAmount(side, p.gross, p.venueFee, platformFee);
      var reportable :- Reportable(side, p, r.reference);
      if final <= 0 then Failure(Calculation)
      else
        var status := if Complete(side, p.remaining) then RouteFilled else RoutePartial;
        Success(r.(platformFee := platformFee, final := final, status := status))
  }

  function Start(side: Side, asset: string, input: Decimal, rate: Decimal, cs: seq<Candidate>): Route {
    var reference := if cs == [] then 0 else ReferencePrice(side, cs);
    Route(asset, input, 0, reference, 0, 0, 0, 0, if side.Buying? then input else 0, RouteFailed, rate, [])
  }

  predicate ValidRequest(asset: string, input: Decimal, rate: Decimal) {
    asset != "" && asset != USD && input > 0 && 0 <= rate < UNIT
  }

  /** A sale of `quantity`; without candidates, or without a fill, it is reported as failed. */
  function SaleRoute(asset: string, quantity: Decimal, rate: Decimal, cs: Candidates): Result<Route, RouteError> {
    if !ValidRequest(asset, quantity, rate) then Failure(InvalidRequest)
    else
      var p :- SoldThrough(Progress([], 0, 0, 0, quantity), cs);
      Finalized(Selling, Start(Selling, asset, quantity, rate, cs), p)
  }

  /** A purchase for at most `budget` dollars. */
  function PurchaseRoute(asset: string, budget: Decimal, rate: Decimal, cs: Candidates): Result<Route, RouteError> {
    if !ValidRequest(asset, budget, rate) then Failure(InvalidRequest)
    else
      var p :- BoughtThrough(Progress([], 0, 0, 0, budget), cs, rate);
      Finalized(Buying, Start(Buying, asset, budget, rate, cs), p)
  }

  // ---- What the tables accept of a report ----

  predicate StoredChild(c: Child) {
    && c.requested > 0 && 0 <= c.filled <= c.requested && 0 < c.quote.bid <= c.quote.ask
    && 0 <= c.quote.feeRate < UNIT && c.effective > 0 && c.price >= 0 && c.gross >= 0 && c.venueFee >= 0
    && (c.filled > 0 ==> c.price > 0 && c.gross > 0)
  }

  predicate StoredRoute(r: Route) {
    && r.input > 0 && r.filled >= 0 && r.reference >= 0 && r.gross >= 0 && r.venueFee >= 0 && r.platformFee >= 0
    && r.final >= 0 && (r.status.RouteFailed? || r.status.RouteBlocked? || r.reference > 0)
    && forall i | 0 <= i < |r.children| :: StoredChild(r.children[i])
  }

  // ---- Totals over children ----

  function Filled(cs: seq<Child>): int {
    if cs == [] then 0 else Filled(cs[..|cs| - 1]) + cs[|cs| - 1].filled
  }

  function Gross(cs: seq<Child>): int {
    if cs == [] then 0 else Gross(cs[..|cs| - 1]) + cs[|cs| - 1].gross
  }

  function VenueFees(cs: seq<Child>): int {
    if cs == [] then 0 else VenueFees(cs[..|cs| - 1]) + cs[|cs| - 1].venueFee
  }

  /** The platform's fee on an amount, rounded. */
  function Fee(gross: Decimal, rate: Decimal): int {
    RoundRatio(gross * rate, UNIT, HalfEven)
  }

  /** The platform's fees charged child by child, each rounded on its own. */
  function FeesByChild(cs: seq<Child>, rate: Decimal): int {
    if cs == [] then 0 else FeesByChild(cs[..|cs| - 1], rate) + Fee(cs[|cs| - 1].gross, rate)
  }

  function Fills(cs: seq<Child>): nat {
    if cs == [] then 0 else Fills(cs[..|cs| - 1]) + if cs[|cs| - 1].filled > 0 then 1 else 0
  }

  /** The progress is the sum of its children, and without a fill there is no money. */
  ghost predicate AddsUp(p: Progress) {
    && p.gross == Gross(p.children) && p.venueFee == VenueFees(p.children) && p.filled >= 0
    && (p.filled == 0 ==> p.gross == 0 && p.venueFee == 0 && Fills(p.children) == 0)
  }

  lemma SumsOfOneMore(cs: seq<Child>, c: Child, rate: Decimal)
    ensures Filled(cs + [c]) == Filled(cs) + c.filled
    ensures Gross(cs + [c]) == Gross(cs) + c.gross && VenueFees(cs + [c]) == VenueFees(cs) + c.venueFee
    ensures FeesByChild(cs + [c], rate) == FeesByChild(cs, rate) + Fee(c.gross, rate)
    ensures Fills(cs + [c]) == Fills(cs) + if c.filled > 0 then 1 else 0
  {
    assert (cs + [c])[..|cs|] == cs;
  }

  /** An order that fills nothing costs nothing. */
  lemma ExecuteFacts(c: Candidate, quantity: Decimal)
    ensures var child := Execute(c, quantity);
            child.requested == quantity && (child.filled <= 0 ==> child.gross == 0 && child.venueFee == 0)
  {
  }

  ghost predicate StoredChildren(cs: seq<Child>) {
    forall i | 0 <= i < |cs| :: StoredChild(cs[i])
  }

  /** A child joins: sums follow, and `remaining` is not looked at. */
  lemma ChildJoins(p: Progress, child: Child, remaining: Decimal)
    requires AddsUp(p) && child.filled > 0
    requires WithChild(p.(children := p.children + [child], remaining := remaining), child).Success?
    ensures var q := WithChild(p.(children := p.children + [child], remaining := remaining), child).value;
            && AddsUp(q) && q.filled == p.filled + child.filled && q.remaining == remaining
            && q.children == p.children + [child]
  {
    SumsOfOneMore(p.children, child, 0);
  }

  lemma ChildFails(p: Progress, child: Child)
    requires AddsUp(p) && child.filled <= 0 && child.gross == 0 && child.venueFee == 0
    ensures AddsUp(p.(children := p.children + [child]))
  {
    SumsOfOneMore(p.children, child, 0);
  }

  // ---- Sales ----

  /** What a sale's loop keeps: filled and remaining make up the quantity, and stored children never oversell. */
  ghost predicate SaleKept(p: Progress, quantity: Decimal) {
    && AddsUp(p) && p.filled + p.remaining == quantity
    && (StoredChildren(p.children) ==> p.remaining >= 0)
  }

  lemma LastStored(cs: seq<Child>, c: Child)
    ensures StoredChildren(cs + [c]) <==> StoredChildren(cs) && StoredChild(c)
  {
    assert (cs + [c])[|cs|] == c && forall i | 0 <= i < |cs| :: (cs + [c])[i] == cs[i];
  }

  lemma DeliveredKeeps(p: Progress, child: Child, quantity: Decimal)
    requires SaleKept(p, quantity) && child.filled > 0 && child.requested <= p.remaining
    requires Delivered(p, child).Success?
    ensures SaleKept(Delivered(p, child).value, quantity)
  {
    ChildJoins(p, child, p.remaining - child.filled);
    LastStored(p.children, child);
  }

  lemma SoldToKeeps(p: Progress, c: Candidate, quantity: Decimal)
    requires SaleKept(p, quantity) && SoldTo(p, c).Success?
    ensures SaleKept(SoldTo(p, c).value, quantity)
  {
    var asked := Least(p.remaining, c.quote.available);
    var child := Execute(c, asked);
    ExecuteFacts(c, asked);
    if child.filled <= 0 {
      ChildFails(p, child);
      LastStored(p.children, child);
    } else {
      DeliveredKeeps(p, child, quantity);
    }
  }

  lemma {:induction false} SoldThroughKeeps(quantity: Decimal, cs: seq<Candidate>)
    requires quantity > 0 && SoldThrough(Progress([], 0, 0, 0, quantity), cs).Success?
    ensures SaleKept(SoldThrough(Progress([], 0, 0, 0, quantity), cs).value, quantity)
  {
    if cs != [] {
      SoldThroughKeeps(quantity, cs[..|cs| - 1]);
      var q := SoldThrough(Progress([], 0, 0, 0, quantity), cs[..|cs| - 1]).value;
      if q.remaining > 0 {
        SoldToKeeps(q, cs[|cs| - 1], quantity);
      }
    }
  }

  /** The promise about a stored sale: no more than the input, and every cent of the gross accounted for. */
  ghost predicate FairSale(r: Route) {
    0 <= r.filled <= r.input && r.gross == r.final + r.venueFee + r.platformFee && r.unspent == 0
  }

  lemma SaleIsFair(asset: string, quantity: Decimal, rate: Decimal, cs: Candidates, r: Route)
    requires SaleRoute(asset, quantity, rate, cs) == Success(r)
    ensures r.input == quantity && r.rate == rate && (StoredRoute(r) ==> FairSale(r))
  {
    SoldThroughKeeps(quantity, cs);
    var start, p := Start(Selling, asset, quantity, rate, cs), SoldThrough(Progress([], 0, 0, 0, quantity), cs).value;
    FinalizedFacts(Selling, start, p);
    if p.filled > 0 {
      FinalAmountIsSum(Selling, p.gross, p.venueFee, r.platformFee);
    }
  }

  // ---- Purchases ----

  /** What a purchase's loop keeps: the budget is what was charged child by child plus what remains. */
  ghost predicate PurchaseKept(p: Progress, budget: Decimal, rate: Decimal) {
    && AddsUp(p) && p.remaining >= 0
    && p.remaining == budget - p.gross - p.venueFee - FeesByChild(p.children, rate)
  }

  lemma ChildCostIsSum(child: Child, rate: Decimal)
    requires ChildCost(child, rate).Success?
    ensures ChildCost(child, rate).value == child.gross + child.venueFee + Fee(child.gross, rate)
  {
  }

  lemma NoFeeOnNothing(rate: Decimal)
    ensures Fee(0, rate) == 0
  {
  }

  lemma ChargedKeeps(p: Progress, child: Child, cost: Decimal, budget: Decimal, rate: Decimal)
    requires PurchaseKept(p, budget, rate) && child.filled > 0 && Charged(p, child, cost).Success?
    requires cost == child.gross + child.venueFee + Fee(child.gross, rate)
    ensures PurchaseKept(Charged(p, child, cost).value, budget, rate)
    ensures Charged(p, child, cost).value.children == p.children + [child]
  {
    ChildJoins(p, child, p.remaining - cost);
    SumsOfOneMore(p.children, child, rate);
  }

  lemma UnfilledKeeps(p: Progress, child: Child, budget: Decimal, rate: Decimal)
    requires PurchaseKept(p, budget, rate) && child.filled <= 0 && child.gross == 0 && child.venueFee == 0
    ensures PurchaseKept(p.(children := p.children + [child]), budget, rate)
  {
    SumsOfOneMore(p.children, child, rate);
    NoFeeOnNothing(rate);
    ChildFails(p, child);
  }

  /** Orders that fill nothing have no gross. */
  ghost predicate IdleCostNothing(cs: seq<Child>) {
    forall i | 0 <= i < |cs| :: cs[i].filled <= 0 ==> cs[i].gross == 0
  }

  lemma BoughtKeeps(p: Progress, child: Child, budget: Decimal, rate: Decimal)
    requires PurchaseKept(p, budget, rate) && IdleCostNothing(p.children) && Bought(p, child, rate).Success?
    requires child.filled <= 0 ==> child.gross == 0 && child.venueFee == 0
    ensures var q := Bought(p, child, rate).value;
            PurchaseKept(q, budget, rate) && IdleCostNothing(q.children) && |q.children| == |p.children| + 1
  {
    if child.filled <= 0 {
      UnfilledKeeps(p, child, budget, rate);
    } else {
      ChildCostIsSum(child, rate);
      ChargedKeeps(p, child, ChildCost(child, rate).value, budget, rate);
    }
  }

  lemma BoughtFromKeeps(p: Progress, c: Candidate, budget: Decimal, rate: Decimal)
    requires PurchaseKept(p, budget, rate) && IdleCostNothing(p.children) && BoughtFrom(p, c, rate).Success?
    ensures var q := BoughtFrom(p, c, rate).value;
            && PurchaseKept(q, budget, rate) && IdleCostNothing(q.children)
            && |p.children| <= |q.children| <= |p.children| + 1
  {
    var allocation := Least(Affordable(p, c, rate).value, c.quote.available);
    if allocation > 0 {
      ExecuteFacts(c, allocation);
      BoughtKeeps(p, Execute(c, allocation), budget, rate);
    }
  }

  lemma {:induction false} BoughtThroughKeeps(budget: Decimal, rate: Decimal, cs: seq<Candidate>)
    requires budget > 0 && BoughtThrough(Progress([], 0, 0, 0, budget), cs, rate).Success?
    ensures var p := BoughtThrough(Progress([], 0, 0, 0, budget), cs, rate).value;
            PurchaseKept(p, budget, rate) && IdleCostNothing(p.children) && |p.children| <= |cs|
  {
    if cs != [] {
      BoughtThroughKeeps(budget, rate, cs[..|cs| - 1]);
      var q := BoughtThrough(Progress([], 0, 0, 0, budget), cs[..|cs| - 1], rate).value;
      if q.remaining > COMPLETION_DUST {
        BoughtFromKeeps(q, cs[|cs| - 1], budget, rate);
      }
    }
  }

  /** A fee is exact to half a step. */
  lemma FeeError(gross: Decimal, rate: Decimal)
    ensures 2 * Abs(Fee(gross, rate) * UNIT - gross * rate) <= UNIT
  {
    RoundingIsUnique(gross * rate, UNIT, HalfEven, Fee(gross, rate));
    RoundingError(gross * rate, UNIT, HalfEven, Fee(gross, rate));
  }

  /** Two errors add up to at most the sum of their bounds. */
  lemma ErrorsAdd(v: int, w: int, n: int, m: int, d: int, k: int, l: int)
    requires 2 * Abs(v * d - n) <= k * d && 2 * Abs(w * d - m) <= l * d
    ensures 2 * Abs((v + w) * d - (n + m)) <= (k + l) * d
    ensures 2 * Abs((v - w) * d - (n - m)) <= (k + l) * d
  {
    Distribute(v, w, d);
    Distribute(v, -w, d);
    Distribute(k, l, d);
    NegateProduct(w, d);
  }

  /** Fees charged child by child are exact to half a step for each fill. */
  lemma {:induction false} FeesError(cs: seq<Child>, rate: Decimal)
    requires IdleCostNothing(cs)
    ensures 2 * Abs(FeesByChild(cs, rate) * UNIT - Gross(cs) * rate) <= Fills(cs) * UNIT
  {
    if cs != [] {
      var front, last := cs[..|cs| - 1], cs[|cs| - 1];
      FeesError(front, rate);
      FeeError(last.gross, rate);
      NoFeeOnNothing(rate);
      Distribute(Gross(front), last.gross, rate);
      ErrorsAdd(FeesByChild(front, rate), Fee(last.gross, rate), Gross(front) * rate, last.gross * rate, UNIT,
                Fills(front), if last.filled > 0 then 1 else 0);
    }
  }

  /** Distances below `k` half steps between whole numbers of steps. */
  lemma StepsBetween(v: int, d: nat, k: int)
    requires d > 0 && 2 * Abs(v * d) <= k * d
    ensures 2 * Abs(v) <= k
  {
    if 2 * Abs(v) > k {
      ProductOrder(k, 2 * Abs(v), d);
    }
  }

  /** Fees rounded child by child against the fee on the total: less than a step for each fill. */
  lemma FeesAgainstTotal(cs: seq<Child>, rate: Decimal)
    requires IdleCostNothing(cs)
    ensures 2 * Abs(FeesByChild(cs, rate) - Fee(Gross(cs), rate)) <= Fills(cs) + 1
  {
    FeesError(cs, rate);
    FeeError(Gross(cs), rate);
    RoundingsDiffer(FeesByChild(cs, rate), Fee(Gross(cs), rate), Gross(cs) * rate, UNIT, Fills(cs));
  }

  /** Two whole numbers of steps near one value, one of them within half a step. */
  lemma RoundingsDiffer(v: int, w: int, n: int, d: nat, k: int)
    requires d > 0 && 2 * Abs(v * d - n) <= k * d && 2 * Abs(w * d - n) <= d
    ensures 2 * Abs(v - w) <= k + 1
  {
    ErrorsAdd(v, w, n, n, d, k, 1);
    StepsBetween(v - w, d, k + 1);
  }

  lemma {:induction false} FillsBound(cs: seq<Child>)
    ensures Fills(cs) <= |cs|
  {
    if cs != [] {
      FillsBound(cs[..|cs| - 1]);
    }
  }

  /**
   The promise about a purchase: its cost is gross and fees. The budget is charged fees rounded child by child, the
   report shows the fee on the total, and what the two roundings differ by is neither spent nor given back.
   */
  ghost predicate FairPurchase(r: Route) {
    && r.final == r.gross + r.venueFee + r.platformFee && r.unspent >= 0 && (r.filled <= 0 ==> r.final == 0)
    && r.Residue() == FeesByChild(r.children, r.rate) - Fee(r.gross, r.rate)
    && 2 * Abs(r.Residue()) <= Fills(r.children) + 1 && Fills(r.children) <= VENUES
    && (Fills(r.children) <= 1 ==> r.Residue() == 0)
  }

  /** With one fill there is nothing to differ: the residue needs two roundings. */
  lemma {:induction false} OneFillLeavesNothing(cs: seq<Child>, rate: Decimal)
    requires IdleCostNothing(cs) && Fills(cs) <= 1
    ensures FeesByChild(cs, rate) == Fee(Gross(cs), rate)
  {
    NoFeeOnNothing(rate);
    if cs != [] {
      var front := cs[..|cs| - 1];
      OneFillLeavesNothing(front, rate);
      if Fills(front) == 0 {
        NoFillsNoGross(front, rate);
      }
    }
  }

  lemma {:induction false} NoFillsNoGross(cs: seq<Child>, rate: Decimal)
    requires IdleCostNothing(cs) && Fills(cs) == 0
    ensures Gross(cs) == 0 && FeesByChild(cs, rate) == 0
  {
    NoFeeOnNothing(rate);
    if cs != [] {
      NoFillsNoGross(cs[..|cs| - 1], rate);
    }
  }

  lemma FinalAmountIsSum(side: Side, gross: Decimal, venueFee: Decimal, platformFee: Decimal)
    requires FinalAmount(side, gross, venueFee, platformFee).Success?
    ensures FinalAmount(side, gross, venueFee, platformFee).value ==
            if side.Buying? then gross + venueFee + platformFee else gross - venueFee - platformFee
  {
  }

  /** The report shows the totals, the fee on the total gross, and what is left. */
  lemma FinalizedFacts(side: Side, start: Route, p: Progress)
    requires Finalized(side, start, p).Success?
    requires start.platformFee == 0 && start.final == 0
    ensures var r := Finalized(side, start, p).value;
            && r == start.(filled := p.filled, gross := p.gross, venueFee := p.venueFee, children := p.children,
                           unspent := if side.Buying? then p.remaining else 0,
                           platformFee := r.platformFee, final := r.final, status := r.status)
            && (p.filled > 0 ==>
                  && r.platformFee == Fee(p.gross, start.rate) && r.final > 0
                  && FinalAmount(side, p.gross, p.venueFee, r.platformFee) == Success(r.final))
            && (p.filled <= 0 ==> r.platformFee == 0 && r.final == 0 && r.status == start.status)
  {
  }

  lemma ResidueOfPurchase(start: Route, p: Progress, r: Route)
    requires Finalized(Buying, start, p) == Success(r) && start.platformFee == 0 && start.final == 0
    requires PurchaseKept(p, start.input, start.rate)
    ensures r.asset == start.asset && r.input == start.input && r.rate == start.rate
    ensures r.children == p.children && r.unspent == p.remaining
    ensures r.final == r.gross + r.venueFee + r.platformFee && (r.filled <= 0 ==> r.final == 0)
    ensures r.gross == Gross(p.children)
    ensures r.Residue() == FeesByChild(p.children, start.rate) - Fee(Gross(p.children), start.rate)
  {
    FinalizedFacts(Buying, start, p);
    if p.filled > 0 {
      FinalAmountIsSum(Buying, p.gross, p.venueFee, r.platformFee);
    } else {
      NoFeeOnNothing(start.rate);
    }
  }

  lemma ResidueBound(cs: seq<Child>, rate: Decimal)
    requires IdleCostNothing(cs)
    ensures var residue := FeesByChild(cs, rate) - Fee(Gross(cs), rate);
            2 * Abs(residue) <= Fills(cs) + 1 && (Fills(cs) <= 1 ==> residue == 0) && Fills(cs) <= |cs|
  {
    FillsBound(cs);
    FeesAgainstTotal(cs, rate);
    if Fills(cs) <= 1 {
      OneFillLeavesNothing(cs, rate);
    }
  }

  lemma FinalizedPurchaseIsFair(start: Route, p: Progress, r: Route)
    requires Finalized(Buying, start, p) == Success(r) && start.platformFee == 0 && start.final == 0
    requires PurchaseKept(p, start.input, start.rate) && IdleCostNothing(p.children) && |p.children| <= VENUES
    ensures r.asset == start.asset && r.input == start.input && r.rate == start.rate && FairPurchase(r)
  {
    ResidueOfPurchase(start, p, r);
    ResidueBound(p.children, start.rate);
  }

  lemma PurchaseIsFair(asset: string, budget: Decimal, rate: Decimal, cs: Candidates, r: Route)
    requires PurchaseRoute(asset, budget, rate, cs) == Success(r)
    ensures r.asset == asset && r.input == budget && r.rate == rate && FairPurchase(r)
  {
    BoughtThroughKeeps(budget, rate, cs);
    var p := BoughtThrough(Progress([], 0, 0, 0, budget), cs, rate).value;
    FinalizedPurchaseIsFair(Start(Buying, asset, budget, rate, cs), p, r);
  }

  // ---- Two purchases whose roundings differ ----

  /** `v` is the rounded product, with no tie to break. */
  predicate Near(x: int, y: int, v: int) {
    2 * Abs(v * UNIT - x * y) < UNIT && 0 <= v < LIMIT
  }

  lemma NearestIsRounded(n: nat, d: nat, v: nat)
    requires d > 0 && 2 * Abs(v * d - n) < d
    ensures RoundRatio(n, d, HalfEven) == v
  {
    RatioOfRounding(n, d, HalfEven, v);
  }

  lemma FullScalePolicy(x: nat, y: nat)
    ensures Multiply(x, y, CALCULATION_POLICY) == FromCoefficient(Fee(x, y))
    ensures y > 0 ==> Divide(x, y, CALCULATION_POLICY) == FromCoefficient(RoundRatio(x * UNIT, y, HalfEven))
    ensures y > 0 ==> Divide(x, y, QUANTITY_POLICY) == FromCoefficient(RoundRatio(x * UNIT, y, TowardZero))
  {
  }

  lemma Times(x: nat, y: nat, v: nat)
    requires Near(x, y, v)
    ensures Multiply(x, y, CALCULATION_POLICY) == Success(v) && Fee(x, y) == v
  {
    NearestIsRounded(x * y, UNIT, v);
    FullScalePolicy(x, y);
  }

  lemma Over(x: nat, y: nat, v: nat)
    requires v * y <= x * UNIT < v * y + y && v < LIMIT
    ensures Divide(x, y, QUANTITY_POLICY) == Success(v)
  {
    assert IsRounded(x * UNIT, y, TowardZero, v);
    RatioOfRounding(x * UNIT, y, TowardZero, v);
    FullScalePolicy(x, y);
  }

  /** What a venue answers in full at its ask, priced by hand. */
  predicate Priced(c: Candidate, child: Child) {
    && c.answer == Some(Fill(child.filled, c.quote.ask)) && child.filled > 0 && c.quote.feeRate >= 0 && c.quote.ask >= 0
    && child == Child(c.quote, c.effective, child.requested, child.filled, c.quote.ask, child.gross, child.venueFee)
    && Near(child.filled, c.quote.ask, child.gross) && Near(child.gross, c.quote.feeRate, child.venueFee)
  }

  lemma PricedOrder(c: Candidate, child: Child)
    requires Priced(c, child)
    ensures Execute(c, child.requested) == child
  {
    Times(child.filled, c.quote.ask, child.gross);
    Times(child.gross, c.quote.feeRate, child.venueFee);
  }

  lemma PricedAllocation(p: Progress, c: Candidate, rate: nat, fee: nat, asked: nat)
    requires c.quote.ask >= 0 && Near(c.quote.ask, rate, fee) && 0 < c.effective + fee < LIMIT && p.remaining >= 0
    requires var cost := c.effective + fee; asked * cost <= p.remaining * UNIT < asked * cost + cost && asked < LIMIT
    ensures Affordable(p, c, rate) == Success(asked)
  {
    Times(c.quote.ask, rate, fee);
    Over(p.remaining, c.effective + fee, asked);
  }

  lemma PricedCost(child: Child, rate: nat, platformFee: nat)
    requires child.gross >= 0 && child.venueFee >= 0 && Near(child.gross, rate, platformFee)
    requires child.gross + child.venueFee + platformFee < LIMIT
    ensures ChildCost(child, rate) == Success(child.gross + child.venueFee + platformFee)
  {
    Times(child.gross, rate, platformFee);
  }

  lemma PricedCharge(p: Progress, child: Child, cost: Decimal)
    requires 0 <= cost <= p.remaining < LIMIT
    requires child.gross >= 0 && child.venueFee >= 0 && child.filled >= 0 && p.filled >= 0 && p.gross >= 0
             && p.venueFee >= 0
    requires p.filled + child.filled < LIMIT && p.gross + child.gross < LIMIT && p.venueFee + child.venueFee < LIMIT
    ensures Charged(p, child, cost) ==
            Success(Progress(p.children + [child], p.filled + child.filled, p.gross + child.gross,
                             p.venueFee + child.venueFee, p.remaining - cost))
  {
    assert Sub(p.remaining, cost) == Success(p.remaining - cost);
    ChildAdded(p.(children := p.children + [child], remaining := p.remaining - cost), child);
  }

  lemma ChildAdded(p: Progress, child: Child)
    requires child.gross >= 0 && child.venueFee >= 0 && child.filled >= 0 && p.filled >= 0 && p.gross >= 0
             && p.venueFee >= 0
    requires p.filled + child.filled < LIMIT && p.gross + child.gross < LIMIT && p.venueFee + child.venueFee < LIMIT
    ensures WithChild(p, child) ==
            Success(p.(filled := p.filled + child.filled, gross := p.gross + child.gross,
                       venueFee := p.venueFee + child.venueFee))
  {
    assert Add(p.filled, child.filled) == Success(p.filled + child.filled);
    assert Add(p.gross, child.gross) == Success(p.gross + child.gross);
    assert Add(p.venueFee, child.venueFee) == Success(p.venueFee + child.venueFee);
  }

  const RATE: nat := 2_000_000_000_000_000

  /** A local venue's quote for ether, and the answer it gives. */
  function Venue(venue: nat, bid: Decimal, ask: Decimal, feeRate: Decimal, effective: Decimal, filled: Decimal)
      : Candidate
  {
    Candidate(Quote(venue, bid, ask, feeRate, 250_000_000_000_000_000), effective, Some(Fill(filled, ask)))
  }

  /** The second venue nets best; asked for a partial fill it gives half. The first venue gives the rest. */
  function Second(filled: Decimal): Candidate {
    Venue(2, 3_587_600_000_000_000_000_000, 3_588_900_000_000_000_000_000, 500_000_000_000_000,
          3_590_694_450_000_000_000_000, filled)
  }

  function First(filled: Decimal): Candidate {
    Venue(1, 3_587_450_000_000_000_000_000, 3_589_050_000_000_000_000_000, 1_000_000_000_000_000,
          3_592_639_050_000_000_000_000, filled)
  }

  /** What one order does when it is filled as priced. */
  lemma PricedPurchase(p: Progress, c: Candidate, child: Child, rate: nat, fee: nat, platformFee: nat, q: Progress)
    requires Priced(c, child) && 0 < child.requested <= c.quote.available && child.requested < LIMIT
    requires Near(c.quote.ask, rate, fee) && 0 < c.effective + fee < LIMIT && p.remaining >= 0
    requires var cost := c.effective + fee;
             child.requested * cost <= p.remaining * UNIT < child.requested * cost + cost
    requires Near(child.gross, rate, platformFee)
    requires child.gross + child.venueFee + platformFee <= p.remaining < LIMIT
    requires p.filled >= 0 && p.gross >= 0 && p.venueFee >= 0
    requires q == Progress(p.children + [child], p.filled + child.filled, p.gross + child.gross,
                           p.venueFee + child.venueFee, p.remaining - child.gross - child.venueFee - platformFee)
    requires q.filled < LIMIT && q.gross < LIMIT && q.venueFee < LIMIT
    ensures BoughtFrom(p, c, rate) == Success(q)
  {
    PricedAllocation(p, c, rate, fee, child.requested);
    PricedOrder(c, child);
    PricedCost(child, rate, platformFee);
    PricedCharge(p, child, child.gross + child.venueFee + platformFee);
  }

  lemma ElevenDollarsFirst(c: Candidate, x: Child, p: Progress)
    requires c == Second(x.filled)
    requires x == Child(c.quote, c.effective, 3_057_362_584_232_944, 1_528_681_292_116_472, c.quote.ask,
                        5_486_284_289_276_806_361, 2_743_142_144_638_403)
    requires p == Progress([x], x.filled, x.gross, x.venueFee, 5_500_000_000_000_001_623)
    ensures BoughtFrom(Progress([], 0, 0, 0, 11 * UNIT), c, RATE) == Success(p)
  {
    assert [] + [x] == [x];
    assert Near(1_528_681_292_116_472, 3_588_900_000_000_000_000_000, 5_486_284_289_276_806_361);
    assert Near(5_486_284_289_276_806_361, 500_000_000_000_000, 2_743_142_144_638_403);
    assert Near(5_486_284_289_276_806_361, RATE, 10_972_568_578_553_613);
    PricedPurchase(Progress([], 0, 0, 0, 11 * UNIT), c, x, RATE, 7_177_800_000_000_000_000, 10_972_568_578_553_613, p);
  }

  lemma ElevenDollarsSecond(c: Candidate, x: Child, y: Child, p: Progress, q: Progress)
    requires c == First(y.filled)
    requires y == Child(c.quote, c.effective, 1_527_855_380_098_959, 1_527_855_380_098_959, c.quote.ask,
                        5_483_549_351_944_168_799, 5_483_549_351_944_169)
    requires p == Progress([x], 1_528_681_292_116_472, 5_486_284_289_276_806_361, 2_743_142_144_638_403,
             5_500_000_000_000_001_623)
    requires q == Progress([x, y], 3_056_536_672_215_431, 10_969_833_641_220_975_160, 8_226_691_496_582_572, 317)
    ensures BoughtFrom(p, c, RATE) == Success(q)
  {
    assert [x] + [y] == [x, y];
    assert Near(1_527_855_380_098_959, 3_589_050_000_000_000_000_000, 5_483_549_351_944_168_799);
    assert Near(5_483_549_351_944_168_799, 1_000_000_000_000_000, 5_483_549_351_944_169);
    assert Near(5_483_549_351_944_168_799, RATE, 10_967_098_703_888_338);
    PricedPurchase(p, c, y, RATE, 7_178_100_000_000_000_000, 10_967_098_703_888_338, q);
  }

  /** The report of two priced fills. */
  lemma PricedReport(start: Route, p: Progress, platformFee: nat)
    requires p.filled > 0 && p.gross > 0 && p.venueFee >= 0 && Near(p.gross, RATE, platformFee) && start.rate == RATE
    requires Reportable(Buying, p, start.reference).Success? && p.gross + p.venueFee + platformFee < LIMIT
    ensures var r := Finalized(Buying, start, p);
            r.Success? && r.value.final == p.gross + p.venueFee + platformFee && r.value.unspent == p.remaining
  {
    Times(p.gross, RATE, platformFee);
    assert Add(p.gross, p.venueFee) == Success(p.gross + p.venueFee);
  }

  lemma Nearest(x: nat, y: nat, v: nat)
    requires 2 * Abs(v * y - x * UNIT) < y && v < LIMIT
    ensures Divide(x, y, CALCULATION_POLICY) == Success(v)
  {
    NearestIsRounded(x * UNIT, y, v);
    FullScalePolicy(x, y);
  }

  lemma PricedAverage(p: Progress, reference: Decimal, average: nat, expected: nat)
    requires Divide(p.gross, p.filled, CALCULATION_POLICY) == Success(average)
    requires Multiply(p.filled, reference, CALCULATION_POLICY) == Success(expected) && expected < LIMIT
    requires 0 <= p.gross < LIMIT
    ensures Reportable(Buying, p, reference).Success?
  {
    assert Sub(expected, p.gross) == Success(expected - p.gross);
  }

  lemma ElevenDollarsReport(start: Route, p: Progress)
    requires p.filled == 3_056_536_672_215_431 && p.gross == 10_969_833_641_220_975_160
    requires p.venueFee == 8_226_691_496_582_572 && p.remaining == 317
    requires start.rate == RATE && start.reference == 3_589_050_000_000_000_000_000 && start.input == 11 * UNIT
    ensures var r := Finalized(Buying, start, p); r.Success? && r.value.Residue() == 1 && r.value.unspent == 317
  {
    assert Near(3_056_536_672_215_431, 3_589_050_000_000_000_000_000, 10_970_062_943_414_792_631);
    assert Near(10_969_833_641_220_975_160, RATE, 21_939_667_282_441_950);
    Times(p.filled, start.reference, 10_970_062_943_414_792_631);
    Nearest(10_969_833_641_220_975_160, 3_056_536_672_215_431, 3_588_974_979_734_121_341_876);
    PricedAverage(p, start.reference, 3_588_974_979_734_121_341_876, 10_970_062_943_414_792_631);
    PricedReport(start, p, 21_939_667_282_441_950);
  }

  lemma TwoOrders(begin: Progress, cs: Candidates, rate: Decimal, p: Progress)
    requires |cs| == 2 && begin.remaining > COMPLETION_DUST && p.remaining > COMPLETION_DUST
    requires BoughtFrom(begin, cs[0], rate) == Success(p)
    ensures BoughtThrough(begin, cs, rate) == BoughtFrom(p, cs[1], rate)
  {
    assert cs[..1] == [cs[0]] && cs[..1][..0] == [];
    assert BoughtThrough(begin, cs[..1][..0], rate) == Success(begin);
    assert BoughtThrough(begin, cs[..1], rate) == Success(p);
  }

  lemma ElevenDollarOrders(cs: Candidates, q: Progress)
    requires cs == [Second(1_528_681_292_116_472), First(1_527_855_380_098_959)]
    requires |q.children| == 2
    requires q.children[0] == Child(cs[0].quote, cs[0].effective, 3_057_362_584_232_944, 1_528_681_292_116_472,
                                    cs[0].quote.ask, 5_486_284_289_276_806_361, 2_743_142_144_638_403)
    requires q.children[1] == Child(cs[1].quote, cs[1].effective, 1_527_855_380_098_959, 1_527_855_380_098_959,
                                    cs[1].quote.ask, 5_483_549_351_944_168_799, 5_483_549_351_944_169)
    requires q == Progress(q.children, 3_056_536_672_215_431, 10_969_833_641_220_975_160, 8_226_691_496_582_572, 317)
    ensures BoughtThrough(Progress([], 0, 0, 0, 11 * UNIT), cs, RATE) == Success(q)
  {
    var x, y := q.children[0], q.children[1];
    var p := Progress([x], x.filled, x.gross, x.venueFee, 5_500_000_000_000_001_623);
    assert q.children == [x, y];
    ElevenDollarsFirst(cs[0], x, p);
    ElevenDollarsSecond(cs[1], x, y, p, q);
    TwoOrders(Progress([], 0, 0, 0, 11 * UNIT), cs, RATE, p);
  }

  /**
   Eleven dollars into ether, filled by two venues: the two fees round up where the fee on the total rounds down, so
   10^-18 dollars are neither spent nor given back.
   */
  lemma ElevenDollars(cs: Candidates)
    requires cs == [Second(1_528_681_292_116_472), First(1_527_855_380_098_959)]
    ensures var r := PurchaseRoute("ETH", 11 * UNIT, RATE, cs);
            r.Success? && r.value.Residue() == 1 && r.value.unspent == 317
  {
    var x := Child(cs[0].quote, cs[0].effective, 3_057_362_584_232_944, 1_528_681_292_116_472, cs[0].quote.ask,
                   5_486_284_289_276_806_361, 2_743_142_144_638_403);
    var y := Child(cs[1].quote, cs[1].effective, 1_527_855_380_098_959, 1_527_855_380_098_959, cs[1].quote.ask,
                   5_483_549_351_944_168_799, 5_483_549_351_944_169);
    var q := Progress([x, y], 3_056_536_672_215_431, 10_969_833_641_220_975_160, 8_226_691_496_582_572, 317);
    ElevenDollarOrders(cs, q);
    FirstIsReference(cs);
    ElevenDollarsReport(Start(Buying, "ETH", 11 * UNIT, RATE, cs), q);
  }

  lemma FirstIsReference(cs: Candidates)
    requires |cs| == 2 && cs[1].quote.venue < cs[0].quote.venue
    ensures Reference(cs) == cs[1].quote
  {
    assert Reference([cs[0]]) == cs[0].quote && cs[..1] == [cs[0]];
  }

  // ---- The loops as they run ----

  /** After an error, or once the loop has enough, the remaining candidates change nothing. */
  lemma {:induction false} SaleStops(p: Progress, cs: seq<Candidate>, n: nat)
    requires n <= |cs|
    requires var q := SoldThrough(p, cs[..n]); n == |cs| || q.Failure? || q.value.remaining <= 0
    ensures SoldThrough(p, cs) == SoldThrough(p, cs[..n])
  {
    if n == |cs| {
      assert cs[..n] == cs;
    } else {
      assert cs[..|cs| - 1][..n] == cs[..n];
      SaleStops(p, cs[..|cs| - 1], n);
    }
  }

  lemma {:induction false} PurchaseStops(p: Progress, cs: seq<Candidate>, rate: Decimal, n: nat)
    requires n <= |cs|
    requires var q := BoughtThrough(p, cs[..n], rate); n == |cs| || q.Failure? || q.value.remaining <= COMPLETION_DUST
    ensures BoughtThrough(p, cs, rate) == BoughtThrough(p, cs[..n], rate)
  {
    if n == |cs| {
      assert cs[..n] == cs;
    } else {
      assert cs[..|cs| - 1][..n] == cs[..n];
      PurchaseStops(p, cs[..|cs| - 1], rate, n);
    }
  }

  lemma SaleStep(start: Progress, cs: seq<Candidate>, i: nat, p: Progress)
    requires i < |cs| && SoldThrough(start, cs[..i]) == Success(p) && p.remaining > 0
    ensures SoldThrough(start, cs[..i + 1]) == SoldTo(p, cs[i])
  {
    assert cs[..i + 1][..i] == cs[..i];
  }

  method SellThrough(start: Progress, cs: Candidates) returns (r: Result<Progress, RouteError>)
    ensures r == SoldThrough(start, cs)
  {
    var p := start;
    var i := 0;
    while i < |cs| && p.remaining > 0
      invariant 0 <= i <= |cs| && SoldThrough(start, cs[..i]) == Success(p)
    {
      SaleStep(start, cs, i, p);
      r := SoldTo(p, cs[i]);
      if r.Failure? {
        SaleStops(start, cs, i + 1);
        return;
      }
      p, i := r.value, i + 1;
    }
    SaleStops(start, cs, i);
    r := Success(p);
  }

  lemma PurchaseStep(start: Progress, cs: seq<Candidate>, rate: Decimal, i: nat, p: Progress)
    requires i < |cs| && BoughtThrough(start, cs[..i], rate) == Success(p) && p.remaining > COMPLETION_DUST
    ensures BoughtThrough(start, cs[..i + 1], rate) == BoughtFrom(p, cs[i], rate)
  {
    assert cs[..i + 1][..i] == cs[..i];
  }

  method BuyThrough(start: Progress, cs: Candidates, rate: Decimal) returns (r: Result<Progress, RouteError>)
    ensures r == BoughtThrough(start, cs, rate)
  {
    var p := start;
    var i := 0;
    while i < |cs| && p.remaining > COMPLETION_DUST
      invariant 0 <= i <= |cs| && BoughtThrough(start, cs[..i], rate) == Success(p)
    {
      PurchaseStep(start, cs, rate, i, p);
      r := BoughtFrom(p, cs[i], rate);
      if r.Failure? {
        PurchaseStops(start, cs, rate, i + 1);
        return;
      }
      p, i := r.value, i + 1;
    }
    PurchaseStops(start, cs, rate, i);
    r := Success(p);
  }

  /** Sells over the candidates, and reports a route that is fair if the tables accept it. */
  method Sell(asset: string, quantity: Decimal, rate: Decimal, cs: Candidates) returns (r: Result<Route, RouteError>)
    ensures r == SaleRoute(asset, quantity, rate, cs)
    ensures r.Success? && StoredRoute(r.value) ==> FairSale(r.value)
  {
    if !ValidRequest(asset, quantity, rate) {
      return Failure(InvalidRequest);
    }
    var p :- SellThrough(Progress([], 0, 0, 0, quantity), cs);
    r := Finalized(Selling, Start(Selling, asset, quantity, rate, cs), p);
    if r.Success? {
      SaleIsFair(asset, quantity, rate, cs, r.value);
    }
  }

  /** Buys over the candidates; what is charged child by child differs from the report by the residue alone. */
  method Buy(asset: string, budget: Decimal, rate: Decimal, cs: Candidates) returns (r: Result<Route, RouteError>)
    ensures r == PurchaseRoute(asset, budget, rate, cs)
    ensures r.Success? ==> FairPurchase(r.value)
  {
    if !ValidRequest(asset, budget, rate) {
      return Failure(InvalidRequest);
    }
    var p :- BuyThrough(Progress([], 0, 0, 0, budget), cs, rate);
    r := Finalized(Buying, Start(Buying, asset, budget, rate, cs), p);
    if r.Success? {
      PurchaseIsFair(asset, budget, rate, cs, r.value);
    }
  }
}
