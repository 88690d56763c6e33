/**
 Where the money of conversions and withdrawals is, over every run: what each settled leg does to a customer's funds and
 to the fee accounts, and what settled, withdrawable and frozen balances are made of.
 */
module CryptoFunds {
  import opened Results
  import opened Decimals
  import opened Entries
  import opened Sums
  import opened Router
  import opened Crypto
  import opened CryptoRuns

  function OrZero(x: int): int {
    if x > 0 then x else 0
  }

  // ---- One posting ----

  lemma FourSums(a: seq<Entry>, b: seq<Entry>, c: seq<Entry>, d: seq<Entry>, k: Key)
    ensures Balance(a + b + c + d, k) == Balance(a, k) + Balance(b, k) + Balance(c, k) + Balance(d, k)
  {
    BalanceOfConcat(a + b + c, d, k);
    BalanceOfConcat(a + b, c, k);
    BalanceOfConcat(a, b, k);
  }

  lemma OneBalance(e: Entry, k: Key)
    ensures Balance([e], k) == if e.Place() == k then e.Signed() else 0
  {
    assert [e][..0] == [];
  }

  lemma FeeMoves(u: UsdAccounts, d: Dimension, r: Route, k: Key)
    ensures Balance(FeeEntries(u, d, r), k) ==
            (if k == Key(u.venueFees, USD, d) then OrZero(r.venueFee) else 0)
            + (if k == Key(u.platformFees, USD, d) then OrZero(r.platformFee) else 0)
  {
    var v, p := Entry(u.venueFees, USD, d, Debit, r.venueFee), Entry(u.platformFees, USD, d, Debit, r.platformFee);
    OneBalance(v, k);
    OneBalance(p, k);
    BalanceOfConcat(if r.venueFee > 0 then [v] else [], if r.platformFee > 0 then [p] else [], k);
  }

  /** The fee accounts are two, and neither is the routing account. */
  predicate FeesApart(u: UsdAccounts) {
    u.venueFees != u.platformFees && u.venueFees != u.routing && u.platformFees != u.routing
  }

  /** What a sale does to a customer's funds: held shares out; dollars in, settled and withdrawable, or else frozen. */
  lemma SaleMovesFunds(b: Book, c: Customer, a: Asset, r: Route, review: bool, d: Customer, x: Asset, k: Key)
    requires AccountsApart(b) && b.Knows(c, a) && a != USD && IsFund(b, d, x, k) && k.currency == x
    ensures Balance(SellEntries(b, c, a, r, review), k) ==
            if d != c then 0
            else if x == a then (if k.dimension == Held then -r.filled else 0)
            else if x != USD then 0
            else if review then (if k.dimension == Frozen then r.final else 0)
            else if k.dimension == Settled || k.dimension == Withdrawable then r.final else 0
  {
    var s := b.assets[(c, a)];
    var dim := if review then Frozen else Settled;
    var first, second := Pair(s.customer, s.inventory, a, Held, Credit, r.filled),
      [Entry(b.usd.routing, USD, dim, Credit, r.gross), Entry(b.cash[c], USD, dim, Debit, r.final)];
    var last := if review then [] else Pair(b.cash[c], b.usd.routing, USD, Withdrawable, Debit, r.final);
    FourSums(first, second, FeeEntries(b.usd, dim, r), last, k);
    PairEffect(s.customer, s.inventory, a, Held, Credit, r.filled, k);
    PairBalance(second[0], second[1], k);
    FeeMoves(b.usd, dim, r, k);
    PairEffect(b.cash[c], b.usd.routing, USD, Withdrawable, Debit, r.final, k);
  }

  /** A purchase's dollars, entry by entry, away from routing and fee accounts. */
  lemma PurchaseParts(b: Book, c: Customer, r: Route, reserved: bool, k: Key)
    requires AccountsApart(b) && c in b.cash && (c, r.asset) in b.assets
    requires k.account != b.usd.routing && k.account != b.usd.venueFees && k.account != b.usd.platformFees
    ensures var s := b.assets[(c, r.asset)];
            Balance(BuyEntries(b, c, r, reserved), k) ==
            Balance(Pair(s.customer, s.inventory, r.asset, Settled, Debit, r.filled), k)
              - (if k == Key(b.cash[c], USD, if reserved then Held else Settled)
                   || (!reserved && k == Key(b.cash[c], USD, Withdrawable)) then r.final else 0)
  {
    var s := b.assets[(c, r.asset)];
    var dim := if reserved then Held else Settled;
    var first := [Entry(b.cash[c], USD, dim, Credit, r.final), Entry(b.usd.routing, USD, dim, Debit, r.gross)];
    var second := Pair(s.customer, s.inventory, r.asset, Settled, Debit, r.filled);
    var last := if reserved then [] else Pair(b.cash[c], b.usd.routing, USD, Withdrawable, Credit, r.final);
    FourSums(first, second, FeeEntries(b.usd, dim, r), last, k);
    PairBalance(first[0], first[1], k);
    FeeMoves(b.usd, dim, r, k);
    PairEffect(b.cash[c], b.usd.routing, USD, Withdrawable, Credit, r.final, k);
  }

  /** What a purchase does: the bought asset in; dollars out of held, or else out of settled and withdrawable. */
  lemma PurchaseMovesFunds(b: Book, c: Customer, r: Route, reserved: bool, d: Customer, x: Asset, k: Key)
    requires AccountsApart(b) && c in b.cash && (c, r.asset) in b.assets && IsFund(b, d, x, k) && k.currency == x
    ensures Balance(BuyEntries(b, c, r, reserved), k) ==
            if d != c then 0
            else if x == r.asset then (if k.dimension == Settled then r.filled else 0)
            else if x != USD then 0
            else if reserved then (if k.dimension == Held then -r.final else 0)
            else if k.dimension == Settled || k.dimension == Withdrawable then -r.final else 0
  {
    var s := b.assets[(c, r.asset)];
    PurchaseParts(b, c, r, reserved, k);
    PairEffect(s.customer, s.inventory, r.asset, Settled, Debit, r.filled, k);
  }

  /** Each fee of a leg reaches its own account, in the dimension the leg is settled in. */
  lemma LegsPayFees(b: Book, c: Customer, a: Asset, r: Route, review: bool, reserved: bool, d: Dimension)
    requires AccountsApart(b) && FeesApart(b.usd) && b.Knows(c, a) && a != USD && r.asset == a
    ensures var sale, purchase := SellEntries(b, c, a, r, review), BuyEntries(b, c, r, reserved);
            var venue, platform := Key(b.usd.venueFees, USD, d), Key(b.usd.platformFees, USD, d);
            && Balance(sale, venue) == (if d == (if review then Frozen else Settled) then OrZero(r.venueFee) else 0)
            && Balance(sale, platform) ==
               (if d == (if review then Frozen else Settled) then OrZero(r.platformFee) else 0)
            && Balance(purchase, venue) ==
               (if d == (if reserved then Held else Settled) then OrZero(r.venueFee) else 0)
            && Balance(purchase, platform) ==
               (if d == (if reserved then Held else Settled) then OrZero(r.platformFee) else 0)
  {
    SaleFee(b, c, a, r, review, Key(b.usd.venueFees, USD, d));
    SaleFee(b, c, a, r, review, Key(b.usd.platformFees, USD, d));
    PurchaseFee(b, c, r, reserved, Key(b.usd.venueFees, USD, d));
    PurchaseFee(b, c, r, reserved, Key(b.usd.platformFees, USD, d));
  }

  predicate IsFeeKey(b: Book, k: Key) {
    k.currency == USD && (k.account == b.usd.venueFees || k.account == b.usd.platformFees)
  }

  lemma SaleFee(b: Book, c: Customer, a: Asset, r: Route, review: bool, k: Key)
    requires AccountsApart(b) && FeesApart(b.usd) && b.Knows(c, a) && a != USD && IsFeeKey(b, k)
    ensures Balance(SellEntries(b, c, a, r, review), k) ==
            Balance(FeeEntries(b.usd, if review then Frozen else Settled, r), k)
    ensures Balance(FeeEntries(b.usd, if review then Frozen else Settled, r), k) ==
            if k.dimension != (if review then Frozen else Settled) then 0
            else if k.account == b.usd.venueFees then OrZero(r.venueFee) else OrZero(r.platformFee)
  {
    var s := b.assets[(c, a)];
    var dim := if review then Frozen else Settled;
    var first, second := Pair(s.customer, s.inventory, a, Held, Credit, r.filled),
      [Entry(b.usd.routing, USD, dim, Credit, r.gross), Entry(b.cash[c], USD, dim, Debit, r.final)];
    var last := if review then [] else Pair(b.cash[c], b.usd.routing, USD, Withdrawable, Debit, r.final);
    FourSums(first, second, FeeEntries(b.usd, dim, r), last, k);
    PairEffect(s.customer, s.inventory, a, Held, Credit, r.filled, k);
    PairBalance(second[0], second[1], k);
    FeeMoves(b.usd, dim, r, k);
    PairEffect(b.cash[c], b.usd.routing, USD, Withdrawable, Debit, r.final, k);
  }

  lemma PurchaseFee(b: Book, c: Customer, r: Route, reserved: bool, k: Key)
    requires AccountsApart(b) && FeesApart(b.usd) && c in b.cash && (c, r.asset) in b.assets && IsFeeKey(b, k)
    ensures Balance(BuyEntries(b, c, r, reserved), k) ==
            Balance(FeeEntries(b.usd, if reserved then Held else Settled, r), k)
    ensures Balance(FeeEntries(b.usd, if reserved then Held else Settled, r), k) ==
            if k.dimension != (if reserved then Held else Settled) then 0
            else if k.account == b.usd.venueFees then OrZero(r.venueFee) else OrZero(r.platformFee)
  {
    var s := b.assets[(c, r.asset)];
    var dim := if reserved then Held else Settled;
    var first := [Entry(b.cash[c], USD, dim, Credit, r.final), Entry(b.usd.routing, USD, dim, Debit, r.gross)];
    var second := Pair(s.customer, s.inventory, r.asset, Settled, Debit, r.filled);
    var last := if reserved then [] else Pair(b.cash[c], b.usd.routing, USD, Withdrawable, Credit, r.final);
    FourSums(first, second, FeeEntries(b.usd, dim, r), last, k);
    PairBalance(first[0], first[1], k);
    PairEffect(s.customer, s.inventory, r.asset, Settled, Debit, r.filled, k);
    FeeMoves(b.usd, dim, r, k);
    PairEffect(b.cash[c], b.usd.routing, USD, Withdrawable, Credit, r.final, k);
  }

  // ---- What one conversion or withdrawal has done to its customer's funds ----

  function FundKey(b: Book, c: Customer, a: Asset, d: Dimension): Key
    requires b.Knows(c, a)
  {
    Key(Holder(b, c, a), a, d)
  }

  function RouteOf(b: Book, i: nat, sequence: int): Option<Route> {
    if HasLeg(b, i, sequence) then Some(LegAt(b, i, sequence).route) else None
  }

  /** A sale: the unsold rest back, and the proceeds as free dollars or, under review, as frozen ones. */
  function FromSale(x: Conversion, r: Route, review: bool, a: Asset, d: Dimension): int {
    (if a == x.source && d == Settled then OrZero(x.amount - r.filled) else 0)
    + (if a == USD && r.filled > 0 && (if review then d == Frozen else IsFree(USD, d)) then r.final else 0)
  }

  /** A purchase paid from the reservation: the bought asset in, and the unspent dollars back. */
  function FromReservedPurchase(r: Route, a: Asset, d: Dimension): int {
    (if a == r.asset && d == Settled then OrZero(r.filled) else 0)
    + (if a == USD && IsFree(USD, d) then OrZero(r.unspent) else 0)
  }

  /** A purchase paid from a sale's proceeds: the bought asset in, its cost out. */
  function FromSecondPurchase(r: Route, a: Asset, d: Dimension): int {
    if r.filled <= 0 then 0
    else (if a == r.asset && d == Settled then r.filled else 0) - (if a == USD && IsFree(USD, d) then r.final else 0)
  }

  /** Everything a conversion did to funds that are not held. */
  function FundsOf(x: Conversion, first: Option<Route>, second: Option<Route>, a: Asset, d: Dimension): int {
    (if first.None? then 0
     else if x.source == USD then FromReservedPurchase(first.value, a, d)
     else FromSale(x, first.value, x.status.ReviewRequired?, a, d))
    + (if x.source != USD && second.Some? then FromSecondPurchase(second.value, a, d) else 0)
    - (if a == x.source && IsFree(a, d) then x.amount else 0)
  }

  function ConversionFunds(b: Book, c: Customer, a: Asset, d: Dimension): nat -> int {
    (i: nat) =>
      if i < |b.conversions| && b.conversions[i].customer == c
        then FundsOf(b.conversions[i], RouteOf(b, i, 1), RouteOf(b, i, 2), a, d) else 0
  }

  /** What a withdrawal has taken out of settled funds: its quantity, unless it failed. */
  function WithdrawalFunds(b: Book, c: Customer, a: Asset, d: Dimension): nat -> int {
    (w: nat) =>
      if w < |b.withdrawals| && b.withdrawals[w].customer == c && b.withdrawals[w].asset == a && d == Settled
        && !b.withdrawals[w].status.WithdrawalFailed? then b.withdrawals[w].quantity else 0
  }

  /** What conversions and withdrawals together did to a fund. */
  function Moved(b: Book, c: Customer, a: Asset, d: Dimension): int {
    Sum(ConversionFunds(b, c, a, d), |b.conversions|) - Sum(WithdrawalFunds(b, c, a, d), |b.withdrawals|)
  }

  /** A step that moves a fund by what its rows say. */
  ghost predicate Moves(b: Book, u: Book, c: Customer, a: Asset, d: Dimension)
    requires b.Knows(c, a) && SameAccounts(b, u)
  {
    var k := FundKey(b, c, a, d);
    Total(u.postings, k) - Total(b.postings, k) == Moved(u, c, a, d) - Moved(b, c, a, d)
  }

  // ---- Conversions ----

  lemma SameRoute(b: Book, u: Book, more: seq<Leg>, j: nat, sequence: int)
    requires u.legs == b.legs + more
    requires forall l | 0 <= l < |more| :: more[l].conversion != j || more[l].sequence != sequence
    ensures RouteOf(u, j, sequence) == RouteOf(b, j, sequence)
  {
    HasLegAfter(b, u, more, j, sequence);
    if HasLeg(b, j, sequence) {
      SameLeg(b.legs, more, j, sequence);
    }
  }

  /** New legs and a new status of one conversion leave what the others did. */
  lemma OneConversion(b: Book, u: Book, i: nat, more: seq<Leg>, c: Customer, a: Asset, d: Dimension)
    requires i < |b.conversions| == |u.conversions| && u.legs == b.legs + more && u.withdrawals == b.withdrawals
    requires forall j | 0 <= j < |b.conversions| && j != i :: u.conversions[j] == b.conversions[j]
    requires forall l | 0 <= l < |more| :: more[l].conversion == i
    ensures Moved(u, c, a, d) - Moved(b, c, a, d) == ConversionFunds(u, c, a, d)(i) - ConversionFunds(b, c, a, d)(i)
  {
    forall j: nat | j < |b.conversions| && j != i
      ensures ConversionFunds(u, c, a, d)(j) == ConversionFunds(b, c, a, d)(j)
    {
      SameRoute(b, u, more, j, 1);
      SameRoute(b, u, more, j, 2);
    }
    SumChange(ConversionFunds(b, c, a, d), ConversionFunds(u, c, a, d), |b.conversions|, i);
    SumSame(WithdrawalFunds(b, c, a, d), WithdrawalFunds(u, c, a, d), |b.withdrawals|);
  }

  /** A new conversion has taken its amount, and nothing else is different. */
  lemma NewConversionMoved(b: Book, c: ConvertCommand, e: Customer, a: Asset, d: Dimension)
    requires b.Knows(c.customer, c.source) && forall l | 0 <= l < |b.legs| :: b.legs[l].conversion < |b.conversions|
    ensures Moved(WithConversion(b, c), e, a, d) - Moved(b, e, a, d) ==
            if e == c.customer && a == c.source && IsFree(a, d) then -c.amount else 0
  {
    var u := WithConversion(b, c);
    var n := |b.conversions|;
    assert u.legs == b.legs + [];
    forall j: nat | j < n ensures ConversionFunds(u, e, a, d)(j) == ConversionFunds(b, e, a, d)(j) {
      SameRoute(b, u, [], j, 1);
      SameRoute(b, u, [], j, 2);
    }
    assert RouteOf(u, n, 1) == None && RouteOf(u, n, 2) == None;
    SumSame(ConversionFunds(b, e, a, d), ConversionFunds(u, e, a, d), n);
    SumSame(WithdrawalFunds(b, e, a, d), WithdrawalFunds(u, e, a, d), |b.withdrawals|);
  }

  lemma ReservationMoves(b: Book, c: ConvertCommand, e: Customer, a: Asset, d: Dimension)
    requires AccountsApart(b) && b.Knows(c.customer, c.source) && b.Knows(e, a) && d != Held
    requires forall l | 0 <= l < |b.legs| :: b.legs[l].conversion < |b.conversions|
    ensures Moves(b, WithConversion(b, c), e, a, d)
  {
    NewConversionMoved(b, c, e, a, d);
    ReserveEffect(b, c.customer, c.source, c.amount, e, a, FundKey(b, e, a, d));
  }

  lemma SalePostingsMove(b: Book, x: Conversion, r: Route, review: bool, c: Customer, a: Asset, d: Dimension)
    requires AccountsApart(b) && b.Knows(x.customer, x.source) && x.source != USD && b.Knows(c, a) && d != Held
    ensures Total(SellPostings(b, x, r, review), FundKey(b, c, a, d)) ==
            if c == x.customer then FromSale(x, r, review, a, d) else 0
  {
    var k := FundKey(b, c, a, d);
    LegTotal(r.filled, SellEntries(b, x.customer, x.source, r, review), x.amount - r.filled,
      ReleaseEntries(b, x.customer, x.source, x.amount - r.filled), k);
    SaleMovesFunds(b, x.customer, x.source, r, review, c, a, k);
    ReleaseEffect(b, x.customer, x.source, x.amount - r.filled, c, a, k);
  }

  lemma FoundRoute(b: Book, u: Book, i: nat, leg: Leg, more: seq<Leg>)
    requires u.legs == b.legs + ([leg] + more) && leg.conversion == i && !HasLeg(b, i, leg.sequence)
    requires |more| <= 1 && forall l | 0 <= l < |more| :: more[l].conversion == i && more[l].sequence != leg.sequence
    ensures RouteOf(u, i, leg.sequence) == Some(leg.route)
  {
    HasLegAfter(b, u, [leg] + more, i, leg.sequence);
    assert ([leg] + more)[0] == leg;
    FoundLeg(u.legs, i, leg.sequence);
    var l :| 0 <= l < |u.legs| && u.legs[l].conversion == i && u.legs[l].sequence == leg.sequence
      && u.legs[l] == FindLeg(u.legs, i, leg.sequence);
    assert l >= |b.legs|;
    assert u.legs[l] == ([leg] + more)[l - |b.legs|];
  }

  /** After a sale the conversion has its sale's route, and no purchase that moved anything. */
  lemma SaleRoutes(b: Book, i: nat, r: Route, review: bool)
    requires i < |b.conversions| && b.Knows(b.conversions[i].customer, b.conversions[i].source)
    requires b.conversions[i].source != USD && !HasLeg(b, i, 1) && !HasLeg(b, i, 2)
    ensures var u := WithSell(b, i, r, review);
            && RouteOf(u, i, 1) == Some(r)
            && (RouteOf(u, i, 2).Some? ==> RouteOf(u, i, 2).value.filled == 0)
  {
    var x, u := b.conversions[i], WithSell(b, i, r, review);
    var more := SellLegs(i, x, r, review)[1..];
    assert SellLegs(i, x, r, review) == [Leg(i, 1, r)] + more;
    FoundRoute(b, u, i, Leg(i, 1, r), more);
    if |more| == 1 {
      var v := b.(legs := b.legs + [Leg(i, 1, r)]);
      assert u.legs == v.legs + ([more[0]] + []);
      HasLegAfter(b, v, [Leg(i, 1, r)], i, 2);
      FoundRoute(v, u, i, more[0], []);
    } else {
      SameRoute(b, u, SellLegs(i, x, r, review), i, 2);
    }
  }

  lemma SaleMoved(b: Book, i: nat, r: Route, review: bool, c: Customer, a: Asset, d: Dimension)
    requires i < |b.conversions| && b.Knows(b.conversions[i].customer, b.conversions[i].source)
    requires b.conversions[i].source != USD && !HasLeg(b, i, 1) && !HasLeg(b, i, 2)
    ensures Moved(WithSell(b, i, r, review), c, a, d) - Moved(b, c, a, d) ==
            if c == b.conversions[i].customer then FromSale(b.conversions[i], r, review, a, d) else 0
  {
    var x, u := b.conversions[i], WithSell(b, i, r, review);
    SaleRoutes(b, i, r, review);
    OneConversion(b, u, i, SellLegs(i, x, r, review), c, a, d);
    assert u.conversions[i] == x.(status := SellStatus(x, r, review));
    assert SellStatus(x, r, review).ReviewRequired? <==> review;
  }

  lemma SaleMoves(b: Book, i: nat, r: Route, review: bool, c: Customer, a: Asset, d: Dimension)
    requires AccountsApart(b) && i < |b.conversions| && b.Knows(b.conversions[i].customer, b.conversions[i].source)
    requires b.conversions[i].source != USD && !HasLeg(b, i, 1) && !HasLeg(b, i, 2) && b.Knows(c, a) && d != Held
    ensures Moves(b, WithSell(b, i, r, review), c, a, d)
  {
    SaleMoved(b, i, r, review, c, a, d);
    SalePostingsMove(b, b.conversions[i], r, review, c, a, d);
    TotalOfConcat(b.postings, SellPostings(b, b.conversions[i], r, review), FundKey(b, c, a, d));
  }

  lemma PurchasePostingsMove(b: Book, x: Conversion, r: Route, c: Customer, a: Asset, d: Dimension)
    requires AccountsApart(b) && b.Knows(x.customer, x.source) && (x.customer, r.asset) in b.assets && b.Knows(c, a)
             && d != Held
    ensures Total(BuyPostings(b, x, r), FundKey(b, c, a, d)) ==
            if c != x.customer then 0
            else if x.source == USD then FromReservedPurchase(r, a, d) else FromSecondPurchase(r, a, d)
  {
    var k := FundKey(b, c, a, d);
    var rest := if x.source == USD then r.unspent else 0;
    LegTotal(r.filled, BuyEntries(b, x.customer, r, x.source == USD), rest,
      ReleaseEntries(b, x.customer, x.source, r.unspent), k);
    PurchaseMovesFunds(b, x.customer, r, x.source == USD, c, a, k);
    ReleaseEffect(b, x.customer, x.source, r.unspent, c, a, k);
  }

  lemma PurchaseMoved(b: Book, i: nat, r: Route, c: Customer, a: Asset, d: Dimension)
    requires i < |b.conversions| && b.Knows(b.conversions[i].customer, b.conversions[i].source)
    requires (b.conversions[i].customer, r.asset) in b.assets && !HasLeg(b, i, BuySequence(b.conversions[i]))
    requires b.conversions[i].status.Routing?
    ensures var x := b.conversions[i];
            Moved(WithBuy(b, i, r), c, a, d) - Moved(b, c, a, d) ==
            if c != x.customer then 0
            else if x.source == USD then FromReservedPurchase(r, a, d) else FromSecondPurchase(r, a, d)
  {
    var x, u := b.conversions[i], WithBuy(b, i, r);
    PurchaseRoutes(b, i, r);
    OneConversion(b, u, i, [Leg(i, BuySequence(x), r)], c, a, d);
  }

  /** After a purchase the conversion has its purchase's route, any sale it had, and no review. */
  lemma PurchaseRoutes(b: Book, i: nat, r: Route)
    requires i < |b.conversions| && b.Knows(b.conversions[i].customer, b.conversions[i].source)
    requires (b.conversions[i].customer, r.asset) in b.assets && !HasLeg(b, i, BuySequence(b.conversions[i]))
    ensures var x, u := b.conversions[i], WithBuy(b, i, r);
            && RouteOf(u, i, BuySequence(x)) == Some(r) && (x.source != USD ==> RouteOf(u, i, 1) == RouteOf(b, i, 1))
            && u.conversions[i] == x.(status := u.conversions[i].status) && !u.conversions[i].status.ReviewRequired?
  {
    var x, u := b.conversions[i], WithBuy(b, i, r);
    var leg := Leg(i, BuySequence(x), r);
    assert [leg] + [] == [leg];
    FoundRoute(b, u, i, leg, []);
    if x.source != USD {
      SameRoute(b, u, [leg], i, 1);
    }
  }

  lemma PurchaseMoves(b: Book, i: nat, r: Route, c: Customer, a: Asset, d: Dimension)
    requires AccountsApart(b) && i < |b.conversions| && b.Knows(b.conversions[i].customer, b.conversions[i].source)
    requires (b.conversions[i].customer, r.asset) in b.assets && !HasLeg(b, i, BuySequence(b.conversions[i]))
    requires b.conversions[i].status.Routing? && b.Knows(c, a) && d != Held
    ensures Moves(b, WithBuy(b, i, r), c, a, d)
  {
    PurchaseMoved(b, i, r, c, a, d);
    PurchasePostingsMove(b, b.conversions[i], r, c, a, d);
    TotalOfConcat(b.postings, BuyPostings(b, b.conversions[i], r), FundKey(b, c, a, d));
  }

  // ---- Withdrawals ----

  lemma SameConversions(b: Book, u: Book, c: Customer, a: Asset, d: Dimension)
    requires u.conversions == b.conversions && u.legs == b.legs
    ensures Sum(ConversionFunds(u, c, a, d), |u.conversions|) == Sum(ConversionFunds(b, c, a, d), |b.conversions|)
  {
    assert u.legs == b.legs + [];
    forall j: nat | j < |b.conversions| ensures ConversionFunds(u, c, a, d)(j) == ConversionFunds(b, c, a, d)(j) {
      SameRoute(b, u, [], j, 1);
      SameRoute(b, u, [], j, 2);
    }
    SumSame(ConversionFunds(b, c, a, d), ConversionFunds(u, c, a, d), |b.conversions|);
  }

  /** One withdrawal changes, or joins, and moves funds by the change of its term. */
  lemma OneWithdrawal(b: Book, u: Book, w: nat, c: Customer, a: Asset, d: Dimension)
    requires SameAccounts(b, u) && u.conversions == b.conversions && u.legs == b.legs && b.Knows(c, a)
    requires w < |u.withdrawals| && |b.withdrawals| <= |u.withdrawals|
    requires |u.withdrawals| == if w == |b.withdrawals| then |b.withdrawals| + 1 else |b.withdrawals|
    requires forall v | 0 <= v < |b.withdrawals| && v != w :: u.withdrawals[v] == b.withdrawals[v]
    requires Total(u.postings, FundKey(b, c, a, d)) - Total(b.postings, FundKey(b, c, a, d)) ==
             WithdrawalFunds(b, c, a, d)(w) - WithdrawalFunds(u, c, a, d)(w)
    ensures Moves(b, u, c, a, d)
  {
    SameConversions(b, u, c, a, d);
    SumChange(WithdrawalFunds(b, c, a, d), WithdrawalFunds(u, c, a, d), |b.withdrawals|, w);
  }

  lemma RequestMovesFunds(b: Book, c: WithdrawCommand, e: Customer, a: Asset, d: Dimension)
    requires AccountsApart(b) && c.customer in b.cash && (c.customer, c.asset) in b.assets && c.asset != USD
    requires b.Knows(e, a) && d != Held
    ensures Moves(b, WithWithdrawal(b, c), e, a, d)
  {
    ReserveEffect(b, c.customer, c.asset, c.quantity, e, a, FundKey(b, e, a, d));
    OneWithdrawal(b, WithWithdrawal(b, c), |b.withdrawals|, e, a, d);
  }

  lemma TransitionMovesFunds(b: Book, w: nat, kind: EventType, c: Customer, a: Asset, d: Dimension)
    requires AccountsApart(b) && w < |b.withdrawals| && WithdrawalSound(b, w) && Transitioned(b, w, kind).Success?
    requires b.Knows(c, a) && d != Held
    ensures SameAccounts(b, Transitioned(b, w, kind).value) && Moves(b, Transitioned(b, w, kind).value, c, a, d)
  {
    var x, u := b.withdrawals[w], Transitioned(b, w, kind).value;
    var k := FundKey(b, c, a, d);
    TransitionRows(b, w, kind);
    BroadcastEffect(b, x.customer, x.asset, x.quantity, c, a, k);
    ReserveEffect(b, x.customer, x.asset, x.quantity, c, a, k);
    TransitionTotal(b, w, kind, k);
    SameFields(b, w, kind);
    OneWithdrawal(b, u, w, c, a, d);
  }

  lemma TransitionTotal(b: Book, w: nat, kind: EventType, k: Key)
    requires w < |b.withdrawals| && WithdrawalSound(b, w) && Transitioned(b, w, kind).Success?
    ensures var x := b.withdrawals[w];
            var broadcast, reserve := BroadcastEntries(b, x.customer, x.asset, x.quantity),
              ReserveEntries(b, x.customer, x.asset, x.quantity);
            Total(Transitioned(b, w, kind).value.postings, k) - Total(b.postings, k) ==
            match kind
            case BroadcastEvent => Balance(broadcast, k)
            case ConfirmedEvent => 0
            case FailedEvent => -Balance(reserve, k) - if x.status.Broadcast? then Balance(broadcast, k) else 0
  {
    if kind.FailedEvent? {
      FailureTotal(b, w, k);
    }
  }

  lemma SameFields(b: Book, w: nat, kind: EventType)
    requires w < |b.withdrawals| && Transitioned(b, w, kind).Success?
    ensures var x, y := b.withdrawals[w], Transitioned(b, w, kind).value;
            && w < |y.withdrawals| && y.withdrawals[w].customer == x.customer && y.withdrawals[w].asset == x.asset
            && y.withdrawals[w].quantity == x.quantity && !x.status.WithdrawalFailed?
  {
  }

  // ---- Over every run ----

  /** A step of another product adds its own entries; every other step moves funds by what its rows say. */
  lemma StepMoves(b: Book, s: Step, c: Customer, a: Asset, d: Dimension)
    requires Sound(b) && b.Knows(c, a) && d != Held
    ensures var u, k := After(b, s), FundKey(b, c, a, d);
            && SameAccounts(b, u)
            && Total(u.postings, k) - Total(b.postings, k) == Moved(u, c, a, d) - Moved(b, c, a, d)
               + if s.Elsewhere? && SparesHeld(b, s.entries) then Balance(s.entries, k) else 0
  {
    match s
    case ReserveConversion(x) => ReserveStepMoves(b, x, c, a, d);
    case SettleSale(i, rate, venues, flagged) => SaleStepMoves(b, i, rate, venues, flagged, c, a, d);
    case SettlePurchase(i, rate, venues) => PurchaseStepMoves(b, i, rate, venues, c, a, d);
    case RequestWithdrawal(x) => RequestStepMoves(b, x, c, a, d);
    case ApplyEvent(id, e) => EventMoves(b, id, e, c, a, d);
    case Elsewhere(es) => ElsewhereMoves(b, es, c, a, d);
  }

  lemma ReserveStepMoves(b: Book, x: ConvertCommand, c: Customer, a: Asset, d: Dimension)
    requires AccountsApart(b) && LegsOnce(b) && b.Knows(c, a) && d != Held
    ensures var u := ConversionReserved(b, x).book; SameAccounts(b, u) && Moves(b, u, c, a, d)
  {
    if ConversionReserved(b, x).book != b {
      ReservationMoves(b, x, c, a, d);
    }
  }

  lemma RequestStepMoves(b: Book, x: WithdrawCommand, c: Customer, a: Asset, d: Dimension)
    requires AccountsApart(b) && b.Knows(c, a) && d != Held
    ensures var u := WithdrawalRequested(b, x).book; SameAccounts(b, u) && Moves(b, u, c, a, d)
  {
    if WithdrawalRequested(b, x).book != b {
      RequestMovesFunds(b, x, c, a, d);
    }
  }

  lemma SaleStepMoves(b: Book, i: nat, rate: Decimal, venues: Candidates, flagged: bool, c: Customer, a: Asset,
      d: Dimension)
    requires AccountsApart(b) && b.Knows(c, a) && d != Held
    ensures var u := SaleSettled(b, i, rate, venues, flagged).book; SameAccounts(b, u) && Moves(b, u, c, a, d)
  {
    var u := SaleSettled(b, i, rate, venues, flagged).book;
    if u != b {
      var r := SaleRoute(b.conversions[i].source, b.conversions[i].amount, rate, venues).value;
      assert !HasLeg(b, i, 1) && !HasLeg(b, i, 2);
      SaleMoves(b, i, r, flagged && r.filled > 0, c, a, d);
    }
  }

  lemma PurchaseStepMoves(b: Book, i: nat, rate: Decimal, venues: Candidates, c: Customer, a: Asset, d: Dimension)
    requires AccountsApart(b) && b.Knows(c, a) && d != Held
    ensures var u := PurchaseSettled(b, i, rate, venues).book; SameAccounts(b, u) && Moves(b, u, c, a, d)
  {
    var u := PurchaseSettled(b, i, rate, venues).book;
    if u != b {
      var r := PurchaseRoute(b.conversions[i].destination, Budget(b, i).value, rate, venues).value;
      PurchaseMoves(b, i, r, c, a, d);
    }
  }

  lemma EventMoves(b: Book, id: string, e: EventRow, c: Customer, a: Asset, d: Dimension)
    requires Sound(b) && b.Knows(c, a) && d != Held
    ensures var u := EventApplied(b, id, e).book; SameAccounts(b, u) && Moves(b, u, c, a, d)
  {
    var u := EventApplied(b, id, e).book;
    if u != b {
      assert WithdrawalSound(b, e.withdrawal);
      TransitionMovesFunds(b, e.withdrawal, e.kind, c, a, d);
      var v := Transitioned(b, e.withdrawal, e.kind).value;
      assert u == v.(events := b.events[id := e]);
      SameConversions(v, u, c, a, d);
      SumSame(WithdrawalFunds(v, c, a, d), WithdrawalFunds(u, c, a, d), |v.withdrawals|);
    }
  }

  lemma ElsewhereMoves(b: Book, es: seq<Entry>, c: Customer, a: Asset, d: Dimension)
    requires b.Knows(c, a)
    ensures var u, k := After(b, Elsewhere(es)), FundKey(b, c, a, d);
            && SameAccounts(b, u) && Moved(u, c, a, d) == Moved(b, c, a, d)
            && Total(u.postings, k) - Total(b.postings, k) == if SparesHeld(b, es) then Balance(es, k) else 0
  {
    var u := After(b, Elsewhere(es));
    SameConversions(b, u, c, a, d);
    SumSame(WithdrawalFunds(b, c, a, d), WithdrawalFunds(u, c, a, d), |b.withdrawals|);
  }

  /** What other products posted, before and during the run. */
  ghost function PostedElsewhere(b: Book, steps: seq<Step>, k: Key): int {
    if steps == [] then Total(b.postings, k)
    else
      var n := |steps| - 1;
      PostedElsewhere(b, steps[..n], k)
      + if steps[n].Elsewhere? && SparesHeld(Run(b, steps[..n]), steps[n].entries) then Balance(steps[n].entries, k)
        else 0
  }

  /**
   Over every run a customer's settled, withdrawable or frozen funds in an asset are what other products posted there,
     and
   for each conversion what its legs brought less what it took, less the quantities of withdrawals that have not failed.
   */
  lemma {:induction false} FundsAreAccounted(b: Book, steps: seq<Step>, c: Customer, a: Asset, d: Dimension)
    requires Initial(b) && b.Knows(c, a) && d != Held
    ensures SameAccounts(b, Run(b, steps))
    ensures var u, k := Run(b, steps), FundKey(b, c, a, d);
            Total(u.postings, k) == PostedElsewhere(b, steps, k)
              + Sum(ConversionFunds(u, c, a, d), |u.conversions|) - Sum(WithdrawalFunds(u, c, a, d), |u.withdrawals|)
  {
    if steps != [] {
      var n := |steps| - 1;
      FundsAreAccounted(b, steps[..n], c, a, d);
      RunsAreSound(b, steps[..n]);
      StepMoves(Run(b, steps[..n]), steps[n], c, a, d);
    }
  }

  /** Settled crypto in full: purchases in, sources out, unsold rests back, withdrawals out unless they failed. */
  lemma SettledCryptoIsAccounted(b: Book, steps: seq<Step>, c: Customer, a: Asset)
    requires Initial(b) && b.Knows(c, a) && a != USD
    ensures SameAccounts(b, Run(b, steps))
    ensures var u := Run(b, steps);
            Total(u.postings, FundKey(b, c, a, Settled)) == PostedElsewhere(b, steps, FundKey(b, c, a, Settled))
              + Sum(BoughtTerm(u, c, a), |u.conversions|) - Sum(SourceTerm(u, c, a), |u.conversions|)
              + Sum(UnsoldTerm(u, c, a), |u.conversions|) - Sum(WithdrawalFunds(u, c, a, Settled), |u.withdrawals|)
  {
    FundsAreAccounted(b, steps, c, a, Settled);
    RunsAreSound(b, steps);
    LegsAreFair(b, steps);
    var u := Run(b, steps);
    var n := |u.conversions|;
    var net := (i: nat) => BoughtTerm(u, c, a)(i) - SourceTerm(u, c, a)(i);
    var rest := (i: nat) => -UnsoldTerm(u, c, a)(i);
    var zero := (i: nat) => 0;
    forall i: nat | i < n
      ensures ConversionFunds(u, c, a, Settled)(i) == net(i) - rest(i)
    {
      SettledTerms(u, i, c, a);
    }
    SumOfDifference(BoughtTerm(u, c, a), SourceTerm(u, c, a), net, n);
    ZeroSum(zero, n);
    SumOfDifference(zero, UnsoldTerm(u, c, a), rest, n);
    SumOfDifference(net, rest, ConversionFunds(u, c, a, Settled), n);
  }

  /** What the purchase leg of a conversion filled. */
  function BoughtTerm(b: Book, c: Customer, a: Asset): nat -> int {
    (i: nat) =>
      if i < |b.conversions| && b.conversions[i].customer == c
         && RouteOf(b, i, BuySequence(b.conversions[i])).Some?
         && RouteOf(b, i, BuySequence(b.conversions[i])).value.asset == a
        then OrZero(RouteOf(b, i, BuySequence(b.conversions[i])).value.filled) else 0
  }

  function SourceTerm(b: Book, c: Customer, a: Asset): nat -> int {
    (i: nat) => if Holds(b, i, c, a) then b.conversions[i].amount else 0
  }

  /** What a settled sale did not sell. */
  function UnsoldTerm(b: Book, c: Customer, a: Asset): nat -> int {
    (i: nat) =>
      if Holds(b, i, c, a) && RouteOf(b, i, 1).Some? then b.conversions[i].amount - RouteOf(b, i, 1).value.filled else 0
  }

  lemma SettledTerms(u: Book, i: nat, c: Customer, a: Asset)
    requires LegsFair(u) && i < |u.conversions| && a != USD
    ensures ConversionFunds(u, c, a, Settled)(i) ==
            BoughtTerm(u, c, a)(i) - SourceTerm(u, c, a)(i) + UnsoldTerm(u, c, a)(i)
  {
    if HasLeg(u, i, 1) {
      FoundLeg(u.legs, i, 1);
      assert LegFair(u, LegAt(u, i, 1));
    }
  }
}
