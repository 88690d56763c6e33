/** Every posting of the crypto product balances each dimension, and so does the ledger after every run. */
module CryptoBalance {
  import opened Results
  import opened Decimals
  import opened Entries
  import opened Crypto
  import opened CryptoRuns
  import opened Router
  import LedgerHistory

  // ---- Every posting balances each dimension ----

  lemma {:induction false} SingleTotal(e: Entry, c: Currency, d: Dimension)
    ensures DimensionTotal([e], c, d) == if e.currency == c && e.dimension == d then e.Signed() else 0
  {
    assert [e][..0] == [];
  }

  lemma FeeTotal(u: UsdAccounts, d: Dimension, r: Route, c: Currency, e: Dimension)
    requires r.venueFee >= 0 && r.platformFee >= 0
    ensures DimensionTotal(FeeEntries(u, d, r), c, e) == if c == USD && e == d then r.venueFee + r.platformFee else 0
  {
    var v, p := Entry(u.venueFees, USD, d, Debit, r.venueFee), Entry(u.platformFees, USD, d, Debit, r.platformFee);
    SingleTotal(v, c, e);
    SingleTotal(p, c, e);
    DimensionTotalOfConcat(if r.venueFee > 0 then [v] else [], if r.platformFee > 0 then [p] else [], c, e);
  }

  /** The two sides of a leg's money: gross against the customer's amount, before fees. */
  lemma MoneyTotal(x: Entry, y: Entry, c: Currency, d: Dimension)
    ensures DimensionTotal([x, y], c, d) ==
            (if x.currency == c && x.dimension == d then x.Signed() else 0)
              + (if y.currency == c && y.dimension == d then y.Signed() else 0)
  {
    SingleTotal(x, c, d);
    SingleTotal(y, c, d);
    DimensionTotalOfConcat([x], [y], c, d);
    assert [x] + [y] == [x, y];
  }

  lemma PairsCancel(first: AccountId, second: AccountId, c: Currency, d: Dimension, side: Direction, amount: Decimal,
      y: Currency, e: Dimension)
    ensures DimensionTotal(Pair(first, second, c, d, side, amount), y, e) == 0
  {
    var es := Pair(first, second, c, d, side, amount);
    PairTotal(es[0], es[1], y, e);
  }

  lemma FourParts(p: seq<Entry>, m: seq<Entry>, f: seq<Entry>, w: seq<Entry>, y: Currency, e: Dimension)
    ensures DimensionTotal(p + m + f + w, y, e) ==
            DimensionTotal(p, y, e) + DimensionTotal(m, y, e) + DimensionTotal(f, y, e) + DimensionTotal(w, y, e)
  {
    DimensionTotalOfConcat(p, m, y, e);
    DimensionTotalOfConcat(p + m, f, y, e);
    DimensionTotalOfConcat(p + m + f, w, y, e);
  }

  /** A routed sale's posting balances each dimension. */
  lemma SellBalanced(b: Book, c: Customer, a: Asset, r: Route, review: bool)
    requires c in b.cash && (c, a) in b.assets && FairSale(r) && StoredRoute(r)
    ensures BalancedPerDimension(SellEntries(b, c, a, r, review))
  {
    var s := b.assets[(c, a)];
    var d := if review then Frozen else Settled;
    var p := Pair(s.customer, s.inventory, a, Held, Credit, r.filled);
    var m := [Entry(b.usd.routing, USD, d, Credit, r.gross), Entry(b.cash[c], USD, d, Debit, r.final)];
    var f := FeeEntries(b.usd, d, r);
    var w := if review then [] else Pair(b.cash[c], b.usd.routing, USD, Withdrawable, Debit, r.final);
    forall y, e ensures DimensionTotal(p + m + f + w, y, e) == 0 {
      PairsCancel(s.customer, s.inventory, a, Held, Credit, r.filled, y, e);
      PairsCancel(b.cash[c], b.usd.routing, USD, Withdrawable, Debit, r.final, y, e);
      MoneyTotal(m[0], m[1], y, e);
      FeeTotal(b.usd, d, r, y, e);
      FourParts(p, m, f, w, y, e);
    }
  }

  /** So does a routed purchase's, whatever its residue. */
  lemma BuyBalanced(b: Book, c: Customer, r: Route, fromReservation: bool)
    requires c in b.cash && (c, r.asset) in b.assets && FairPurchase(r) && StoredRoute(r)
    ensures BalancedPerDimension(BuyEntries(b, c, r, fromReservation))
  {
    var s := b.assets[(c, r.asset)];
    var d := if fromReservation then Held else Settled;
    var m := [Entry(b.cash[c], USD, d, Credit, r.final), Entry(b.usd.routing, USD, d, Debit, r.gross)];
    var p := Pair(s.customer, s.inventory, r.asset, Settled, Debit, r.filled);
    var f := FeeEntries(b.usd, d, r);
    var w := if fromReservation then [] else Pair(b.cash[c], b.usd.routing, USD, Withdrawable, Credit, r.final);
    forall y, e ensures DimensionTotal(m + p + f + w, y, e) == 0 {
      PairsCancel(s.customer, s.inventory, r.asset, Settled, Debit, r.filled, y, e);
      PairsCancel(b.cash[c], b.usd.routing, USD, Withdrawable, Credit, r.final, y, e);
      MoneyTotal(m[0], m[1], y, e);
      FeeTotal(b.usd, d, r, y, e);
      FourParts(m, p, f, w, y, e);
    }
  }

  lemma PairBalanced(first: AccountId, second: AccountId, c: Currency, d: Dimension, side: Direction, amount: Decimal)
    ensures BalancedPerDimension(Pair(first, second, c, d, side, amount))
  {
    forall y, e ensures DimensionTotal(Pair(first, second, c, d, side, amount), y, e) == 0 {
      PairsCancel(first, second, c, d, side, amount, y, e);
    }
  }

  /** Reservations and releases balance each dimension too. */
  lemma ReservationBalanced(b: Book, c: Customer, a: Asset, amount: Decimal)
    requires b.Knows(c, a)
    ensures BalancedPerDimension(ReserveEntries(b, c, a, amount))
            && BalancedPerDimension(ReleaseEntries(b, c, a, amount))
  {
    var x := if a == USD then b.cash[c] else b.assets[(c, a)].customer;
    var y := if a == USD then b.usd.routing else b.assets[(c, a)].inventory;
    PairBalanced(x, y, a, Settled, Credit, amount);
    PairBalanced(x, y, a, Settled, Debit, amount);
    PairBalanced(x, y, a, Held, Credit, amount);
    PairBalanced(x, y, a, Held, Debit, amount);
    PairBalanced(x, y, a, Withdrawable, Credit, amount);
    PairBalanced(x, y, a, Withdrawable, Debit, amount);
    if a == USD {
      BalancedConcat(Pair(x, y, USD, Settled, Credit, amount), Pair(x, y, USD, Withdrawable, Credit, amount));
      BalancedConcat(Pair(x, y, USD, Settled, Credit, amount) + Pair(x, y, USD, Withdrawable, Credit, amount),
        Pair(x, y, USD, Held, Debit, amount));
      BalancedConcat(Pair(x, y, USD, Held, Credit, amount), Pair(x, y, USD, Settled, Debit, amount));
      BalancedConcat(Pair(x, y, USD, Held, Credit, amount) + Pair(x, y, USD, Settled, Debit, amount),
        Pair(x, y, USD, Withdrawable, Debit, amount));
    } else {
      BalancedConcat(Pair(x, y, a, Settled, Credit, amount), Pair(x, y, a, Held, Debit, amount));
      BalancedConcat(Pair(x, y, a, Held, Credit, amount), Pair(x, y, a, Settled, Debit, amount));
    }
  }

  // ---- Every step ----

  ghost predicate AllBalanced(ps: seq<seq<Entry>>) {
    forall p | 0 <= p < |ps| :: BalancedPerDimension(ps[p])
  }

  lemma BalancedAppend(ps: seq<seq<Entry>>, qs: seq<seq<Entry>>)
    requires AllBalanced(ps) && AllBalanced(qs)
    ensures AllBalanced(ps + qs)
  {
  }

  lemma SellPostingsBalanced(b: Book, x: Conversion, r: Route, review: bool)
    requires b.Knows(x.customer, x.source) && x.source != USD && FairSale(r) && StoredRoute(r)
    ensures AllBalanced(SellPostings(b, x, r, review))
  {
    SellBalanced(b, x.customer, x.source, r, review);
    ReservationBalanced(b, x.customer, x.source, x.amount - r.filled);
  }

  lemma SaleStaysBalanced(b: Book, i: nat, rate: Decimal, venues: Candidates, flagged: bool)
    requires AllBalanced(b.postings)
    ensures AllBalanced(SaleSettled(b, i, rate, venues, flagged).book.postings)
  {
    if SaleSettled(b, i, rate, venues, flagged).book != b {
      var x := b.conversions[i];
      var r := SaleRoute(x.source, x.amount, rate, venues).value;
      var review := flagged && r.filled > 0;
      assert StoredRoute(SellLegs(i, x, r, review)[0].route);
      SaleIsFair(x.source, x.amount, rate, venues, r);
      SellPostingsBalanced(b, x, r, review);
      BalancedAppend(b.postings, SellPostings(b, x, r, review));
    }
  }

  lemma PurchaseStaysBalanced(b: Book, i: nat, rate: Decimal, venues: Candidates)
    requires AllBalanced(b.postings)
    ensures AllBalanced(PurchaseSettled(b, i, rate, venues).book.postings)
  {
    if PurchaseSettled(b, i, rate, venues).book != b {
      var x := b.conversions[i];
      var r := PurchaseRoute(x.destination, Budget(b, i).value, rate, venues).value;
      PurchaseIsFair(x.destination, Budget(b, i).value, rate, venues, r);
      BuyBalanced(b, x.customer, r, x.source == USD);
      ReservationBalanced(b, x.customer, x.source, r.unspent);
      BalancedAppend(b.postings, BuyPostings(b, x, r));
    }
  }

  lemma FailureStaysBalanced(b: Book, w: nat)
    requires AllBalanced(b.postings) && CanFail(b, w)
    ensures AllBalanced(WithFailure(b, w).postings)
  {
    var x := b.withdrawals[w];
    BalancedReversed(b.postings[x.reservation]);
    var first := if x.status.Broadcast? then [Reversed(b.postings[x.broadcast.value])] else [];
    if x.status.Broadcast? {
      BalancedReversed(b.postings[x.broadcast.value]);
    }
    BalancedAppend(b.postings, first);
    BalancedAppend(b.postings + first, [Reversed(b.postings[x.reservation])]);
  }

  lemma EventStaysBalanced(b: Book, id: string, e: EventRow)
    requires WithdrawalsSound(b) && AllBalanced(b.postings)
    ensures AllBalanced(EventApplied(b, id, e).book.postings)
  {
    if EventApplied(b, id, e).book != b {
      var x := b.withdrawals[e.withdrawal];
      assert WithdrawalSound(b, e.withdrawal);
      match e.kind
      case BroadcastEvent =>
        PairBalanced(b.assets[(x.customer, x.asset)].customer, b.assets[(x.customer, x.asset)].inventory, x.asset, Held,
          Credit, x.quantity);
        BalancedAppend(b.postings, [BroadcastEntries(b, x.customer, x.asset, x.quantity)]);
      case ConfirmedEvent =>
      case FailedEvent => FailureStaysBalanced(b, e.withdrawal);
    }
  }

  lemma StepStaysBalanced(b: Book, s: Step)
    requires WithdrawalsSound(b) && AllBalanced(b.postings) && (s.Elsewhere? ==> BalancedPerDimension(s.entries))
    ensures AllBalanced(After(b, s).postings)
  {
    match s
    case ReserveConversion(c) =>
      if After(b, s) != b {
        ReservationBalanced(b, c.customer, c.source, c.amount);
        BalancedAppend(b.postings, [ReserveEntries(b, c.customer, c.source, c.amount)]);
      }
    case SettleSale(i, rate, venues, flagged) => SaleStaysBalanced(b, i, rate, venues, flagged);
    case SettlePurchase(i, rate, venues) => PurchaseStaysBalanced(b, i, rate, venues);
    case RequestWithdrawal(c) =>
      if After(b, s) != b {
        ReservationBalanced(b, c.customer, c.asset, c.quantity);
        BalancedAppend(b.postings, [ReserveEntries(b, c.customer, c.asset, c.quantity)]);
      }
    case ApplyEvent(id, e) => EventStaysBalanced(b, id, e);
    case Elsewhere(es) => BalancedAppend(b.postings, [es]);
  }

  /** Debits minus credits of a currency in one dimension, over every posting. */
  function TotalInDimension(ps: seq<seq<Entry>>, c: Currency, d: Dimension): int {
    if ps == [] then 0 else TotalInDimension(ps[..|ps| - 1], c, d) + DimensionTotal(ps[|ps| - 1], c, d)
  }

  lemma {:induction false} BalancedTotal(ps: seq<seq<Entry>>, c: Currency, d: Dimension)
    requires AllBalanced(ps)
    ensures TotalInDimension(ps, c, d) == 0
  {
    if ps != [] {
      BalancedTotal(ps[..|ps| - 1], c, d);
    }
  }

  lemma {:induction false} RunsStayBalanced(b: Book, steps: seq<Step>)
    requires Initial(b) && AllBalanced(b.postings)
    requires forall i | 0 <= i < |steps| && steps[i].Elsewhere? :: BalancedPerDimension(steps[i].entries)
    ensures AllBalanced(Run(b, steps).postings)
  {
    if steps != [] {
      var n := |steps| - 1;
      RunsStayBalanced(b, steps[..n]);
      RunsAreSound(b, steps[..n]);
      StepStaysBalanced(Run(b, steps[..n]), steps[n]);
    }
  }

  /** Over every run of the crypto product the ledger sums to zero in each currency and dimension. */
  lemma ZeroSumPerDimension(b: Book, steps: seq<Step>, c: Currency, d: Dimension)
    requires Initial(b) && AllBalanced(b.postings)
    requires forall i | 0 <= i < |steps| && steps[i].Elsewhere? :: BalancedPerDimension(steps[i].entries)
    ensures TotalInDimension(Run(b, steps).postings, c, d) == 0
  {
    RunsStayBalanced(b, steps);
    BalancedTotal(Run(b, steps).postings, c, d);
  }

  // ---- Every step posts what the ledger takes ----

  lemma FailureIsPostable(b: Book, w: nat)
    requires AllPass(b.postings) && CanFail(b, w)
    ensures AllPass(WithFailure(b, w).postings)
  {
    var x := b.withdrawals[w];
    LedgerHistory.ReversedPassesCheck(b.postings[x.reservation]);
    if x.status.Broadcast? {
      LedgerHistory.ReversedPassesCheck(b.postings[x.broadcast.value]);
    }
  }

  lemma PostableAppend(ps: seq<seq<Entry>>, qs: seq<seq<Entry>>)
    requires AllPass(ps) && AllPass(qs)
    ensures AllPass(ps + qs)
  {
  }

  lemma SaleIsPostable(b: Book, i: nat, rate: Decimal, venues: Candidates, flagged: bool)
    requires AllPass(b.postings)
    ensures AllPass(SaleSettled(b, i, rate, venues, flagged).book.postings)
  {
    if SaleSettled(b, i, rate, venues, flagged).book != b {
      var x := b.conversions[i];
      var r := SaleRoute(x.source, x.amount, rate, venues).value;
      PostableAppend(b.postings, SellPostings(b, x, r, flagged && r.filled > 0));
    }
  }

  lemma PurchaseIsPostable(b: Book, i: nat, rate: Decimal, venues: Candidates)
    requires AllPass(b.postings)
    ensures AllPass(PurchaseSettled(b, i, rate, venues).book.postings)
  {
    if PurchaseSettled(b, i, rate, venues).book != b {
      var x := b.conversions[i];
      var r := PurchaseRoute(x.destination, Budget(b, i).value, rate, venues).value;
      PostableAppend(b.postings, BuyPostings(b, x, r));
    }
  }

  lemma StepIsPostable(b: Book, s: Step)
    requires WithdrawalsSound(b) && AllPass(b.postings) && (s.Elsewhere? ==> Check(s.entries).Success?)
    ensures AllPass(After(b, s).postings)
  {
    match s
    case ReserveConversion(c) =>
    case SettleSale(i, rate, venues, flagged) => SaleIsPostable(b, i, rate, venues, flagged);
    case SettlePurchase(i, rate, venues) => PurchaseIsPostable(b, i, rate, venues);
    case RequestWithdrawal(c) =>
    case ApplyEvent(id, e) =>
      if EventApplied(b, id, e).book != b && e.kind.FailedEvent? {
        assert WithdrawalSound(b, e.withdrawal);
        FailureIsPostable(b, e.withdrawal);
      }
    case Elsewhere(es) =>
  }

  /** Over every run each posting is one the ledger's check passes. */
  lemma {:induction false} EveryPostingIsAccepted(b: Book, steps: seq<Step>)
    requires Initial(b) && AllPass(b.postings)
    requires forall i | 0 <= i < |steps| && steps[i].Elsewhere? :: Check(steps[i].entries).Success?
    ensures forall p | 0 <= p < |Run(b, steps).postings| :: Check(Run(b, steps).postings[p]).Success?
  {
    if steps != [] {
      var n := |steps| - 1;
      EveryPostingIsAccepted(b, steps[..n]);
      RunsAreSound(b, steps[..n]);
      StepIsPostable(Run(b, steps[..n]), steps[n]);
    }
  }
}
