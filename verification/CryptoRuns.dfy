/** Held crypto over every run: each leg once, reservations released exactly, failed withdrawals undone exactly. */
module CryptoRuns {
  import opened Results
  import opened Decimals
  import opened Entries
  import opened Sums
  import opened Crypto
  import opened Router

  datatype Step =
    | ReserveConversion(convert: ConvertCommand)
    | SettleSale(conversion: nat, rate: Decimal, venues: Candidates, flagged: bool)
    | SettlePurchase(conversion: nat, rate: Decimal, venues: Candidates)
    | RequestWithdrawal(withdraw: WithdrawCommand)
    | ApplyEvent(id: string, event: EventRow)
    | Elsewhere(entries: seq<Entry>)

  /** Held funds of the customers of this module. */
  predicate IsHeld(b: Book, k: Key) {
    k.dimension == Held &&
    ((exists c :: c in b.cash && k == Key(b.cash[c], USD, Held))
     || (exists x :: x in b.assets && k == Key(b.assets[x].customer, x.1, Held)))
  }

  /** Postings made elsewhere leave held funds alone. */
  ghost predicate SparesHeld(b: Book, es: seq<Entry>) {
    forall i | 0 <= i < |es| :: !IsHeld(b, es[i].Place())
  }

  ghost function After(b: Book, s: Step): Book {
    match s
    case ReserveConversion(c) => ConversionReserved(b, c).book
    case SettleSale(i, rate, venues, flagged) => SaleSettled(b, i, rate, venues, flagged).book
    case SettlePurchase(i, rate, venues) => PurchaseSettled(b, i, rate, venues).book
    case RequestWithdrawal(c) => WithdrawalRequested(b, c).book
    case ApplyEvent(id, e) => EventApplied(b, id, e).book
    case Elsewhere(es) => b.(postings := if SparesHeld(b, es) then b.postings + [es] else b.postings)
  }

  ghost function Run(b: Book, steps: seq<Step>): Book {
    if steps == [] then b else After(Run(b, steps[..|steps| - 1]), steps[|steps| - 1])
  }

  /** A run grows by one step at a time. */
  lemma RunStep(b: Book, steps: seq<Step>, s: Step)
    ensures Run(b, steps + [s]) == After(Run(b, steps), s)
  {
    assert (steps + [s])[..|steps + [s]| - 1] == steps;
  }

  // ---- Accounts ----

  /** Customers' accounts are theirs alone, and apart from inventories, routing and fee accounts. */
  ghost predicate AccountsApart(b: Book) {
    && (forall x | x in b.assets :: x.1 != USD && x.0 in b.cash)
    && (forall x, y | x in b.assets && y in b.assets ::
          && b.assets[x].customer != b.assets[y].inventory
          && (x != y ==> b.assets[x].customer != b.assets[y].customer))
    && (forall x, c | x in b.assets && c in b.cash ::
       b.assets[x].customer != b.cash[c] && b.assets[x].inventory != b.cash[c])
    && (forall c, d | c in b.cash && d in b.cash && c != d :: b.cash[c] != b.cash[d])
    && (forall x | x in b.assets ::
          b.assets[x].customer != b.usd.routing && b.assets[x].customer != b.usd.venueFees
            && b.assets[x].customer != b.usd.platformFees)
    && (forall c | c in b.cash ::
          b.cash[c] != b.usd.routing && b.cash[c] != b.usd.venueFees && b.cash[c] != b.usd.platformFees)
  }

  function HeldKey(b: Book, c: Customer, a: Asset): Key
    requires b.Knows(c, a)
  {
    Key(Holder(b, c, a), a, Held)
  }

  function SettledKey(b: Book, c: Customer, a: Asset): Key
    requires b.Knows(c, a)
  {
    Key(Holder(b, c, a), a, Settled)
  }

  // ---- What postings do to held and settled funds ----

  lemma PairEffect(first: AccountId, second: AccountId, c: Currency, d: Dimension, side: Direction, amount: Decimal,
      k: Key)
    requires first != second
    ensures Balance(Pair(first, second, c, d, side, amount), k) ==
            if k == Key(first, c, d) then (if side.Debit? then amount else -amount)
            else if k == Key(second, c, d) then (if side.Debit? then -amount else amount) else 0
  {
    var es := Pair(first, second, c, d, side, amount);
    PairBalance(es[0], es[1], k);
  }

  lemma {:induction false} NoEffect(es: seq<Entry>, k: Key)
    requires forall i | 0 <= i < |es| :: es[i].Place() != k
    ensures Balance(es, k) == 0
  {
    if es != [] {
      NoEffect(es[..|es| - 1], k);
    }
  }

  /** Funds of a customer in an asset: an account no other role shares. */
  predicate IsFund(b: Book, c: Customer, a: Asset, k: Key) {
    b.Knows(c, a) && k.account == Holder(b, c, a)
  }

  /** What can be reserved: settled funds, and for cash withdrawable funds with them. */
  predicate IsFree(a: Asset, d: Dimension) {
    d == Settled || (a == USD && d == Withdrawable)
  }

  lemma ReserveEffect(b: Book, c: Customer, a: Asset, amount: Decimal, d: Customer, x: Asset, k: Key)
    requires AccountsApart(b) && b.Knows(c, a) && IsFund(b, d, x, k) && k.currency == x
    ensures Balance(ReserveEntries(b, c, a, amount), k) ==
            if (d, x) != (c, a) then 0
            else if k.dimension == Held then amount else if IsFree(a, k.dimension) then -amount else 0
  {
    if a == USD {
      var p, q, r := Pair(b.cash[c], b.usd.routing, USD, Settled, Credit, amount),
        Pair(b.cash[c], b.usd.routing, USD, Withdrawable, Credit, amount),
        Pair(b.cash[c], b.usd.routing, USD, Held, Debit, amount);
      PairEffect(b.cash[c], b.usd.routing, USD, Settled, Credit, amount, k);
      PairEffect(b.cash[c], b.usd.routing, USD, Withdrawable, Credit, amount, k);
      PairEffect(b.cash[c], b.usd.routing, USD, Held, Debit, amount, k);
      BalanceOfConcat(p, q, k);
      BalanceOfConcat(p + q, r, k);
    } else {
      var s := b.assets[(c, a)];
      PairEffect(s.customer, s.inventory, a, Settled, Credit, amount, k);
      PairEffect(s.customer, s.inventory, a, Held, Debit, amount, k);
      BalanceOfConcat(Pair(s.customer, s.inventory, a, Settled, Credit, amount),
        Pair(s.customer, s.inventory, a, Held, Debit, amount), k);
    }
  }

  lemma ReleaseEffect(b: Book, c: Customer, a: Asset, amount: Decimal, d: Customer, x: Asset, k: Key)
    requires AccountsApart(b) && b.Knows(c, a) && IsFund(b, d, x, k) && k.currency == x
    ensures Balance(ReleaseEntries(b, c, a, amount), k) ==
            if (d, x) != (c, a) then 0
            else if k.dimension == Held then -amount else if IsFree(a, k.dimension) then amount else 0
  {
    if a == USD {
      var p, q, r := Pair(b.cash[c], b.usd.routing, USD, Held, Credit, amount),
        Pair(b.cash[c], b.usd.routing, USD, Settled, Debit, amount),
        Pair(b.cash[c], b.usd.routing, USD, Withdrawable, Debit, amount);
      PairEffect(b.cash[c], b.usd.routing, USD, Held, Credit, amount, k);
      PairEffect(b.cash[c], b.usd.routing, USD, Settled, Debit, amount, k);
      PairEffect(b.cash[c], b.usd.routing, USD, Withdrawable, Debit, amount, k);
      BalanceOfConcat(p, q, k);
      BalanceOfConcat(p + q, r, k);
    } else {
      var s := b.assets[(c, a)];
      PairEffect(s.customer, s.inventory, a, Held, Credit, amount, k);
      PairEffect(s.customer, s.inventory, a, Settled, Debit, amount, k);
      BalanceOfConcat(Pair(s.customer, s.inventory, a, Held, Credit, amount),
        Pair(s.customer, s.inventory, a, Settled, Debit, amount), k);
    }
  }

  /** A sale takes what was filled out of held, and touches no other held funds. */
  lemma SellHeld(b: Book, c: Customer, a: Asset, r: Route, review: bool, d: Customer, x: Asset)
    requires AccountsApart(b) && b.Knows(c, a) && a != USD && b.Knows(d, x)
    ensures Balance(SellEntries(b, c, a, r, review), HeldKey(b, d, x)) == if (d, x) == (c, a) then -r.filled else 0
  {
    var k := HeldKey(b, d, x);
    var s := b.assets[(c, a)];
    var p := Pair(s.customer, s.inventory, a, Held, Credit, r.filled);
    var es := SellEntries(b, c, a, r, review);
    PairEffect(s.customer, s.inventory, a, Held, Credit, r.filled, k);
    assert es == p + es[2..];
    NoEffect(es[2..], k);
    BalanceOfConcat(p, es[2..], k);
  }

  /** A purchase from the reservation takes its cost out of held cash; any other purchase leaves held funds alone. */
  lemma BuyHeld(b: Book, c: Customer, r: Route, fromReservation: bool, d: Customer, x: Asset)
    requires AccountsApart(b) && c in b.cash && (c, r.asset) in b.assets && b.Knows(d, x)
    ensures Balance(BuyEntries(b, c, r, fromReservation), HeldKey(b, d, x)) ==
            if fromReservation && (d, x) == (c, USD) then -r.final else 0
  {
    var k := HeldKey(b, d, x);
    var es := BuyEntries(b, c, r, fromReservation);
    var first := [es[0]];
    assert es == first + es[1..] && first[..0] == [];
    assert Balance(first, k) == if es[0].Place() == k then es[0].Signed() else 0;
    NoEffect(es[1..], k);
    BalanceOfConcat(first, es[1..], k);
  }

  // ---- The invariant ----

  /** What settling a conversion's first leg takes out of held: what was used, and what is released. */
  function Released(x: Conversion, r: Route): int {
    if x.source == USD then (if r.filled > 0 then r.final else 0) + (if r.unspent > 0 then r.unspent else 0)
    else (if r.filled > 0 then r.filled else 0) + (if x.amount - r.filled > 0 then x.amount - r.filled else 0)
  }

  /** What a conversion holds: its source amount, less what settling its first leg took out. */
  function HeldBy(b: Book, i: nat): int
    requires i < |b.conversions|
  {
    b.conversions[i].amount - if HasLeg(b, i, 1) then Released(b.conversions[i], LegAt(b, i, 1).route) else 0
  }

  predicate Holds(b: Book, i: nat, c: Customer, a: Asset) {
    i < |b.conversions| && b.conversions[i].customer == c && b.conversions[i].source == a
  }

  function ConversionTerm(b: Book, c: Customer, a: Asset): nat -> int {
    (i: nat) => if Holds(b, i, c, a) then HeldBy(b, i) else 0
  }

  /** What a withdrawal still holds: its quantity until it is broadcast or fails. */
  function WithdrawalTerm(b: Book, c: Customer, a: Asset): nat -> int {
    (w: nat) =>
      if w < |b.withdrawals| && b.withdrawals[w].customer == c && b.withdrawals[w].asset == a
        && b.withdrawals[w].status.Approved? then b.withdrawals[w].quantity else 0
  }

  ghost predicate HeldMatches(b: Book, c: Customer, a: Asset)
    requires b.Knows(c, a)
  {
    Total(b.postings, HeldKey(b, c, a)) ==
    Sum(ConversionTerm(b, c, a), |b.conversions|) + Sum(WithdrawalTerm(b, c, a), |b.withdrawals|)
  }

  ghost predicate AllHeldMatch(b: Book) {
    forall c, a | b.Knows(c, a) :: HeldMatches(b, c, a)
  }

  /** Legs belong to conversions, one per sequence, and a conversion that is done has its first leg. */
  ghost predicate LegsOnce(b: Book) {
    && (forall l | 0 <= l < |b.legs| :: b.legs[l].conversion < |b.conversions|
          && InSequence(b.conversions[b.legs[l].conversion], b.legs[l].sequence))
    && (forall l, m | 0 <= l < m < |b.legs| ::
       b.legs[l].conversion != b.legs[m].conversion || b.legs[l].sequence != b.legs[m].sequence)
    && (forall i: nat | i < |b.conversions| && !b.conversions[i].status.Routing? :: HasLeg(b, i, 1))
    && (forall i: nat | i < |b.conversions| && b.conversions[i].status.Routing? ::
       !HasLeg(b, i, FinalSequence(b.conversions[i])))
  }

  predicate InSequence(x: Conversion, sequence: int) {
    sequence == 1 || (sequence == 2 && FinalSequence(x) == 2)
  }

  /** The sequence of a conversion's last leg. */
  function FinalSequence(x: Conversion): int {
    if x.source != USD && x.destination != USD then 2 else 1
  }

  ghost predicate ConversionsKnown(b: Book) {
    && (forall i | 0 <= i < |b.conversions| ::
       b.Knows(b.conversions[i].customer, b.conversions[i].source) && b.conversions[i].amount > 0)
    && (forall w | 0 <= w < |b.withdrawals| ::
       b.withdrawals[w].asset != USD && b.Knows(b.withdrawals[w].customer, b.withdrawals[w].asset))
  }

  /** Which transactions a withdrawal has made, and that they say what its status says. */
  ghost predicate WithdrawalSound(b: Book, w: nat)
    requires w < |b.withdrawals|
  {
    var x := b.withdrawals[w];
    && b.Knows(x.customer, x.asset) && x.asset != USD && ValidCurrency(x.asset) && 0 < x.quantity < LIMIT
    && x.reservation < |b.postings| && b.postings[x.reservation] == ReserveEntries(b, x.customer, x.asset, x.quantity)
    && (x.reservation in b.reversed <==> x.status.WithdrawalFailed?)
    && (x.broadcast.Some? <==>
         x.status.Broadcast? || x.status.Confirmed? || (x.status.WithdrawalFailed? && x.broadcastReversal.Some?))
    && (x.broadcast.Some? ==>
          && x.broadcast.value < |b.postings| && x.broadcast.value != x.reservation
          && b.postings[x.broadcast.value] == BroadcastEntries(b, x.customer, x.asset, x.quantity)
          && (x.broadcast.value in b.reversed <==> x.status.WithdrawalFailed?))
    && (x.reservationReversal.Some? <==> x.status.WithdrawalFailed?)
    && (x.reservationReversal.Some? ==>
          x.reservationReversal.value < |b.postings|
            && b.postings[x.reservationReversal.value] == Reversed(b.postings[x.reservation]))
    && (x.broadcastReversal.Some? ==>
          && x.status.WithdrawalFailed? && x.broadcast.Some? && x.broadcastReversal.value < |b.postings|
          && b.postings[x.broadcastReversal.value] == Reversed(b.postings[x.broadcast.value]))
  }

  /** No ledger transaction serves two withdrawals. */
  predicate Uses(x: Withdrawal, t: nat) {
    x.reservation == t || x.broadcast == Some(t)
  }

  ghost predicate UsesApart(b: Book) {
    forall v, w, t | 0 <= v < w < |b.withdrawals| && Uses(b.withdrawals[v], t) :: !Uses(b.withdrawals[w], t)
  }

  ghost predicate WithdrawalsSound(b: Book) {
    && (forall w: nat | w < |b.withdrawals| :: WithdrawalSound(b, w))
    && UsesApart(b)
    && (forall t | t in b.reversed :: t < |b.postings|)
  }

  ghost predicate Sound(b: Book) {
    AccountsApart(b) && LegsOnce(b) && ConversionsKnown(b) && AllHeldMatch(b) && WithdrawalsSound(b)
  }

  // ---- How totals and terms move ----

  lemma {:induction false} TotalOfConcat(ps: seq<seq<Entry>>, qs: seq<seq<Entry>>, k: Key)
    ensures Total(ps + qs, k) == Total(ps, k) + Total(qs, k)
  {
    if qs == [] {
      assert ps + qs == ps;
    } else {
      assert (ps + qs)[..|ps + qs| - 1] == ps + qs[..|qs| - 1];
      TotalOfConcat(ps, qs[..|qs| - 1], k);
    }
  }

  lemma TotalOfOne(es: seq<Entry>, k: Key)
    ensures Total([es], k) == Balance(es, k)
  {
    assert [es][..0] == [];
  }

  /** Total of a finished leg's postings. */
  lemma LegTotal(filled: Decimal, leg: seq<Entry>, rest: Decimal, release: seq<Entry>, k: Key)
    ensures Total(LegPostings(filled, leg, rest, release), k) ==
            (if filled > 0 then Balance(leg, k) else 0) + (if rest > 0 then Balance(release, k) else 0)
  {
    TotalOfOne(leg, k);
    TotalOfOne(release, k);
    TotalOfConcat(if filled > 0 then [leg] else [], if rest > 0 then [release] else [], k);
  }

  /** The rows withdrawals refer to are untouched. */
  lemma WithdrawalsKept(b: Book, u: Book)
    requires WithdrawalsSound(b) && u.withdrawals == b.withdrawals && u.cash == b.cash && u.assets == b.assets
             && u.usd == b.usd
    requires b.postings <= u.postings && u.reversed == b.reversed
    ensures WithdrawalsSound(u)
  {
    forall w: nat | w < |u.withdrawals| ensures WithdrawalSound(u, w) {
      assert WithdrawalSound(b, w);
    }
  }

  lemma HasLegAfter(b: Book, u: Book, more: seq<Leg>, i: nat, sequence: int)
    requires u.legs == b.legs + more
    ensures HasLeg(u, i, sequence) <==> HasLeg(b, i, sequence) || exists l ::
            0 <= l < |more| && more[l].conversion == i && more[l].sequence == sequence
  {
    if HasLeg(b, i, sequence) {
      var l :| 0 <= l < |b.legs| && b.legs[l].conversion == i && b.legs[l].sequence == sequence;
      assert u.legs[l] == b.legs[l];
    }
    if exists l :: 0 <= l < |more| && more[l].conversion == i && more[l].sequence == sequence {
      var l :| 0 <= l < |more| && more[l].conversion == i && more[l].sequence == sequence;
      assert u.legs[|b.legs| + l] == more[l];
    }
    if HasLeg(u, i, sequence) {
      var l :| 0 <= l < |u.legs| && u.legs[l].conversion == i && u.legs[l].sequence == sequence;
      assert l >= |b.legs| ==> more[l - |b.legs|] == u.legs[l];
    }
  }

  lemma {:induction false} FoundLeg(ls: seq<Leg>, i: nat, sequence: int)
    requires exists l :: 0 <= l < |ls| && ls[l].conversion == i && ls[l].sequence == sequence
    ensures exists l ::
            0 <= l < |ls| && ls[l].conversion == i && ls[l].sequence == sequence && ls[l] == FindLeg(ls, i, sequence)
  {
    var last := ls[|ls| - 1];
    if last.conversion != i || last.sequence != sequence {
      FoundLeg(ls[..|ls| - 1], i, sequence);
    }
  }

  lemma {:induction false} SameLeg(ls: seq<Leg>, more: seq<Leg>, i: nat, sequence: int)
    requires exists l :: 0 <= l < |ls| && ls[l].conversion == i && ls[l].sequence == sequence
    requires forall l | 0 <= l < |more| :: more[l].conversion != i || more[l].sequence != sequence
    ensures exists l :: 0 <= l < |ls + more| && (ls + more)[l].conversion == i && (ls + more)[l].sequence == sequence
    ensures FindLeg(ls + more, i, sequence) == FindLeg(ls, i, sequence)
  {
    var l :| 0 <= l < |ls| && ls[l].conversion == i && ls[l].sequence == sequence;
    assert (ls + more)[l] == ls[l];
    if more == [] {
      assert ls + more == ls;
    } else {
      SameLeg(ls, more[..|more| - 1], i, sequence);
      assert (ls + more)[..|ls + more| - 1] == ls + more[..|more| - 1];
    }
  }

  /** A conversion no new first leg belongs to holds what it held. */
  lemma SameHolding(b: Book, u: Book, more: seq<Leg>, i: nat)
    requires u.legs == b.legs + more && i < |b.conversions| && i < |u.conversions|
    requires u.conversions[i] == b.conversions[i].(status := u.conversions[i].status)
    requires forall l | 0 <= l < |more| :: more[l].conversion != i || more[l].sequence != 1
    ensures HeldBy(u, i) == HeldBy(b, i)
  {
    HasLegAfter(b, u, more, i, 1);
    if HasLeg(b, i, 1) {
      SameLeg(b.legs, more, i, 1);
    }
  }

  // ---- Conversions ----

  /** The accounts, which no step changes. */
  ghost predicate SameAccounts(b: Book, u: Book) {
    u.cash == b.cash && u.assets == b.assets && u.usd == b.usd
  }

  lemma AccountsKept(b: Book, u: Book)
    requires AccountsApart(b) && SameAccounts(b, u)
    ensures AccountsApart(u)
  {
  }

  lemma NewConversionHeld(b: Book, c: ConvertCommand, d: Customer, a: Asset)
    requires AccountsApart(b) && LegsOnce(b) && b.Knows(c.customer, c.source) && b.Knows(d, a) && HeldMatches(b, d, a)
    ensures HeldMatches(WithConversion(b, c), d, a)
  {
    var u := WithConversion(b, c);
    var n := |b.conversions|;
    assert u.legs == b.legs + [];
    assert !HasLeg(u, n, 1);
    forall i: nat | i < n ensures ConversionTerm(u, d, a)(i) == ConversionTerm(b, d, a)(i) {
      SameHolding(b, u, [], i);
    }
    ReserveEffect(b, c.customer, c.source, c.amount, d, a, HeldKey(b, d, a));
    SumSame(ConversionTerm(b, d, a), ConversionTerm(u, d, a), n);
    SumSame(WithdrawalTerm(b, d, a), WithdrawalTerm(u, d, a), |b.withdrawals|);
  }

  /** Adding no leg keeps legs unique; conversions only grow. */
  lemma LegsKept(b: Book, u: Book)
    requires LegsOnce(b) && u.legs == b.legs && b.conversions <= u.conversions
    requires forall i: nat | |b.conversions| <= i < |u.conversions| :: u.conversions[i].status.Routing?
    ensures LegsOnce(u)
  {
    assert u.legs == b.legs + [];
    forall i: nat | i < |u.conversions| && !u.conversions[i].status.Routing? ensures HasLeg(u, i, 1) {
      HasLegAfter(b, u, [], i, 1);
    }
    forall i: nat | i < |u.conversions| && u.conversions[i].status.Routing?
      ensures !HasLeg(u, i, FinalSequence(u.conversions[i]))
    {
      HasLegAfter(b, u, [], i, FinalSequence(u.conversions[i]));
    }
  }

  lemma NewConversionAllHeld(b: Book, c: ConvertCommand)
    requires AccountsApart(b) && LegsOnce(b) && AllHeldMatch(b) && b.Knows(c.customer, c.source)
    ensures AllHeldMatch(WithConversion(b, c))
  {
    forall d, a | WithConversion(b, c).Knows(d, a) ensures HeldMatches(WithConversion(b, c), d, a) {
      assert b.Knows(d, a) && HeldMatches(b, d, a);
      NewConversionHeld(b, c, d, a);
    }
  }

  lemma NewConversionKnown(b: Book, c: ConvertCommand)
    requires ConversionsKnown(b) && ValidConversion(c) && b.Knows(c.customer, c.source)
    ensures ConversionsKnown(WithConversion(b, c))
  {
  }

  lemma ReserveConversionKeepsSound(b: Book, c: ConvertCommand)
    requires Sound(b) && ValidConversion(c) && b.Knows(c.customer, c.source)
    ensures Sound(WithConversion(b, c))
  {
    var u := WithConversion(b, c);
    AccountsKept(b, u);
    LegsKept(b, u);
    NewConversionKnown(b, c);
    NewConversionAllHeld(b, c);
    WithdrawalsKept(b, u);
  }

  /** New legs of one conversion change what it holds, and nothing else. */
  lemma OneHolding(b: Book, u: Book, i: nat, c: Customer, a: Asset, more: seq<Leg>)
    requires i < |b.conversions| == |u.conversions| && u.legs == b.legs + more
    requires forall j | 0 <= j < |b.conversions| ::
             u.conversions[j] == b.conversions[j].(status := u.conversions[j].status)
    requires forall l | 0 <= l < |more| :: more[l].conversion == i
    ensures Sum(ConversionTerm(u, c, a), |u.conversions|) == Sum(ConversionTerm(b, c, a), |b.conversions|)
              + if Holds(b, i, c, a) then HeldBy(u, i) - HeldBy(b, i) else 0
  {
    forall j: nat | j < |b.conversions| && j != i ensures ConversionTerm(u, c, a)(j) == ConversionTerm(b, c, a)(j) {
      SameHolding(b, u, more, j);
    }
    SumChange(ConversionTerm(b, c, a), ConversionTerm(u, c, a), |b.conversions|, i);
  }

  /** A sale and the release of the rest take out of held what settling releases: the filled part and the rest. */
  lemma SellReleases(b: Book, x: Conversion, r: Route, review: bool, d: Customer, a: Asset)
    requires AccountsApart(b) && b.Knows(x.customer, x.source) && x.source != USD && b.Knows(d, a)
    ensures Total(SellPostings(b, x, r, review), HeldKey(b, d, a)) == if (d, a) == (x.customer, x.source)
            then -Released(x, r) else 0
  {
    var k := HeldKey(b, d, a);
    LegTotal(r.filled, SellEntries(b, x.customer, x.source, r, review), x.amount - r.filled,
      ReleaseEntries(b, x.customer, x.source, x.amount - r.filled), k);
    SellHeld(b, x.customer, x.source, r, review, d, a);
    RestHeld(b, x.customer, x.source, x.amount - r.filled, d, a);
  }

  lemma RestHeld(b: Book, c: Customer, x: Asset, amount: Decimal, d: Customer, a: Asset)
    requires AccountsApart(b) && b.Knows(c, x) && b.Knows(d, a)
    ensures Balance(ReleaseEntries(b, c, x, amount), HeldKey(b, d, a)) == if (d, a) == (c, x) then -amount else 0
  {
    ReleaseEffect(b, c, x, amount, d, a, HeldKey(b, d, a));
  }

  /** A sale that fills no more than its conversion reserved takes the whole source amount out of held. */
  lemma SaleEmptiesReservation(b: Book, x: Conversion, r: Route, review: bool, d: Customer, a: Asset)
    requires AccountsApart(b) && b.Knows(x.customer, x.source) && x.source != USD && b.Knows(d, a)
    requires 0 <= r.filled <= x.amount
    ensures Total(SellPostings(b, x, r, review), HeldKey(b, d, a)) == if (d, a) == (x.customer, x.source)
            then -x.amount else 0
  {
    SellReleases(b, x, r, review, d, a);
  }

  /** A purchase paid from reserved dollars does the same: the source amount less the residue of its route. */
  lemma BuyReleases(b: Book, x: Conversion, r: Route, d: Customer, a: Asset)
    requires AccountsApart(b) && b.Knows(x.customer, x.source) && (x.customer, r.asset) in b.assets && b.Knows(d, a)
    ensures Total(BuyPostings(b, x, r), HeldKey(b, d, a)) == if x.source == USD && (d, a) == (x.customer, USD)
            then -Released(x, r) else 0
  {
    var k := HeldKey(b, d, a);
    var rest := if x.source == USD then r.unspent else 0;
    LegTotal(r.filled, BuyEntries(b, x.customer, r, x.source == USD), rest,
      ReleaseEntries(b, x.customer, x.source, r.unspent), k);
    BuyHeld(b, x.customer, r, x.source == USD, d, a);
    ReleaseEffect(b, x.customer, x.source, r.unspent, d, a, k);
  }

  lemma SellLegIsFirst(b: Book, u: Book, i: nat, more: seq<Leg>)
    requires u.legs == b.legs + more && !HasLeg(b, i, 1) && 1 <= |more| <= 2 && more[0].conversion == i
             && more[0].sequence == 1
    requires |more| == 2 ==> more[1].sequence != 1
    ensures HasLeg(u, i, 1) && LegAt(u, i, 1) == more[0]
  {
    HasLegAfter(b, u, more, i, 1);
    FoundLeg(u.legs, i, 1);
  }

  lemma SellHeldMatches(b: Book, i: nat, r: Route, review: bool, d: Customer, a: Asset)
    requires AccountsApart(b) && i < |b.conversions| && !HasLeg(b, i, 1)
    requires b.Knows(b.conversions[i].customer, b.conversions[i].source) && b.conversions[i].source != USD
    requires b.Knows(d, a) && HeldMatches(b, d, a)
    ensures HeldMatches(WithSell(b, i, r, review), d, a)
  {
    var x := b.conversions[i];
    var u := WithSell(b, i, r, review);
    SellReleases(b, x, r, review, d, a);
    TotalOfConcat(b.postings, SellPostings(b, x, r, review), HeldKey(b, d, a));
    OneHolding(b, u, i, d, a, SellLegs(i, x, r, review));
    SellLegIsFirst(b, u, i, SellLegs(i, x, r, review));
    SumSame(WithdrawalTerm(b, d, a), WithdrawalTerm(u, d, a), |b.withdrawals|);
  }

  /** A purchase changes what its conversion holds if it pays from the reservation. */
  lemma BuyHolding(b: Book, i: nat, r: Route)
    requires i < |b.conversions| && b.Knows(b.conversions[i].customer, b.conversions[i].source)
    requires (b.conversions[i].customer, r.asset) in b.assets && !HasLeg(b, i, BuySequence(b.conversions[i]))
    ensures HeldBy(WithBuy(b, i, r), i) == HeldBy(b, i) - if b.conversions[i].source == USD
            then Released(b.conversions[i], r) else 0
  {
    var x := b.conversions[i];
    var more := [Leg(i, BuySequence(x), r)];
    if x.source == USD {
      SellLegIsFirst(b, WithBuy(b, i, r), i, more);
    } else {
      SameHolding(b, WithBuy(b, i, r), more, i);
    }
  }

  lemma BuyHeldMatches(b: Book, i: nat, r: Route, d: Customer, a: Asset)
    requires AccountsApart(b) && i < |b.conversions| && b.Knows(b.conversions[i].customer, b.conversions[i].source)
    requires (b.conversions[i].customer, r.asset) in b.assets && !HasLeg(b, i, BuySequence(b.conversions[i]))
    requires b.Knows(d, a) && HeldMatches(b, d, a)
    ensures HeldMatches(WithBuy(b, i, r), d, a)
  {
    var x := b.conversions[i];
    var u := WithBuy(b, i, r);
    BuyReleases(b, x, r, d, a);
    TotalOfConcat(b.postings, BuyPostings(b, x, r), HeldKey(b, d, a));
    OneHolding(b, u, i, d, a, [Leg(i, BuySequence(x), r)]);
    BuyHolding(b, i, r);
    SumSame(WithdrawalTerm(b, d, a), WithdrawalTerm(u, d, a), |b.withdrawals|);
  }

  /** New legs of one conversion, under sequences it did not have, keep legs unique. */
  lemma LegsAdded(b: Book, u: Book, i: nat, more: seq<Leg>)
    requires LegsOnce(b) && i < |b.conversions| == |u.conversions| && u.legs == b.legs + more
    requires forall j | 0 <= j < |more| ::
             && more[j].conversion == i && InSequence(b.conversions[i], more[j].sequence)
             && !HasLeg(b, i, more[j].sequence)
    requires FinalSequence(u.conversions[i]) == FinalSequence(b.conversions[i])
    requires forall j, k | 0 <= j < k < |more| :: more[j].sequence != more[k].sequence
    requires forall j: nat | j < |b.conversions| && j != i :: u.conversions[j] == b.conversions[j]
    requires HasLeg(u, i, 1) && (u.conversions[i].status.Routing? ==> !HasLeg(u, i, FinalSequence(u.conversions[i])))
    ensures LegsOnce(u)
  {
    forall l, m | 0 <= l < m < |u.legs|
      ensures u.legs[l].conversion != u.legs[m].conversion || u.legs[l].sequence != u.legs[m].sequence
    {
      if l < |b.legs| <= m {
        assert u.legs[m] == more[m - |b.legs|];
      } else if |b.legs| <= l {
        assert u.legs[l] == more[l - |b.legs|] && u.legs[m] == more[m - |b.legs|];
      }
    }
    forall j: nat | j < |u.conversions| && !u.conversions[j].status.Routing? ensures HasLeg(u, j, 1) {
      HasLegAfter(b, u, more, j, 1);
    }
    forall j: nat | j < |u.conversions| && u.conversions[j].status.Routing? && j != i
      ensures !HasLeg(u, j, FinalSequence(u.conversions[j]))
    {
      HasLegAfter(b, u, more, j, FinalSequence(u.conversions[j]));
    }
  }

  lemma SellKeepsLegs(b: Book, i: nat, r: Route, review: bool)
    requires LegsOnce(b) && i < |b.conversions| && b.conversions[i].source != USD
    requires b.Knows(b.conversions[i].customer, b.conversions[i].source)
    requires !exists l :: 0 <= l < |b.legs| && b.legs[l].conversion == i
    ensures LegsOnce(WithSell(b, i, r, review))
  {
    var u := WithSell(b, i, r, review);
    var more := SellLegs(i, b.conversions[i], r, review);
    assert !HasLeg(b, i, 1) && !HasLeg(b, i, 2);
    assert more[0].conversion == i && more[0].sequence == 1;
    HasLegAfter(b, u, more, i, 1);
    HasLegAfter(b, u, more, i, 2);
    LegsAdded(b, u, i, more);
  }

  lemma BuyKeepsLegs(b: Book, i: nat, r: Route)
    requires LegsOnce(b) && i < |b.conversions| && b.Knows(b.conversions[i].customer, b.conversions[i].source)
    requires (b.conversions[i].customer, r.asset) in b.assets && !HasLeg(b, i, BuySequence(b.conversions[i]))
    requires b.conversions[i].source != USD ==> HasLeg(b, i, 1)
    requires b.conversions[i].destination != USD
    ensures LegsOnce(WithBuy(b, i, r))
  {
    var u := WithBuy(b, i, r);
    var more := [Leg(i, BuySequence(b.conversions[i]), r)];
    assert more[0].conversion == i && more[0].sequence == BuySequence(b.conversions[i]);
    HasLegAfter(b, u, more, i, 1);
    LegsAdded(b, u, i, more);
  }

  /** Status and legs change, identity and amounts do not. */
  lemma ConversionsKept(b: Book, u: Book)
    requires ConversionsKnown(b) && SameAccounts(b, u) && |u.conversions| == |b.conversions|
             && u.withdrawals == b.withdrawals
    requires forall j | 0 <= j < |b.conversions| ::
             u.conversions[j] == b.conversions[j].(status := u.conversions[j].status)
    ensures ConversionsKnown(u)
  {
  }

  lemma SellKeepsSound(b: Book, i: nat, r: Route, review: bool)
    requires Sound(b) && i < |b.conversions| && b.conversions[i].source != USD
    requires b.Knows(b.conversions[i].customer, b.conversions[i].source)
    requires !exists l :: 0 <= l < |b.legs| && b.legs[l].conversion == i
    ensures Sound(WithSell(b, i, r, review))
  {
    var u := WithSell(b, i, r, review);
    AccountsKept(b, u);
    SellKeepsLegs(b, i, r, review);
    ConversionsKept(b, u);
    assert !HasLeg(b, i, 1);
    forall d, a | u.Knows(d, a) ensures HeldMatches(u, d, a) {
      assert b.Knows(d, a) && HeldMatches(b, d, a);
      SellHeldMatches(b, i, r, review, d, a);
    }
    WithdrawalsKept(b, u);
  }

  lemma BuyKeepsSound(b: Book, i: nat, r: Route)
    requires Sound(b) && i < |b.conversions| && b.Knows(b.conversions[i].customer, b.conversions[i].source)
    requires (b.conversions[i].customer, r.asset) in b.assets && !HasLeg(b, i, BuySequence(b.conversions[i]))
    requires b.conversions[i].source != USD ==> HasLeg(b, i, 1)
    requires b.conversions[i].destination != USD
    ensures Sound(WithBuy(b, i, r))
  {
    var u := WithBuy(b, i, r);
    AccountsKept(b, u);
    BuyKeepsLegs(b, i, r);
    ConversionsKept(b, u);
    forall d, a | u.Knows(d, a) ensures HeldMatches(u, d, a) {
      assert b.Knows(d, a) && HeldMatches(b, d, a);
      BuyHeldMatches(b, i, r, d, a);
    }
    WithdrawalsKept(b, u);
  }

  // ---- Withdrawals ----

  /** A withdrawal changes, and held funds by what it held; conversions stay. */
  lemma HeldByWithdrawal(b: Book, u: Book, w: nat, d: Customer, a: Asset)
    requires SameAccounts(b, u) && u.conversions == b.conversions && u.legs == b.legs && b.Knows(d, a)
             && HeldMatches(b, d, a)
    requires |b.withdrawals| <= |u.withdrawals| <= |b.withdrawals| + 1
             && (w == |b.withdrawals| || |u.withdrawals| == |b.withdrawals|)
    requires forall v: nat | v < |b.withdrawals| && v != w :: u.withdrawals[v] == b.withdrawals[v]
    requires Total(u.postings, HeldKey(b, d, a)) - Total(b.postings, HeldKey(b, d, a)) ==
             WithdrawalTerm(u, d, a)(w) - WithdrawalTerm(b, d, a)(w)
    ensures HeldMatches(u, d, a)
  {
    assert u.legs == b.legs + [];
    forall i: nat | i < |b.conversions| ensures ConversionTerm(u, d, a)(i) == ConversionTerm(b, d, a)(i) {
      SameHolding(b, u, [], i);
    }
    SumSame(ConversionTerm(b, d, a), ConversionTerm(u, d, a), |b.conversions|);
    SumChange(WithdrawalTerm(b, d, a), WithdrawalTerm(u, d, a), |b.withdrawals|, w);
  }

  /** The other withdrawals keep their transactions; `used` are the transactions the changed one reversed. */
  lemma OtherWithdrawals(b: Book, u: Book, w: nat, used: set<nat>, v: nat)
    requires SameAccounts(b, u) && b.postings <= u.postings && v < |b.withdrawals| <= |u.withdrawals| && v != w
    requires u.withdrawals[v] == b.withdrawals[v] && u.reversed == b.reversed + used && WithdrawalSound(b, v)
    requires forall t | t in used :: !Uses(b.withdrawals[v], t)
    ensures WithdrawalSound(u, v)
  {
    var x := b.withdrawals[v];
    assert Uses(x, x.reservation);
    assert x.broadcast.Some? ==> Uses(x, x.broadcast.value);
  }

  lemma NewWithdrawalKeepsRows(b: Book, c: WithdrawCommand)
    requires WithdrawalsSound(b) && c.customer in b.cash && (c.customer, c.asset) in b.assets && c.asset != USD
    requires ValidCurrency(c.asset) && 0 < c.quantity < LIMIT
    ensures WithdrawalsSound(WithWithdrawal(b, c))
  {
    var u := WithWithdrawal(b, c);
    var n := |b.withdrawals|;
    forall w: nat | w < |u.withdrawals| ensures WithdrawalSound(u, w) {
      if w < n {
        OtherWithdrawals(b, u, n, {}, w);
      }
    }
    forall v, w, t | 0 <= v < w < |u.withdrawals| && Uses(u.withdrawals[v], t) ensures !Uses(u.withdrawals[w], t) {
      if w == n {
        assert WithdrawalSound(b, v);
      }
    }
  }

  lemma RequestKeepsSound(b: Book, c: WithdrawCommand)
    requires Sound(b) && c.customer in b.cash && (c.customer, c.asset) in b.assets && c.asset != USD
    requires ValidCurrency(c.asset) && 0 < c.quantity < LIMIT
    ensures Sound(WithWithdrawal(b, c))
  {
    var u := WithWithdrawal(b, c);
    AccountsKept(b, u);
    LegsKept(b, u);
    NewWithdrawalKeepsRows(b, c);
    forall d, a | u.Knows(d, a) ensures HeldMatches(u, d, a) {
      assert b.Knows(d, a) && HeldMatches(b, d, a);
      RequestHeld(b, c, d, a);
    }
  }

  lemma RequestMoves(b: Book, c: WithdrawCommand, d: Customer, a: Asset)
    requires AccountsApart(b) && c.customer in b.cash && (c.customer, c.asset) in b.assets && c.asset != USD
             && b.Knows(d, a)
    ensures Total(WithWithdrawal(b, c).postings, HeldKey(b, d, a)) - Total(b.postings, HeldKey(b, d, a)) ==
            if (d, a) == (c.customer, c.asset) then c.quantity else 0
  {
    ReserveEffect(b, c.customer, c.asset, c.quantity, d, a, HeldKey(b, d, a));
  }

  lemma RequestHeld(b: Book, c: WithdrawCommand, d: Customer, a: Asset)
    requires AccountsApart(b) && c.customer in b.cash && (c.customer, c.asset) in b.assets && c.asset != USD
    requires b.Knows(d, a) && HeldMatches(b, d, a)
    ensures HeldMatches(WithWithdrawal(b, c), d, a)
  {
    RequestMoves(b, c, d, a);
    HeldByWithdrawal(b, WithWithdrawal(b, c), |b.withdrawals|, d, a);
  }

  lemma BroadcastKeepsRows(b: Book, w: nat)
    requires WithdrawalsSound(b) && w < |b.withdrawals| && b.withdrawals[w].status.Approved?
    requires (b.withdrawals[w].customer, b.withdrawals[w].asset) in b.assets
    ensures WithdrawalsSound(WithBroadcast(b, w))
  {
    var u := WithBroadcast(b, w);
    assert WithdrawalSound(b, w);
    forall v: nat | v < |u.withdrawals| ensures WithdrawalSound(u, v) {
      assert WithdrawalSound(b, v);
      if v != w {
        OtherWithdrawals(b, u, w, {}, v);
      }
    }
    forall v, x, t | 0 <= v < x < |u.withdrawals| && Uses(u.withdrawals[v], t) ensures !Uses(u.withdrawals[x], t) {
      assert WithdrawalSound(b, v) && WithdrawalSound(b, x);
    }
  }

  lemma BroadcastKeepsSound(b: Book, w: nat)
    requires Sound(b) && w < |b.withdrawals| && b.withdrawals[w].status.Approved?
    requires (b.withdrawals[w].customer, b.withdrawals[w].asset) in b.assets
    ensures Sound(WithBroadcast(b, w))
  {
    var u := WithBroadcast(b, w);
    AccountsKept(b, u);
    LegsKept(b, u);
    BroadcastKeepsRows(b, w);
    forall d, a | u.Knows(d, a) ensures HeldMatches(u, d, a) {
      assert b.Knows(d, a) && HeldMatches(b, d, a);
      BroadcastHeld(b, w, d, a);
    }
  }

  lemma BroadcastHeld(b: Book, w: nat, d: Customer, a: Asset)
    requires AccountsApart(b) && w < |b.withdrawals| && b.withdrawals[w].status.Approved?
             && b.withdrawals[w].asset != USD
    requires (b.withdrawals[w].customer, b.withdrawals[w].asset) in b.assets && b.Knows(d, a) && HeldMatches(b, d, a)
    ensures HeldMatches(WithBroadcast(b, w), d, a)
  {
    var x := b.withdrawals[w];
    PairEffect(b.assets[(x.customer, x.asset)].customer, b.assets[(x.customer, x.asset)].inventory, x.asset, Held,
      Credit, x.quantity, HeldKey(b, d, a));
    HeldByWithdrawal(b, WithBroadcast(b, w), w, d, a);
  }

  lemma ConfirmKeepsRows(b: Book, w: nat)
    requires WithdrawalsSound(b) && w < |b.withdrawals| && b.withdrawals[w].status.Broadcast?
    ensures WithdrawalsSound(WithConfirmation(b, w))
  {
    var u := WithConfirmation(b, w);
    forall v: nat | v < |u.withdrawals| ensures WithdrawalSound(u, v) {
      assert WithdrawalSound(b, v);
    }
    forall v, x, t | 0 <= v < x < |u.withdrawals| && Uses(u.withdrawals[v], t) ensures !Uses(u.withdrawals[x], t) {
      assert Uses(b.withdrawals[v], t);
    }
  }

  lemma ConfirmAllHeld(b: Book, w: nat)
    requires AllHeldMatch(b) && w < |b.withdrawals| && b.withdrawals[w].status.Broadcast?
    ensures AllHeldMatch(WithConfirmation(b, w))
  {
    forall d, a | b.Knows(d, a) ensures HeldMatches(WithConfirmation(b, w), d, a) {
      assert HeldMatches(b, d, a);
      HeldByWithdrawal(b, WithConfirmation(b, w), w, d, a);
    }
  }

  lemma ConfirmKeepsSound(b: Book, w: nat)
    requires Sound(b) && w < |b.withdrawals| && b.withdrawals[w].status.Broadcast?
    ensures Sound(WithConfirmation(b, w))
  {
    var u := WithConfirmation(b, w);
    AccountsKept(b, u);
    LegsKept(b, u);
    ConfirmKeepsRows(b, w);
    ConfirmAllHeld(b, w);
  }

  /** A withdrawal that can fail, with its transactions in place. */
  ghost predicate CanFail(b: Book, w: nat) {
    && w < |b.withdrawals| && WithdrawalSound(b, w)
    && (b.withdrawals[w].status.Approved? || b.withdrawals[w].status.Broadcast?)
  }

  /** The transactions a failure reverses. */
  function Undone(x: Withdrawal): set<nat> {
    {x.reservation} + if x.status.Broadcast? && x.broadcast.Some? then {x.broadcast.value} else {}
  }

  lemma FailureRow(b: Book, w: nat)
    requires CanFail(b, w)
    ensures WithdrawalSound(WithFailure(b, w), w)
    ensures WithFailure(b, w).reversed == b.reversed + Undone(b.withdrawals[w])
            && b.postings <= WithFailure(b, w).postings
  {
    var x := b.withdrawals[w];
    if x.status.Broadcast? {
      assert x.broadcast.Some?;
    }
  }

  lemma FailureKeepsOther(b: Book, w: nat, v: nat)
    requires WithdrawalsSound(b) && CanFail(b, w) && v < |b.withdrawals| && v != w
    ensures WithdrawalSound(WithFailure(b, w), v)
  {
    FailureRow(b, w);
    assert WithdrawalSound(b, v);
    forall t | t in Undone(b.withdrawals[w]) ensures !Uses(b.withdrawals[v], t) {
      assert Uses(b.withdrawals[w], t);
    }
    OtherWithdrawals(b, WithFailure(b, w), w, Undone(b.withdrawals[w]), v);
  }

  lemma FailureKeepsUses(b: Book, w: nat)
    requires UsesApart(b) && CanFail(b, w)
    ensures UsesApart(WithFailure(b, w))
  {
    var u := WithFailure(b, w);
    forall v, x, t | 0 <= v < x < |u.withdrawals| && Uses(u.withdrawals[v], t) ensures !Uses(u.withdrawals[x], t) {
      assert Uses(b.withdrawals[v], t);
    }
  }

  lemma FailureKeepsRows(b: Book, w: nat)
    requires WithdrawalsSound(b) && CanFail(b, w)
    ensures WithdrawalsSound(WithFailure(b, w))
  {
    var u := WithFailure(b, w);
    FailureRow(b, w);
    FailureKeepsUses(b, w);
    forall v: nat | v < |u.withdrawals| ensures WithdrawalSound(u, v) {
      if v != w {
        FailureKeepsOther(b, w, v);
      }
    }
  }

  /** What a failure adds to any balance: the opposite of what the withdrawal had booked and not undone. */
  lemma FailureTotal(b: Book, w: nat, k: Key)
    requires CanFail(b, w)
    ensures var x := b.withdrawals[w];
            Total(WithFailure(b, w).postings, k) == Total(b.postings, k)
              - Balance(ReserveEntries(b, x.customer, x.asset, x.quantity), k)
              - (if x.status.Broadcast? then Balance(BroadcastEntries(b, x.customer, x.asset, x.quantity), k) else 0)
  {
    var x := b.withdrawals[w];
    var first := if x.status.Broadcast? then [Reversed(b.postings[x.broadcast.value])] else [];
    var last := Reversed(b.postings[x.reservation]);
    ReversedNegates(b.postings[x.reservation], k, "");
    TotalOfOne(last, k);
    if x.status.Broadcast? {
      ReversedNegates(b.postings[x.broadcast.value], k, "");
      TotalOfOne(first[0], k);
    }
    TotalOfConcat(b.postings, first, k);
    TotalOfConcat(b.postings + first, [last], k);
  }

  lemma BroadcastEffect(b: Book, c: Customer, a: Asset, quantity: Decimal, d: Customer, x: Asset, k: Key)
    requires AccountsApart(b) && b.Knows(c, a) && a != USD && IsFund(b, d, x, k) && k.currency == x
    ensures Balance(BroadcastEntries(b, c, a, quantity), k) == if (d, x) == (c, a) && k.dimension == Held then -quantity
            else 0
  {
    PairEffect(b.assets[(c, a)].customer, b.assets[(c, a)].inventory, a, Held, Credit, quantity, k);
  }

  /** A failed withdrawal gives back settled funds in full, and held funds as far as they were still held. */
  lemma FailureRestores(b: Book, w: nat, d: Customer, a: Asset)
    requires AccountsApart(b) && CanFail(b, w) && b.Knows(d, a)
    ensures var x := b.withdrawals[w];
            var u := WithFailure(b, w);
            && Total(u.postings, SettledKey(b, d, a)) - Total(b.postings, SettledKey(b, d, a)) ==
               (if (d, a) == (x.customer, x.asset) then x.quantity else 0)
            && Total(u.postings, HeldKey(b, d, a)) - Total(b.postings, HeldKey(b, d, a)) ==
               (if (d, a) == (x.customer, x.asset) && x.status.Approved? then -x.quantity else 0)
  {
    var x := b.withdrawals[w];
    FailureTotal(b, w, SettledKey(b, d, a));
    FailureTotal(b, w, HeldKey(b, d, a));
    ReserveEffect(b, x.customer, x.asset, x.quantity, d, a, SettledKey(b, d, a));
    ReserveEffect(b, x.customer, x.asset, x.quantity, d, a, HeldKey(b, d, a));
    BroadcastEffect(b, x.customer, x.asset, x.quantity, d, a, SettledKey(b, d, a));
    BroadcastEffect(b, x.customer, x.asset, x.quantity, d, a, HeldKey(b, d, a));
  }

  lemma FailureKeepsSound(b: Book, w: nat)
    requires Sound(b) && CanFail(b, w)
    ensures Sound(WithFailure(b, w))
  {
    var u := WithFailure(b, w);
    AccountsKept(b, u);
    LegsKept(b, u);
    FailureKeepsRows(b, w);
    forall d, a | u.Knows(d, a) ensures HeldMatches(u, d, a) {
      assert b.Knows(d, a) && HeldMatches(b, d, a);
      FailureHeld(b, w, d, a);
    }
  }

  lemma FailureHeld(b: Book, w: nat, d: Customer, a: Asset)
    requires AccountsApart(b) && CanFail(b, w) && b.Knows(d, a) && HeldMatches(b, d, a)
    ensures HeldMatches(WithFailure(b, w), d, a)
  {
    FailureRestores(b, w, d, a);
    HeldByWithdrawal(b, WithFailure(b, w), w, d, a);
  }

  lemma EventsKeepSound(b: Book, events: map<string, EventRow>)
    requires Sound(b)
    ensures Sound(b.(events := events))
  {
    var u := b.(events := events);
    AccountsKept(b, u);
    LegsKept(b, u);
    WithdrawalsKept(b, u);
    forall d, a | u.Knows(d, a) ensures HeldMatches(u, d, a) {
      assert b.Knows(d, a) && HeldMatches(b, d, a);
      SameHeld(b, u, d, a);
    }
  }

  /** The same rows and the same held totals. */
  lemma SameHeld(b: Book, u: Book, d: Customer, a: Asset)
    requires SameAccounts(b, u) && u.conversions == b.conversions && u.legs == b.legs && u.withdrawals == b.withdrawals
    requires b.Knows(d, a) && HeldMatches(b, d, a)
             && Total(u.postings, HeldKey(b, d, a)) == Total(b.postings, HeldKey(b, d, a))
    ensures HeldMatches(u, d, a)
  {
    assert u.legs == b.legs + [];
    forall i: nat | i < |b.conversions| ensures ConversionTerm(u, d, a)(i) == ConversionTerm(b, d, a)(i) {
      SameHolding(b, u, [], i);
    }
    SumSame(ConversionTerm(b, d, a), ConversionTerm(u, d, a), |b.conversions|);
    SumSame(WithdrawalTerm(b, d, a), WithdrawalTerm(u, d, a), |b.withdrawals|);
  }

  // ---- The status machine of a withdrawal ----

  /** Which event a withdrawal takes: it is broadcast once approved, confirmed once broadcast, and fails before that. */
  predicate Takes(x: Withdrawal, kind: EventType) {
    match kind
    case BroadcastEvent => x.status.Approved?
    case ConfirmedEvent => x.status.Broadcast?
    case FailedEvent => x.status.Approved? || x.status.Broadcast?
  }

  /** In a sound book nothing but the status can stop an event: neither the ledger nor an earlier reversal. */
  lemma TakesDecides(b: Book, w: nat, kind: EventType)
    requires Sound(b) && w < |b.withdrawals|
    ensures Transitioned(b, w, kind) == Failure(InvalidState) || Transitioned(b, w, kind).Success?
    ensures Transitioned(b, w, kind).Success? <==> Takes(b.withdrawals[w], kind)
  {
    var x := b.withdrawals[w];
    assert WithdrawalSound(b, w);
    var es := BroadcastEntries(b, x.customer, x.asset, x.quantity);
    PairIsAccepted(es[0], es[1]);
  }

  /** What an event gives back to settled funds, and what it adds to held funds. */
  function ToSettled(x: Withdrawal, kind: EventType): int {
    if kind.FailedEvent? then x.quantity else 0
  }

  function ToHeld(x: Withdrawal, kind: EventType): int {
    if kind.BroadcastEvent? || (kind.FailedEvent? && x.status.Approved?) then -x.quantity else 0
  }

  function StatusAfter(kind: EventType): WithdrawalStatus {
    match kind case BroadcastEvent => Broadcast case ConfirmedEvent => Confirmed case FailedEvent => WithdrawalFailed
  }

  /** An event moves one withdrawal, the funds of its owner in its asset, and no other funds of any customer. */
  ghost predicate Transitions(b: Book, w: nat, kind: EventType, u: Book)
    requires w < |b.withdrawals|
  {
    var x := b.withdrawals[w];
    && SameAccounts(b, u) && u.conversions == b.conversions && u.legs == b.legs && |u.withdrawals| == |b.withdrawals|
    && (forall v | 0 <= v < |b.withdrawals| && v != w :: u.withdrawals[v] == b.withdrawals[v])
    && u.withdrawals[w].status == StatusAfter(kind)
    && u.reversed == b.reversed + (if kind.FailedEvent? then Undone(x) else {})
    && forall c, a | b.Knows(c, a) ::
         var own := (c, a) == (x.customer, x.asset);
         Shifts(b, u, c, a, if own then ToSettled(x, kind) else 0, if own then ToHeld(x, kind) else 0)
  }

  ghost predicate Shifts(b: Book, u: Book, c: Customer, a: Asset, settled: int, held: int)
    requires b.Knows(c, a)
  {
    && Total(u.postings, SettledKey(b, c, a)) - Total(b.postings, SettledKey(b, c, a)) == settled
    && Total(u.postings, HeldKey(b, c, a)) - Total(b.postings, HeldKey(b, c, a)) == held
  }

  lemma BroadcastShifts(b: Book, w: nat, c: Customer, a: Asset)
    requires AccountsApart(b) && w < |b.withdrawals| && b.Knows(b.withdrawals[w].customer, b.withdrawals[w].asset)
    requires b.withdrawals[w].asset != USD && b.Knows(c, a)
    ensures var x := b.withdrawals[w];
            Shifts(b, WithBroadcast(b, w), c, a, 0, if (c, a) == (x.customer, x.asset) then -x.quantity else 0)
  {
    var x := b.withdrawals[w];
    BroadcastEffect(b, x.customer, x.asset, x.quantity, c, a, SettledKey(b, c, a));
    BroadcastEffect(b, x.customer, x.asset, x.quantity, c, a, HeldKey(b, c, a));
  }

  lemma TransitionShifts(b: Book, w: nat, kind: EventType, c: Customer, a: Asset)
    requires Sound(b) && w < |b.withdrawals| && Transitioned(b, w, kind).Success? && b.Knows(c, a)
    ensures var x, own := b.withdrawals[w], (c, a) == (b.withdrawals[w].customer, b.withdrawals[w].asset);
            Shifts(b, Transitioned(b, w, kind).value, c, a,
              if own then ToSettled(x, kind) else 0, if own then ToHeld(x, kind) else 0)
  {
    assert WithdrawalSound(b, w);
    match kind
    case BroadcastEvent => BroadcastShifts(b, w, c, a);
    case ConfirmedEvent =>
    case FailedEvent => FailureRestores(b, w, c, a);
  }

  lemma TransitionRows(b: Book, w: nat, kind: EventType)
    requires w < |b.withdrawals| && WithdrawalSound(b, w) && Transitioned(b, w, kind).Success?
    ensures var u := Transitioned(b, w, kind).value;
            && SameAccounts(b, u) && u.conversions == b.conversions && u.legs == b.legs
            && |u.withdrawals| == |b.withdrawals|
            && (forall v | 0 <= v < |b.withdrawals| && v != w :: u.withdrawals[v] == b.withdrawals[v])
            && u.withdrawals[w].status == StatusAfter(kind)
            && u.reversed == b.reversed + (if kind.FailedEvent? then Undone(b.withdrawals[w]) else {})
  {
    if kind.FailedEvent? {
      FailureRow(b, w);
    }
  }

  lemma TransitionEffect(b: Book, w: nat, kind: EventType)
    requires Sound(b) && w < |b.withdrawals| && Transitioned(b, w, kind).Success?
    ensures Transitions(b, w, kind, Transitioned(b, w, kind).value)
  {
    assert WithdrawalSound(b, w);
    TransitionRows(b, w, kind);
    forall c, a | b.Knows(c, a)
      ensures var x, own := b.withdrawals[w], (c, a) == (b.withdrawals[w].customer, b.withdrawals[w].asset);
              Shifts(b, Transitioned(b, w, kind).value, c, a,
                if own then ToSettled(x, kind) else 0, if own then ToHeld(x, kind) else 0)
    {
      TransitionShifts(b, w, kind, c, a);
    }
  }

  lemma TransitionKeepsSound(b: Book, w: nat, kind: EventType)
    requires Sound(b) && w < |b.withdrawals| && Transitioned(b, w, kind).Success?
    ensures Sound(Transitioned(b, w, kind).value)
  {
    assert WithdrawalSound(b, w);
    match kind
    case BroadcastEvent => BroadcastKeepsSound(b, w);
    case ConfirmedEvent => ConfirmKeepsSound(b, w);
    case FailedEvent => FailureKeepsSound(b, w);
  }

  lemma EventKeepsSound(b: Book, id: string, e: EventRow)
    requires Sound(b)
    ensures Sound(EventApplied(b, id, e).book)
  {
    if id != "" && e.payload != [] && id !in b.events && e.withdrawal < |b.withdrawals|
      && Transitioned(b, e.withdrawal, e.kind).Success? {
      TransitionKeepsSound(b, e.withdrawal, e.kind);
      var next := Transitioned(b, e.withdrawal, e.kind).value;
      EventsKeepSound(next, b.events[id := e]);
      assert EventApplied(b, id, e).book == next.(events := b.events[id := e]);
    } else {
      assert EventApplied(b, id, e).book == b;
    }
  }

  lemma SellStepKeepsSound(b: Book, i: nat, r: Route, flagged: bool)
    requires Sound(b)
    ensures Sound(SellFinalized(b, i, r, flagged).book)
  {
    if SellFinalized(b, i, r, flagged).book != b {
      SellKeepsSound(b, i, r, flagged && r.filled > 0);
    }
  }

  lemma BuyStepKeepsSound(b: Book, i: nat, r: Route)
    requires Sound(b) && (i < |b.conversions| ==> r.asset == b.conversions[i].destination)
    ensures Sound(BuyFinalized(b, i, r).book)
  {
    if BuyFinalized(b, i, r).book != b {
      BuyKeepsSound(b, i, r);
    }
  }

  lemma ReserveStepKeepsSound(b: Book, c: ConvertCommand)
    requires Sound(b)
    ensures Sound(ConversionReserved(b, c).book)
  {
    if ConversionReserved(b, c).book != b {
      assert ConversionReserved(b, c).book == WithConversion(b, c);
      ReserveConversionKeepsSound(b, c);
    }
  }

  lemma RequestStepKeepsSound(b: Book, c: WithdrawCommand)
    requires Sound(b)
    ensures Sound(WithdrawalRequested(b, c).book)
  {
    if WithdrawalRequested(b, c).book != b {
      AcceptedAmount(ReserveEntries(b, c.customer, c.asset, c.quantity), 0);
      RequestKeepsSound(b, c);
    }
  }

  lemma ElsewhereKeepsSound(b: Book, es: seq<Entry>)
    requires Sound(b) && SparesHeld(b, es)
    ensures Sound(b.(postings := b.postings + [es]))
  {
    var u := b.(postings := b.postings + [es]);
    AccountsKept(b, u);
    LegsKept(b, u);
    WithdrawalsKept(b, u);
    forall d, a | u.Knows(d, a) ensures HeldMatches(u, d, a) {
      assert b.Knows(d, a) && HeldMatches(b, d, a);
      var k := HeldKey(b, d, a);
      HeldKeyIsHeld(b, d, a);
      NoEffect(es, k);
      SameHeld(b, u, d, a);
    }
  }

  lemma HeldKeyIsHeld(b: Book, d: Customer, a: Asset)
    requires AccountsApart(b) && b.Knows(d, a)
    ensures IsHeld(b, HeldKey(b, d, a))
  {
    if a != USD {
      assert (d, a) in b.assets && HeldKey(b, d, a) == Key(b.assets[(d, a)].customer, (d, a).1, Held);
    }
  }

  lemma PurchaseKeepsSound(b: Book, i: nat, rate: Decimal, venues: Candidates)
    requires Sound(b)
    ensures Sound(PurchaseSettled(b, i, rate, venues).book)
  {
    if i < |b.conversions| && Budget(b, i).Some? {
      var route := PurchaseRoute(b.conversions[i].destination, Budget(b, i).value, rate, venues);
      if route.Success? {
        PurchaseIsFair(b.conversions[i].destination, Budget(b, i).value, rate, venues, route.value);
        BuyStepKeepsSound(b, i, route.value);
      }
    }
  }

  lemma SaleKeepsSound(b: Book, i: nat, rate: Decimal, venues: Candidates, flagged: bool)
    requires Sound(b)
    ensures Sound(SaleSettled(b, i, rate, venues, flagged).book)
  {
    if i < |b.conversions| {
      var route := SaleRoute(b.conversions[i].source, b.conversions[i].amount, rate, venues);
      if route.Success? {
        SellStepKeepsSound(b, i, route.value, flagged);
      }
    }
  }

  lemma StepKeepsSound(b: Book, s: Step)
    requires Sound(b)
    ensures Sound(After(b, s))
  {
    match s
    case ReserveConversion(c) => ReserveStepKeepsSound(b, c);
    case SettleSale(i, rate, venues, flagged) => SaleKeepsSound(b, i, rate, venues, flagged);
    case SettlePurchase(i, rate, venues) => PurchaseKeepsSound(b, i, rate, venues);
    case RequestWithdrawal(c) => RequestStepKeepsSound(b, c);
    case ApplyEvent(id, e) => EventKeepsSound(b, id, e);
    case Elsewhere(es) =>
      if SparesHeld(b, es) {
        ElsewhereKeepsSound(b, es);
      }
  }

  /** Nothing converted or withdrawn yet, and nothing held. */
  ghost predicate Initial(b: Book) {
    && AccountsApart(b) && b.conversions == [] && b.legs == [] && b.withdrawals == [] && b.reversed == {}
    && b.conversionKeys == map[] && b.withdrawalKeys == map[] && b.events == map[]
    && forall c, a | b.Knows(c, a) :: Total(b.postings, HeldKey(b, c, a)) == 0
  }

  lemma {:induction false} RunsAreSound(b: Book, steps: seq<Step>)
    requires Initial(b)
    ensures Sound(Run(b, steps))
  {
    if steps == [] {
      forall c, a | b.Knows(c, a) ensures HeldMatches(b, c, a) {
      }
    } else {
      RunsAreSound(b, steps[..|steps| - 1]);
      StepKeepsSound(Run(b, steps[..|steps| - 1]), steps[|steps| - 1]);
    }
  }

  // ---- Every leg comes from the router ----

  /** What the router promises about a leg: no overselling, and a purchase exact up to its residue. */
  ghost predicate LegFair(b: Book, leg: Leg) {
    && leg.conversion < |b.conversions| && StoredRoute(leg.route)
    && var x := b.conversions[leg.conversion];
       if x.source != USD && leg.sequence == 1 then leg.route.input == x.amount && FairSale(leg.route)
       else if leg.sequence == 2 && leg.route.status.RouteBlocked? then true
       else FairPurchase(leg.route) && (x.source == USD ==> leg.route.input == x.amount)
  }

  ghost predicate LegsFair(b: Book) {
    forall l | 0 <= l < |b.legs| :: LegFair(b, b.legs[l])
  }

  lemma FairKept(b: Book, u: Book, more: seq<Leg>)
    requires LegsFair(b) && u.legs == b.legs + more && |b.conversions| <= |u.conversions|
    requires forall j | 0 <= j < |b.conversions| ::
             u.conversions[j] == b.conversions[j].(status := u.conversions[j].status)
    requires forall l | 0 <= l < |more| :: LegFair(u, more[l])
    ensures LegsFair(u)
  {
    forall l | 0 <= l < |u.legs| ensures LegFair(u, u.legs[l]) {
      if l < |b.legs| {
        assert LegFair(b, b.legs[l]);
      } else {
        assert u.legs[l] == more[l - |b.legs|];
      }
    }
  }

  lemma SaleKeepsFair(b: Book, i: nat, rate: Decimal, venues: Candidates, flagged: bool)
    requires LegsFair(b)
    ensures LegsFair(SaleSettled(b, i, rate, venues, flagged).book)
  {
    var u := SaleSettled(b, i, rate, venues, flagged).book;
    if u != b {
      var x := b.conversions[i];
      var r := SaleRoute(x.source, x.amount, rate, venues).value;
      SaleIsFair(x.source, x.amount, rate, venues, r);
      var more := SellLegs(i, x, r, flagged && r.filled > 0);
      assert StoredRoute(more[0].route);
      FairKept(b, u, more);
    }
  }

  lemma PurchaseKeepsFair(b: Book, i: nat, rate: Decimal, venues: Candidates)
    requires LegsFair(b)
    ensures LegsFair(PurchaseSettled(b, i, rate, venues).book)
  {
    var u := PurchaseSettled(b, i, rate, venues).book;
    if u != b {
      var x := b.conversions[i];
      var r := PurchaseRoute(x.destination, Budget(b, i).value, rate, venues).value;
      PurchaseIsFair(x.destination, Budget(b, i).value, rate, venues, r);
      FairKept(b, u, [Leg(i, BuySequence(x), r)]);
    }
  }

  lemma StepKeepsFair(b: Book, s: Step)
    requires LegsFair(b)
    ensures LegsFair(After(b, s))
  {
    match s
    case SettleSale(i, rate, venues, flagged) => SaleKeepsFair(b, i, rate, venues, flagged);
    case SettlePurchase(i, rate, venues) => PurchaseKeepsFair(b, i, rate, venues);
    case _ =>
      LegsUntouched(b, s);
      FairKept(b, After(b, s), []);
  }

  lemma LegsUntouched(b: Book, s: Step)
    requires !s.SettleSale? && !s.SettlePurchase?
    ensures After(b, s).legs == b.legs + [] && b.conversions <= After(b, s).conversions
  {
    match s
    case ApplyEvent(id, e) => EventLeavesLegs(b, id, e);
    case _ =>
  }

  lemma EventLeavesLegs(b: Book, id: string, e: EventRow)
    ensures EventApplied(b, id, e).book.legs == b.legs && EventApplied(b, id, e).book.conversions == b.conversions
  {
    if e.withdrawal < |b.withdrawals| && Transitioned(b, e.withdrawal, e.kind).Success? {
      TransitionLeavesLegs(b, e.withdrawal, e.kind);
    }
  }

  lemma TransitionLeavesLegs(b: Book, w: nat, kind: EventType)
    requires w < |b.withdrawals| && Transitioned(b, w, kind).Success?
    ensures var u := Transitioned(b, w, kind).value; u.legs == b.legs && u.conversions == b.conversions
  {
  }

  lemma {:induction false} LegsAreFair(b: Book, steps: seq<Step>)
    requires Initial(b)
    ensures LegsFair(Run(b, steps))
  {
    if steps != [] {
      LegsAreFair(b, steps[..|steps| - 1]);
      StepKeepsFair(Run(b, steps[..|steps| - 1]), steps[|steps| - 1]);
    }
  }

  // ---- The guarantees over every run ----

  /** What a conversion is waiting to use: its source amount until its first leg is settled. */
  function PendingTerm(b: Book, c: Customer, a: Asset): nat -> int {
    (i: nat) => if Holds(b, i, c, a) && !HasLeg(b, i, 1) then b.conversions[i].amount else 0
  }

  /** What the router's roundings left of a settled purchase. */
  function ResidueTerm(b: Book, c: Customer, a: Asset): nat -> int {
    (i: nat) => if Holds(b, i, c, a) && HasLeg(b, i, 1) && a == USD then LegAt(b, i, 1).route.Residue() else 0
  }

  /** A settled first leg left only its residue: nothing for a sale, less than three steps for a purchase. */
  lemma SettledHolding(b: Book, i: nat)
    requires LegsFair(b) && i < |b.conversions| && HasLeg(b, i, 1)
    ensures var r := LegAt(b, i, 1).route;
            && HeldBy(b, i) == (if b.conversions[i].source == USD then r.Residue() else 0)
            && (b.conversions[i].source == USD ==> FairPurchase(r) && Abs(r.Residue()) <= 2)
  {
    FoundLeg(b.legs, i, 1);
    assert LegFair(b, LegAt(b, i, 1));
  }

  /**
   Held funds over every run. Crypto: exactly the conversions without a settled first leg and the approved withdrawals.
   Dollars: the conversions without a settled first leg, and the residue of every purchase.
   */
  lemma HeldIsPending(b: Book, steps: seq<Step>, c: Customer, a: Asset)
    requires Initial(b) && Run(b, steps).Knows(c, a)
    ensures var u := Run(b, steps);
            var n := |u.conversions|;
            Total(u.postings, HeldKey(u, c, a)) ==
              Sum(PendingTerm(u, c, a), n)
              + if a == USD then Sum(ResidueTerm(u, c, a), n) else Sum(WithdrawalTerm(u, c, a), |u.withdrawals|)
  {
    RunsAreSound(b, steps);
    LegsAreFair(b, steps);
    var u := Run(b, steps);
    assert HeldMatches(u, c, a);
    forall i: nat | i < |u.conversions|
      ensures ResidueTerm(u, c, a)(i) == ConversionTerm(u, c, a)(i) - PendingTerm(u, c, a)(i)
    {
      if HasLeg(u, i, 1) {
        SettledHolding(u, i);
      }
    }
    SumOfDifference(ConversionTerm(u, c, a), PendingTerm(u, c, a), ResidueTerm(u, c, a), |u.conversions|);
    if a == USD {
      forall w: nat | w < |u.withdrawals| ensures WithdrawalTerm(u, c, a)(w) == 0 {
        assert WithdrawalSound(u, w);
      }
      ZeroSum(WithdrawalTerm(u, c, a), |u.withdrawals|);
    } else {
      ZeroSum(ResidueTerm(u, c, a), |u.conversions|);
    }
  }

  lemma {:induction false} ZeroSum(f: nat -> int, n: nat)
    requires forall j: nat | j < n :: f(j) == 0
    ensures Sum(f, n) == 0
  {
    if n > 0 {
      ZeroSum(f, n - 1);
    }
  }

  /** What stays held, or is released too much, after a dollar conversion: the difference of the fees' two roundings. */
  lemma ResidueOfConversion(b: Book, steps: seq<Step>, i: nat)
    requires Initial(b) && i < |Run(b, steps).conversions| && HasLeg(Run(b, steps), i, 1)
    ensures var u := Run(b, steps);
            var r := LegAt(u, i, 1).route;
            u.conversions[i].source == USD ==>
              && r.Residue() == FeesByChild(r.children, r.rate) - Fee(r.gross, r.rate)
              && 2 * Abs(r.Residue()) <= Fills(r.children) + 1 <= VENUES + 1
              && (Fills(r.children) <= 1 ==> r.Residue() == 0)
  {
    LegsAreFair(b, steps);
    SettledHolding(Run(b, steps), i);
  }

  /** Whatever the interleaving of retries, a conversion has at most one leg of each sequence. */
  lemma EachLegOnce(b: Book, steps: seq<Step>)
    requires Initial(b)
    ensures var u := Run(b, steps);
            forall l, m | 0 <= l < |u.legs| && 0 <= m < |u.legs|
              && u.legs[l].conversion == u.legs[m].conversion && u.legs[l].sequence == u.legs[m].sequence :: l == m
  {
    RunsAreSound(b, steps);
  }

  /** Everything a withdrawal ever booked on a balance. */
  function Footprint(b: Book, x: Withdrawal, k: Key): int
    requires x.reservation < |b.postings|
    requires x.broadcast.Some? ==> x.broadcast.value < |b.postings|
    requires x.reservationReversal.Some? ==> x.reservationReversal.value < |b.postings|
    requires x.broadcastReversal.Some? ==> x.broadcastReversal.value < |b.postings|
  {
    Balance(b.postings[x.reservation], k)
    + (if x.broadcast.Some? then Balance(b.postings[x.broadcast.value], k) else 0)
    + (if x.reservationReversal.Some? then Balance(b.postings[x.reservationReversal.value], k) else 0)
    + (if x.broadcastReversal.Some? then Balance(b.postings[x.broadcastReversal.value], k) else 0)
  }

  /**
   A FAILED withdrawal leaves every balance as if it had never been; any other has its quantity out of settled funds.
   */
  lemma FailedLeavesNoTrace(b: Book, steps: seq<Step>, w: nat, k: Key)
    requires Initial(b) && w < |Run(b, steps).withdrawals|
    ensures var u := Run(b, steps);
            var x := u.withdrawals[w];
            && u.Knows(x.customer, x.asset) && WithdrawalSound(u, w)
            && (x.status.WithdrawalFailed? ==> Footprint(u, x, k) == 0)
            && (!x.status.WithdrawalFailed? && k == SettledKey(u, x.customer, x.asset) ==>
               Footprint(u, x, k) == -x.quantity)
            && (x.status.Approved? && k == HeldKey(u, x.customer, x.asset) ==> Footprint(u, x, k) == x.quantity)
            && ((x.status.Broadcast? || x.status.Confirmed?) && k == HeldKey(u, x.customer, x.asset) ==>
               Footprint(u, x, k) == 0)
  {
    RunsAreSound(b, steps);
    var u := Run(b, steps);
    var x := u.withdrawals[w];
    assert WithdrawalSound(u, w);
    ReversedNegates(u.postings[x.reservation], k, "");
    if x.broadcast.Some? {
      ReversedNegates(u.postings[x.broadcast.value], k, "");
    }
    if k == SettledKey(u, x.customer, x.asset) || k == HeldKey(u, x.customer, x.asset) {
      ReserveEffect(u, x.customer, x.asset, x.quantity, x.customer, x.asset, k);
      BroadcastEffect(u, x.customer, x.asset, x.quantity, x.customer, x.asset, k);
    }
  }
}
