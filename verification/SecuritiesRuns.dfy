/** The position projection agrees with the ledger, and every broker event counts once, over every run. */
module SecuritiesRuns {
  import opened Results
  import opened Decimals
  import opened Entries
  import opened Securities
  import Positions

  datatype Step =
    | Submit(owner: Owner, buy: bool, quantity: Decimal, price: Decimal, event: BrokerEvent)
    | Apply(order: nat, event: BrokerEvent)
    | Cancel(order: nat)
    | Reserve(owner: Owner, quantity: Decimal)
    | Release(reservation: nat)
    | Elsewhere(entries: seq<Entry>)

  /** Other products leave the customers' security accounts and the locked accounts alone. */
  predicate Spares(b: Book, es: seq<Entry>) {
    forall i, o | 0 <= i < |es| && o in b.accounts ::
        es[i].account != b.accounts[o].customer && es[i].account != b.accounts[o].locked
  }

  ghost function After(b: Book, s: Step): Book {
    match s
    case Submit(owner, buy, quantity, price, e) => Submitted(b, owner, buy, quantity, price, e).book
    case Apply(n, e) => Applied(b, n, e).book
    case Cancel(n) => OrderCancelled(b, n).book
    case Reserve(owner, quantity) => Reserved(b, owner, quantity).book
    case Release(i) => Released(b, i).book
    case Elsewhere(es) => b.(journal := if Spares(b, es) then b.journal + es else b.journal)
  }

  ghost function Run(b: Book, steps: seq<Step>): Book {
    if steps == [] then b else After(Run(b, steps[..|steps| - 1]), steps[|steps| - 1])
  }

  // ---- The invariant ----

  /** Customer and locked accounts belong to one position each and to no other role. */
  ghost predicate RolesApart(b: Book) {
    && (forall o, p | o in b.accounts && p in b.accounts ::
          && b.accounts[o].customer != b.accounts[p].inventory && b.accounts[o].customer != b.accounts[p].locked
          && b.accounts[o].locked != b.accounts[p].inventory
          && (o != p ==>
               b.accounts[o].customer != b.accounts[p].customer && b.accounts[o].locked != b.accounts[p].locked))
    && (forall o, m | o in b.accounts && m in b.cash ::
          && b.accounts[o].customer != b.cash[m].cash && b.accounts[o].customer != b.cash[m].funding
          && b.accounts[o].locked != b.cash[m].cash && b.accounts[o].locked != b.cash[m].funding
          && b.accounts[o].inventory != b.cash[m].cash)
    && (forall m, n | m in b.cash && n in b.cash :: b.cash[m].cash != b.cash[n].funding)
  }

  /** The projection is what the ledger holds for the customer plus what is locked for them. */
  ghost predicate Agrees(b: Book, o: Owner)
    requires o in b.accounts
  {
    && b.Position(o).quantity == Balance(b.journal, CustomerKey(b, o)) + ActiveTotal(b.reservations, o)
    && Balance(b.journal, LockedKey(b, o)) == ActiveTotal(b.reservations, o)
  }

  function FillTotal(fs: seq<Fill>, n: nat): int {
    if fs == [] then 0 else var f := fs[|fs| - 1]; FillTotal(fs[..|fs| - 1], n) + if f.order == n then f.quantity else 0
  }

  /** An order's filled quantity is the sum of its fills, and never more than was ordered. */
  ghost predicate OrderSound(b: Book, n: nat)
    requires n < |b.orders|
  {
    && b.orders[n].owner in b.accounts
    && b.orders[n].filled == FillTotal(b.fills, n) && 0 <= b.orders[n].filled <= b.orders[n].quantity
    && (b.orders[n].status.Filled? <==> b.orders[n].filled == b.orders[n].quantity)
  }

  /** Fills and their events correspond one to one, and the ledger has posted exactly those events. */
  ghost predicate OncePerEvent(b: Book) {
    && (forall i, j | 0 <= i < j < |b.fills| :: b.fills[i].eventId != b.fills[j].eventId)
    && (forall i | 0 <= i < |b.fills| ::
          var f := b.fills[i];
          f.eventId in b.events && b.events[f.eventId].kind.Filling? && b.events[f.eventId].order == f.order
          && b.events[f.eventId].kind.quantity == f.quantity)
    && (forall e | e in b.posted :: e in b.events && b.events[e].kind.Filling?)
    && (forall e | e in b.events && b.events[e].kind.Filling? :: e in b.posted && HasFill(b, e))
  }

  ghost predicate HasFill(b: Book, e: string) {
    exists i :: 0 <= i < |b.fills| && b.fills[i].eventId == e
  }

  ghost predicate Sound(b: Book) {
    && RolesApart(b)
    && (forall o | o in b.accounts :: Agrees(b, o))
    && (forall n: nat | n < |b.orders| :: OrderSound(b, n))
    && (forall f | f in b.fills :: f.order < |b.orders|)
    && OncePerEvent(b)
  }

  // ---- Postings ----

  lemma PairEffect(credit: AccountId, debit: AccountId, c: Currency, d: Dimension, amount: Decimal, k: Key)
    requires credit != debit
    ensures Balance(Pair(credit, debit, c, d, amount), k) ==
            if k == Key(debit, c, d) then amount else if k == Key(credit, c, d) then -amount else 0
    ensures BalancedPerDimension(Pair(credit, debit, c, d, amount))
  {
    var es := Pair(credit, debit, c, d, amount);
    PairBalance(es[0], es[1], k);
    forall x, e ensures DimensionTotal(es, x, e) == 0 {
      PairTotal(es[0], es[1], x, e);
    }
  }

  /** The three parts of a purchase: shares, provisional proceeds, settled cash. */
  lemma BuyEffect(s: SecurityAccounts, m: CashAccounts, symbol: Currency, quantity: Decimal, consideration: Decimal,
      provisional: Decimal, k: Key)
    requires m.cash != m.funding && s.customer != s.inventory
    ensures var es := BuyEntries(s, m, symbol, quantity, consideration, provisional);
            var first := FromProvisional(provisional, consideration);
            && BalancedPerDimension(es)
            && (k.account != m.cash && k.account != m.funding && k.account != s.inventory ==>
                  Balance(es, k) == if k == Key(s.customer, symbol, Settled) then quantity else 0)
            && (k.account == m.cash && k.account != s.customer && k.account != s.inventory ==>
                  Balance(es, k) ==
                  if k == Key(m.cash, USD, ProvisionalBuying) && first > 0 then -first
                  else if (k == Key(m.cash, USD, Settled) || k == Key(m.cash, USD, Withdrawable))
                    && consideration > first then first - consideration
                  else 0)
  {
    var first := FromProvisional(provisional, consideration);
    var rest := consideration - first;
    var a := [Entry(s.customer, symbol, Settled, Debit, quantity),
      Entry(s.inventory, symbol, Settled, Credit, quantity)];
    var b := if first > 0 then Pair(m.cash, m.funding, USD, ProvisionalBuying, first) else [];
    var c := if rest > 0 then Pair(m.cash, m.funding, USD, Settled, rest)
      + Pair(m.cash, m.funding, USD, Withdrawable, rest) else [];
    PairBalance(a[0], a[1], k);
    forall x, e ensures DimensionTotal(a, x, e) == 0 {
      PairTotal(a[0], a[1], x, e);
    }
    PairEffect(m.cash, m.funding, USD, ProvisionalBuying, first, k);
    PairEffect(m.cash, m.funding, USD, Settled, rest, k);
    PairEffect(m.cash, m.funding, USD, Withdrawable, rest, k);
    BalanceOfConcat(Pair(m.cash, m.funding, USD, Settled, rest), Pair(m.cash, m.funding, USD, Withdrawable, rest), k);
    BalancedConcat(Pair(m.cash, m.funding, USD, Settled, rest), Pair(m.cash, m.funding, USD, Withdrawable, rest));
    BalanceOfConcat(a, b, k);
    BalanceOfConcat(a + b, c, k);
    BalancedConcat(a, b);
    BalancedConcat(a + b, c);
  }

  lemma SellEffect(s: SecurityAccounts, m: CashAccounts, symbol: Currency, quantity: Decimal, consideration: Decimal,
      k: Key)
    requires m.cash != m.funding && s.customer != s.inventory
    ensures var es := SellEntries(s, m, symbol, quantity, consideration);
            && BalancedPerDimension(es)
            && (k.account != m.cash && k.account != m.funding && k.account != s.inventory ==>
                  Balance(es, k) == if k == Key(s.customer, symbol, Settled) then -quantity else 0)
  {
    var a := Pair(s.customer, s.inventory, symbol, Settled, quantity);
    var b := [Entry(m.cash, USD, ProvisionalBuying, Debit, consideration),
      Entry(m.funding, USD, ProvisionalBuying, Credit, consideration)];
    PairEffect(s.customer, s.inventory, symbol, Settled, quantity, k);
    PairBalance(b[0], b[1], k);
    forall x, e ensures DimensionTotal(b, x, e) == 0 {
      PairTotal(b[0], b[1], x, e);
    }
    BalanceOfConcat(a, b, k);
    BalancedConcat(a, b);
  }

  // ---- Fills ----

  /** How many shares a fill adds to the position. */
  function Change(o: Order, quantity: Decimal): int {
    if o.buy then quantity else -quantity
  }

  lemma TradeMoves(b: Book, o: Order, quantity: Decimal, consideration: Decimal)
    requires PositionAfter(b, o, quantity, consideration).Success?
    ensures PositionAfter(b, o, quantity, consideration).value.quantity ==
            b.Position(o.owner).quantity + Change(o, quantity)
  {
  }

  /** A fill's posting moves the customer's shares by the fill, and no other position's shares. */
  lemma FillPostingMoves(b: Book, o: Order, quantity: Decimal, consideration: Decimal, p: Owner)
    requires RolesApart(b) && b.Knows(o.owner) && p in b.accounts && FillEntries(b, o, quantity, consideration).Success?
    ensures var es := FillEntries(b, o, quantity, consideration).value;
            && Balance(es, CustomerKey(b, p)) == (if p == o.owner then Change(o, quantity) else 0)
            && Balance(es, LockedKey(b, p)) == 0 && BalancedPerDimension(es)
  {
    var s, m := b.accounts[o.owner], b.cash[o.owner.account];
    if o.buy {
      var provisional := ReadBalance(b.journal, CashKey(b, o.owner.account, ProvisionalBuying)).value;
      BuyEffect(s, m, o.owner.symbol, quantity, consideration, provisional, CustomerKey(b, p));
      BuyEffect(s, m, o.owner.symbol, quantity, consideration, provisional, LockedKey(b, p));
    } else {
      SellEffect(s, m, o.owner.symbol, quantity, consideration, CustomerKey(b, p));
      SellEffect(s, m, o.owner.symbol, quantity, consideration, LockedKey(b, p));
    }
  }

  /** What a planned fill amounts to. */
  ghost predicate FillFacts(b: Book, o: Order, e: BrokerEvent, plan: FillPlan)
    requires e.kind.Filling? && b.Knows(o.owner)
  {
    && e.kind.quantity > 0 && o.filled + e.kind.quantity <= o.quantity
    && (plan.order.status.Filled? <==> o.filled + e.kind.quantity == o.quantity)
    && plan.order == o.(status := plan.order.status, filled := o.filled + e.kind.quantity, average :=
       plan.order.average, cursor := e.cursor)
    && plan.position.quantity == b.Position(o.owner).quantity + Change(o, e.kind.quantity)
    && FillEntries(b, o, e.kind.quantity, plan.consideration) == Success(plan.entries)
  }

  lemma PlanFillFacts(b: Book, o: Order, e: BrokerEvent)
    requires e.kind.Filling? && b.Knows(o.owner) && PlanFill(b, o, e).Success?
    ensures FillFacts(b, o, e, PlanFill(b, o, e).value)
  {
    TradeMoves(b, o, e.kind.quantity, PlanFill(b, o, e).value.consideration);
  }

  lemma FillKeepsAgreement(b: Book, e: BrokerEvent, plan: FillPlan, p: Owner)
    requires RolesApart(b) && e.kind.Filling? && e.order < |b.orders| && b.Knows(b.orders[e.order].owner)
    requires FillFacts(b, b.orders[e.order], e, plan) && e.id !in b.posted && p in b.accounts && Agrees(b, p)
    ensures Agrees(WithFill(b, e, plan), p)
  {
    var o := b.orders[e.order];
    FillPostingMoves(b, o, e.kind.quantity, plan.consideration, p);
    BalanceOfConcat(b.journal, plan.entries, CustomerKey(b, p));
    BalanceOfConcat(b.journal, plan.entries, LockedKey(b, p));
  }

  lemma {:induction false} FillAppended(fs: seq<Fill>, f: Fill, n: nat)
    ensures FillTotal(fs + [f], n) == FillTotal(fs, n) + if f.order == n then f.quantity else 0
  {
    assert (fs + [f])[..|fs|] == fs;
  }

  lemma {:induction false} NoFills(fs: seq<Fill>, n: nat)
    requires forall i | 0 <= i < |fs| :: fs[i].order != n
    ensures FillTotal(fs, n) == 0
  {
    if fs != [] {
      NoFills(fs[..|fs| - 1], n);
    }
  }

  lemma FillKeepsOrders(b: Book, e: BrokerEvent, plan: FillPlan, n: nat)
    requires e.kind.Filling? && e.order < |b.orders| && n < |b.orders| && OrderSound(b, n)
    requires var o := b.orders[e.order];
             && e.kind.quantity > 0 && o.filled + e.kind.quantity <= o.quantity
             && plan.order.owner == o.owner && plan.order.quantity == o.quantity
             && plan.order.filled == o.filled + e.kind.quantity
             && (plan.order.status.Filled? <==> plan.order.filled == o.quantity)
    ensures OrderSound(WithFill(b, e, plan), n)
  {
    FillAppended(b.fills, WithFill(b, e, plan).fills[|b.fills|], n);
  }

  lemma FillKeepsEvents(b: Book, e: BrokerEvent, plan: FillPlan)
    requires OncePerEvent(b) && e.kind.Filling? && e.order < |b.orders| && e.id !in b.events
    ensures OncePerEvent(WithFill(b, e, plan))
  {
    var u := WithFill(b, e, plan);
    assert u.fills[|b.fills|].eventId == e.id;
    forall x | x in u.events && u.events[x].kind.Filling? ensures x in u.posted && HasFill(u, x) {
      if x != e.id {
        assert HasFill(b, x);
        var i :| 0 <= i < |b.fills| && b.fills[i].eventId == x;
        assert u.fills[i].eventId == x;
      }
    }
  }

  lemma FillKeepsSound(b: Book, e: BrokerEvent)
    requires Sound(b) && e.kind.Filling? && e.order < |b.orders| && b.Knows(b.orders[e.order].owner)
             && e.id !in b.events
    requires PlanFill(b, b.orders[e.order], e).Success?
    ensures Sound(WithFill(b, e, PlanFill(b, b.orders[e.order], e).value))
  {
    var plan := PlanFill(b, b.orders[e.order], e).value;
    var u := WithFill(b, e, plan);
    PlanFillFacts(b, b.orders[e.order], e);
    assert e.id !in b.posted;
    forall p | p in b.accounts ensures Agrees(u, p) {
      assert Agrees(b, p);
      FillKeepsAgreement(b, e, plan, p);
    }
    forall n: nat | n < |u.orders| ensures OrderSound(u, n) {
      assert OrderSound(b, n);
      FillKeepsOrders(b, e, plan, n);
    }
    FillKeepsEvents(b, e, plan);
  }

  // ---- Other transactions ----

  /** A status event changes status and cursor, and fills nothing. */
  lemma StatusOnly(o: Order, e: BrokerEvent)
    requires !e.kind.Filling? && StatusAfter(o, e).Success? && !o.status.Filled?
    ensures var u := StatusAfter(o, e).value; u == o.(status := u.status, cursor := u.cursor) && !u.status.Filled?
  {
  }

  lemma NoStatusAfterFilled(o: Order, e: BrokerEvent)
    requires !e.kind.Filling? && StatusAfter(o, e).Success?
    ensures !o.status.Filled?
  {
  }

  lemma StatusKeepsSound(b: Book, e: BrokerEvent)
    requires Sound(b) && !e.kind.Filling? && e.order < |b.orders| && e.id !in b.events
             && StatusAfter(b.orders[e.order], e).Success?
    ensures Sound(WithStatus(b, e, StatusAfter(b.orders[e.order], e).value))
  {
    NoStatusAfterFilled(b.orders[e.order], e);
    StatusOnly(b.orders[e.order], e);
    RowKeepsSound(b, e, StatusAfter(b.orders[e.order], e).value);
  }

  lemma RowKeepsSound(b: Book, e: BrokerEvent, o: Order)
    requires Sound(b) && !e.kind.Filling? && e.order < |b.orders| && e.id !in b.events
    requires o == b.orders[e.order].(status := o.status, cursor := o.cursor)
    requires !b.orders[e.order].status.Filled? && !o.status.Filled?
    ensures Sound(WithStatus(b, e, o))
  {
    var u := WithStatus(b, e, o);
    forall n: nat | n < |u.orders| ensures OrderSound(u, n) {
      assert OrderSound(b, n);
    }
    forall p | p in u.accounts ensures Agrees(u, p) {
      assert Agrees(b, p);
    }
    forall x | x in u.events && u.events[x].kind.Filling? ensures x in u.posted && HasFill(u, x) {
      assert HasFill(b, x);
    }
  }

  lemma ApplyKeepsSound(b: Book, n: nat, e: BrokerEvent)
    requires Sound(b)
    ensures Sound(Applied(b, n, e).book)
  {
    if Applied(b, n, e).result.Success? && e.id !in b.events {
      if e.kind.Filling? {
        FillKeepsSound(b, e);
      } else {
        StatusKeepsSound(b, e);
      }
    }
  }

  lemma NewOrderKeepsSound(b: Book, o: Order)
    requires Sound(b) && o.owner in b.accounts && o.filled == 0 && o.quantity > 0 && o.status.PendingSubmission?
    ensures Sound(b.(orders := b.orders + [o]))
  {
    var u := b.(orders := b.orders + [o]);
    forall i | 0 <= i < |b.fills| ensures b.fills[i].order != |b.orders| {
      assert b.fills[i] in b.fills;
    }
    NoFills(b.fills, |b.orders|);
    forall n: nat | n < |u.orders| ensures OrderSound(u, n) {
      assert n < |b.orders| ==> OrderSound(b, n);
    }
    forall p | p in u.accounts ensures Agrees(u, p) {
      assert Agrees(b, p);
    }
    forall x | x in u.events && u.events[x].kind.Filling? ensures x in u.posted && HasFill(u, x) {
      assert HasFill(b, x);
    }
  }

  lemma CancelKeepsSound(b: Book, n: nat)
    requires Sound(b) && n < |b.orders| && (b.orders[n].status.Open? || b.orders[n].status.PartiallyFilled?)
    ensures Sound(CancelledBook(b, n))
  {
    var u := CancelledBook(b, n);
    forall i: nat | i < |u.orders| ensures OrderSound(u, i) {
      assert OrderSound(b, i);
    }
    forall p | p in u.accounts ensures Agrees(u, p) {
      assert Agrees(b, p);
    }
    forall x | x in u.events && u.events[x].kind.Filling? ensures x in u.posted && HasFill(u, x) {
      assert HasFill(b, x);
    }
  }

  // ---- Custody ----

  lemma {:induction false} ReservationReplaced(rs: seq<Reservation>, i: nat, r: Reservation, o: Owner)
    requires i < |rs|
    ensures ActiveTotal(rs[i := r], o) == ActiveTotal(rs, o)
              - (if rs[i].active && rs[i].owner == o then rs[i].quantity else 0)
              + (if r.active && r.owner == o then r.quantity else 0)
  {
    var last := |rs| - 1;
    if i == last {
      assert rs[i := r][..last] == rs[..last];
    } else {
      assert rs[i := r][..last] == rs[..last][i := r];
      ReservationReplaced(rs[..last], i, r, o);
    }
  }

  /** Rows and journal changed only by shares that moved between a customer's account and its locked account. */
  lemma CustodyKeepsSound(b: Book, u: Book)
    requires Sound(b) && u == b.(reservations := u.reservations, journal := u.journal)
    requires forall p | p in b.accounts ::
               && Balance(u.journal, CustomerKey(b, p)) - Balance(b.journal, CustomerKey(b, p)) ==
                  ActiveTotal(b.reservations, p) - ActiveTotal(u.reservations, p)
               && Balance(u.journal, LockedKey(b, p)) - Balance(b.journal, LockedKey(b, p)) ==
                  ActiveTotal(u.reservations, p) - ActiveTotal(b.reservations, p)
    ensures Sound(u)
  {
    forall n: nat | n < |u.orders| ensures OrderSound(u, n) {
      assert OrderSound(b, n);
    }
    forall p | p in u.accounts ensures Agrees(u, p) {
      assert Agrees(b, p);
    }
    forall x | x in u.events && u.events[x].kind.Filling? ensures x in u.posted && HasFill(u, x) {
      assert HasFill(b, x);
    }
  }

  lemma ReserveKeepsSound(b: Book, owner: Owner, quantity: Decimal)
    requires Sound(b) && owner in b.accounts
    ensures Sound(WithReservation(b, owner, quantity))
  {
    var u := WithReservation(b, owner, quantity);
    var a := b.accounts[owner];
    forall p | p in b.accounts
      ensures Balance(u.journal, CustomerKey(b, p)) - Balance(b.journal, CustomerKey(b, p)) ==
              ActiveTotal(b.reservations, p) - ActiveTotal(u.reservations, p)
      ensures Balance(u.journal, LockedKey(b, p)) - Balance(b.journal, LockedKey(b, p)) ==
              ActiveTotal(u.reservations, p) - ActiveTotal(b.reservations, p)
    {
      var es := LockEntries(a, owner.symbol, quantity);
      BalanceOfConcat(b.journal, es, CustomerKey(b, p));
      BalanceOfConcat(b.journal, es, LockedKey(b, p));
      PairEffect(a.customer, a.locked, owner.symbol, Settled, quantity, CustomerKey(b, p));
      PairEffect(a.customer, a.locked, owner.symbol, Settled, quantity, LockedKey(b, p));
      assert u.reservations[..|b.reservations|] == b.reservations;
    }
    CustodyKeepsSound(b, u);
  }

  lemma ReleaseKeepsSound(b: Book, i: nat)
    requires Sound(b) && i < |b.reservations| && b.reservations[i].active && b.reservations[i].owner in b.accounts
    ensures Sound(WithRelease(b, i))
  {
    var u := WithRelease(b, i);
    var r := b.reservations[i];
    var a := b.accounts[r.owner];
    forall p | p in b.accounts
      ensures Balance(u.journal, CustomerKey(b, p)) - Balance(b.journal, CustomerKey(b, p)) ==
              ActiveTotal(b.reservations, p) - ActiveTotal(u.reservations, p)
      ensures Balance(u.journal, LockedKey(b, p)) - Balance(b.journal, LockedKey(b, p)) ==
              ActiveTotal(u.reservations, p) - ActiveTotal(b.reservations, p)
    {
      var es := ReleaseEntries(a, r.owner.symbol, r.quantity);
      BalanceOfConcat(b.journal, es, CustomerKey(b, p));
      BalanceOfConcat(b.journal, es, LockedKey(b, p));
      PairEffect(a.locked, a.customer, r.owner.symbol, Settled, r.quantity, CustomerKey(b, p));
      PairEffect(a.locked, a.customer, r.owner.symbol, Settled, r.quantity, LockedKey(b, p));
      ReservationReplaced(b.reservations, i, r.(active := false), p);
    }
    CustodyKeepsSound(b, u);
  }

  lemma {:induction false} SparedBalance(b: Book, es: seq<Entry>, o: Owner, k: Key)
    requires Spares(b, es) && o in b.accounts
             && (k.account == b.accounts[o].customer || k.account == b.accounts[o].locked)
    ensures Balance(es, k) == 0
  {
    if es != [] {
      SparedBalance(b, es[..|es| - 1], o, k);
      assert es[|es| - 1].account != b.accounts[o].customer && es[|es| - 1].account != b.accounts[o].locked;
    }
  }

  lemma ElsewhereKeepsSound(b: Book, es: seq<Entry>)
    requires Sound(b) && Spares(b, es)
    ensures Sound(b.(journal := b.journal + es))
  {
    forall p | p in b.accounts
      ensures Balance(b.journal + es, CustomerKey(b, p)) == Balance(b.journal, CustomerKey(b, p))
      ensures Balance(b.journal + es, LockedKey(b, p)) == Balance(b.journal, LockedKey(b, p))
    {
      BalanceOfConcat(b.journal, es, CustomerKey(b, p));
      BalanceOfConcat(b.journal, es, LockedKey(b, p));
      SparedBalance(b, es, p, CustomerKey(b, p));
      SparedBalance(b, es, p, LockedKey(b, p));
    }
    CustodyKeepsSound(b, b.(journal := b.journal + es));
  }

  lemma SubmitKeepsSound(b: Book, owner: Owner, buy: bool, quantity: Decimal, price: Decimal, e: BrokerEvent)
    requires Sound(b)
    ensures Sound(Submitted(b, owner, buy, quantity, price, e).book)
  {
    if quantity > 0 && b.Knows(owner) {
      var o := Order(owner, buy, quantity, 0, 0, PendingSubmission, 0);
      NewOrderKeepsSound(b, o);
      ApplyKeepsSound(b.(orders := b.orders + [o]), |b.orders|, e);
    }
  }

  lemma CancelledKeepsSound(b: Book, n: nat)
    requires Sound(b)
    ensures Sound(OrderCancelled(b, n).book)
  {
    if n < |b.orders| && (b.orders[n].status.Open? || b.orders[n].status.PartiallyFilled?) {
      CancelKeepsSound(b, n);
    }
  }

  lemma ReservedKeepsSound(b: Book, owner: Owner, quantity: Decimal)
    requires Sound(b)
    ensures Sound(Reserved(b, owner, quantity).book)
  {
    if ReserveRefusal(b, owner, quantity).None? {
      ReserveKeepsSound(b, owner, quantity);
    }
  }

  lemma ReleasedKeepsSound(b: Book, i: nat)
    requires Sound(b)
    ensures Sound(Released(b, i).book)
  {
    if i < |b.reservations| && b.reservations[i].owner in b.accounts && b.reservations[i].active {
      ReleaseKeepsSound(b, i);
    }
  }

  lemma StepKeepsSound(b: Book, s: Step)
    requires Sound(b)
    ensures Sound(After(b, s))
  {
    match s
    case Submit(owner, buy, quantity, price, e) =>
      SubmitKeepsSound(b, owner, buy, quantity, price, e);
    case Apply(n, e) => ApplyKeepsSound(b, n, e);
    case Cancel(n) => CancelledKeepsSound(b, n);
    case Reserve(owner, quantity) => ReservedKeepsSound(b, owner, quantity);
    case Release(i) => ReleasedKeepsSound(b, i);
    case Elsewhere(es) =>
      if Spares(b, es) {
        ElsewhereKeepsSound(b, es);
      }
  }

  /** Nothing traded or locked yet; other products may have posted already. */
  ghost predicate Initial(b: Book) {
    && RolesApart(b) && b.orders == [] && b.fills == [] && b.positions == map[] && b.reservations == []
    && b.events == map[] && b.posted == map[] && Spares(b, b.journal)
  }

  lemma {:induction false} RunsAreSound(b: Book, steps: seq<Step>)
    requires Initial(b)
    ensures Sound(Run(b, steps))
  {
    if steps == [] {
      forall o | o in b.accounts ensures Agrees(b, o) {
        SparedBalance(b, b.journal, o, CustomerKey(b, o));
        SparedBalance(b, b.journal, o, LockedKey(b, o));
      }
    } else {
      RunsAreSound(b, steps[..|steps| - 1]);
      StepKeepsSound(Run(b, steps[..|steps| - 1]), steps[|steps| - 1]);
    }
  }

  // ---- The guarantees over every run ----

  /**
   A position's quantity is the customer's ledger balance plus everything reserved, which is what the locked account
   holds.
   */
  lemma ProjectionRefinesLedger(b: Book, steps: seq<Step>, o: Owner)
    requires Initial(b) && o in Run(b, steps).accounts
    ensures var u := Run(b, steps);
            && u.Position(o).quantity == Balance(u.journal, CustomerKey(u, o)) + ActiveTotal(u.reservations, o)
            && Balance(u.journal, LockedKey(u, o)) == ActiveTotal(u.reservations, o)
  {
    RunsAreSound(b, steps);
    assert Agrees(Run(b, steps), o);
  }

  /** An order is never filled beyond its quantity, and its filled quantity is the sum of its fills, one per event. */
  lemma OrdersAddUp(b: Book, steps: seq<Step>, n: nat)
    requires Initial(b) && n < |Run(b, steps).orders|
    ensures var u := Run(b, steps);
            && u.orders[n].filled == FillTotal(u.fills, n) && 0 <= u.orders[n].filled <= u.orders[n].quantity
            && (u.orders[n].status.Filled? <==> u.orders[n].filled == u.orders[n].quantity)
            && forall i, j | 0 <= i < j < |u.fills| :: u.fills[i].eventId != u.fills[j].eventId
  {
    RunsAreSound(b, steps);
    assert OrderSound(Run(b, steps), n);
  }

  // ---- Each event once ----

  /**
   A new fill event adds one fill, one posting, one position change and one order change, all by the same quantity.
   */
  lemma FillTakesEffect(b: Book, n: nat, e: BrokerEvent)
    requires Sound(b) && e.kind.Filling? && e.id !in b.events && Applied(b, n, e).result.Success?
    ensures var u := Applied(b, n, e).book;
            var o := b.orders[n];
            && |u.fills| == |b.fills| + 1 && u.fills[|b.fills|].eventId == e.id
            && u.orders[n].filled == o.filled + e.kind.quantity
            && u.Position(o.owner).quantity == b.Position(o.owner).quantity + Change(o, e.kind.quantity)
            && Balance(u.journal, CustomerKey(u, o.owner)) ==
               Balance(b.journal, CustomerKey(b, o.owner)) + Change(o, e.kind.quantity)
  {
    var o := b.orders[n];
    var plan := PlanFill(b, o, e).value;
    PlanFillFacts(b, o, e);
    FillPostingMoves(b, o, e.kind.quantity, plan.consideration, o.owner);
    assert e.id !in b.posted;
    BalanceOfConcat(b.journal, plan.entries, CustomerKey(b, o.owner));
  }

  ghost predicate KeepsEvents(b: Book, u: Book) {
    && |b.orders| <= |u.orders| && u.accounts == b.accounts && u.cash == b.cash
    && (forall e | e in b.events :: e in u.events && u.events[e] == b.events[e])
    && (forall n | 0 <= n < |b.orders| :: u.orders[n].owner == b.orders[n].owner)
  }

  lemma ApplyKeepsEvents(b: Book, n: nat, e: BrokerEvent)
    ensures KeepsEvents(b, Applied(b, n, e).book)
  {
    if Applied(b, n, e).result.Success? && e.id !in b.events && e.kind.Filling? {
      PlanFillFacts(b, b.orders[n], e);
    }
  }

  lemma SubmitKeepsEvents(b: Book, owner: Owner, buy: bool, quantity: Decimal, price: Decimal, e: BrokerEvent)
    ensures KeepsEvents(b, Submitted(b, owner, buy, quantity, price, e).book)
  {
    var o := Order(owner, buy, quantity, 0, 0, PendingSubmission, 0);
    ApplyKeepsEvents(b.(orders := b.orders + [o]), |b.orders|, e);
  }

  lemma CancelKeepsEvents(b: Book, n: nat)
    ensures KeepsEvents(b, OrderCancelled(b, n).book)
  {
  }

  lemma StepKeepsEvents(b: Book, s: Step)
    ensures KeepsEvents(b, After(b, s))
  {
    match s
    case Apply(n, e) => ApplyKeepsEvents(b, n, e);
    case Submit(owner, buy, quantity, price, e) => SubmitKeepsEvents(b, owner, buy, quantity, price, e);
    case Cancel(n) => CancelKeepsEvents(b, n);
    case Reserve(_, _) => assert After(b, s) ==
      b.(reservations := After(b, s).reservations, journal := After(b, s).journal);
    case Release(_) => assert After(b, s) ==
      b.(reservations := After(b, s).reservations, journal := After(b, s).journal);
    case Elsewhere(_) =>
  }

  lemma {:induction false} RunKeepsEvents(b: Book, steps: seq<Step>)
    ensures KeepsEvents(b, Run(b, steps))
  {
    if steps != [] {
      RunKeepsEvents(b, steps[..|steps| - 1]);
      StepKeepsEvents(Run(b, steps[..|steps| - 1]), steps[|steps| - 1]);
    }
  }

  /** Delivered again, at any later time, an event changes nothing at all. */
  lemma ReplayChangesNothing(b: Book, n: nat, e: BrokerEvent, steps: seq<Step>)
    requires Applied(b, n, e).result.Success?
    ensures var later := Run(Applied(b, n, e).book, steps); Applied(later, n, e).book == later
  {
    ApplyKeepsEvents(b, n, e);
    RunKeepsEvents(Applied(b, n, e).book, steps);
    assert e.id in Applied(b, n, e).book.events;
  }

  /**
   At any later time, an event under the same identity changes nothing, and is accepted if and only if it is for the
   same order with the same payload and type, and not behind the order's cursor.
   */
  lemma EventIsItsOwn(b: Book, n: nat, e: BrokerEvent, steps: seq<Step>, m: nat, x: BrokerEvent)
    requires Applied(b, n, e).result.Success? && x.id == e.id
    ensures var later := Run(Applied(b, n, e).book, steps);
            && Applied(later, m, x).book == later
            && (Applied(later, m, x).result.Success? <==>
                 && m == n == x.order && x.payload == e.payload
                 && m < |later.orders| && later.Knows(later.orders[m].owner) && x.cursor >= later.orders[m].cursor
                 && if e.kind.Filling? then x.kind.Filling? else x.kind == e.kind)
  {
    ApplyKeepsEvents(b, n, e);
    RunKeepsEvents(Applied(b, n, e).book, steps);
    assert e.id in Applied(b, n, e).book.events;
    RepeatedEvent(Run(Applied(b, n, e).book, steps), Applied(b, n, e).book.events[e.id], e, m, x);
  }

  lemma RepeatedEvent(later: Book, first: BrokerEvent, e: BrokerEvent, m: nat, x: BrokerEvent)
    requires x.id == e.id && e.id in later.events && later.events[e.id] == first && e.id != "" && |e.id| <= 255
    requires e.payload != [] && first.order == e.order && first.payload == e.payload
    requires if e.kind.Filling? then first.kind.Filling? else first.kind == e.kind
    ensures Applied(later, m, x).book == later
    ensures Applied(later, m, x).result.Success? <==>
              && m == e.order == x.order && x.payload == e.payload
              && m < |later.orders| && later.Knows(later.orders[m].owner) && x.cursor >= later.orders[m].cursor
              && if e.kind.Filling? then x.kind.Filling? else x.kind == e.kind
  {
  }

  /** An order that ended stays as it is, whatever else happens. */
  predicate Ended(o: Order) {
    o.status.Filled? || o.status.Cancelled? || o.status.Rejected? || o.status.Expired?
  }

  /** No event is accepted for an order that ended. */
  lemma EndedTakesNothing(b: Book, o: Order, e: BrokerEvent)
    requires Ended(o)
    ensures !e.kind.Filling? ==> StatusAfter(o, e).Failure?
    ensures e.kind.Filling? && b.Knows(o.owner) ==> PlanFill(b, o, e).Failure?
  {
  }

  lemma ApplyKeepsEnded(b: Book, n: nat, e: BrokerEvent, i: nat)
    requires i < |b.orders| && Ended(b.orders[i])
    ensures i < |Applied(b, n, e).book.orders| && Applied(b, n, e).book.orders[i] == b.orders[i]
  {
    if n == i {
      EndedTakesNothing(b, b.orders[i], e);
    }
  }

  lemma StepKeepsEnded(b: Book, s: Step, i: nat)
    requires i < |b.orders| && Ended(b.orders[i])
    ensures i < |After(b, s).orders| && After(b, s).orders[i] == b.orders[i]
  {
    match s
    case Apply(n, e) => ApplyKeepsEnded(b, n, e, i);
    case Submit(owner, buy, quantity, price, e) =>
      var o := Order(owner, buy, quantity, 0, 0, PendingSubmission, 0);
      ApplyKeepsEnded(b.(orders := b.orders + [o]), |b.orders|, e, i);
    case _ =>
  }

  lemma {:induction false} EndedForGood(b: Book, steps: seq<Step>, i: nat)
    requires i < |b.orders| && Ended(b.orders[i])
    ensures i < |Run(b, steps).orders| && Run(b, steps).orders[i] == b.orders[i]
  {
    if steps != [] {
      EndedForGood(b, steps[..|steps| - 1], i);
      StepKeepsEnded(Run(b, steps[..|steps| - 1]), steps[|steps| - 1], i);
    }
  }
}
