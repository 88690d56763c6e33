/** Broker events and share custody as they run: one transaction each on the tables. */
module SecuritiesService {
  import opened Results
  import opened Decimals
  import opened Entries
  import opened Securities
  import opened SecuritiesRuns
  import Ledger
  import Positions

  class Service {
    var book: Book

    constructor (start: Book)
      ensures book == start
    {
      book := start;
    }

    /** The entries of a fill, appended part by part; a purchase draws on provisional proceeds before settled cash. */
    method BuildFillEntries(o: Order, quantity: Decimal, consideration: Decimal)
        returns (r: Result<seq<Entry>, SecuritiesError>)
      requires book.Knows(o.owner)
      ensures r == FillEntries(book, o, quantity, consideration)
    {
      var security, money := book.accounts[o.owner], book.cash[o.owner.account];
      var symbol := o.owner.symbol;
      var entries: seq<Entry> := [];
      if o.buy {
        entries := entries + [Entry(security.customer, symbol, Settled, Debit, quantity),
          Entry(security.inventory, symbol, Settled, Credit, quantity)];
        var provisional :- ReadBalance(book.journal, CashKey(book, o.owner.account, ProvisionalBuying));
        var fromProvisional := provisional;
        if fromProvisional > consideration {
          fromProvisional := consideration;
        }
        if fromProvisional > 0 {
          entries := entries + Pair(money.cash, money.funding, USD, ProvisionalBuying, fromProvisional);
        }
        var fromSettled :- Checked(Sub(consideration, fromProvisional));
        if fromSettled > 0 {
          entries := entries + (Pair(money.cash, money.funding, USD, Settled, fromSettled)
            + Pair(money.cash, money.funding, USD, Withdrawable, fromSettled));
        }
        assert entries == BuyEntries(security, money, symbol, quantity, consideration, provisional);
        return Success(entries);
      }
      entries := entries + Pair(security.customer, security.inventory, symbol, Settled, quantity);
      entries := entries + [Entry(money.cash, USD, ProvisionalBuying, Debit, consideration),
        Entry(money.funding, USD, ProvisionalBuying, Credit, consideration)];
      assert entries == SellEntries(security, money, symbol, quantity, consideration);
      return Success(entries);
    }

    /** Everything a fill must pass before its rows are written. */
    method DecideFill(o: Order, e: BrokerEvent) returns (r: Result<FillPlan, SecuritiesError>)
      requires e.kind.Filling? && book.Knows(o.owner)
      ensures r == PlanFill(book, o, e)
    {
      var quantity := e.kind.quantity;
      var consideration := Consideration(o, quantity, e.kind.price);
      if consideration.Failure? {
        return Failure(consideration.error);
      }
      var affordable := Affordable(book, o, consideration.value);
      if affordable.Failure? {
        return Failure(affordable.error);
      }
      var entries := BuildFillEntries(o, quantity, consideration.value);
      if entries.Failure? {
        return Failure(entries.error);
      }
      var posted := PostFill(e, entries.value);
      if !posted {
        return Failure(LedgerRejected);
      }
      r := DecideRows(o, e, consideration.value, entries.value);
    }

    /** The ledger's checks on the posting: key, entries, and a provider event seen with other data. */
    method PostFill(e: BrokerEvent, entries: seq<Entry>) returns (accepted: bool)
      ensures accepted == !PostingRefused(book, e, entries)
    {
      if !Ledger.IsKey("fill." + e.id) {
        return false;
      }
      var checked := ValidatePosting(entries);
      if checked.Failure? {
        return false;
      }
      return e.id !in book.posted || book.posted[e.id] == e.payload;
    }

    method DecideRows(o: Order, e: BrokerEvent, consideration: Decimal, entries: seq<Entry>)
        returns (r: Result<FillPlan, SecuritiesError>)
      requires e.kind.Filling? && book.Knows(o.owner) && !PostingRefused(book, e, entries)
      requires Consideration(o, e.kind.quantity, e.kind.price) == Success(consideration)
               && Affordable(book, o, consideration).Success?
      requires FillEntries(book, o, e.kind.quantity, consideration) == Success(entries)
      ensures r == PlanFill(book, o, e)
    {
      var position :- PositionAfter(book, o, e.kind.quantity, consideration);
      var taken := SequenceTaken(e.order, e.kind.sequence);
      if e.kind.sequence <= 0 || taken {
        return Failure(RowRejected);
      }
      var order :- FilledAfter(o, e, consideration);
      return Success(FillPlan(consideration, entries, position, order));
    }

    /** The unique index on order and fill sequence. */
    method SequenceTaken(order: nat, sequence: int) returns (taken: bool)
      ensures taken <==> exists f :: f in book.fills && f.order == order && f.sequence == sequence
    {
      taken := exists f | f in book.fills :: f.order == order && f.sequence == sequence;
    }

    method ApplyBrokerEvent(n: nat, e: BrokerEvent) returns (r: Result<(), SecuritiesError>)
      requires Sound(book)
      modifies this
      ensures Sound(book) && Outcome(book, r) == Applied(old(book), n, e)
    {
      ApplyKeepsSound(book, n, e);
      if n >= |book.orders| || e.order != n || !WellFormed(book.orders[n], e) || !book.Knows(book.orders[n].owner) {
        return Failure(InvalidRequest);
      }
      if e.id in book.events {
        return if SameEvent(book.events[e.id], e) then Success(()) else Failure(EventConflict);
      }
      if e.kind.Filling? {
        var plan := DecideFill(book.orders[n], e);
        if plan.Failure? {
          return Failure(plan.error);
        }
        book := WithFill(book, e, plan.value);
      } else {
        var updated := StatusAfter(book.orders[n], e);
        if updated.Failure? {
          return Failure(updated.error);
        }
        book := book.(orders := book.orders[n := updated.value], events := book.events[e.id := e]);
      }
      return Success(());
    }

    method CancelOrder(n: nat) returns (r: Result<(), SecuritiesError>)
      requires Sound(book)
      modifies this
      ensures Sound(book) && Outcome(book, r) == OrderCancelled(old(book), n)
    {
      if n >= |book.orders| {
        return Failure(OrderNotFound);
      }
      var current := book.orders[n];
      if current.status != Open && current.status != PartiallyFilled {
        return Failure(InvalidOrderState);
      }
      CancelKeepsSound(book, n);
      book := book.(orders := book.orders[n := current.(status := Cancelled)]);
      return Success(());
    }

    /** Moves whole, unreserved, settled shares into the locked account. */
    method ReserveSettledShares(owner: Owner, quantity: Decimal) returns (r: Result<(), SecuritiesError>)
      requires Sound(book)
      modifies this
      ensures Sound(book) && Outcome(book, r) == Reserved(old(book), owner, quantity)
    {
      if quantity <= 0 || quantity % UNIT != 0 {
        return Failure(InvalidRequest);
      }
      if owner !in book.positions {
        return Failure(InsufficientPosition);
      }
      var available := Sub(book.positions[owner].quantity, ActiveTotal(book.reservations, owner));
      if available.Failure? || available.value < quantity {
        return Failure(InsufficientPosition);
      }
      if !book.Knows(owner) {
        return Failure(InvalidRequest);
      }
      var entries := LockEntries(book.accounts[owner], owner.symbol, quantity);
      var posted := ValidatePosting(entries);
      if posted.Failure? {
        return Failure(LedgerRejected);
      }
      ReserveKeepsSound(book, owner, quantity);
      book := book.(reservations := book.reservations + [Reservation(owner, quantity, true)], journal :=
        book.journal + entries);
      return Success(());
    }

    /** Posts the shares back once; a released reservation answers without a posting. */
    method ReleaseSettledShares(i: nat) returns (r: Result<(), SecuritiesError>)
      requires Sound(book)
      modifies this
      ensures Sound(book) && Outcome(book, r) == Released(old(book), i)
    {
      if i >= |book.reservations| || book.reservations[i].owner !in book.accounts {
        return Failure(InvalidRequest);
      }
      var row := book.reservations[i];
      if !row.active {
        return Success(());
      }
      var entries := ReleaseEntries(book.accounts[row.owner], row.owner.symbol, row.quantity);
      var posted := ValidatePosting(entries);
      if posted.Failure? {
        return Failure(LedgerRejected);
      }
      ReleaseKeepsSound(book, i);
      book := book.(reservations := book.reservations[i := row.(active := false)], journal := book.journal + entries);
      return Success(());
    }
  }
}
