/** Conversions and withdrawals as they run: staged transactions that a retry can resume at any stage. */
module CryptoService {
  import opened Results
  import opened Decimals
  import opened Entries
  import opened Crypto
  import opened CryptoRuns
  import Ledger
  import opened Router

  class Service {
    var book: Book

    constructor (start: Book)
      ensures book == start
    {
      book := start;
    }

    /** The reservation of a conversion or a withdrawal: enough funds, then the entries, appended kind by kind. */
    method ReserveSource(c: Customer, a: Asset, amount: Decimal) returns (r: Result<seq<Entry>, CryptoError>)
      requires book.Knows(c, a)
      ensures r == if ReserveRefusal(book, c, a, amount).Some? then Failure(ReserveRefusal(book, c, a, amount).value)
                   else if Check(ReserveEntries(book, c, a, amount)).Failure? then Failure(LedgerRejected)
                   else Success(ReserveEntries(book, c, a, amount))
    {
      var entries: seq<Entry> := [];
      var settled := ReadBalance(book, Key(Holder(book, c, a), a, Settled));
      if settled.Failure? {
        return Failure(Arithmetic);
      }
      if a == USD {
        var withdrawable := ReadBalance(book, Key(book.cash[c], USD, Withdrawable));
        if withdrawable.Failure? {
          return Failure(Arithmetic);
        }
        if settled.value < amount || withdrawable.value < amount {
          return Failure(InsufficientCash);
        }
        entries := entries + Pair(book.cash[c], book.usd.routing, USD, Settled, Credit, amount);
        entries := entries + Pair(book.cash[c], book.usd.routing, USD, Withdrawable, Credit, amount);
        entries := entries + Pair(book.cash[c], book.usd.routing, USD, Held, Debit, amount);
      } else {
        if settled.value < amount {
          return Failure(InsufficientAsset);
        }
        var accounts := book.assets[(c, a)];
        entries := entries + Pair(accounts.customer, accounts.inventory, a, Settled, Credit, amount);
        entries := entries + Pair(accounts.customer, accounts.inventory, a, Held, Debit, amount);
      }
      assert entries == ReserveEntries(book, c, a, amount);
      var posted := ValidatePosting(entries);
      return if posted.Success? then Success(entries) else Failure(LedgerRejected);
    }

    method ReserveConversion(c: ConvertCommand) returns (r: Result<nat, CryptoError>)
      modifies this
      ensures Outcome(book, r) == ConversionReserved(old(book), c)
    {
      if !ValidConversion(c) || !book.Knows(c.customer, c.source) || !book.Knows(c.customer, c.destination) {
        return Failure(CryptoError.InvalidCommand);
      }
      var key := (c.customer, c.key);
      if key in book.conversionKeys {
        var (request, existing) := book.conversionKeys[key];
        return if request == c then Success(existing) else Failure(CryptoError.IdempotencyConflict);
      }
      var entries := ReserveSource(c.customer, c.source, c.amount);
      if entries.Failure? {
        return Failure(entries.error);
      }
      var id := |book.conversions|;
      book := book.(
      conversions := book.conversions + [Conversion(c.customer, c.source, c.destination, c.amount, Routing)],
      conversionKeys := book.conversionKeys[key := (c, id)],
      postings := book.postings + [entries.value]);
      return Success(id);
    }

    /** Whether each posting of a leg passes the ledger's check. */
    method CheckPostings(ps: seq<seq<Entry>>) returns (ok: bool)
      ensures ok <==> AllPass(ps)
    {
      for i := 0 to |ps|
        invariant forall j | 0 <= j < i :: Check(ps[j]).Success?
      {
        var checked := ValidatePosting(ps[i]);
        if checked.Failure? {
          return false;
        }
      }
      return true;
    }

    /** The loop over a conversion's legs, looking for one of a sequence. */
    method FindSequence(i: nat, sequence: int) returns (found: bool)
      ensures found <==> HasLeg(book, i, sequence)
    {
      for l := 0 to |book.legs|
        invariant !exists m :: 0 <= m < l && book.legs[m].conversion == i && book.legs[m].sequence == sequence
      {
        if book.legs[l].conversion == i && book.legs[l].sequence == sequence {
          return true;
        }
      }
      return false;
    }

    method FinalizeSellLeg(i: nat, route: Route, flagged: bool) returns (r: Result<bool, CryptoError>)
      requires Sound(book)
      modifies this
      ensures Sound(book) && Outcome(book, r) == SellFinalized(old(book), i, route, flagged)
    {
      SellStepKeepsSound(book, i, route, flagged);
      if i >= |book.conversions| || !book.Knows(book.conversions[i].customer, book.conversions[i].source)
        || book.conversions[i].source == USD {
        return Failure(NotFound);
      }
      var current := book.conversions[i];
      if current.status != Routing {
        return Success(true);
      }
      var settled := AnyLeg(i);
      if settled {
        return Success(false);
      }
      var review := flagged && route.filled > 0;
      var postings := SellPostings(book, current, route, review);
      var posted := CheckPostings(postings);
      if !posted {
        return Failure(LedgerRejected);
      }
      if !StoredLegs(SellLegs(i, current, route, review)) {
        return Failure(RowRejected);
      }
      book := WithSell(book, i, route, review);
      return Success(book.conversions[i].status != Routing);
    }

    method AnyLeg(i: nat) returns (found: bool)
      ensures found <==> exists l :: 0 <= l < |book.legs| && book.legs[l].conversion == i
    {
      for l := 0 to |book.legs|
        invariant !exists m :: 0 <= m < l && book.legs[m].conversion == i
      {
        if book.legs[l].conversion == i {
          return true;
        }
      }
      return false;
    }

    method FinalizeBuyLeg(i: nat, route: Route) returns (r: Result<(), CryptoError>)
      requires Sound(book) && (i < |book.conversions| ==> route.asset == book.conversions[i].destination)
      modifies this
      ensures Sound(book) && Outcome(book, r) == BuyFinalized(old(book), i, route)
    {
      BuyStepKeepsSound(book, i, route);
      if i >= |book.conversions| || !book.Knows(book.conversions[i].customer, book.conversions[i].source)
        || route.asset == USD || (book.conversions[i].customer, route.asset) !in book.assets {
        return Failure(NotFound);
      }
      var current := book.conversions[i];
      if current.source != USD {
        var sold := FindSequence(i, 1);
        if !sold {
          return Failure(InvalidState);
        }
      }
      var done := FindSequence(i, BuySequence(current));
      if current.status != Routing || done {
        return Success(());
      }
      var postings := BuyPostings(book, current, route);
      var posted := CheckPostings(postings);
      if !posted {
        return Failure(LedgerRejected);
      }
      if !StoredRoute(route) {
        return Failure(RowRejected);
      }
      book := WithBuy(book, i, route);
      return Success(());
    }

    /** Routes and settles the sale of a conversion whose first leg is missing. */
    method SettleSale(i: nat, rate: Decimal, venues: Candidates, flagged: bool)
      returns (r: Result<bool, CryptoError>, ghost steps: seq<Step>)
      requires Sound(book) && i < |book.conversions|
      modifies this
      ensures Sound(book) && Leads(old(book), steps, book) && SameConversions(old(book), book)
      ensures r.Success? && r.value ==> !book.conversions[i].status.Routing?
    {
      steps := [Step.SettleSale(i, rate, venues, flagged)];
      OneStep(book, steps[0]);
      var route := Sell(book.conversions[i].source, book.conversions[i].amount, rate, venues);
      if route.Failure? {
        return Failure(RoutingFailed), steps;
      }
      SellOutcome(book, i, route.value, flagged);
      r := FinalizeSellLeg(i, route.value, flagged);
    }

    /** Routes and settles the purchase of a conversion, paid from its reservation or from the proceeds of its sale. */
    method SettlePurchase(i: nat, rate: Decimal, venues: Candidates)
      returns (r: Result<(), CryptoError>, ghost steps: seq<Step>)
      requires Sound(book) && i < |book.conversions|
      modifies this
      ensures Sound(book) && Leads(old(book), steps, book) && SameConversions(old(book), book)
      ensures r.Success? ==> !book.conversions[i].status.Routing?
    {
      steps := [Step.SettlePurchase(i, rate, venues)];
      OneStep(book, steps[0]);
      var x := book.conversions[i];
      var budget := x.amount;
      if x.source != USD {
        var sold := FindSequence(i, 1);
        if !sold {
          return Failure(InvalidState), steps;
        }
        budget := LegAt(book, i, 1).route.final;
      }
      var route := Buy(x.destination, budget, rate, venues);
      if route.Failure? {
        return Failure(RoutingFailed), steps;
      }
      PurchaseIsFair(x.destination, budget, rate, venues, route.value);
      BuyOutcome(book, i, route.value);
      r := FinalizeBuyLeg(i, route.value);
    }

    /**
     The whole conversion: reserve or resume, then route and settle whichever legs are missing; what the venues quote
     and answer is given. Success means the conversion is finished, whatever stage an earlier call had reached.
     */
    method Convert(c: ConvertCommand, rate: Decimal, sellers: Candidates, flagged: bool, buyers: Candidates)
      returns (r: Result<ConversionStatus, CryptoError>, ghost steps: seq<Step>)
      requires Sound(book)
      modifies this
      ensures Sound(book) && Leads(old(book), steps, book)
      ensures r.Success? ==> r.value != Routing
    {
      ghost var before := book;
      ReserveStepKeepsSound(book, c);
      var reserved := ReserveConversion(c);
      steps := [Step.ReserveConversion(c)];
      RunStep(before, [], steps[0]);
      if reserved.Failure? {
        return Failure(reserved.error), steps;
      }
      var i := reserved.value;
      if i >= |book.conversions| {
        return Failure(NotFound), steps;
      }
      ghost var more;
      ghost var start := book;
      r, more := Resume(i, rate, sellers, flagged, buyers);
      LeadsOn(before, steps, start, more, book);
      steps := steps + more;
    }

    method Resume(i: nat, rate: Decimal, sellers: Candidates, flagged: bool, buyers: Candidates)
      returns (r: Result<ConversionStatus, CryptoError>, ghost steps: seq<Step>)
      requires Sound(book) && i < |book.conversions|
      modifies this
      ensures Sound(book) && Leads(old(book), steps, book)
      ensures r.Success? ==> r.value != Routing
    {
      ghost var before := book;
      steps := [];
      var x := book.conversions[i];
      if x.status != Routing {
        return Success(x.status), steps;
      }
      var sold := AnyLeg(i);
      if x.source != USD && !sold {
        var finished;
        finished, steps := SettleSale(i, rate, sellers, flagged);
        if finished.Failure? {
          return Failure(finished.error), steps;
        }
        if finished.value {
          return Success(book.conversions[i].status), steps;
        }
      }
      if x.destination == USD {
        return if book.conversions[i].status != Routing then Success(book.conversions[i].status)
          else Failure(InvalidState), steps;
      }
      ghost var start := book;
      ghost var more;
      var bought;
      bought, more := SettlePurchase(i, rate, buyers);
      LeadsOn(before, steps, start, more, book);
      steps := steps + more;
      r := if bought.Success? then Success(book.conversions[i].status) else Failure(bought.error);
    }

    method RequestWithdrawal(c: WithdrawCommand) returns (r: Result<nat, CryptoError>)
      requires Sound(book)
      modifies this
      ensures Sound(book) && Outcome(book, r) == WithdrawalRequested(old(book), c)
    {
      RequestStepKeepsSound(book, c);
      if !Ledger.IsKey(c.key) || c.quantity <= 0 || c.asset == USD || !book.Knows(c.customer, c.asset) {
        return Failure(CryptoError.InvalidCommand);
      }
      var key := (c.customer, c.key);
      if key in book.withdrawalKeys {
        var (request, existing) := book.withdrawalKeys[key];
        return if request == c then Success(existing) else Failure(CryptoError.IdempotencyConflict);
      }
      var entries := ReserveSource(c.customer, c.asset, c.quantity);
      if entries.Failure? {
        return Failure(entries.error);
      }
      var id := |book.withdrawals|;
      var row := Withdrawal(c.customer, c.asset, c.quantity, Approved, |book.postings|, None, None, None);
      book := book.(withdrawals := book.withdrawals + [row], withdrawalKeys := book.withdrawalKeys[key := (c, id)],
        postings := book.postings + [entries.value]);
      return Success(id);
    }

    /** The status machine: an event succeeds exactly if the status takes it, and moves no other row or fund. */
    method TransitionWithdrawal(w: nat, kind: EventType) returns (r: Result<Book, CryptoError>)
      requires Sound(book) && w < |book.withdrawals|
      ensures r.Success? <==> Takes(book.withdrawals[w], kind)
      ensures r.Success? ==> Transitions(book, w, kind, r.value)
      ensures r == Transitioned(book, w, kind)
    {
      TakesDecides(book, w, kind);
      if Takes(book.withdrawals[w], kind) {
        TransitionEffect(book, w, kind);
      }
      var current := book.withdrawals[w];
      match kind {
        case BroadcastEvent =>
          if current.status != Approved {
            return Failure(InvalidState);
          }
          if (current.customer, current.asset) !in book.assets {
            return Failure(NotFound);
          }
          var checked := ValidatePosting(BroadcastEntries(book, current.customer, current.asset, current.quantity));
          if checked.Failure? {
            return Failure(LedgerRejected);
          }
          return Success(WithBroadcast(book, w));
        case ConfirmedEvent =>
          if current.status != Broadcast {
            return Failure(InvalidState);
          }
          return Success(WithConfirmation(book, w));
        case FailedEvent =>
          if current.status != Approved && current.status != Broadcast {
            return Failure(InvalidState);
          }
          if current.status == Broadcast && (current.broadcast == None || !Reversible(book, current.broadcast.value)) {
            return Failure(CryptoError.AlreadyReversed);
          }
          if !Reversible(book, current.reservation) {
            return Failure(CryptoError.AlreadyReversed);
          }
          return Success(WithFailure(book, w));
      }
    }

    method ApplyWithdrawalEvent(id: string, e: EventRow) returns (r: Result<(), CryptoError>)
      requires Sound(book)
      modifies this
      ensures Sound(book) && Outcome(book, r) == EventApplied(old(book), id, e)
    {
      EventKeepsSound(book, id, e);
      if id == "" || e.payload == [] {
        return Failure(CryptoError.InvalidCommand);
      }
      if id in book.events {
        return if book.events[id] == e then Success(()) else Failure(EventConflict);
      }
      if e.withdrawal >= |book.withdrawals| {
        return Failure(NotFound);
      }
      var next := TransitionWithdrawal(e.withdrawal, e.kind);
      if next.Failure? {
        return Failure(next.error);
      }
      book := next.value.(events := book.events[id := e]);
      return Success(());
    }
  }

  ghost predicate Leads(b: Book, steps: seq<Step>, u: Book) {
    Run(b, steps) == u
  }

  lemma {:induction false} LeadsOn(b: Book, steps: seq<Step>, u: Book, more: seq<Step>, v: Book)
    requires Leads(b, steps, u) && Leads(u, more, v)
    ensures Leads(b, steps + more, v)
  {
    if more == [] {
      assert steps + more == steps;
    } else {
      var n := |more| - 1;
      assert more == more[..n] + [more[n]];
      RunStep(u, more[..n], more[n]);
      LeadsOn(b, steps, u, more[..n], Run(u, more[..n]));
      RunStep(b, steps + more[..n], more[n]);
      assert steps + more[..n] + [more[n]] == steps + more;
    }
  }

  lemma OneStep(b: Book, s: Step)
    ensures Leads(b, [s], After(b, s))
  {
    RunStep(b, [], s);
    assert [] + [s] == [s];
  }

  lemma SellOutcome(b: Book, i: nat, r: Route, flagged: bool)
    requires i < |b.conversions|
    ensures var out := SellFinalized(b, i, r, flagged);
            SameConversions(b, out.book) && (out.result == Success(true) ==> !out.book.conversions[i].status.Routing?)
  {
  }

  /** A purchase that succeeds has finished its conversion, now or earlier. */
  lemma BuyOutcome(b: Book, i: nat, r: Route)
    requires i < |b.conversions| && LegsOnce(b) && r.asset == b.conversions[i].destination
    ensures var out := BuyFinalized(b, i, r);
            SameConversions(b, out.book) && (out.result.Success? ==> !out.book.conversions[i].status.Routing?)
  {
  }

  /** Conversions keep their identity and amounts. */
  ghost predicate SameConversions(b: Book, u: Book) {
    |u.conversions| == |b.conversions| && forall j | 0 <= j < |b.conversions| ::
      u.conversions[j] == b.conversions[j].(status := u.conversions[j].status)
  }
}
