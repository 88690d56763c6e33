/** Retried crypto requests and repeated provider events, at any later time: one effect, one answer. */
module CryptoReplays {
  import opened Results
  import opened Decimals
  import opened Entries
  import opened Crypto
  import opened CryptoRuns
  import opened Router
  import Ledger

  /** Answers given are never changed, and rows keep what they were asked for. */
  ghost predicate KeepsAnswers(b: Book, u: Book) {
    && (forall k | k in b.conversionKeys :: k in u.conversionKeys && u.conversionKeys[k] == b.conversionKeys[k])
    && (forall k | k in b.withdrawalKeys :: k in u.withdrawalKeys && u.withdrawalKeys[k] == b.withdrawalKeys[k])
    && (forall id | id in b.events :: id in u.events && u.events[id] == b.events[id])
    && SameAccounts(b, u)
  }

  /** The answers given are the same. */
  ghost predicate SameAnswers(b: Book, u: Book) {
    u.conversionKeys == b.conversionKeys && u.withdrawalKeys == b.withdrawalKeys && SameAccounts(b, u)
  }

  lemma SellKeepsAnswers(b: Book, i: nat, r: Route, flagged: bool)
    ensures var u := SellFinalized(b, i, r, flagged).book; SameAnswers(b, u) && u.events == b.events
  {
  }

  lemma SaleKeepsAnswers(b: Book, i: nat, rate: Decimal, venues: Candidates, flagged: bool)
    ensures var u := SaleSettled(b, i, rate, venues, flagged).book; SameAnswers(b, u) && u.events == b.events
  {
    if i < |b.conversions| {
      var route := SaleRoute(b.conversions[i].source, b.conversions[i].amount, rate, venues);
      if route.Success? {
        SellKeepsAnswers(b, i, route.value, flagged);
      }
    }
  }

  lemma PurchaseKeepsAnswers(b: Book, i: nat, rate: Decimal, venues: Candidates)
    ensures var u := PurchaseSettled(b, i, rate, venues).book; SameAnswers(b, u) && u.events == b.events
  {
  }

  lemma SettlingKeepsAnswers(b: Book, s: Step)
    requires s.SettleSale? || s.SettlePurchase? || s.Elsewhere?
    ensures SameAnswers(b, After(b, s)) && After(b, s).events == b.events
  {
    match s
    case SettleSale(i, rate, venues, flagged) => SaleKeepsAnswers(b, i, rate, venues, flagged);
    case SettlePurchase(i, rate, venues) => PurchaseKeepsAnswers(b, i, rate, venues);
    case _ =>
  }

  lemma TransitionKeepsAnswers(b: Book, w: nat, kind: EventType)
    requires w < |b.withdrawals| && Transitioned(b, w, kind).Success?
    ensures SameAnswers(b, Transitioned(b, w, kind).value)
  {
  }

  lemma EventKeepsAnswers(b: Book, id: string, e: EventRow)
    ensures var u := EventApplied(b, id, e).book;
            SameAnswers(b, u) && (u.events == b.events || (id !in b.events && u.events == b.events[id := e]))
  {
    if e.withdrawal < |b.withdrawals| && Transitioned(b, e.withdrawal, e.kind).Success? {
      TransitionKeepsAnswers(b, e.withdrawal, e.kind);
    }
  }

  lemma RequestKeepsAnswers(b: Book, s: Step)
    requires s.ReserveConversion? || s.RequestWithdrawal?
    ensures KeepsAnswers(b, After(b, s))
  {
    match s
    case ReserveConversion(c) => ConversionKeepsAnswers(b, c);
    case RequestWithdrawal(c) => WithdrawalKeepsAnswers(b, c);
  }

  lemma ConversionKeepsAnswers(b: Book, c: ConvertCommand)
    ensures KeepsAnswers(b, ConversionReserved(b, c).book)
  {
  }

  lemma WithdrawalKeepsAnswers(b: Book, c: WithdrawCommand)
    ensures KeepsAnswers(b, WithdrawalRequested(b, c).book)
  {
  }

  lemma StepKeepsAnswers(b: Book, s: Step)
    ensures KeepsAnswers(b, After(b, s))
  {
    if s.ApplyEvent? {
      EventKeepsAnswers(b, s.id, s.event);
    } else if s.ReserveConversion? || s.RequestWithdrawal? {
      RequestKeepsAnswers(b, s);
    } else {
      SettlingKeepsAnswers(b, s);
    }
  }

  lemma {:induction false} RunKeepsAnswers(b: Book, steps: seq<Step>)
    ensures KeepsAnswers(b, Run(b, steps))
  {
    if steps != [] {
      RunKeepsAnswers(b, steps[..|steps| - 1]);
      StepKeepsAnswers(Run(b, steps[..|steps| - 1]), steps[|steps| - 1]);
    }
  }

  /** A conversion that was started is found again by its command ever after; the key with other data is a conflict. */
  lemma RepeatedConversionFindsTheFirst(b: Book, c: ConvertCommand, steps: seq<Step>, other: ConvertCommand)
    requires ConversionReserved(b, c).result.Success?
    ensures var id := ConversionReserved(b, c).result.value;
            var later := Run(ConversionReserved(b, c).book, steps);
            && ConversionReserved(later, c) == Outcome(later, Success(id))
            && (other != c && other.customer == c.customer && other.key == c.key ==>
                 ConversionReserved(later, other).result.Failure? && ConversionReserved(later, other).book == later)
  {
    RunKeepsAnswers(ConversionReserved(b, c).book, steps);
  }

  /** The same for withdrawals. */
  lemma RepeatedWithdrawalFindsTheFirst(b: Book, c: WithdrawCommand, steps: seq<Step>, other: WithdrawCommand)
    requires WithdrawalRequested(b, c).result.Success?
    ensures var id := WithdrawalRequested(b, c).result.value;
            var later := Run(WithdrawalRequested(b, c).book, steps);
            && WithdrawalRequested(later, c) == Outcome(later, Success(id))
            && (other != c && other.customer == c.customer && other.key == c.key ==>
                 WithdrawalRequested(later, other).result.Failure? && WithdrawalRequested(later, other).book == later)
  {
    RunKeepsAnswers(WithdrawalRequested(b, c).book, steps);
  }

  /** A provider event that took effect is accepted ever after without effect, and its identity cannot be used again. */
  lemma EventTakesEffectOnce(b: Book, id: string, e: EventRow, steps: seq<Step>, other: EventRow)
    requires EventApplied(b, id, e).result.Success?
    ensures var later := Run(EventApplied(b, id, e).book, steps);
            && EventApplied(later, id, e) == Outcome(later, Success(()))
            && (other != e && other.payload != [] ==>
                 EventApplied(later, id, other) == Outcome(later, Failure(EventConflict)))
  {
    RunKeepsAnswers(EventApplied(b, id, e).book, steps);
  }
}
