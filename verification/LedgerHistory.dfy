/** What every history of postings and reversals keeps. */
module LedgerHistory {
  import opened Results
  import opened Decimals
  import opened Entries
  import opened Ledger

  /** A step of a history: an account opened or a command executed. */
  datatype Step = Open(currency: Currency) | Execute(command: Command)

  ghost function After(t: Tables, step: Step): Tables {
    match step
    case Open(currency) => if ValidCurrency(currency) then t.(accounts := t.accounts + [currency]) else t
    case Execute(command) => Executed(t, command).0
  }

  ghost function Run(t: Tables, steps: seq<Step>): Tables {
    if steps == [] then t else After(Run(t, steps[..|steps| - 1]), steps[|steps| - 1])
  }

  const EMPTY := Tables([], [], map[], map[], map[])

  // ---- The invariant ----

  /** The row's transaction is exactly what its fingerprint asked for. */
  ghost predicate Fulfils(t: Tables, row: RequestRow) {
    && row.id < |t.transactions|
    && var tx := t.transactions[row.id];
       var c := row.fingerprint;
       && c.policyVersion == tx.policyVersion && c.effectiveAt == tx.effectiveAt
       && (c.Posting? ==> c.kind == tx.kind && c.entries == tx.entries)
       && (c.Reversal? ==>
             && c.original in t.reversals && t.reversals[c.original] == row.id && tx.kind == "REVERSAL"
             && c.original < row.id && tx.entries == Reversed(t.transactions[c.original].entries))
  }

  /** Every transaction passed the posting check and refers to existing accounts. */
  ghost predicate Sound(t: Tables) {
    forall i | 0 <= i < |t.transactions| ::
      && Check(t.transactions[i].entries) == Success(())
      && forall j | 0 <= j < |t.transactions[i].entries| :: t.Knows(t.transactions[i].entries[j])
  }

  /** Request rows and transactions correspond one to one. */
  ghost predicate OncePerRequest(t: Tables) {
    && (forall k | k in t.requests :: Fulfils(t, t.requests[k]))
    && (forall k, l | k in t.requests && l in t.requests :: t.requests[k].id == t.requests[l].id ==> k == l)
    && (forall i | 0 <= i < |t.transactions| :: HasRequest(t, i))
  }

  ghost predicate HasRequest(t: Tables, id: TransactionId) {
    exists k :: k in t.requests && t.requests[k].id == id
  }

  /** A provider event belongs to one transaction, whose own request carried that event. */
  ghost predicate OncePerEvent(t: Tables) {
    && (forall k | k in t.events :: t.events[k].id < |t.transactions|)
    && (forall k, l | k in t.events && l in t.events :: t.events[k].id == t.events[l].id ==> k == l)
    && (forall r | r in t.requests && t.requests[r].fingerprint.Posting? && t.requests[r].fingerprint.event.Some? ::
          var event := t.requests[r].fingerprint.event.value;
          event.Identity() in t.events && t.events[event.Identity()] == EventRow(event.payload, t.requests[r].id))
  }

  /** Reversals point forward, no transaction reverses two, and a reversal carries the opposite entries. */
  ghost predicate ChainsForward(t: Tables) {
    && (forall o | o in t.reversals ::
          o < t.reversals[o] < |t.transactions|
          && t.transactions[t.reversals[o]].entries == Reversed(t.transactions[o].entries))
    && (forall o, p | o in t.reversals && p in t.reversals :: t.reversals[o] == t.reversals[p] ==> o == p)
  }

  ghost predicate Valid(t: Tables) {
    Sound(t) && OncePerRequest(t) && OncePerEvent(t) && ChainsForward(t)
  }

  /** Opposite entries pass the check whenever the original ones do. */
  lemma ReversedPassesCheck(es: seq<Entry>)
    requires Check(es) == Success(())
    ensures Check(Reversed(es)) == Success(())
  {
    forall c ensures CurrencyTotal(Reversed(es), c) == 0 {
      ReversedNegates(es, Key(0, c, Held), c);
      assert CurrencyTotal(es, c) == 0;
    }
    forall c, d: Direction ensures -LIMIT < Gross(Reversed(es), c, d) < LIMIT {
      ReversedNegates(es, Key(0, c, Held), c);
      assert -LIMIT < Gross(es, c, Opposite(d)) < LIMIT;
    }
    forall i | 0 <= i < |es| ensures Reversed(es)[i].Valid() {
      assert es[i].Valid();
    }
  }

  /** What holds when a command is recorded. */
  ghost predicate Recordable(t: Tables, c: Command) {
    && (c.scope, c.key) !in t.requests
    && (c.Posting? && c.event.Some? ==> c.event.value.Identity() !in t.events)
    && (c.Reversal? ==> c.original < |t.transactions| && c.original !in t.reversals)
    && Check(Asked(t, c).entries) == Success(())
    && t.Accepts(c.policyVersion, Asked(t, c).entries)
  }

  /** A command either changes nothing, or is recordable and recorded. */
  lemma CommandEffect(t: Tables, c: Command)
    requires Sound(t)
    ensures Executed(t, c).0 == t || (Recordable(t, c) && Executed(t, c) == Recorded(t, c))
    ensures Executed(t, c).1.Success? && !Executed(t, c).1.value.replayed ==>
              Recordable(t, c) && Executed(t, c) == Recorded(t, c)
  {
    if c.Reversal? && c.original < |t.transactions| {
      ReversedPassesCheck(t.transactions[c.original].entries);
    }
  }

  lemma RecordingKeepsSound(t: Tables, c: Command)
    requires Sound(t) && Recordable(t, c)
    ensures Sound(Recorded(t, c).0)
  {
  }

  lemma RecordingKeepsOncePerRequest(t: Tables, c: Command)
    requires OncePerRequest(t) && Recordable(t, c)
    ensures OncePerRequest(Recorded(t, c).0)
  {
    var after := Recorded(t, c).0;
    var n := |t.transactions|;
    assert after.requests[(c.scope, c.key)].id == n;
    forall i | 0 <= i < |after.transactions| ensures HasRequest(after, i) {
      if i < n {
        assert HasRequest(t, i);
        var k :| k in t.requests && t.requests[k].id == i;
        assert k in after.requests && after.requests[k].id == i;
      }
    }
    forall k | k in after.requests ensures Fulfils(after, after.requests[k]) {
      if k != (c.scope, c.key) {
        assert Fulfils(t, t.requests[k]);
      }
    }
    forall k, l | k in after.requests && l in after.requests && after.requests[k].id == after.requests[l].id
      ensures k == l
    {
      assert k in t.requests ==> Fulfils(t, t.requests[k]);
      assert l in t.requests ==> Fulfils(t, t.requests[l]);
    }
  }

  lemma RecordingKeepsOncePerEvent(t: Tables, c: Command)
    requires OncePerRequest(t) && OncePerEvent(t) && Recordable(t, c)
    ensures OncePerEvent(Recorded(t, c).0)
  {
    var after := Recorded(t, c).0;
    forall r | r in after.requests && after.requests[r].fingerprint.Posting?
        && after.requests[r].fingerprint.event.Some?
      ensures var event := after.requests[r].fingerprint.event.value;
              event.Identity() in after.events
                && after.events[event.Identity()] == EventRow(event.payload, after.requests[r].id)
    {
      if r != (c.scope, c.key) {
        assert t.requests[r].fingerprint.event.value.Identity() in t.events;
      }
    }
  }

  lemma RecordingKeepsChains(t: Tables, c: Command)
    requires ChainsForward(t) && Recordable(t, c)
    ensures ChainsForward(Recorded(t, c).0)
  {
  }

  lemma StepKeepsValid(t: Tables, step: Step)
    requires Valid(t)
    ensures Valid(After(t, step))
  {
    match step
    case Open(_) =>
      var after := After(t, step);
      forall k | k in after.requests ensures Fulfils(after, after.requests[k]) {
        assert Fulfils(t, t.requests[k]);
      }
      forall i | 0 <= i < |t.transactions| ensures HasRequest(after, i) {
        assert HasRequest(t, i);
      }
    case Execute(c) =>
      CommandEffect(t, c);
      if Executed(t, c).0 != t {
        RecordingKeepsSound(t, c);
        RecordingKeepsOncePerRequest(t, c);
        RecordingKeepsOncePerEvent(t, c);
        RecordingKeepsChains(t, c);
      }
  }

  lemma StepExtends(t: Tables, step: Step)
    requires Valid(t)
    ensures Extends(t, After(t, step))
  {
    if step.Execute? {
      CommandEffect(t, step.command);
    }
  }

  /** Every history keeps the tables valid and only ever adds to them. */
  lemma {:induction false} HistoryIsValid(t: Tables, steps: seq<Step>)
    requires Valid(t)
    ensures Valid(Run(t, steps))
    ensures Extends(t, Run(t, steps))
  {
    if steps != [] {
      HistoryIsValid(t, steps[..|steps| - 1]);
      StepKeepsValid(Run(t, steps[..|steps| - 1]), steps[|steps| - 1]);
      StepExtends(Run(t, steps[..|steps| - 1]), steps[|steps| - 1]);
    }
  }

  /** Nothing recorded is ever changed or removed. */
  ghost predicate Extends(t: Tables, u: Tables) {
    && t.accounts <= u.accounts && t.transactions <= u.transactions
    && (forall k | k in t.requests :: k in u.requests && u.requests[k] == t.requests[k])
    && (forall k | k in t.events :: k in u.events && u.events[k] == t.events[k])
    && (forall k | k in t.reversals :: k in u.reversals && u.reversals[k] == t.reversals[k])
  }

  // ---- Exactly once ----

  lemma FirstSuccessPersists(t: Tables, c: Command, steps: seq<Step>)
    requires Valid(t) && Executed(t, c).1.Success? && !Executed(t, c).1.value.replayed
    ensures var (first, r) := Executed(t, c);
            var later := Run(first, steps);
            && Valid(later)
            && (c.scope, c.key) in later.requests
            && later.requests[(c.scope, c.key)] == RequestRow(c.Fingerprint(), r.value.id)
            && (c.Posting? && c.event.Some? ==>
                  c.event.value.Identity() in later.events
                  && later.events[c.event.value.Identity()] == EventRow(c.event.value.payload, r.value.id))
    ensures c.ValidMetadata()
    ensures c.Posting? ==> Check(c.entries).Success? && (c.event.Some? ==> c.event.value.Valid())
  {
    CommandEffect(t, c);
    StepKeepsValid(t, Execute(c));
    HistoryIsValid(Executed(t, c).0, steps);
    assert (c.scope, c.key) in Executed(t, c).0.requests;
    assert c.Posting? && c.event.Some? ==> c.event.value.Identity() in Executed(t, c).0.events;
  }

  /** A command that succeeded keeps returning the same transaction, and repeating it changes nothing. */
  lemma RetryReturnsTheOriginal(t: Tables, c: Command, steps: seq<Step>)
    requires Valid(t) && Executed(t, c).1.Success? && !Executed(t, c).1.value.replayed
    ensures var first := Executed(t, c);
            var later := Run(first.0, steps);
            Executed(later, c) == (later, Success(Receipt(first.1.value.id, true)))
  {
    FirstSuccessPersists(t, c, steps);
  }

  /** Reusing a key for different data is refused for ever after, without a trace. */
  lemma ConflictChangesNothing(t: Tables, c: Command, other: Command, steps: seq<Step>)
    requires Valid(t) && Executed(t, c).1.Success? && !Executed(t, c).1.value.replayed
    requires (other.scope, other.key) == (c.scope, c.key) && other.Fingerprint() != c.Fingerprint()
    requires other.ValidMetadata()
    requires other.Posting? ==> Check(other.entries).Success? && (other.event.Some? ==> other.event.value.Valid())
    ensures var later := Run(Executed(t, c).0, steps);
            Executed(later, other) == Refused(later, IdempotencyConflict)
  {
    FirstSuccessPersists(t, c, steps);
  }

  /** A provider event delivered again under a fresh key finds its transaction and leaves no request row behind. */
  lemma EventReplayLeavesNoTrace(t: Tables, c: Command, again: Command, steps: seq<Step>)
    requires Valid(t) && c.Posting? && c.event.Some?
    requires Executed(t, c).1.Success? && !Executed(t, c).1.value.replayed
    requires again.Posting? && again.event == c.event && again.ValidMetadata() && Check(again.entries).Success?
    requires (again.scope, again.key) !in Run(Executed(t, c).0, steps).requests
    ensures var first := Executed(t, c);
            var later := Run(first.0, steps);
            Executed(later, again) == (later, Success(Receipt(first.1.value.id, true)))
  {
    FirstSuccessPersists(t, c, steps);
  }

  /** The tables grow exactly when a command succeeds for the first time, and then by one transaction. */
  lemma GrowsExactlyOnFirstSuccess(t: Tables, c: Command)
    requires Valid(t)
    ensures var (after, r) := Executed(t, c);
            && (after != t <==> r.Success? && !r.value.replayed)
            && (after != t ==> |after.transactions| == |t.transactions| + 1 && r.value.id == |t.transactions|)
            && (r.Success? ==> r.value.id < |after.transactions|)
            && (r.Success? && r.value.replayed ==> r.value.id < |t.transactions|)
  {
    if (c.scope, c.key) in t.requests {
      assert Fulfils(t, t.requests[(c.scope, c.key)]);
    }
  }

  // ---- Zero sum ----

  lemma {:induction false} GrossOfAll(ts: seq<Transaction>, c: Currency)
    requires forall i | 0 <= i < |ts| :: Check(ts[i].entries).Success?
    ensures CurrencyTotal(AllEntries(ts), c) == 0
  {
    if ts != [] {
      var n := |ts| - 1;
      GrossOfAll(ts[..n], c);
      GrossOfConcat(AllEntries(ts[..n]), ts[n].entries, c, Debit);
      GrossOfConcat(AllEntries(ts[..n]), ts[n].entries, c, Credit);
      assert Check(ts[n].entries).Success? && CurrencyTotal(ts[n].entries, c) == 0;
    }
  }

  function SumOfBalances(es: seq<Entry>, keys: seq<Key>): int {
    if keys == [] then 0 else SumOfBalances(es, keys[..|keys| - 1]) + Balance(es, keys[|keys| - 1])
  }

  ghost predicate Distinct(keys: seq<Key>) {
    forall i, j | 0 <= i < j < |keys| :: keys[i] != keys[j]
  }

  lemma {:induction false} SumOfNewEntry(es: seq<Entry>, e: Entry, keys: seq<Key>)
    requires Distinct(keys)
    ensures SumOfBalances(es + [e], keys) == SumOfBalances(es, keys) + if e.Place() in keys then e.Signed() else 0
  {
    if keys != [] {
      var n := |keys| - 1;
      SumOfNewEntry(es, e, keys[..n]);
      assert (es + [e])[..|es|] == es;
    }
  }

  lemma {:induction false} SumOfNothing(keys: seq<Key>)
    ensures SumOfBalances([], keys) == 0
  {
    if keys != [] {
      SumOfNothing(keys[..|keys| - 1]);
    }
  }

  /** Balances over distinct keys that cover a currency add up to its debits minus its credits. */
  lemma {:induction false} BalancesAddUp(es: seq<Entry>, c: Currency, keys: seq<Key>)
    requires Distinct(keys) && (forall i | 0 <= i < |keys| :: keys[i].currency == c)
    requires forall i | 0 <= i < |es| && es[i].currency == c :: es[i].Place() in keys
    ensures SumOfBalances(es, keys) == CurrencyTotal(es, c)
  {
    if es == [] {
      SumOfNothing(keys);
    } else {
      var n := |es| - 1;
      BalancesAddUp(es[..n], c, keys);
      SumOfNewEntry(es[..n], es[n], keys);
      assert es[..n] + [es[n]] == es;
    }
  }

  /** After any history the debit balances of a currency, over all its accounts and dimensions, sum to zero. */
  lemma ZeroSum(steps: seq<Step>, c: Currency, keys: seq<Key>)
    requires Distinct(keys) && (forall i | 0 <= i < |keys| :: keys[i].currency == c)
    requires var es := Run(EMPTY, steps).History(); forall i | 0 <= i < |es| && es[i].currency == c ::
             es[i].Place() in keys
    ensures SumOfBalances(Run(EMPTY, steps).History(), keys) == 0
  {
    HistoryIsValid(EMPTY, steps);
    GrossOfAll(Run(EMPTY, steps).transactions, c);
    BalancesAddUp(Run(EMPTY, steps).History(), c, keys);
  }

  // ---- Zero sum per dimension ----

  ghost predicate AllPerDimension(ts: seq<Transaction>) {
    forall i | 0 <= i < |ts| :: BalancedPerDimension(ts[i].entries)
  }

  /** Every posting of the history balances each dimension on its own. */
  ghost predicate PostsPerDimension(steps: seq<Step>) {
    forall i | 0 <= i < |steps| && steps[i].Execute? && steps[i].command.Posting? ::
      BalancedPerDimension(steps[i].command.entries)
  }

  lemma {:induction false} DimensionTotalOfAll(ts: seq<Transaction>, c: Currency, d: Dimension)
    requires AllPerDimension(ts)
    ensures DimensionTotal(AllEntries(ts), c, d) == 0
  {
    if ts != [] {
      var n := |ts| - 1;
      DimensionTotalOfAll(ts[..n], c, d);
      DimensionTotalOfConcat(AllEntries(ts[..n]), ts[n].entries, c, d);
      assert BalancedPerDimension(ts[n].entries);
    }
  }

  lemma RecordingKeepsPerDimension(t: Tables, command: Command)
    requires AllPerDimension(t.transactions) && Recordable(t, command)
    requires command.Posting? ==> BalancedPerDimension(command.entries)
    ensures AllPerDimension(Recorded(t, command).0.transactions)
  {
    if command.Reversal? {
      var es := t.transactions[command.original].entries;
      forall c, d ensures DimensionTotal(Reversed(es), c, d) == 0 {
        ReversedNegatesDimension(es, c, d);
        assert BalancedPerDimension(es);
      }
    }
  }

  lemma {:induction false} HistoryPerDimension(steps: seq<Step>)
    requires PostsPerDimension(steps)
    ensures AllPerDimension(Run(EMPTY, steps).transactions)
  {
    if steps != [] {
      var n := |steps| - 1;
      HistoryPerDimension(steps[..n]);
      HistoryIsValid(EMPTY, steps[..n]);
      var before := Run(EMPTY, steps[..n]);
      if steps[n].Execute? {
        CommandEffect(before, steps[n].command);
        if After(before, steps[n]) != before {
          RecordingKeepsPerDimension(before, steps[n].command);
        }
      }
    }
  }

  /** When every posting balances each dimension, so does the ledger, through any number of reversals. */
  lemma ZeroSumPerDimension(steps: seq<Step>, c: Currency, d: Dimension)
    requires PostsPerDimension(steps)
    ensures DimensionTotal(Run(EMPTY, steps).History(), c, d) == 0
  {
    HistoryPerDimension(steps);
    DimensionTotalOfAll(Run(EMPTY, steps).transactions, c, d);
  }
}
