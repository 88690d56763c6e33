/** Reversals of reversals: finite chains whose parity decides whether the first transaction still counts. */
module ReversalChains {
  import opened Results
  import opened Entries
  import opened Ledger
  import opened LedgerHistory

  /** How many reversals follow a transaction, one after the other. */
  function ChainLength(t: Tables, x: TransactionId): nat
    requires ForwardLinks(t)
    decreases |t.transactions| - x
  {
    if x in t.reversals then 1 + ChainLength(t, t.reversals[x]) else 0
  }

  /** The last transaction of the chain that passes through `x`. */
  function End(t: Tables, x: TransactionId): TransactionId
    requires ForwardLinks(t)
    decreases |t.transactions| - x
  {
    if x in t.reversals then End(t, t.reversals[x]) else x
  }

  /** The links alone, in a form functions can require. */
  predicate ForwardLinks(t: Tables) {
    && (forall o | o in t.reversals :: o < t.reversals[o] < |t.transactions|)
    && (forall o, p | o in t.reversals && p in t.reversals :: t.reversals[o] == t.reversals[p] ==> o == p)
  }

  predicate IsReversal(t: Tables, x: TransactionId) {
    exists o :: o in t.reversals && t.reversals[o] == x
  }

  /** The transaction the chain through `x` starts with, found by walking the links backwards. */
  ghost function Root(t: Tables, x: TransactionId): TransactionId
    requires ForwardLinks(t)
  {
    if IsReversal(t, x) then
      var o :| o in t.reversals && t.reversals[o] == x;
      Root(t, o)
    else x
  }

  lemma {:induction false} RootIsNotReversal(t: Tables, x: TransactionId)
    requires ForwardLinks(t)
    ensures !IsReversal(t, Root(t, x)) && Root(t, x) <= x
  {
    if IsReversal(t, x) {
      var o :| o in t.reversals && t.reversals[o] == x;
      RootIsNotReversal(t, o);
    }
  }

  lemma {:induction false} RootOfEnd(t: Tables, x: TransactionId)
    requires ForwardLinks(t)
    ensures Root(t, End(t, x)) == Root(t, x)
    decreases |t.transactions| - x
  {
    if x in t.reversals {
      RootOfEnd(t, t.reversals[x]);
      assert IsReversal(t, t.reversals[x]);
    }
  }

  lemma {:induction false} EndOfRoot(t: Tables, x: TransactionId)
    requires ForwardLinks(t)
    ensures End(t, Root(t, x)) == End(t, x)
  {
    if IsReversal(t, x) {
      var o :| o in t.reversals && t.reversals[o] == x;
      EndOfRoot(t, o);
    }
  }

  /** Along a chain the entries alternate in sign. */
  lemma {:induction false} EndBalance(t: Tables, x: TransactionId, k: Key)
    requires ForwardLinks(t) && ChainsForward(t) && x < |t.transactions|
    ensures End(t, x) < |t.transactions|
    ensures Balance(t.transactions[End(t, x)].entries, k) ==
            if ChainLength(t, x) % 2 == 0 then Balance(t.transactions[x].entries, k)
              else -Balance(t.transactions[x].entries, k)
    decreases |t.transactions| - x
  {
    if x in t.reversals {
      EndBalance(t, t.reversals[x], k);
      ReversedNegates(t.transactions[x].entries, k, "");
    }
  }

  /** Not itself a reversal, and reversed an even number of times over. */
  ghost predicate Stands(t: Tables, x: TransactionId)
    requires ForwardLinks(t)
  {
    !IsReversal(t, x) && ChainLength(t, x) % 2 == 0
  }

  ghost function Contribution(t: Tables, x: TransactionId, k: Key): int
    requires ForwardLinks(t) && x < |t.transactions|
  {
    if Stands(t, x) then Balance(t.transactions[x].entries, k) else 0
  }

  /** The entries of the standing transactions among the first `n`. */
  ghost function StandingBalance(t: Tables, n: nat, k: Key): int
    requires ForwardLinks(t) && n <= |t.transactions|
  {
    if n == 0 then 0 else StandingBalance(t, n - 1, k) + Contribution(t, n - 1, k)
  }

  /** Recording a command lengthens exactly the chains that end in the transaction it reverses. */
  lemma {:induction false} ChainAfter(t: Tables, c: Command, x: TransactionId)
    requires ForwardLinks(t) && Recordable(t, c) && x < |t.transactions| && ForwardLinks(Recorded(t, c).0)
    ensures ChainLength(Recorded(t, c).0, x) ==
            ChainLength(t, x) + if c.Reversal? && End(t, x) == c.original then 1 else 0
    decreases |t.transactions| - x
  {
    if x in t.reversals {
      ChainAfter(t, c, t.reversals[x]);
      assert Recorded(t, c).0.reversals[x] == t.reversals[x];
    }
  }

  lemma NewChain(t: Tables, c: Command)
    requires ForwardLinks(t) && Recordable(t, c) && ForwardLinks(Recorded(t, c).0)
    ensures ChainLength(Recorded(t, c).0, |t.transactions|) == 0
    ensures IsReversal(Recorded(t, c).0, |t.transactions|) <==> c.Reversal?
    ensures forall x | 0 <= x < |t.transactions| :: IsReversal(Recorded(t, c).0, x) == IsReversal(t, x)
  {
    var after := Recorded(t, c).0;
    forall x | 0 <= x < |t.transactions| ensures IsReversal(after, x) == IsReversal(t, x) {
      if IsReversal(t, x) {
        var o :| o in t.reversals && t.reversals[o] == x;
        assert o in after.reversals && after.reversals[o] == x;
      }
    }
    if c.Reversal? {
      assert c.original in after.reversals && after.reversals[c.original] == |t.transactions|;
    }
  }

  /** A chain that starts at `x` ends in `o` exactly when walking back from `o` leads to `x`. */
  lemma RootMeetsEnd(t: Tables, o: TransactionId, x: TransactionId)
    requires ForwardLinks(t) && o !in t.reversals && !IsReversal(t, x)
    ensures End(t, x) == o <==> Root(t, o) == x
  {
    RootOfEnd(t, x);
    EndOfRoot(t, o);
  }

  lemma ReversedEnd(t: Tables, o: TransactionId, x: TransactionId)
    requires ForwardLinks(t) && o !in t.reversals
    ensures !IsReversal(t, x) && End(t, x) == o <==> Root(t, o) == x
  {
    RootIsNotReversal(t, o);
    if !IsReversal(t, x) {
      RootMeetsEnd(t, o, x);
    }
  }

  /** Of the old transactions only the root of the reversed one changes standing. */
  lemma StandsAfter(t: Tables, c: Command, x: TransactionId)
    requires ForwardLinks(t) && Recordable(t, c) && x < |t.transactions| && ForwardLinks(Recorded(t, c).0)
    ensures Stands(Recorded(t, c).0, x) == (Stands(t, x) != (c.Reversal? && Root(t, c.original) == x))
  {
    ChainAfter(t, c, x);
    ReversalsStay(t, c, x);
    ParityFlips(ChainLength(t, x));
    if c.Reversal? {
      ReversedEnd(t, c.original, x);
    }
  }

  lemma ParityFlips(n: nat)
    ensures (n + 1) % 2 == 0 <==> n % 2 != 0
  {
  }

  lemma ReversalsStay(t: Tables, c: Command, x: TransactionId)
    requires ForwardLinks(t) && Recordable(t, c) && x < |t.transactions| && ForwardLinks(Recorded(t, c).0)
    ensures IsReversal(Recorded(t, c).0, x) == IsReversal(t, x)
  {
    NewChain(t, c);
  }

  /** The root of a chain's last transaction carries its entries, with the sign its own standing says. */
  lemma EndValue(t: Tables, o: TransactionId, k: Key)
    requires ForwardLinks(t) && ChainsForward(t) && o < |t.transactions| && o !in t.reversals
    ensures Root(t, o) < |t.transactions| && !IsReversal(t, Root(t, o))
    ensures Balance(t.transactions[o].entries, k) ==
            if Stands(t, Root(t, o)) then Balance(t.transactions[Root(t, o)].entries, k)
            else -Balance(t.transactions[Root(t, o)].entries, k)
  {
    RootIsNotReversal(t, o);
    EndOfRoot(t, o);
    EndBalance(t, Root(t, o), k);
  }

  lemma ContributionAfter(t: Tables, c: Command, x: TransactionId, k: Key)
    requires ForwardLinks(t) && ChainsForward(t) && Recordable(t, c) && x < |t.transactions|
    requires ForwardLinks(Recorded(t, c).0)
    ensures Contribution(Recorded(t, c).0, x, k) == Contribution(t, x, k) -
            if c.Reversal? && Root(t, c.original) == x then Balance(t.transactions[c.original].entries, k) else 0
  {
    StandsAfter(t, c, x);
    assert Recorded(t, c).0.transactions[x] == t.transactions[x];
    if c.Reversal? {
      EndValue(t, c.original, k);
    }
  }

  /** Changing one contribution changes the standing balance by as much. */
  lemma {:induction false} StandingShift(t: Tables, u: Tables, n: nat, k: Key, r: TransactionId, delta: int)
    requires ForwardLinks(t) && ForwardLinks(u) && n <= |t.transactions| && n <= |u.transactions|
    requires forall x: nat | x < n :: Contribution(u, x, k) == Contribution(t, x, k) - if x == r then delta else 0
    ensures StandingBalance(u, n, k) == StandingBalance(t, n, k) - if r < n then delta else 0
  {
    if n > 0 {
      StandingShift(t, u, n - 1, k, r, delta);
    }
  }

  lemma StandingAfter(t: Tables, c: Command, n: nat, k: Key)
    requires ForwardLinks(t) && ChainsForward(t) && Recordable(t, c) && n <= |t.transactions|
    requires ForwardLinks(Recorded(t, c).0)
    ensures StandingBalance(Recorded(t, c).0, n, k) == StandingBalance(t, n, k) -
            if c.Reversal? && Root(t, c.original) < n then Balance(t.transactions[c.original].entries, k) else 0
  {
    var u := Recorded(t, c).0;
    var r := if c.Reversal? then Root(t, c.original) else n;
    var delta := if c.Reversal? then Balance(t.transactions[c.original].entries, k) else 0;
    forall x: nat | x < n ensures Contribution(u, x, k) == Contribution(t, x, k) - if x == r then delta else 0 {
      ContributionAfter(t, c, x, k);
    }
    StandingShift(t, u, n, k, r, delta);
  }

  ghost predicate Agrees(t: Tables, k: Key) {
    && ForwardLinks(t)
    && Balance(t.History(), k) == StandingBalance(t, |t.transactions|, k)
  }

  lemma StepKeepsAgreement(t: Tables, step: Step, k: Key)
    requires Valid(t) && Agrees(t, k) && ForwardLinks(After(t, step))
    ensures Agrees(After(t, step), k)
  {
    if step.Open? {
      StandingIgnoresAccounts(t, After(t, step), |t.transactions|, k);
    } else {
      CommandEffect(t, step.command);
      if After(t, step) != t {
        RecordingKeepsStanding(t, step.command, k);
      }
    }
  }

  /** Every balance is that of the standing transactions alone, after every history. */
  lemma {:induction false} BalanceIsStanding(steps: seq<Step>, k: Key)
    ensures Agrees(Run(EMPTY, steps), k)
  {
    if steps != [] {
      BalanceIsStanding(steps[..|steps| - 1], k);
      HistoryIsValid(EMPTY, steps[..|steps| - 1]);
      HistoryIsValid(EMPTY, steps);
      LinksOfValid(Run(EMPTY, steps));
      StepKeepsAgreement(Run(EMPTY, steps[..|steps| - 1]), steps[|steps| - 1], k);
    }
  }

  lemma LinksOfValid(t: Tables)
    requires Valid(t)
    ensures ForwardLinks(t)
  {
  }

  lemma RecordingKeepsStanding(t: Tables, c: Command, k: Key)
    requires Valid(t) && ForwardLinks(t) && Recordable(t, c) && ForwardLinks(Recorded(t, c).0)
    requires Balance(t.History(), k) == StandingBalance(t, |t.transactions|, k)
    ensures var after := Recorded(t, c).0;
            Balance(after.History(), k) == StandingBalance(after, |after.transactions|, k)
  {
    var after := Recorded(t, c).0;
    var n := |t.transactions|;
    var tx := Asked(t, c);
    assert after.transactions[..n] == t.transactions;
    BalanceOfConcat(t.History(), tx.entries, k);
    StandingAfter(t, c, n, k);
    NewChain(t, c);
    if c.Reversal? {
      RootIsNotReversal(t, c.original);
      ReversedNegates(t.transactions[c.original].entries, k, "");
    }
  }

  lemma {:induction false} StandingIgnoresAccounts(t: Tables, u: Tables, n: nat, k: Key)
    requires ForwardLinks(t) && ForwardLinks(u) && n <= |t.transactions|
    requires u.transactions == t.transactions && u.reversals == t.reversals
    ensures StandingBalance(t, n, k) == StandingBalance(u, n, k)
  {
    if n > 0 {
      StandingIgnoresAccounts(t, u, n - 1, k);
      ChainIgnoresAccounts(t, u, n - 1);
    }
  }

  lemma {:induction false} ChainIgnoresAccounts(t: Tables, u: Tables, x: TransactionId)
    requires ForwardLinks(t) && ForwardLinks(u) && u.transactions == t.transactions && u.reversals == t.reversals
    ensures ChainLength(t, x) == ChainLength(u, x)
    decreases |t.transactions| - x
  {
    if x in t.reversals {
      ChainIgnoresAccounts(t, u, t.reversals[x]);
    }
  }

  lemma ReversalIsRecorded(t: Tables, c: Command)
    requires Valid(t) && c.Reversal? && Executed(t, c).1.Success?
    ensures c.original in Executed(t, c).0.reversals
  {
    CommandEffect(t, c);
    if Executed(t, c).0 == t {
      assert Fulfils(t, t.requests[(c.scope, c.key)]);
    }
  }

  /** Reversing a reversed transaction changes nothing; it succeeds only as a replay of its one reversal. */
  lemma SecondReversal(t: Tables, c: Command)
    requires Valid(t) && c.Reversal? && c.original in t.reversals
    ensures Executed(t, c).0 == t
    ensures Executed(t, c).1.Success? ==> Executed(t, c).1.value == Receipt(t.reversals[c.original], true)
  {
    if (c.scope, c.key) in t.requests {
      assert Fulfils(t, t.requests[(c.scope, c.key)]);
    }
  }

  /** A transaction is reversed at most once, for good, whatever happens in between and under whatever key. */
  lemma ReversedOnlyOnce(t: Tables, first: Command, steps: seq<Step>, again: Command)
    requires Valid(t) && first.Reversal? && Executed(t, first).1.Success?
    requires again.Reversal? && again.original == first.original
    ensures var later := Run(Executed(t, first).0, steps);
            && first.original in later.reversals
            && Executed(later, again).0 == later
            && (Executed(later, again).1.Success? ==>
                  Executed(later, again).1.value == Receipt(later.reversals[first.original], true))
  {
    var afterFirst := Executed(t, first).0;
    StepKeepsValid(t, Execute(first));
    ReversalIsRecorded(t, first);
    HistoryIsValid(afterFirst, steps);
    assert first.original in afterFirst.reversals;
    SecondReversal(Run(afterFirst, steps), again);
  }
}
