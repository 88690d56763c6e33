/** Balances as sums over rows, and exactly which postings and reversals a ledger takes and what it then stores. */
module LedgerPostings {
  import opened Results
  import opened Decimals
  import opened Sums
  import opened Entries
  import opened Ledger
  import opened LedgerHistory

  // ---- Sums, entry by entry ----

  function BalanceTerm(es: seq<Entry>, k: Key): nat -> int {
    (i: nat) =>
      if i < |es| && es[i].account == k.account && es[i].currency == k.currency && es[i].dimension == k.dimension
        then (if es[i].direction == Debit then es[i].amount else -es[i].amount) else 0
  }

  /** A balance is debits less credits of its account, currency and dimension. */
  lemma {:induction false} BalanceIsSum(es: seq<Entry>, k: Key)
    ensures Balance(es, k) == Sum(BalanceTerm(es, k), |es|)
  {
    if es != [] {
      var front := es[..|es| - 1];
      BalanceIsSum(front, k);
      SumSame(BalanceTerm(front, k), BalanceTerm(es, k), |front|);
    }
  }

  function SideTerm(es: seq<Entry>, c: Currency, d: Direction): nat -> int {
    (i: nat) => if i < |es| && es[i].currency == c && es[i].direction == d then es[i].amount else 0
  }

  /** One side of a currency. */
  function Side(es: seq<Entry>, c: Currency, d: Direction): int {
    Sum(SideTerm(es, c, d), |es|)
  }

  lemma {:induction false} GrossIsSum(es: seq<Entry>, c: Currency, d: Direction)
    ensures Gross(es, c, d) == Side(es, c, d)
  {
    if es != [] {
      var front := es[..|es| - 1];
      GrossIsSum(front, c, d);
      SumSame(SideTerm(front, c, d), SideTerm(es, c, d), |front|);
    }
  }

  function TransactionTerm(ts: seq<Transaction>, k: Key): nat -> int {
    (i: nat) => if i < |ts| then Sum(BalanceTerm(ts[i].entries, k), |ts[i].entries|) else 0
  }

  /** The balance of a ledger is the sum over its transactions' entries. */
  lemma {:induction false} HistoryIsSum(ts: seq<Transaction>, k: Key)
    ensures Balance(AllEntries(ts), k) == Sum(TransactionTerm(ts, k), |ts|)
  {
    if ts != [] {
      var front := ts[..|ts| - 1];
      HistoryIsSum(front, k);
      SumSame(TransactionTerm(front, k), TransactionTerm(ts, k), |front|);
      BalanceOfConcat(AllEntries(front), ts[|ts| - 1].entries, k);
      BalanceIsSum(ts[|ts| - 1].entries, k);
    }
  }

  // ---- What a posting must be ----

  /** A letter and two to eleven letters or digits. */
  predicate IsCurrency(s: Currency) {
    && 3 <= |s| <= 12 && 'A' <= s[0] <= 'Z'
    && forall i | 0 <= i < |s| :: 'A' <= s[i] <= 'Z' || '0' <= s[i] <= '9'
  }

  /** Two to 32767 positive entries, debits equal to credits in every currency, and both decimals. */
  ghost predicate WellPosted(es: seq<Entry>) {
    && 2 <= |es| <= 32767
    && (forall i | 0 <= i < |es| :: IsCurrency(es[i].currency) && es[i].amount > 0)
    && forall c :: Side(es, c, Debit) == Side(es, c, Credit) < LIMIT
  }

  lemma SidesAreGross(es: seq<Entry>, c: Currency)
    ensures Gross(es, c, Debit) == Side(es, c, Debit) && Gross(es, c, Credit) == Side(es, c, Credit)
  {
    GrossIsSum(es, c, Debit);
    GrossIsSum(es, c, Credit);
  }

  lemma CheckIsWellPosted(es: seq<Entry>)
    ensures Check(es).Success? <==> WellPosted(es)
  {
    assert ValidEntries(es) <==> forall i | 0 <= i < |es| :: IsCurrency(es[i].currency) && es[i].amount > 0 by {
      forall i | 0 <= i < |es| ensures es[i].Valid() <==> IsCurrency(es[i].currency) && es[i].amount > 0 {
      }
    }
    if ValidEntries(es) {
      forall c ensures EvenSides(es, c) <==> Side(es, c, Debit) == Side(es, c, Credit) < LIMIT {
        SidesAreGross(es, c);
      }
      CheckByTotals(es);
    }
  }

  predicate EvenSides(es: seq<Entry>, c: Currency) {
    Gross(es, c, Debit) == Gross(es, c, Credit) < LIMIT
  }

  lemma SidesArePositive(es: seq<Entry>, c: Currency, d: Direction)
    requires ValidEntries(es)
    ensures Gross(es, c, d) >= 0
  {
    assert es[..|es|] == es;
    GrossGrows(es, |es|, c, d);
  }

  lemma CheckByTotals(es: seq<Entry>)
    requires ValidEntries(es)
    ensures Check(es).Success? <==> 2 <= |es| <= 32767 && forall c :: EvenSides(es, c)
  {
    if Check(es).Success? {
      forall c ensures EvenSides(es, c) {
        assert CurrencyTotal(es, c) == 0 && -LIMIT < Gross(es, c, Credit) < LIMIT;
      }
    }
    if forall c :: EvenSides(es, c) {
      forall c ensures CurrencyTotal(es, c) == 0 {
        assert EvenSides(es, c);
      }
      forall c, d ensures -LIMIT < Gross(es, c, d) < LIMIT {
        assert EvenSides(es, c);
        SidesArePositive(es, c, d);
        assert d == Debit || d == Credit;
      }
      assert TotalsFit(es) && BalancedPerCurrency(es);
    }
  }

  // ---- First postings ----

  ghost predicate HasMetadata(c: Command) {
    && IsScope(c.scope) && IsKey(c.key) && IsCode(if c.Posting? then c.kind else c.reason)
    && c.policyVersion != "" && c.effectiveAt != 0 && !c.actor.kind.Other? && c.actor.id != ""
  }

  /** Every entry's account exists in its currency. */
  ghost predicate AccountsExist(t: Tables, es: seq<Entry>) {
    forall i | 0 <= i < |es| :: es[i].account < |t.accounts| && t.accounts[es[i].account] == es[i].currency
  }

  /**
   A posting under a new key, for a new event if for any, is recorded if and only if its metadata and event are well
   formed, its entries are well posted on existing accounts, and its policy version can be stored;
     then its transaction is
   exactly what it asked for, and otherwise nothing changes.
   */
  lemma PostedExactly(t: Tables, c: Command)
    requires c.Posting? && (c.scope, c.key) !in t.requests
    requires c.event.Some? ==> (c.event.value.provider, c.event.value.externalId) !in t.events
    ensures var (u, r) := Executed(t, c);
            && (r.Success? <==>
                 && HasMetadata(c) && WellPosted(c.entries) && AccountsExist(t, c.entries)
                 && IsStorablePolicy(c.policyVersion)
                 && (c.event.Some? ==>
                      && IsProvider(c.event.value.provider) && 0 < |c.event.value.externalId| <= 255
                      && c.event.value.payload != []))
            && (r.Failure? ==> u == t)
            && (r.Success? ==>
                 && r.value == Receipt(|t.transactions|, false)
                 && u.transactions ==
                    t.transactions + [Transaction(c.kind, c.policyVersion, c.effectiveAt, c.entries)]
                 && u.accounts == t.accounts && u.reversals == t.reversals && (c.scope, c.key) in u.requests
                 && u.requests[(c.scope, c.key)].id == |t.transactions|)
  {
    CheckIsWellPosted(c.entries);
    assert t.Accepts(c.policyVersion, c.entries) <==>
        IsStorablePolicy(c.policyVersion) && AccountsExist(t, c.entries) by {
      forall i | 0 <= i < |c.entries|
        ensures t.Knows(c.entries[i]) <==>
                c.entries[i].account < |t.accounts| && t.accounts[c.entries[i].account] == c.entries[i].currency
      {
      }
    }
  }

  /** The opposite entries of a transaction, one for one. */
  ghost predicate Opposes(es: seq<Entry>, of: seq<Entry>) {
    && |es| == |of|
    && forall i | 0 <= i < |es| ::
         && es[i].account == of[i].account && es[i].currency == of[i].currency && es[i].dimension == of[i].dimension
         && es[i].amount == of[i].amount && es[i].direction != of[i].direction
  }

  /**
   In a valid ledger a reversal under a new key is recorded if and only if its metadata is well formed,
     its policy version
   can be stored, and the original exists and has not been reversed; it stores the opposite entries.
   */
  lemma ReversedExactly(t: Tables, c: Command)
    requires Valid(t) && c.Reversal? && (c.scope, c.key) !in t.requests
    ensures var (u, r) := Executed(t, c);
            && (r.Success? <==>
                 && HasMetadata(c) && IsStorablePolicy(c.policyVersion)
                 && c.original < |t.transactions| && c.original !in t.reversals)
            && (r.Failure? ==> u == t)
            && (r.Success? ==>
                 && r.value == Receipt(|t.transactions|, false) && |u.transactions| == |t.transactions| + 1
                 && u.transactions[..|t.transactions|] == t.transactions
                 && Opposes(u.transactions[|t.transactions|].entries, t.transactions[c.original].entries)
                 && u.transactions[|t.transactions|].policyVersion == c.policyVersion
                 && u.transactions[|t.transactions|].effectiveAt == c.effectiveAt
                 && u.reversals == t.reversals[c.original := |t.transactions|] && u.events == t.events)
  {
    if c.original < |t.transactions| {
      ReversedPlaces(t, t.transactions[c.original].entries);
      assert forall j | 0 <= j < |t.transactions[c.original].entries| :: t.Knows(t.transactions[c.original].entries[j]);
    }
  }
}
