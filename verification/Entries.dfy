/** Ledger entries, the balances they add up to, and the check a posting must pass. */
module Entries {
  import opened Results
  import opened Decimals

  type AccountId = nat
  type Currency = string

  datatype Direction = Debit | Credit

  datatype Dimension =
    | Pending | Held | Settled | Withdrawable | ProvisionalBuying | CardSpendable | Frozen | Receivable

  datatype Key = Key(account: AccountId, currency: Currency, dimension: Dimension)

  datatype Entry = Entry(
    account: AccountId, currency: Currency, dimension: Dimension, direction: Direction, amount: Decimal)
  {
    function Place(): Key {
      Key(account, currency, dimension)
    }

    /** The contribution to a debit balance. */
    function Signed(): int {
      if direction.Debit? then amount else -amount
    }

    predicate Valid() {
      ValidCurrency(currency) && amount > 0
    }
  }

  predicate IsUpper(c: char) {
    'A' <= c <= 'Z'
  }

  predicate ValidCurrency(s: Currency) {
    && 3 <= |s| <= 12
    && IsUpper(s[0])
    && forall i | 0 <= i < |s| :: IsUpper(s[i]) || '0' <= s[i] <= '9'
  }

  function Opposite(d: Direction): Direction {
    if d.Debit? then Credit else Debit
  }

  function Reversed(es: seq<Entry>): (r: seq<Entry>)
    ensures |r| == |es|
  {
    seq(|es|, i requires 0 <= i < |es| => es[i].(direction := Opposite(es[i].direction)))
  }

  // ---- Sums over entries ----

  /** The debit balance of one account, currency and dimension. */
  function Balance(es: seq<Entry>, k: Key): int {
    if es == [] then 0
    else Balance(es[..|es| - 1], k) + var e := es[|es| - 1]; if e.Place() == k then e.Signed() else 0
  }

  /** Debits minus credits of a currency in one dimension, over all accounts. */
  function DimensionTotal(es: seq<Entry>, c: Currency, d: Dimension): int {
    if es == [] then 0
    else
      var e := es[|es| - 1];
      DimensionTotal(es[..|es| - 1], c, d) + if e.currency == c && e.dimension == d then e.Signed() else 0
  }

  /** The gross amount of a currency in one direction. */
  function Gross(es: seq<Entry>, c: Currency, d: Direction): int {
    if es == [] then 0
    else
      var e := es[|es| - 1];
      Gross(es[..|es| - 1], c, d) + if e.currency == c && e.direction == d then e.amount else 0
  }

  /** Debits minus credits of a currency, over all accounts and dimensions. */
  function CurrencyTotal(es: seq<Entry>, c: Currency): int {
    Gross(es, c, Debit) - Gross(es, c, Credit)
  }

  ghost predicate BalancedPerDimension(es: seq<Entry>) {
    forall c, d :: DimensionTotal(es, c, d) == 0
  }

  lemma {:induction false} BalanceOfConcat(s: seq<Entry>, t: seq<Entry>, k: Key)
    ensures Balance(s + t, k) == Balance(s, k) + Balance(t, k)
  {
    if t == [] {
      assert s + t == s;
    } else {
      assert (s + t)[..|s + t| - 1] == s + t[..|t| - 1];
      BalanceOfConcat(s, t[..|t| - 1], k);
    }
  }

  lemma {:induction false} GrossOfConcat(s: seq<Entry>, t: seq<Entry>, c: Currency, d: Direction)
    ensures Gross(s + t, c, d) == Gross(s, c, d) + Gross(t, c, d)
  {
    if t == [] {
      assert s + t == s;
    } else {
      assert (s + t)[..|s + t| - 1] == s + t[..|t| - 1];
      GrossOfConcat(s, t[..|t| - 1], c, d);
    }
  }

  lemma {:induction false} DimensionTotalOfConcat(s: seq<Entry>, t: seq<Entry>, c: Currency, d: Dimension)
    ensures DimensionTotal(s + t, c, d) == DimensionTotal(s, c, d) + DimensionTotal(t, c, d)
  {
    if t == [] {
      assert s + t == s;
    } else {
      assert (s + t)[..|s + t| - 1] == s + t[..|t| - 1];
      DimensionTotalOfConcat(s, t[..|t| - 1], c, d);
    }
  }

  lemma BalancedConcat(s: seq<Entry>, t: seq<Entry>)
    requires BalancedPerDimension(s) && BalancedPerDimension(t)
    ensures BalancedPerDimension(s + t)
  {
    forall c, d ensures DimensionTotal(s + t, c, d) == 0 {
      DimensionTotalOfConcat(s, t, c, d);
    }
  }

  lemma PairBalance(a: Entry, b: Entry, k: Key)
    ensures Balance([a, b], k) == (if a.Place() == k then a.Signed() else 0)
            + (if b.Place() == k then b.Signed() else 0)
  {
    assert [a, b][..1] == [a] && [a][..0] == [];
    assert Balance([a], k) == Balance([], k) + if a.Place() == k then a.Signed() else 0;
    assert Balance([a, b], k) == Balance([a], k) + if b.Place() == k then b.Signed() else 0;
  }

  /** Two entries of one amount in opposite directions balance their dimension. */
  lemma PairTotal(a: Entry, b: Entry, c: Currency, d: Dimension)
    requires a.currency == b.currency && a.dimension == b.dimension && a.amount == b.amount
             && a.direction != b.direction
    ensures DimensionTotal([a, b], c, d) == 0
  {
    assert [a, b][..1] == [a] && [a][..0] == [];
    assert DimensionTotal([a], c, d) == DimensionTotal([], c, d) + if a.currency == c && a.dimension == d
        then a.Signed() else 0;
    assert DimensionTotal([a, b], c, d) == DimensionTotal([a], c, d) + if b.currency == c && b.dimension == d
        then b.Signed() else 0;
  }

  /** Reversing every direction negates every sum. */
  lemma {:induction false} ReversedNegates(es: seq<Entry>, k: Key, c: Currency)
    ensures Balance(Reversed(es), k) == -Balance(es, k)
    ensures Gross(Reversed(es), c, Debit) == Gross(es, c, Credit)
    ensures Gross(Reversed(es), c, Credit) == Gross(es, c, Debit)
  {
    if es != [] {
      var n := |es| - 1;
      assert Reversed(es)[..n] == Reversed(es[..n]);
      ReversedNegates(es[..n], k, c);
      assert Reversed(es)[n].Place() == es[n].Place();
    }
  }

  lemma {:induction false} ReversedNegatesDimension(es: seq<Entry>, c: Currency, d: Dimension)
    ensures DimensionTotal(Reversed(es), c, d) == -DimensionTotal(es, c, d)
  {
    if es != [] {
      var n := |es| - 1;
      assert Reversed(es)[..n] == Reversed(es[..n]);
      ReversedNegatesDimension(es[..n], c, d);
    }
  }

  lemma BalancedReversed(es: seq<Entry>)
    requires BalancedPerDimension(es)
    ensures BalancedPerDimension(Reversed(es))
  {
    forall c, d ensures DimensionTotal(Reversed(es), c, d) == 0 {
      ReversedNegatesDimension(es, c, d);
    }
  }

  // ---- The check before a posting ----

  datatype LedgerError =
    | InvalidCommand | UnbalancedPosting | IdempotencyConflict | ProviderEventConflict | AlreadyReversed
    | UnknownTransaction | ConstraintViolation

  const MAXIMUM_ENTRIES := 32767

  predicate ValidEntries(es: seq<Entry>) {
    forall i | 0 <= i < |es| :: es[i].Valid()
  }

  /** Both sides of every currency fit in a decimal. */
  ghost predicate TotalsFit(es: seq<Entry>) {
    forall c, d :: -LIMIT < Gross(es, c, d) < LIMIT
  }

  ghost predicate BalancedPerCurrency(es: seq<Entry>) {
    forall c :: CurrencyTotal(es, c) == 0
  }

  /** What a posting's entries must satisfy, in terms of its totals alone. */
  ghost function Check(es: seq<Entry>): Result<(), LedgerError> {
    if !(2 <= |es| <= MAXIMUM_ENTRIES) || !ValidEntries(es) || !TotalsFit(es) then Failure(InvalidCommand)
    else if !BalancedPerCurrency(es) then Failure(UnbalancedPosting)
    else Success(())
  }

  // ---- Journals ----

  function Joined(ps: seq<seq<Entry>>): seq<Entry> {
    if ps == [] then [] else Joined(ps[..|ps| - 1]) + ps[|ps| - 1]
  }

  ghost predicate AllPass(ps: seq<seq<Entry>>) {
    forall i | 0 <= i < |ps| :: Check(ps[i]).Success?
  }

  /** A journal that postings which pass the check make up, one after another. */
  ghost predicate MadeOfPostings(journal: seq<Entry>) {
    exists ps :: AllPass(ps) && journal == Joined(ps)
  }

  lemma PostingAppended(journal: seq<Entry>, es: seq<Entry>)
    requires MadeOfPostings(journal) && Check(es).Success?
    ensures MadeOfPostings(journal + es)
  {
    var ps :| AllPass(ps) && journal == Joined(ps);
    assert (ps + [es])[..|ps|] == ps;
    assert AllPass(ps + [es]) && Joined(ps + [es]) == journal + es;
  }

  lemma {:induction false} GrossGrows(es: seq<Entry>, n: nat, c: Currency, d: Direction)
    requires ValidEntries(es) && n <= |es|
    ensures 0 <= Gross(es[..n], c, d) <= Gross(es, c, d)
  {
    if n == |es| {
      assert es[..n] == es;
      if es != [] {
        GrossGrows(es[..n - 1], n - 1, c, d);
        assert es[..n - 1][..n - 1] == es[..n - 1];
      }
    } else {
      GrossGrows(es[..|es| - 1], n, c, d);
      assert es[..|es| - 1][..n] == es[..n];
    }
  }

  lemma GrossStep(es: seq<Entry>, i: nat, c: Currency, d: Direction)
    requires i < |es|
    ensures Gross(es[..i + 1], c, d) ==
            Gross(es[..i], c, d) + if es[i].currency == c && es[i].direction == d then es[i].amount else 0
  {
    assert es[..i + 1][..i] == es[..i];
  }

  /** A total that overflowed part way stays out of range: amounts are positive. */
  lemma OverflowIsFinal(es: seq<Entry>, n: nat, c: Currency, d: Direction)
    requires n <= |es| && ValidEntries(es[..n]) && Gross(es[..n], c, d) >= LIMIT
    ensures !(ValidEntries(es) && TotalsFit(es))
  {
    if ValidEntries(es) {
      GrossGrows(es, n, c, d);
    }
  }

  /** Two opposite entries of one amount are accepted exactly when the amount is a positive decimal. */
  lemma PairIsAccepted(a: Entry, b: Entry)
    requires a.currency == b.currency && a.amount == b.amount && a.direction != b.direction
    ensures Check([a, b]).Success? <==> ValidCurrency(a.currency) && 0 < a.amount < LIMIT
  {
    var es := [a, b];
    forall c, d ensures Gross(es, c, d) == if c == a.currency then a.amount else 0 {
      assert es[..1] == [a] && [a][..0] == [];
      assert Gross([a], c, d) == if c == a.currency && d == a.direction then a.amount else 0;
    }
    assert es[0].Valid() <==> ValidCurrency(a.currency) && a.amount > 0;
    assert -LIMIT < Gross(es, a.currency, Debit) < LIMIT <==> -LIMIT < a.amount < LIMIT;
  }

  /** Every amount of an accepted posting is a positive decimal of a valid currency. */
  lemma AcceptedAmount(es: seq<Entry>, i: nat)
    requires Check(es).Success? && i < |es|
    ensures ValidCurrency(es[i].currency) && 0 < es[i].amount < LIMIT
  {
    var c, d := es[i].currency, es[i].direction;
    assert es[i].Valid();
    GrossGrows(es, i, c, d);
    GrossGrows(es, i + 1, c, d);
    GrossStep(es, i, c, d);
    assert -LIMIT < Gross(es, c, d) < LIMIT;
  }

  datatype Totals = Totals(debit: Decimal, credit: Decimal) {
    function Side(d: Direction): Decimal {
      if d.Debit? then debit else credit
    }

    function With(d: Direction, x: Decimal): Totals {
      if d.Debit? then this.(debit := x) else this.(credit := x)
    }
  }

  /** The totals of a currency; the zero value when it has not occurred. */
  function TotalsAt(byCurrency: map<Currency, Totals>, c: Currency): Totals {
    if c in byCurrency then byCurrency[c] else Totals(0, 0)
  }

  /** `byCurrency` holds the gross totals of `es`, and only currencies that have a positive side. */
  ghost predicate Tracks(byCurrency: map<Currency, Totals>, es: seq<Entry>) {
    forall c ::
      && TotalsAt(byCurrency, c) == Totals(Gross(es, c, Debit), Gross(es, c, Credit))
      && (c in byCurrency ==> Gross(es, c, Debit) + Gross(es, c, Credit) > 0)
  }

  lemma TrackingStep(byCurrency: map<Currency, Totals>, es: seq<Entry>, i: nat, x: Decimal)
    requires i < |es| && ValidEntries(es[..i + 1]) && Tracks(byCurrency, es[..i])
    requires x == TotalsAt(byCurrency, es[i].currency).Side(es[i].direction) + es[i].amount
    ensures Tracks(byCurrency[es[i].currency := TotalsAt(byCurrency, es[i].currency).With(es[i].direction, x)],
            es[..i + 1])
    ensures Gross(es[..i + 1], es[i].currency, es[i].direction) == x
    ensures TotalsFit(es[..i]) && x < LIMIT ==> TotalsFit(es[..i + 1])
  {
    forall c, d ensures Gross(es[..i + 1], c, d) >= 0 && Gross(es[..i + 1], c, d) ==
                        Gross(es[..i], c, d) + if es[i].currency == c && es[i].direction == d then es[i].amount else 0
    {
      GrossStep(es, i, c, d);
      GrossGrows(es[..i + 1], i + 1, c, d);
    }
    assert es[i] == es[..i + 1][i];
    LimitIsPositive();
    if TotalsFit(es[..i]) && x < LIMIT {
      forall c, d {:trigger Gross(es[..i + 1], c, d)} ensures -LIMIT < Gross(es[..i + 1], c, d) < LIMIT {
        assert -LIMIT < Gross(es[..i], c, d) < LIMIT;
      }
    }
  }

  lemma LimitIsPositive()
    ensures LIMIT > 0
  {
  }

  /** The validator's first loop: running totals per currency, stopped by a bad entry or an overflow. */
  method SumByCurrency(es: seq<Entry>) returns (outcome: Result<map<Currency, Totals>, LedgerError>)
    ensures outcome.Success? <==> ValidEntries(es) && TotalsFit(es)
    ensures outcome.Success? ==> Tracks(outcome.value, es)
    ensures outcome.Failure? ==> outcome.error == InvalidCommand
  {
    var byCurrency: map<Currency, Totals> := map[];
    var i := 0;
    while i < |es|
      invariant 0 <= i <= |es|
      invariant ValidEntries(es[..i]) && TotalsFit(es[..i])
      invariant Tracks(byCurrency, es[..i])
    {
      var entry := es[i];
      if !entry.Valid() {
        return Failure(InvalidCommand);
      }
      var totals := TotalsAt(byCurrency, entry.currency);
      TrackingStep(byCurrency, es, i, totals.Side(entry.direction) + entry.amount);
      var sum := Add(totals.Side(entry.direction), entry.amount);
      if sum.Failure? {
        OverflowIsFinal(es, i + 1, entry.currency, entry.direction);
        return Failure(InvalidCommand);
      }
      byCurrency := byCurrency[entry.currency := totals.With(entry.direction, sum.value)];
      i := i + 1;
    }
    assert es[..i] == es;
    return Success(byCurrency);
  }

  /** The validator: totals per currency, then a comparison of the two sides of each. */
  method ValidatePosting(es: seq<Entry>) returns (outcome: Result<(), LedgerError>)
    ensures outcome == Check(es)
  {
    if !(2 <= |es| <= MAXIMUM_ENTRIES) {
      return Failure(InvalidCommand);
    }
    var summed := SumByCurrency(es);
    if summed.Failure? {
      return Failure(summed.error);
    }
    var byCurrency := summed.value;
    var pending := byCurrency.Keys;
    while pending != {}
      invariant forall c | c in byCurrency && c !in pending :: CurrencyTotal(es, c) == 0
    {
      var c :| c in pending;
      var totals := TotalsAt(byCurrency, c);
      assert totals == Totals(Gross(es, c, Debit), Gross(es, c, Credit));
      if c in byCurrency && (totals.debit == 0 || totals.credit == 0 || totals.debit != totals.credit) {
        assert CurrencyTotal(es, c) != 0;
        return Failure(UnbalancedPosting);
      }
      pending := pending - {c};
    }
    forall c ensures CurrencyTotal(es, c) == 0 {
      assert TotalsAt(byCurrency, c) == Totals(Gross(es, c, Debit), Gross(es, c, Credit));
    }
    return Success(());
  }
}
