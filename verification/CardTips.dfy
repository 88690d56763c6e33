/** Tips over whole runs: whatever the captures, their tip units add up to what exceeds the authorized amount. */
module CardTips {
  import opened Results
  import opened Decimals
  import opened Entries
  import opened AutoSell
  import opened Card
  import opened CardHolds
  import opened CardReceivable
  import opened CardRuns

  /** The tip units of a capture, given the captures before it. */
  function UnitsOf(before: seq<Capture>, c: Capture, authorized: Decimal): Decimal {
    var previous := MerchantTotal(before, c.authorization);
    TipUnits(authorized, previous, previous + c.merchantAmount)
  }

  function UnitsTotal(cs: seq<Capture>, a: nat, authorized: Decimal): Decimal {
    if cs == [] then 0
    else
      var c := cs[|cs| - 1];
      UnitsTotal(cs[..|cs| - 1], a, authorized)
      + if c.authorization == a then UnitsOf(cs[..|cs| - 1], c, authorized) else 0
  }

  /** What the captures of one authorization asked for, in order. */
  function AmountsOf(cs: seq<Capture>, a: nat): seq<Decimal> {
    if cs == [] then []
    else
      var c := cs[|cs| - 1];
      AmountsOf(cs[..|cs| - 1], a) + if c.authorization == a then [c.merchantAmount] else []
  }

  lemma PlusOneMore(amounts: seq<Decimal>, x: Decimal, authorized: Decimal)
    ensures Plus(amounts + [x]) == Plus(amounts) + x
    ensures TipUnitsSum(authorized, amounts + [x]) ==
            TipUnitsSum(authorized, amounts) + TipUnits(authorized, Plus(amounts), Plus(amounts) + x)
  {
    assert (amounts + [x])[..|amounts|] == amounts;
  }

  lemma {:induction false} AmountsAddUp(cs: seq<Capture>, a: nat, authorized: Decimal)
    ensures Plus(AmountsOf(cs, a)) == MerchantTotal(cs, a)
    ensures TipUnitsSum(authorized, AmountsOf(cs, a)) == UnitsTotal(cs, a, authorized)
  {
    if cs != [] {
      var front, c := cs[..|cs| - 1], cs[|cs| - 1];
      AmountsAddUp(front, a, authorized);
      if c.authorization == a {
        PlusOneMore(AmountsOf(front, a), c.merchantAmount, authorized);
      } else {
        assert AmountsOf(front, a) + [] == AmountsOf(front, a);
      }
    }
  }

  lemma {:induction false} AmountsArePositive(cs: seq<Capture>, a: nat)
    requires forall i | 0 <= i < |cs| :: cs[i].merchantAmount > 0
    ensures forall i | 0 <= i < |AmountsOf(cs, a)| :: AmountsOf(cs, a)[i] > 0
  {
    if cs != [] {
      AmountsArePositive(cs[..|cs| - 1], a);
    }
  }

  // ---- What every capture row says ----

  /** One rate and markup turned the merchant's amount into the settled one, and the tip units into the tip. */
  predicate Rated(c: Capture, units: Decimal, rate: Decimal, markup: Decimal) {
    Converted(c.merchantAmount, rate, markup) == Success(c.settledUsd)
      && Converted(units, rate, markup) == Success(c.tipUsd)
  }

  ghost predicate TipKept(b: Book, i: nat)
    requires i < |b.captures|
  {
    var c := b.captures[i];
    && c.authorization < |b.authorizations| && c.merchantAmount > 0
    && exists rate, markup ::
       Rated(c, UnitsOf(b.captures[..i], c, b.authorizations[c.authorization].merchantAmount), rate, markup)
  }

  ghost predicate TipsKept(b: Book) {
    && (forall a | 0 <= a < |b.authorizations| :: b.authorizations[a].merchantAmount > 0)
    && forall i: nat | i < |b.captures| :: TipKept(b, i)
  }

  /** The fields of a capture that never change. */
  predicate SameSettlement(x: Capture, y: Capture) {
    x.(refundedUsd := y.refundedUsd, status := y.status) == y
  }

  /** Rows may be refunded and authorizations may move on, but what was authorized and captured stays. */
  ghost predicate Continues(b: Book, u: Book) {
    && |b.authorizations| <= |u.authorizations| && |b.captures| <= |u.captures| <= |b.captures| + 1
    && (forall a | 0 <= a < |b.authorizations| ::
       u.authorizations[a].merchantAmount == b.authorizations[a].merchantAmount)
    && (forall a | |b.authorizations| <= a < |u.authorizations| :: u.authorizations[a].merchantAmount > 0)
    && (forall i | 0 <= i < |b.captures| :: SameSettlement(b.captures[i], u.captures[i]))
  }

  lemma {:induction false} SameMerchantTotal(cs: seq<Capture>, ds: seq<Capture>, a: nat)
    requires |cs| == |ds| && forall i | 0 <= i < |cs| :: SameSettlement(cs[i], ds[i])
    ensures MerchantTotal(cs, a) == MerchantTotal(ds, a)
  {
    if cs != [] {
      SameMerchantTotal(cs[..|cs| - 1], ds[..|ds| - 1], a);
      assert SameSettlement(cs[|cs| - 1], ds[|ds| - 1]);
    }
  }

  lemma SameUnits(cs: seq<Capture>, ds: seq<Capture>, i: nat, authorized: Decimal)
    requires i < |cs| <= |ds| && forall j | 0 <= j < |cs| :: SameSettlement(cs[j], ds[j])
    ensures UnitsOf(cs[..i], cs[i], authorized) == UnitsOf(ds[..i], ds[i], authorized)
  {
    forall j | 0 <= j < i ensures SameSettlement(cs[..i][j], ds[..i][j]) {
      assert SameSettlement(cs[j], ds[j]);
    }
    SameMerchantTotal(cs[..i], ds[..i], cs[i].authorization);
    assert SameSettlement(cs[i], ds[i]);
  }

  lemma OldTipKept(b: Book, u: Book, i: nat)
    requires Continues(b, u) && i < |b.captures| && TipKept(b, i)
    ensures TipKept(u, i)
  {
    var c, d := b.captures[i], u.captures[i];
    var authorized := b.authorizations[c.authorization].merchantAmount;
    assert SameSettlement(c, d);
    SameUnits(b.captures, u.captures, i, authorized);
    var rate, markup :| Rated(c, UnitsOf(b.captures[..i], c, authorized), rate, markup);
    assert Rated(d, UnitsOf(u.captures[..i], d, authorized), rate, markup);
  }

  lemma ContinuingKeepsTips(b: Book, u: Book)
    requires TipsKept(b) && Continues(b, u) && (|u.captures| > |b.captures| ==> TipKept(u, |b.captures|))
    ensures TipsKept(u)
  {
    forall i: nat | i < |u.captures| ensures TipKept(u, i) {
      if i < |b.captures| {
        OldTipKept(b, u, i);
      }
    }
  }

  lemma AmountsAreRated(a: Authorization, previous: Decimal, released: Decimal, amount: Decimal, final: bool,
      k: Conditions)
    requires CaptureAmounts(a, previous, released, amount, final, k).Success?
    ensures var m := CaptureAmounts(a, previous, released, amount, final, k).value;
            && k.rate.Some? && Converted(amount, k.rate.value, k.markup) == Success(m.settled)
            && Converted(TipUnits(a.merchantAmount, previous, previous + amount), k.rate.value, k.markup) ==
               Success(m.tip)
  {
  }

  lemma RowOfPlan(c: Command, a: Authorization, m: Amounts, r: Repayment)
    requires c.CapturePayment? && CaptureRows(c, a, m, r).Success?
    ensures var plan := CaptureRows(c, a, m, r).value;
            && plan.row.authorization == c.authorization && plan.row.merchantAmount == c.merchantAmount
            && plan.row.settledUsd == m.settled && plan.row.tipUsd == m.tip
            && plan.authorization.merchantAmount == a.merchantAmount
  {
  }

  /** The row of a capture is rated on what was captured before. */
  lemma NewRowIsRated(b: Book, c: Command, k: Conditions, a: Authorization)
    requires c.CapturePayment? && c.customer in b.profiles && PlanCapture(b, c, k).Success?
    requires AuthorizationFor(b, c) == Success(a)
    ensures var row := PlanCapture(b, c, k).value.row;
            && row.authorization == c.authorization && row.merchantAmount == c.merchantAmount && k.rate.Some?
            && Rated(row, UnitsOf(b.captures, row, a.merchantAmount), k.rate.value, k.markup)
    ensures PlanCapture(b, c, k).value.authorization.merchantAmount == a.merchantAmount
  {
    CaptureParts(b, c, k);
    var m := AmountsFor(b, c, a, k).value;
    RowOfPlan(c, a, m, SettledFor(b, c, m, k).value);
    AmountsAreRated(a, MerchantTotal(b.captures, c.authorization), HoldReleased(b.captures, c.authorization),
      c.merchantAmount, c.final, k);
  }

  lemma RowIsKept(b: Book, u: Book, row: Capture, rate: Decimal, markup: Decimal)
    requires u.captures == b.captures + [row] && row.authorization < |u.authorizations| && row.merchantAmount > 0
    requires Rated(row, UnitsOf(b.captures, row, u.authorizations[row.authorization].merchantAmount), rate, markup)
    ensures TipKept(u, |b.captures|)
  {
    assert u.captures[..|b.captures|] == b.captures;
  }

  lemma CaptureKeepsTips(b: Book, c: Command, k: Conditions)
    requires TipsKept(b) && c.CapturePayment? && c.customer in b.profiles && c.merchantAmount > 0
             && PlanCapture(b, c, k).Success?
    ensures c.authorization < |b.authorizations| && TipsKept(WithCapture(b, c, k, PlanCapture(b, c, k).value))
  {
    CaptureParts(b, c, k);
    var plan := PlanCapture(b, c, k).value;
    NewRowIsRated(b, c, k, AuthorizationFor(b, c).value);
    var u := WithCapture(b, c, k, plan);
    RowIsKept(b, u, plan.row, k.rate.value, k.markup);
    ContinuingKeepsTips(b, u);
  }

  lemma WrittenContinues(b: Book, c: Command, k: Conditions)
    requires !c.CapturePayment? && c.WellFormed() && c.customer in b.profiles && Decision(b, c, k).Success?
    ensures Continues(b, Written(b, c, k)) && |Written(b, c, k).captures| == |b.captures|
  {
  }

  lemma CommandKeepsTips(b: Book, c: Command, k: Conditions)
    requires TipsKept(b)
    ensures TipsKept(Executed(b, c, k).book)
  {
    ExecutedWrites(b, c, k);
    if TakesPlace(b, c, k) {
      if c.CapturePayment? {
        CaptureKeepsTips(b, c, k);
      } else {
        WrittenContinues(b, c, k);
        ContinuingKeepsTips(b, Written(b, c, k));
      }
    }
  }

  lemma StepKeepsTips(b: Book, s: Step)
    requires TipsKept(b)
    ensures TipsKept(After(b, s))
  {
    match s
    case Execute(c, k) => CommandKeepsTips(b, c, k);
    case _ => ContinuingKeepsTips(b, After(b, s));
  }

  lemma {:induction false} RunsKeepTips(b: Book, steps: seq<Step>)
    requires Initial(b)
    ensures TipsKept(Run(b, steps))
  {
    if steps != [] {
      RunsKeepTips(b, steps[..|steps| - 1]);
      StepKeepsTips(Run(b, steps[..|steps| - 1]), steps[|steps| - 1]);
    }
  }

  /**
   Over every run the tip units of an authorization's captures add up to what was captured beyond the authorized amount,
   and each capture's tip is its units converted at the rate it settled at.
   */
  lemma TipsTelescopeOverRuns(b: Book, steps: seq<Step>, a: nat)
    requires Initial(b) && a < |Run(b, steps).authorizations|
    ensures var u := Run(b, steps);
            var authorized := u.authorizations[a].merchantAmount;
            && UnitsTotal(u.captures, a, authorized) == PositiveRemainder(MerchantTotal(u.captures, a) - authorized)
            && TipsKept(u)
  {
    RunsKeepTips(b, steps);
    var u := Run(b, steps);
    forall i | 0 <= i < |u.captures| ensures u.captures[i].merchantAmount > 0 {
      assert TipKept(u, i);
    }
    AmountsArePositive(u.captures, a);
    AmountsAddUp(u.captures, a, u.authorizations[a].merchantAmount);
    TipsTelescope(u.authorizations[a].merchantAmount, AmountsOf(u.captures, a));
  }
}
