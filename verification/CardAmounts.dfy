/**
 What merchant amounts are worth in dollars over whole runs: every row carries the conversion of the step that wrote it,
 and every authorization the approval that step's gates called for.
 */
module CardAmounts {
  import opened Results
  import opened Decimals
  import opened Sums
  import opened AutoSell
  import opened Card
  import opened CardHolds
  import opened CardRuns
  import opened CardTips

  // ---- A conversion, without the functions that compute it ----

  /** `v` is the nearest value to `n` steps of 10^-36, ties to even. */
  ghost predicate Nearest(n: int, v: Decimal) {
    IsRounded(n, UNIT, HalfEven, v)
  }

  ghost predicate AtMostNearest(n: int, total: Decimal) {
    exists limit :: Nearest(n, limit) && total <= limit
  }

  /** The merchant's amount at the rate, then one plus the markup of that. */
  ghost predicate IsConversion(amount: Decimal, rate: Decimal, markup: Decimal, usd: Decimal) {
    exists base :: Nearest(amount * rate, base) && Nearest(base * (UNIT + markup), usd)
  }

  lemma ProductIsNearest(x: Decimal, y: Decimal, v: Decimal)
    ensures Multiply(x, y, AMOUNT_POLICY) == Success(v) <==> -LIMIT < v < LIMIT && Nearest(x * y, v)
  {
    RoundingIsUnique(x * y, UNIT, HalfEven, v);
  }

  /** A conversion succeeds exactly if both roundings are decimals, and then with the second one. */
  lemma ConvertedIsConversion(amount: Decimal, rate: Decimal, markup: Decimal, usd: Decimal)
    ensures Converted(amount, rate, markup) == Success(usd) <==>
            exists base :: -LIMIT < base < LIMIT && -LIMIT < usd < LIMIT
              && Nearest(amount * rate, base) && Nearest(base * (UNIT + markup), usd)
  {
    var first := Multiply(amount, rate, AMOUNT_POLICY);
    if first.Success? {
      ProductIsNearest(amount, rate, first.value);
      ProductIsNearest(first.value, UNIT + markup, usd);
    }
    forall base | -LIMIT < base < LIMIT && Nearest(amount * rate, base) ensures first == Success(base) {
      ProductIsNearest(amount, rate, base);
    }
  }

  /** Dollars are off amount times rate times (1 + markup) by at most half a step, and half a step of the base. */
  lemma ConversionError(amount: Decimal, rate: Decimal, markup: Decimal, usd: Decimal)
    requires IsConversion(amount, rate, markup, usd)
    ensures 2 * Abs(usd * UNIT * UNIT - amount * rate * (UNIT + markup)) <= UNIT * UNIT + UNIT * Abs(UNIT + markup)
  {
    var base :| Nearest(amount * rate, base) && Nearest(base * (UNIT + markup), usd);
    RoundingError(amount * rate, UNIT, HalfEven, base);
    RoundingError(base * (UNIT + markup), UNIT, HalfEven, usd);
    TwoErrors(amount * rate, UNIT, UNIT + markup, base, usd);
  }

  lemma TwoErrors(n: int, unit: nat, factor: int, base: int, usd: int)
    requires 2 * Abs(base * unit - n) <= unit && 2 * Abs(usd * unit - base * factor) <= unit
    ensures 2 * Abs(usd * unit * unit - n * factor) <= unit * unit + unit * Abs(factor)
  {
    var e, f := base * unit - n, usd * unit - base * factor;
    ErrorsAdd(n, unit, factor, base, usd, e, f);
    AbsProduct(f, unit, unit);
    AbsProduct(e, factor, unit);
  }

  lemma ErrorsAdd(n: int, unit: int, factor: int, base: int, usd: int, e: int, f: int)
    requires base * unit == n + e && usd * unit == base * factor + f
    ensures usd * unit * unit - n * factor == f * unit + e * factor
  {
    Distribute(base * factor, f, unit);
    Distribute(n, e, factor);
    assert base * factor * unit == base * unit * factor by {
      Associate(base, factor, unit);
      Associate(base, unit, factor);
    }
  }

  lemma AbsProduct(x: int, y: int, bound: nat)
    requires 2 * Abs(x) <= bound
    ensures 2 * Abs(x * y) <= bound * Abs(y)
  {
    SignsFactor(x, y);
    ProductOrder(2 * Abs(x), bound, Abs(y));
    assert (2 * Abs(x)) * Abs(y) == 2 * (Abs(x) * Abs(y));
  }

  lemma SignsFactor(x: int, y: int)
    ensures Abs(x * y) == Abs(x) * Abs(y)
  {
    if x >= 0 && y >= 0 {
      NonNegativeMultiple(x, y);
    } else if x < 0 && y < 0 {
      NonNegativeMultiple(-x, -y);
      assert x * y == (-x) * (-y);
    } else if x < 0 {
      NonNegativeMultiple(-x, y);
      NegateProduct(-x, y);
    } else {
      NonNegativeMultiple(x, -y);
      NegateProduct(-y, x);
      assert x * y == -(x * (-y));
    }
  }

  /** 100 euros at 1.1 with one percent markup are 111.10 dollars. */
  lemma HundredEuros()
    ensures Converted(100 * UNIT, 1_100_000_000_000_000_000, 10_000_000_000_000_000) ==
            Success(111_100_000_000_000_000_000)
  {
    ConvertedIsConversion(100 * UNIT, 1_100_000_000_000_000_000, 10_000_000_000_000_000, 111_100_000_000_000_000_000);
    assert Nearest(100 * UNIT * 1_100_000_000_000_000_000, 110 * UNIT);
    assert Nearest(110 * UNIT * (UNIT + 10_000_000_000_000_000), 111_100_000_000_000_000_000);
  }

  // ---- What an authorization has had captured ----

  function UnitsTerm(cs: seq<Capture>, a: nat): nat -> int {
    (i: nat) => if i < |cs| && cs[i].authorization == a then cs[i].merchantAmount else 0
  }

  /** Merchant units captured of an authorization. */
  function UnitsCaptured(cs: seq<Capture>, a: nat): int {
    Sum(UnitsTerm(cs, a), |cs|)
  }

  lemma {:induction false} TotalIsSum(cs: seq<Capture>, a: nat)
    ensures MerchantTotal(cs, a) == UnitsCaptured(cs, a)
  {
    if cs != [] {
      var front := cs[..|cs| - 1];
      TotalIsSum(front, a);
      SumSame(UnitsTerm(front, a), UnitsTerm(cs, a), |front|);
    }
  }

  /** What a total lies beyond the authorized amount. */
  function Beyond(total: int, authorized: Decimal): int {
    if total > authorized then total - authorized else 0
  }

  // ---- The step that wrote a row ----

  /**
   The capture row this step writes on this book: on the customer's own open authorization in its currency, dollars and
   tip at the step's rate and markup, and the running total within the step's tip allowance.
   */
  ghost predicate CapturedBy(before: Book, s: Step, row: Capture) {
    && s.Execute? && s.command.CapturePayment? && s.conditions.rate.Some?
    && s.command.authorization < |before.authorizations|
    && var k := s.conditions;
       var authorized := before.authorizations[s.command.authorization].merchantAmount;
       var previous := UnitsCaptured(before.captures, s.command.authorization);
       var total := previous + s.command.merchantAmount;
       && before.authorizations[s.command.authorization].customer == s.command.customer
       && before.authorizations[s.command.authorization].currency == s.command.currency
       && before.authorizations[s.command.authorization].IsOpen()
       && row.authorization == s.command.authorization && row.merchantAmount == s.command.merchantAmount
       && IsConversion(row.merchantAmount, k.rate.value, k.markup, row.settledUsd)
       && IsConversion(Beyond(total, authorized) - Beyond(previous, authorized), k.rate.value, k.markup, row.tipUsd)
       && AtMostNearest(authorized * (UNIT + k.maximumTip), total)
  }

  /**
   The authorization row this step writes: dollars at its rate and markup, and DECLINED unless the card is usable, the
   customer is not frozen and has the power.
   */
  ghost predicate AuthorizedBy(before: Book, s: Step, row: Authorization) {
    && s.Execute? && s.command.AuthorizeCard? && s.conditions.rate.Some? && s.command.customer in before.profiles
    && var k := s.conditions;
       && row.customer == s.command.customer && row.merchantAmount == s.command.merchantAmount
       && row.currency == s.command.currency
       && IsConversion(row.merchantAmount, k.rate.value, k.markup, row.authorizedUsd)
       && (row.status.Declined? <==> !k.usable || before.profiles[s.command.customer].frozen || !k.enoughPower)
  }

  lemma AmountsAreConversions(a: Authorization, previous: Decimal, released: Decimal, amount: Decimal, final: bool,
      k: Conditions)
    requires amount > 0 && CaptureAmounts(a, previous, released, amount, final, k).Success?
    ensures var m := CaptureAmounts(a, previous, released, amount, final, k).value;
            && k.rate.Some? && IsConversion(amount, k.rate.value, k.markup, m.settled)
            && IsConversion(Beyond(previous + amount, a.merchantAmount) - Beyond(previous, a.merchantAmount),
                 k.rate.value, k.markup, m.tip)
            && AtMostNearest(a.merchantAmount * (UNIT + k.maximumTip), previous + amount)
  {
    var m := CaptureAmounts(a, previous, released, amount, final, k).value;
    AmountsAreRated(a, previous, released, amount, final, k);
    ConvertedIsConversion(amount, k.rate.value, k.markup, m.settled);
    ConvertedIsConversion(TipUnits(a.merchantAmount, previous, previous + amount), k.rate.value, k.markup, m.tip);
    TotalIsAllowed(a, previous, released, amount, final, k);
  }

  lemma TotalIsAllowed(a: Authorization, previous: Decimal, released: Decimal, amount: Decimal, final: bool,
      k: Conditions)
    requires CaptureAmounts(a, previous, released, amount, final, k).Success?
    ensures AtMostNearest(a.merchantAmount * (UNIT + k.maximumTip), previous + amount)
  {
    var limit := Multiply(a.merchantAmount, UNIT + k.maximumTip, AMOUNT_POLICY).value;
    ProductIsNearest(a.merchantAmount, UNIT + k.maximumTip, limit);
    assert Nearest(a.merchantAmount * (UNIT + k.maximumTip), limit) && previous + amount <= limit;
  }

  lemma PlanIsCaptured(b: Book, c: Command, k: Conditions, a: Authorization, m: Amounts, row: Capture)
    requires c.CapturePayment? && c.merchantAmount > 0 && AuthorizationFor(b, c) == Success(a)
    requires AmountsFor(b, c, a, k) == Success(m)
    requires row.authorization == c.authorization && row.merchantAmount == c.merchantAmount
    requires row.settledUsd == m.settled && row.tipUsd == m.tip
    ensures CapturedBy(b, Execute(c, k), row)
  {
    TotalIsSum(b.captures, c.authorization);
    AmountsAreConversions(a, MerchantTotal(b.captures, c.authorization), HoldReleased(b.captures, c.authorization),
      c.merchantAmount, c.final, k);
  }

  lemma CaptureIsWritten(b: Book, c: Command, k: Conditions)
    requires c.CapturePayment? && TakesPlace(b, c, k)
    ensures var u := Written(b, c, k);
            && |u.captures| == |b.captures| + 1 && |u.authorizations| == |b.authorizations|
            && CapturedBy(b, Execute(c, k), u.captures[|b.captures|])
  {
    CaptureParts(b, c, k);
    var a := AuthorizationFor(b, c).value;
    var m := AmountsFor(b, c, a, k).value;
    RowOfPlan(c, a, m, SettledFor(b, c, m, k).value);
    PlanIsCaptured(b, c, k, a, m, PlanCapture(b, c, k).value.row);
  }

  lemma AuthorizationIsWritten(b: Book, c: Command, k: Conditions)
    requires c.AuthorizeCard? && TakesPlace(b, c, k)
    ensures var u := Written(b, c, k);
            && |u.authorizations| == |b.authorizations| + 1 && u.captures == b.captures
            && AuthorizedBy(b, Execute(c, k), u.authorizations[|b.authorizations|])
  {
    var a := PlanAuthorization(b, c, k).value;
    ConvertedIsConversion(c.merchantAmount, k.rate.value, k.markup, a.authorizedUsd);
  }

  // ---- Rows afterwards ----

  /** What an authorization was given stays, and a DECLINED one stays declined. */
  predicate SameGrant(x: Authorization, y: Authorization) {
    && y.customer == x.customer && y.merchantAmount == x.merchantAmount && y.currency == x.currency
    && y.authorizedUsd == x.authorizedUsd && (x.status.Declined? <==> y.status.Declined?)
  }

  /** No step but an authorization or a capture adds such a row, and none rewrites what a row was given. */
  ghost predicate KeepsGrants(b: Book, u: Book) {
    && |b.authorizations| <= |u.authorizations| && |b.captures| <= |u.captures|
    && (forall a | 0 <= a < |b.authorizations| :: SameGrant(b.authorizations[a], u.authorizations[a]))
    && (forall i | 0 <= i < |b.captures| :: SameSettlement(b.captures[i], u.captures[i]))
  }

  lemma CaptureKeepsGrants(b: Book, c: Command, k: Conditions)
    requires c.CapturePayment? && TakesPlace(b, c, k)
    ensures KeepsGrants(b, Written(b, c, k))
  {
    CaptureParts(b, c, k);
    var a := AuthorizationFor(b, c).value;
    var m := AmountsFor(b, c, a, k).value;
    var r := SettledFor(b, c, m, k).value;
    assert CaptureRows(c, a, m, r).value.authorization == PlanCapture(b, c, k).value.authorization;
  }

  lemma OtherKeepsGrants(b: Book, c: Command, k: Conditions)
    requires !c.CapturePayment? && TakesPlace(b, c, k)
    ensures KeepsGrants(b, Written(b, c, k)) && |Written(b, c, k).captures| == |b.captures|
    ensures !c.AuthorizeCard? ==> |Written(b, c, k).authorizations| == |b.authorizations|
  {
  }

  /** Every step keeps the rows there are and writes at most one new one, which is its own. */
  lemma StepWrites(b: Book, s: Step)
    ensures var u := After(b, s);
            && KeepsGrants(b, u) && |u.captures| <= |b.captures| + 1 && |u.authorizations| <= |b.authorizations| + 1
            && (|u.captures| > |b.captures| ==> CapturedBy(b, s, u.captures[|b.captures|]))
            && (|u.authorizations| > |b.authorizations| ==>
                 AuthorizedBy(b, s, u.authorizations[|b.authorizations|]))
  {
    if s.Execute? {
      var c, k := s.command, s.conditions;
      ExecutedWrites(b, c, k);
      if TakesPlace(b, c, k) {
        if c.CapturePayment? {
          CaptureIsWritten(b, c, k);
          CaptureKeepsGrants(b, c, k);
        } else {
          OtherKeepsGrants(b, c, k);
          if c.AuthorizeCard? {
            AuthorizationIsWritten(b, c, k);
          }
        }
      }
    }
  }

  // ---- Over every run ----

  ghost predicate CaptureWrittenAt(b: Book, steps: seq<Step>, j: nat, i: nat)
    requires j < |steps| && i < |Run(b, steps).captures|
  {
    var before := Run(b, steps[..j]);
    |before.captures| == i && CapturedBy(before, steps[j], Run(b, steps).captures[i])
  }

  ghost predicate AuthorizationWrittenAt(b: Book, steps: seq<Step>, j: nat, a: nat)
    requires j < |steps| && a < |Run(b, steps).authorizations|
  {
    var before := Run(b, steps[..j]);
    |before.authorizations| == a
    && exists row :: AuthorizedBy(before, steps[j], row) && SameGrant(row, Run(b, steps).authorizations[a])
  }

  lemma CapturedStill(before: Book, s: Step, x: Capture, y: Capture)
    requires CapturedBy(before, s, x) && SameSettlement(x, y)
    ensures CapturedBy(before, s, y)
  {
  }

  /**
   Over every run, each capture was written by one of its steps, and its settled and tip amounts are conversions at that
   step's rate and markup.
   */
  lemma {:induction false} EveryCaptureIsPriced(b: Book, steps: seq<Step>, i: nat)
    requires i < |Run(b, steps).captures| && Initial(b)
    ensures exists j: nat | j < |steps| :: CaptureWrittenAt(b, steps, j, i)
  {
    var n := |steps| - 1;
    var front := steps[..n];
    StepWrites(Run(b, front), steps[n]);
    if i < |Run(b, front).captures| {
      EveryCaptureIsPriced(b, front, i);
      var j: nat :| j < |front| && CaptureWrittenAt(b, front, j, i);
      assert front[..j] == steps[..j];
      CapturedStill(Run(b, steps[..j]), steps[j], Run(b, front).captures[i], Run(b, steps).captures[i]);
      assert CaptureWrittenAt(b, steps, j, i);
    } else {
      assert CaptureWrittenAt(b, steps, n, i);
    }
  }

  /**
   Over every run, each authorization was written by one of its steps, is worth its amount at that step's rate and
   markup, and is DECLINED exactly if that step's gates said so.
   */
  lemma {:induction false} EveryAuthorizationIsPriced(b: Book, steps: seq<Step>, a: nat)
    requires a < |Run(b, steps).authorizations| && Initial(b)
    ensures exists j: nat | j < |steps| :: AuthorizationWrittenAt(b, steps, j, a)
  {
    var n := |steps| - 1;
    var front := steps[..n];
    StepWrites(Run(b, front), steps[n]);
    if a < |Run(b, front).authorizations| {
      EveryAuthorizationIsPriced(b, front, a);
      var j: nat :| j < |front| && AuthorizationWrittenAt(b, front, j, a);
      assert front[..j] == steps[..j];
      var row :| AuthorizedBy(Run(b, front[..j]), front[j], row) && SameGrant(row, Run(b, front).authorizations[a]);
      assert SameGrant(Run(b, front).authorizations[a], Run(b, steps).authorizations[a]);
      assert SameGrant(row, Run(b, steps).authorizations[a]);
      assert AuthorizationWrittenAt(b, steps, j, a);
    } else {
      assert SameGrant(Run(b, steps).authorizations[a], Run(b, steps).authorizations[a]);
      assert AuthorizationWrittenAt(b, steps, n, a);
    }
  }
}
