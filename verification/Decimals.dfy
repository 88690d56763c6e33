/**
 NUMERIC(38,18) values: an exact integer coefficient scaled by 10^18, never rounded implicitly.
 Arithmetic that can leave the grid takes an explicit rounding policy.
 */
module Decimals {
  import opened Results
  import opened Digits

  /** The coefficient of a decimal; the number it denotes is the coefficient over 10^18. */
  type Decimal = int

  const SCALE: nat := 18
  const PRECISION: nat := 38

  /** 10^18 and 10^38, see UnitValue. */
  const UNIT: nat := 1_000_000_000_000_000_000
  const LIMIT: int := 100_000_000_000_000_000_000_000_000_000_000_000_000

  datatype Error = InvalidDecimal | PrecisionExceeded | ScaleExceeded | NullDecimal | DivideByZero | InvalidPolicy

  datatype Mode = TowardZero | AwayFromZero | HalfEven | HalfAway | Unknown(name: string)

  datatype Policy = Policy(version: string, places: nat, mode: Mode) {
    predicate Valid() {
      version != "" && places <= SCALE && !mode.Unknown?
    }

    /** The coefficient distance between neighbouring values the policy allows: 10^(18 - places), see GridValue. */
    function Grid(): (g: nat)
      requires places <= SCALE
      ensures g >= 1
    {
      if places == SCALE then 1 else if places == 0 then UNIT else Pow10(SCALE - places)
    }
  }

  lemma UnitValue()
    ensures UNIT == Pow10(SCALE) && LIMIT == Pow10(PRECISION)
  {
    assert Pow10(9) == 1_000_000_000;
    PowPositive(9, 9);
    PowPositive(18, 2);
    PowPositive(20, 18);
  }

  /** The powers of ten of an operation that drops places, as factors of the grid. */
  lemma GridValue(policy: Policy)
    requires policy.Valid()
    ensures policy.Grid() == Pow10(SCALE - policy.places)
    ensures UNIT * policy.Grid() == Pow10(SCALE + (SCALE - policy.places))
  {
    UnitValue();
    PowPositive(SCALE, SCALE - policy.places);
  }

  function Abs(x: int): (r: nat)
    ensures r == x || r == -x
  {
    if x < 0 then -x else x
  }

  /** The checked constructor every operation ends with: at most 38 digits survive. */
  function FromCoefficient(c: int): Result<Decimal, Error> {
    if -LIMIT < c < LIMIT then Success(c) else Failure(PrecisionExceeded)
  }

  /** The test of the constructor is on the length of the numeral. */
  lemma DigitTest(c: int)
    ensures FromCoefficient(c) == if c != 0 && |Render(Abs(c))| > PRECISION then Failure(PrecisionExceeded)
            else Success(c)
  {
    UnitValue();
    DigitCountBound(Abs(c), PRECISION);
  }

  function Add(x: Decimal, y: Decimal): Result<Decimal, Error> {
    FromCoefficient(x + y)
  }

  function Sub(x: Decimal, y: Decimal): Result<Decimal, Error> {
    FromCoefficient(x - y)
  }

  predicate ShouldRoundUp(quotient: nat, remainder: nat, divisor: nat, mode: Mode) {
    if remainder == 0 then false
    else match mode
      case TowardZero => false
      case AwayFromZero => true
      case HalfAway => 2 * remainder >= divisor
      case HalfEven => 2 * remainder > divisor || (2 * remainder == divisor && quotient % 2 == 1)
      case Unknown(_) => false
  }

  /** Quotient and remainder of non-negative integers. */
  function QuoRem(a: nat, b: nat): (nat, nat)
    requires b > 0
  {
    (a / b, a % b)
  }

  /** The quotient of two magnitudes, incremented when the mode says so. */
  function RoundMagnitude(a: nat, b: nat, mode: Mode): nat
    requires b > 0
  {
    var (quotient, remainder) := QuoRem(a, b);
    if ShouldRoundUp(quotient, remainder, b, mode) then quotient + 1 else quotient
  }

  /** `numerator / denominator` rounded to an integer, on magnitudes with the sign put back. */
  function RoundRatio(numerator: int, denominator: int, mode: Mode): int
    requires denominator != 0
  {
    var negative := (numerator < 0 && denominator > 0) || (numerator > 0 && denominator < 0);
    var rounded: int := RoundMagnitude(Abs(numerator), Abs(denominator), mode);
    if negative then -rounded else rounded
  }

  function Multiply(x: Decimal, y: Decimal, policy: Policy): Result<Decimal, Error> {
    if !policy.Valid() then Failure(InvalidPolicy)
    else FromCoefficient(RoundRatio(x * y, UNIT * policy.Grid(), policy.mode) * policy.Grid())
  }

  function Divide(x: Decimal, y: Decimal, policy: Policy): Result<Decimal, Error> {
    if !policy.Valid() then Failure(InvalidPolicy)
    else if y == 0 then Failure(DivideByZero)
    else
      NonzeroProduct(y, policy.Grid());
      FromCoefficient(RoundRatio(x * UNIT, y * policy.Grid(), policy.mode) * policy.Grid())
  }

  /** Rounds one value by its own quotient-and-remainder route, with an early exit at full scale. */
  function Round(x: Decimal, policy: Policy): Result<Decimal, Error> {
    if !policy.Valid() then Failure(InvalidPolicy)
    else if policy.places == SCALE then FromCoefficient(x)
    else
      var coefficient := RoundMagnitude(Abs(x), policy.Grid(), policy.mode) * policy.Grid();
      FromCoefficient(if x < 0 then -coefficient else coefficient)
  }

  // ---- What a rounded value is, without quotients or remainders ----

  /** `m` rounds the non-negative ratio `a / b`. */
  ghost predicate MagnitudeRounded(a: nat, b: nat, mode: Mode, m: nat) {
    match mode
    case TowardZero => m * b <= a < m * b + b
    case AwayFromZero => m * b - b < a <= m * b
    case HalfAway => 2 * (m * b) - b <= 2 * a < 2 * (m * b) + b
    case HalfEven =>
      && 2 * (m * b) - b <= 2 * a <= 2 * (m * b) + b
      && (2 * a == 2 * (m * b) - b || 2 * a == 2 * (m * b) + b ==> m % 2 == 0)
    case Unknown(_) => false
  }

  /** `v` rounds `n / d`: the magnitude is rounded and a non-zero result has the sign of the ratio. */
  ghost predicate IsRounded(n: int, d: int, mode: Mode, v: int) {
    && MagnitudeRounded(Abs(n), Abs(d), mode, Abs(v))
    && (v != 0 ==> n != 0 && (v < 0 <==> ((n < 0) != (d < 0))))
  }

  /** `c` is the multiple of `grid` that rounds the exact rational `n / d`. */
  ghost predicate IsGridRounding(n: int, d: int, grid: nat, mode: Mode, c: int) {
    exists v :: c == v * grid && IsRounded(n, d * grid, mode, v)
  }

  lemma NonzeroProduct(y: int, g: int)
    requires y != 0 && g != 0
    ensures y * g != 0
  {
  }

  lemma Distribute(x: int, y: int, b: int)
    ensures (x + y) * b == x * b + y * b
  {
  }

  lemma NonNegativeMultiple(x: nat, b: nat)
    ensures x * b >= 0
  {
  }

  lemma ProductOrder(x: int, y: int, b: nat)
    requires x <= y
    ensures x * b <= y * b
    ensures x < y ==> x * b + b <= y * b
  {
    Distribute(x, y - x, b);
    NonNegativeMultiple(y - x, b);
    if x < y {
      Distribute(1, y - x - 1, b);
      NonNegativeMultiple(y - x - 1, b);
    }
  }

  lemma NextMultiple(q: int, b: int)
    ensures (q + 1) * b == q * b + b
  {
  }

  lemma MagnitudeUnique(a: nat, b: nat, mode: Mode, m1: nat, m2: nat)
    requires b > 0
    requires MagnitudeRounded(a, b, mode, m1) && MagnitudeRounded(a, b, mode, m2)
    ensures m1 == m2
  {
    if m1 < m2 {
      ProductOrder(m1, m2, b);
      NextMultiple(m1, b);
      if m2 != m1 + 1 {
        ProductOrder(m1 + 1, m2, b);
      }
    } else if m2 < m1 {
      MagnitudeUnique(a, b, mode, m2, m1);
    }
  }

  /** Quotient, remainder and the mode's test round as the mode says. */
  lemma MagnitudeIsRounded(a: nat, b: nat, mode: Mode)
    requires b > 0 && !mode.Unknown?
    ensures MagnitudeRounded(a, b, mode, RoundMagnitude(a, b, mode))
  {
    var quotient, remainder := QuoRem(a, b).0, QuoRem(a, b).1;
    assert a == quotient * b + remainder && remainder < b;
    NextMultiple(quotient, b);
  }

  /** A ratio has exactly one rounding in each mode, and RoundRatio returns it. */
  lemma RoundingIsUnique(n: int, d: int, mode: Mode, v: int)
    requires d != 0 && !mode.Unknown?
    ensures IsRounded(n, d, mode, v) <==> v == RoundRatio(n, d, mode)
  {
    MagnitudeIsRounded(Abs(n), Abs(d), mode);
    if IsRounded(n, d, mode, v) {
      MagnitudeUnique(Abs(n), Abs(d), mode, Abs(v), Abs(RoundRatio(n, d, mode)));
    }
  }

  // ---- Every operation returns the grid rounding of the exact rational ----

  lemma Associate(a: int, b: int, c: int)
    ensures a * (b * c) == (a * b) * c
  {
  }

  /** The rounding of a rational to a grid is unique: it is the one RoundRatio computes. */
  lemma GridRoundingIsUnique(n: int, d: int, grid: nat, mode: Mode, c: int)
    requires d * grid != 0 && !mode.Unknown?
    ensures IsGridRounding(n, d, grid, mode, c) <==> c == RoundRatio(n, d * grid, mode) * grid
  {
    var scaled := d * grid;
    var v := RoundRatio(n, scaled, mode);
    RoundingIsUnique(n, scaled, mode, v);
    if IsGridRounding(n, d, grid, mode, c) {
      var w :| c == w * grid && IsRounded(n, scaled, mode, w);
      RoundingIsUnique(n, scaled, mode, w);
    }
  }

  /** Multiplication succeeds exactly with the in-range grid rounding of the exact product. */
  lemma MultiplyRoundsProduct(x: Decimal, y: Decimal, policy: Policy, c: int)
    requires policy.Valid()
    ensures Multiply(x, y, policy) == Success(c) <==>
            -LIMIT < c < LIMIT && IsGridRounding(x * y, UNIT, policy.Grid(), policy.mode, c)
  {
    GridRoundingIsUnique(x * y, UNIT, policy.Grid(), policy.mode, c);
  }

  /** Division by a non-zero value succeeds exactly with the in-range grid rounding of the exact quotient. */
  lemma DivideRoundsQuotient(x: Decimal, y: Decimal, policy: Policy, c: int)
    requires policy.Valid() && y != 0
    ensures Divide(x, y, policy) == Success(c) <==>
            -LIMIT < c < LIMIT && IsGridRounding(x * UNIT, y, policy.Grid(), policy.mode, c)
  {
    NonzeroProduct(y, policy.Grid());
    GridRoundingIsUnique(x * UNIT, y, policy.Grid(), policy.mode, c);
  }

  /** Scaling numerator and denominator alike does not change what a ratio rounds to. */
  lemma RoundingIgnoresScale(n: int, d: int, k: nat, mode: Mode, v: int)
    requires d > 0 && k > 0
    ensures IsRounded(n, d, mode, v) <==> IsRounded(n * k, d * k, mode, v)
  {
    var a, m := Abs(n), Abs(v);
    assert Abs(n * k) == a * k && Abs(d * k) == d * k && (n < 0 <==> n * k < 0) && (n == 0 <==> n * k == 0);
    Associate(m, d, k);
    ScaleMagnitude(a, d, k, mode, m);
  }

  lemma ScaleOrder(x: int, y: int, k: nat)
    requires k > 0
    ensures x < y <==> x * k < y * k
    ensures x == y <==> x * k == y * k
  {
  }

  lemma ScaleMagnitude(a: nat, b: nat, k: nat, mode: Mode, m: nat)
    requires k > 0
    ensures MagnitudeRounded(a, b, mode, m) <==> MagnitudeRounded(a * k, b * k, mode, m)
  {
    var p := m * b;
    Associate(m, b, k);
    ScaleOrder(p, a, k);
    ScaleOrder(a, p + b, k);
    ScaleOrder(p - b, a, k);
    ScaleOrder(2 * p - b, 2 * a, k);
    ScaleOrder(2 * a, 2 * p + b, k);
    assert (p + b) * k == p * k + b * k && (p - b) * k == p * k - b * k;
    assert (2 * p + b) * k == 2 * (p * k) + b * k && (2 * p - b) * k == 2 * (p * k) - b * k;
    assert (2 * a) * k == 2 * (a * k);
  }

  /** Over a positive denominator only the numerator's sign counts. */
  lemma RoundRatioOverPositive(x: int, g: nat, mode: Mode)
    requires g > 0
    ensures RoundRatio(x, g, mode) == var m: int := RoundMagnitude(Abs(x), g, mode); if x < 0 then -m else m
  {
  }

  lemma NegateProduct(m: int, g: int)
    ensures (-m) * g == -(m * g)
  {
  }

  lemma FullScaleRound(x: Decimal, mode: Mode)
    requires !mode.Unknown?
    ensures RoundRatio(x, 1, mode) == x
  {
    assert IsRounded(x, 1, mode, x);
    RoundingIsUnique(x, 1, mode, x);
  }

  lemma RoundAtGrid(x: Decimal, policy: Policy)
    requires policy.Valid() && policy.places != SCALE
    ensures Round(x, policy) == FromCoefficient(RoundRatio(x, policy.Grid(), policy.mode) * policy.Grid())
  {
    SignedMultiple(x, policy.Grid(), policy.mode);
  }

  lemma RoundAtScale(x: Decimal, policy: Policy)
    requires policy.Valid() && policy.places == SCALE
    ensures policy.Grid() == 1 && Round(x, policy) == FromCoefficient(RoundRatio(x, 1, policy.mode))
  {
    FullScaleRound(x, policy.mode);
  }

  lemma RoundIsRoundRatio(x: Decimal, policy: Policy)
    requires policy.Valid()
    ensures Round(x, policy) == FromCoefficient(RoundRatio(x, policy.Grid(), policy.mode) * policy.Grid())
  {
    if policy.places == SCALE {
      RoundAtScale(x, policy);
      assert policy.Grid() == 1;
    } else {
      RoundAtGrid(x, policy);
    }
  }

  lemma SignedMultiple(x: int, g: nat, mode: Mode)
    requires g > 0
    ensures RoundRatio(x, g, mode) * g == var m: int := RoundMagnitude(Abs(x), g, mode) * g; if x < 0 then -m else m
  {
    RoundRatioOverPositive(x, g, mode);
    NegateProduct(RoundMagnitude(Abs(x), g, mode), g);
  }

  /** Rounding alone returns the grid value next to the input that the mode names. */
  lemma RoundRoundsValue(x: Decimal, policy: Policy, c: int)
    requires policy.Valid()
    ensures Round(x, policy) == Success(c) <==>
            -LIMIT < c < LIMIT && IsGridRounding(x, 1, policy.Grid(), policy.mode, c)
  {
    RoundIsRoundRatio(x, policy);
    GridRoundingIsUnique(x, 1, policy.Grid(), policy.mode, c);
  }

  lemma RoundRatioIgnoresScale(n: int, d: int, k: nat, mode: Mode)
    requires d > 0 && k > 0 && !mode.Unknown?
    ensures d * k > 0 && RoundRatio(n * k, d * k, mode) == RoundRatio(n, d, mode)
  {
    PositiveMultiple(d, k);
    var v := RoundRatio(n, d, mode);
    RoundingIsUnique(n, d, mode, v);
    RoundingIgnoresScale(n, d, k, mode, v);
    RatioOfRounding(n * k, d * k, mode, v);
  }

  lemma PositiveMultiple(d: int, k: int)
    requires d > 0 && k > 0
    ensures d * k > 0
  {
  }

  lemma RatioOfRounding(n: int, d: int, mode: Mode, v: int)
    requires d > 0 && !mode.Unknown? && IsRounded(n, d, mode, v)
    ensures RoundRatio(n, d, mode) == v
  {
    RoundingIsUnique(n, d, mode, v);
  }

  /** Multiplying by one and dividing by one round the same scaled ratio as rounding alone. */
  lemma RouteRatios(x: Decimal, grid: nat, mode: Mode)
    requires grid > 0 && !mode.Unknown?
    ensures RoundRatio(x * UNIT, UNIT * grid, mode) == RoundRatio(x, grid, mode)
  {
    RoundRatioIgnoresScale(x, grid, UNIT, mode);
  }

  lemma MultiplyRoute(x: Decimal, policy: Policy)
    requires policy.Valid()
    ensures Multiply(x, UNIT, policy) == FromCoefficient(RoundRatio(x, policy.Grid(), policy.mode) * policy.Grid())
  {
    RouteRatios(x, policy.Grid(), policy.mode);
  }

  lemma DivideRoute(x: Decimal, policy: Policy)
    requires policy.Valid()
    ensures Divide(x, UNIT, policy) == FromCoefficient(RoundRatio(x, policy.Grid(), policy.mode) * policy.Grid())
  {
    RouteRatios(x, policy.Grid(), policy.mode);
  }

  /** The three routes to a rounded value agree on every input and every policy, errors included. */
  lemma RoutesAgree(x: Decimal, policy: Policy)
    ensures Multiply(x, UNIT, policy) == Round(x, policy)
    ensures Divide(x, UNIT, policy) == Round(x, policy)
  {
    if policy.Valid() {
      RoundIsRoundRatio(x, policy);
      MultiplyRoute(x, policy);
      DivideRoute(x, policy);
    }
  }

  /** Rounding twice is rounding once. */
  lemma RoundIsIdempotent(x: Decimal, policy: Policy)
    ensures Round(x, policy).Success? ==> Round(Round(x, policy).value, policy) == Round(x, policy)
  {
    if Round(x, policy).Success? {
      var g := policy.Grid();
      RoundIsRoundRatio(x, policy);
      var v := RoundRatio(x, g, policy.mode);
      GridPointIsExact(v, g, policy.mode);
      RoundIsRoundRatio(v * g, policy);
    }
  }

  lemma GridPointIsExact(v: int, g: nat, mode: Mode)
    requires g > 0 && !mode.Unknown?
    ensures RoundRatio(v * g, g, mode) == v
  {
    assert Abs(v * g) == Abs(v) * g && (v < 0 <==> v * g < 0);
    RoundingIsUnique(v * g, g, mode, v);
  }

  /** A rounded value never crosses zero, and a policy that rounds away from zero never loses a non-zero value. */
  lemma RoundKeepsSign(x: Decimal, policy: Policy)
    requires Round(x, policy).Success?
    ensures x >= 0 ==> Round(x, policy).value >= 0
    ensures x <= 0 ==> Round(x, policy).value <= 0
    ensures policy.mode.AwayFromZero? && x != 0 ==> Round(x, policy).value != 0
  {
    RoundIsRoundRatio(x, policy);
    var g := policy.Grid();
    var v := RoundRatio(x, g, policy.mode);
    RoundingIsUnique(x, g, policy.mode, v);
    assert (v > 0 ==> v * g > 0) && (v < 0 ==> v * g < 0) && (v == 0 ==> v * g == 0);
  }

  /** A rounded ratio is less than one step away, and at most half a step away in the half modes. */
  lemma RoundingError(n: int, d: int, mode: Mode, v: int)
    requires d > 0 && IsRounded(n, d, mode, v)
    ensures -d < v * d - n < d
    ensures mode.HalfEven? || mode.HalfAway? ==> -d <= 2 * (v * d - n) <= d
    ensures mode.TowardZero? ==> Abs(v * d) <= Abs(n)
    ensures mode.AwayFromZero? ==> Abs(v * d) >= Abs(n)
  {
    assert Abs(v * d) == Abs(v) * d && (v < 0 <==> v * d < 0);
  }

  /** In the half modes no integer is closer to the ratio than its rounding. */
  lemma HalfModesAreNearest(n: int, d: nat, mode: Mode, v: int, w: int)
    requires d > 0 && (mode.HalfEven? || mode.HalfAway?) && IsRounded(n, d, mode, v)
    ensures Abs(v * d - n) <= Abs(w * d - n)
  {
    RoundingError(n, d, mode, v);
    if w < v {
      ProductOrder(w, v, d);
    } else if v < w {
      ProductOrder(v, w, d);
    }
  }

  /** Rounding is monotone in the numerator. */
  lemma RoundRatioIsMonotone(n1: int, n2: int, d: nat, mode: Mode)
    requires d > 0 && !mode.Unknown? && n1 <= n2
    ensures RoundRatio(n1, d, mode) <= RoundRatio(n2, d, mode)
  {
    var v1, v2 := RoundRatio(n1, d, mode), RoundRatio(n2, d, mode);
    RoundingIsUnique(n1, d, mode, v1);
    RoundingIsUnique(n2, d, mode, v2);
    if v2 < v1 {
      ProductOrder(v2, v1, d);
      RoundingError(n1, d, mode, v1);
      RoundingError(n2, d, mode, v2);
    }
  }

  lemma RoundIsMonotone(x: Decimal, y: Decimal, policy: Policy)
    requires x <= y && Round(x, policy).Success? && Round(y, policy).Success?
    ensures Round(x, policy).value <= Round(y, policy).value
  {
    var g := policy.Grid();
    RoundIsRoundRatio(x, policy);
    RoundIsRoundRatio(y, policy);
    RoundRatioIsMonotone(x, y, g, policy.mode);
    ProductOrder(RoundRatio(x, g, policy.mode), RoundRatio(y, g, policy.mode), g);
  }

  /** At full scale the grid is one coefficient step, so results are roundings of the exact ratio itself. */
  lemma FullScaleRounding(x: Decimal, y: Decimal, policy: Policy)
    requires policy.Valid() && policy.places == SCALE
    ensures Multiply(x, y, policy).Success? ==> IsRounded(x * y, UNIT, policy.mode, Multiply(x, y, policy).value)
    ensures y != 0 && Divide(x, y, policy).Success? ==>
              IsRounded(x * UNIT, y, policy.mode, Divide(x, y, policy).value)
  {
    RoundingIsUnique(x * y, UNIT, policy.mode, RoundRatio(x * y, UNIT, policy.mode));
    if y != 0 {
      RoundingIsUnique(x * UNIT, y, policy.mode, RoundRatio(x * UNIT, y, policy.mode));
    }
  }
}
