/** The text form of a decimal and its PostgreSQL numeric form. */
module DecimalText {
  import opened Results
  import opened Digits
  import opened Decimals

  // ---- Text ----

  function IndexOf(s: string, c: char): (i: nat)
    ensures i <= |s|
    ensures forall j | 0 <= j < i :: s[j] != c
    ensures i < |s| ==> s[i] == c
  {
    if s == [] || s[0] == c then 0 else 1 + IndexOf(s[1..], c)
  }

  /** The pieces of `s` between dots. */
  function SplitDots(s: string): (parts: seq<string>)
    ensures |parts| >= 1
  {
    var i := IndexOf(s, '.');
    if i == |s| then [s] else [s[..i]] + SplitDots(s[i + 1..])
  }

  /** Reads an optional minus sign, digits, and optionally a dot followed by at most 18 digits. */
  function Parse(text: string): Result<Decimal, Error> {
    if text == "" then Failure(InvalidDecimal)
    else
      var negative := text[0] == '-';
      var value := if negative then text[1..] else text;
      if value == "" || value[0] == '+' then Failure(InvalidDecimal)
      else ParseParts(negative, SplitDots(value))
  }

  function ParseParts(negative: bool, parts: seq<string>): Result<Decimal, Error>
    requires |parts| >= 1
  {
    if |parts| > 2 || parts[0] == "" then Failure(InvalidDecimal)
    else if |parts| == 2 && parts[1] == "" then Failure(InvalidDecimal)
    else
      var fraction := if |parts| == 2 then parts[1] else "";
      if !AllDigits(parts[0]) || !AllDigits(fraction) then Failure(InvalidDecimal)
      else if |fraction| > SCALE then Failure(ScaleExceeded)
      else
        var coefficient: int := Value(parts[0] + fraction + Zeros(SCALE - |fraction|));
        FromCoefficient(if negative then -coefficient else coefficient)
  }

  function TrimZeros(s: string): (t: string)
    requires AllDigits(s)
    ensures |t| <= |s| && AllDigits(t)
    ensures s == t + Zeros(|s| - |t|)
    ensures t == "" || t[|t| - 1] != '0'
  {
    if s != "" && s[|s| - 1] == '0' then
      var t := TrimZeros(s[..|s| - 1]);
      assert s == s[..|s| - 1] + [s[|s| - 1]];
      t
    else s
  }

  /** The magnitude's numeral, padded so that an integer digit stands before the 18 fractional ones. */
  function PaddedDigits(n: nat): (digits: string)
    ensures |digits| > SCALE && AllDigits(digits)
  {
    var digits := Render(n);
    if |digits| <= SCALE then Zeros(SCALE + 1 - |digits|) + digits else digits
  }

  function Body(integer: string, fraction: string): string {
    if fraction == "" then integer else integer + "." + fraction
  }

  function Unsigned(digits: string): string
    requires |digits| > SCALE && AllDigits(digits)
  {
    Body(digits[..|digits| - SCALE], TrimZeros(digits[|digits| - SCALE..]))
  }

  function Print(d: Decimal): string {
    var magnitude := Unsigned(PaddedDigits(Abs(d)));
    if d < 0 then "-" + magnitude else magnitude
  }

  /** No redundant character: no leading or trailing zero, no bare dot, no negative zero. */
  ghost predicate Canonical(text: string) {
    exists negative: bool, integer: string, fraction: string ::
      && text == Assemble(negative, integer, fraction)
      && CanonicalParts(negative, integer, fraction)
  }

  function Assemble(negative: bool, integer: string, fraction: string): string {
    (if negative then "-" else "") + integer + (if fraction == "" then "" else "." + fraction)
  }

  predicate CanonicalParts(negative: bool, integer: string, fraction: string) {
    && AllDigits(integer) && AllDigits(fraction)
    && integer != "" && (integer[0] == '0' ==> |integer| == 1)
    && (fraction != "" ==> fraction[|fraction| - 1] != '0')
    && (negative ==> integer != "0" || fraction != "")
  }

  lemma {:induction false} SplitAssembled(integer: string, fraction: string)
    requires AllDigits(integer) && AllDigits(fraction)
    ensures SplitDots(integer) == [integer]
    ensures SplitDots(integer + "." + fraction) == [integer, fraction]
  {
    NoDot(integer);
    NoDot(fraction);
    var s := integer + "." + fraction;
    assert IndexOf(s, '.') == |integer| by {
      assert s[|integer|] == '.';
      assert forall j | 0 <= j < |integer| :: s[j] == integer[j];
    }
    assert s[..|integer|] == integer && s[|integer| + 1..] == fraction;
  }

  lemma NoDot(s: string)
    requires AllDigits(s)
    ensures IndexOf(s, '.') == |s|
  {
    assert forall i | 0 <= i < |s| :: IsDigit(s[i]);
  }

  lemma ParseSigned(negative: bool, body: string)
    requires body != "" && IsDigit(body[0])
    ensures Parse(if negative then "-" + body else body) == ParseParts(negative, SplitDots(body))
  {
    var text := if negative then "-" + body else body;
    assert text[if negative then 1 else 0..] == body;
  }

  function Scaled(negative: bool, integer: string, fraction: string): Result<Decimal, Error>
    requires AllDigits(integer) && AllDigits(fraction)
  {
    if |fraction| > SCALE then Failure(ScaleExceeded)
    else
      var magnitude: int := Value(integer + fraction + Zeros(SCALE - |fraction|));
      FromCoefficient(if negative then -magnitude else magnitude)
  }

  lemma AssembleIsSignedBody(negative: bool, integer: string, fraction: string)
    ensures Assemble(negative, integer, fraction) == if negative then "-" + Body(integer, fraction)
            else Body(integer, fraction)
  {
    assert integer + "" == integer && "" + integer == integer;
    assert "" + integer + ("." + fraction) == integer + "." + fraction;
    assert "-" + integer + ("." + fraction) == "-" + (integer + "." + fraction);
  }

  lemma ParseBody(negative: bool, integer: string, fraction: string)
    requires AllDigits(integer) && AllDigits(fraction)
    ensures integer != "" ==>
            ParseParts(negative, SplitDots(Body(integer, fraction))) == Scaled(negative, integer, fraction)
  {
    SplitAssembled(integer, fraction);
  }

  /** What parsing a sign, an integer part and a fraction yields. */
  lemma ParseAssembled(negative: bool, integer: string, fraction: string)
    requires AllDigits(integer) && AllDigits(fraction) && integer != ""
    ensures Parse(Assemble(negative, integer, fraction)) == Scaled(negative, integer, fraction)
  {
    AssembleIsSignedBody(negative, integer, fraction);
    assert Body(integer, fraction)[0] == integer[0] && IsDigit(integer[0]);
    ParseSigned(negative, Body(integer, fraction));
    ParseBody(negative, integer, fraction);
  }

  lemma PaddedValue(n: nat)
    ensures Value(PaddedDigits(n)) == n
  {
    ValueOfRender(n);
    if |Render(n)| <= SCALE {
      LeadingZeros(SCALE + 1 - |Render(n)|, Render(n));
    }
  }

  lemma PiecesOf(s: string, i: nat, middle: string, end: string)
    requires i <= |s| && s[i..] == middle + end
    ensures s[..i] + middle + end == s
  {
    assert s == s[..i] + s[i..];
  }

  lemma CutDigits(digits: string) returns (integer: string, fraction: string)
    requires |digits| > SCALE && AllDigits(digits)
    ensures Unsigned(digits) == Body(integer, fraction)
    ensures AllDigits(integer) && AllDigits(fraction) && |fraction| <= SCALE && integer != ""
    ensures integer + fraction + Zeros(SCALE - |fraction|) == digits
    ensures fraction == "" || fraction[|fraction| - 1] != '0'
  {
    integer := digits[..|digits| - SCALE];
    fraction := TrimZeros(digits[|digits| - SCALE..]);
    PiecesOf(digits, |digits| - SCALE, fraction, Zeros(SCALE - |fraction|));
  }

  lemma PrintParts(d: Decimal) returns (integer: string, fraction: string)
    ensures AllDigits(integer) && AllDigits(fraction) && |fraction| <= SCALE && integer != ""
    ensures Print(d) == Assemble(d < 0, integer, fraction)
    ensures integer + fraction + Zeros(SCALE - |fraction|) == PaddedDigits(Abs(d))
    ensures fraction == "" || fraction[|fraction| - 1] != '0'
  {
    var digits := PaddedDigits(Abs(d));
    integer, fraction := CutDigits(digits);
    AssembleIsSignedBody(d < 0, integer, fraction);
  }

  /** Every representable value survives printing and parsing. */
  lemma ParseInvertsPrint(d: Decimal)
    requires -LIMIT < d < LIMIT
    ensures Parse(Print(d)) == Success(d)
  {
    var integer, fraction := PrintParts(d);
    ParseAssembled(d < 0, integer, fraction);
    ScaledDigits(d < 0, integer, fraction, PaddedDigits(Abs(d)));
    PaddedValue(Abs(d));
  }

  lemma ScaledDigits(negative: bool, integer: string, fraction: string, digits: string)
    requires AllDigits(integer) && AllDigits(fraction) && |fraction| <= SCALE && AllDigits(digits)
    requires integer + fraction + Zeros(SCALE - |fraction|) == digits
    ensures var n: int := Value(digits);
            Scaled(negative, integer, fraction) == FromCoefficient(if negative then -n else n)
  {
  }


  lemma NumeralLength(s: string)
    requires AllDigits(s) && |s| > SCALE && (|s| > SCALE + 1 ==> s[0] != '0')
    ensures PaddedDigits(Value(s)) == s
  {
    PaddedLength(s);
    PaddedValue(Value(s));
    ValueInjective(PaddedDigits(Value(s)), s);
  }

  lemma PaddedLength(s: string)
    requires AllDigits(s) && |s| > SCALE && (|s| > SCALE + 1 ==> s[0] != '0')
    ensures |PaddedDigits(Value(s))| == |s|
  {
    NumeralOf(s);
  }

  /** A numeral without a leading zero is as long as the digits it is read from; no numeral is longer. */
  lemma NumeralOf(s: string)
    requires AllDigits(s) && s != ""
    ensures |Render(Value(s))| <= |s|
    ensures s[0] != '0' && |s| > 1 ==> |Render(Value(s))| == |s|
  {
    ValueBound(s);
    DigitCountBound(Value(s), |s|);
    if s[0] != '0' && |s| > 1 {
      LeadingDigitBound(s);
      DigitCountBound(Value(s), |s| - 1);
    }
  }

  /** Printing never produces a redundant character. */
  lemma PrintIsCanonical(d: Decimal)
    ensures Canonical(Print(d))
  {
    var integer, fraction := PrintParts(d);
    var n := Abs(d);
    var digits := PaddedDigits(n);
    assert |integer| == |digits| - SCALE && integer[0] == digits[0];
    if |integer| > 1 {
      RenderHasNoLeadingZero(n);
      assert digits == Render(n);
      DigitCountBound(0, 1);
    }
    if d < 0 && integer == "0" && fraction == "" {
      PaddedValue(n);
      LeadingZeros(1, Zeros(SCALE));
      assert digits == Zeros(1) + Zeros(SCALE);
      ValueOfZeros(SCALE);
    }
    assert CanonicalParts(d < 0, integer, fraction);
  }

  lemma TrimmedPartsUnique(i1: string, f1: string, i2: string, f2: string)
    requires |f1| <= SCALE && |f2| <= SCALE
    requires f1 != "" ==> f1[|f1| - 1] != '0'
    requires f2 != "" ==> f2[|f2| - 1] != '0'
    requires i1 + f1 + Zeros(SCALE - |f1|) == i2 + f2 + Zeros(SCALE - |f2|)
    ensures i1 == i2 && f1 == f2
  {
    var s, t := i1 + f1 + Zeros(SCALE - |f1|), i2 + f2 + Zeros(SCALE - |f2|);
    assert |i1| == |i2| && i1 == s[..|i1|] && i2 == t[..|i2|];
    assert f1 != "" ==> s[|i1| + |f1| - 1] == f1[|f1| - 1];
    assert f2 != "" ==> t[|i2| + |f2| - 1] == f2[|f2| - 1];
    assert forall k | |i1| + |f1| <= k < |s| :: s[k] == '0';
    assert forall k | |i2| + |f2| <= k < |t| :: t[k] == '0';
    assert f1 == s[|i1|..|i1| + |f1|] && f2 == t[|i2|..|i2| + |f2|];
  }

  lemma CanonicalDigits(negative: bool, integer: string, fraction: string)
    requires CanonicalParts(negative, integer, fraction) && |fraction| <= SCALE
    ensures var digits := integer + fraction + Zeros(SCALE - |fraction|);
            PaddedDigits(Value(digits)) == digits && (negative ==> Value(digits) > 0)
  {
    var digits := integer + fraction + Zeros(SCALE - |fraction|);
    assert digits[0] == integer[0];
    assert fraction != "" ==> digits[|integer| + |fraction| - 1] == fraction[|fraction| - 1];
    NumeralLength(digits);
    if negative && Value(digits) == 0 {
      ValueOfZeros(|digits|);
      ValueInjective(digits, Zeros(|digits|));
    }
  }

  lemma PrintOfParts(negative: bool, integer: string, fraction: string, d: Decimal)
    requires CanonicalParts(negative, integer, fraction) && Scaled(negative, integer, fraction) == Success(d)
    ensures Print(d) == Assemble(negative, integer, fraction)
  {
    CanonicalDigits(negative, integer, fraction);
    var integer', fraction' := PrintParts(d);
    TrimmedPartsUnique(integer, fraction, integer', fraction');
  }

  /** Every canonical text that parses is the print of the value it parses to. */
  lemma PrintInvertsParse(text: string, d: Decimal)
    requires Canonical(text) && Parse(text) == Success(d)
    ensures Print(d) == text
  {
    var negative, integer, fraction :| text == Assemble(negative, integer, fraction)
                                       && CanonicalParts(negative, integer, fraction);
    ParseAssembled(negative, integer, fraction);
    PrintOfParts(negative, integer, fraction, d);
  }

  // ---- Exactly which texts parse ----

  /** Pieces put together again with dots between them. */
  function Joined(parts: seq<string>): string
    requires |parts| >= 1
  {
    if |parts| == 1 then parts[0] else parts[0] + "." + Joined(parts[1..])
  }

  lemma {:induction false} JoinedIsWhole(s: string)
    ensures Joined(SplitDots(s)) == s
  {
    var i := IndexOf(s, '.');
    if i < |s| {
      var rest := s[i + 1..];
      JoinedIsWhole(rest);
      assert SplitDots(s) == [s[..i]] + SplitDots(rest) && SplitDots(s)[1..] == SplitDots(rest);
      PiecesOf(s, i, ".", rest);
    }
  }

  /** A sign or none, digits, and optionally a dot and one to eighteen digits. */
  ghost predicate Numeral(text: string, negative: bool, integer: string, fraction: string) {
    && text == Assemble(negative, integer, fraction)
    && AllDigits(integer) && AllDigits(fraction) && integer != "" && |fraction| <= SCALE
  }

  /** What a numeral denotes, in steps of 10^-18. */
  function Denoted(negative: bool, integer: string, fraction: string): int
    requires AllDigits(integer) && AllDigits(fraction) && |fraction| <= SCALE
  {
    var magnitude := Value(integer) * UNIT + Value(fraction) * Pow10(SCALE - |fraction|);
    if negative then -magnitude else magnitude
  }

  lemma ValueOfPieces(integer: string, fraction: string, zeros: string)
    requires AllDigits(integer) && AllDigits(fraction) && AllDigits(zeros)
    ensures Value(integer + fraction + zeros) ==
            Value(integer) * Pow10(|fraction + zeros|) + Value(fraction) * Pow10(|zeros|) + Value(zeros)
  {
    var tail := fraction + zeros;
    assert AllDigits(tail) && Value(tail) == Value(fraction) * Pow10(|zeros|) + Value(zeros) by {
      ValueOfConcat(fraction, zeros);
    }
    assert AllDigits(integer + tail) && Value(integer + tail) == Value(integer) * Pow10(|tail|) + Value(tail) by {
      ValueOfConcat(integer, tail);
    }
    assert integer + fraction + zeros == integer + tail;
  }

  lemma ScaledIsDenoted(negative: bool, integer: string, fraction: string)
    requires AllDigits(integer) && AllDigits(fraction) && |fraction| <= SCALE
    ensures Scaled(negative, integer, fraction) == FromCoefficient(Denoted(negative, integer, fraction))
  {
    var zeros := Zeros(SCALE - |fraction|);
    ValueOfZeros(SCALE - |fraction|);
    UnitValue();
    ValueOfPieces(integer, fraction, zeros);
    ScaledDigits(negative, integer, fraction, integer + fraction + zeros);
  }

  /** Text that parses is a numeral: nothing else is let through. */
  lemma ParsedIsNumeral(text: string)
    requires Parse(text).Success?
    ensures exists negative: bool, integer: string, fraction: string :: Numeral(text, negative, integer, fraction)
  {
    var negative := text[0] == '-';
    var value := if negative then text[1..] else text;
    var parts := SplitDots(value);
    var fraction := if |parts| == 2 then parts[1] else "";
    assert value == Body(parts[0], fraction) by {
      JoinedIsWhole(value);
      assert |parts| == 2 ==> parts[1..] == [parts[1]];
    }
    AssembleIsSignedBody(negative, parts[0], fraction);
    assert negative ==> text == "-" + value;
    assert Numeral(text, negative, parts[0], fraction);
  }

  /**
   A text parses to a value if and only if it is a numeral with an integer part and at most eighteen decimals that
   denotes the value, and the value has at most 38 digits.
   */
  lemma ParseIsExact(text: string, d: Decimal)
    ensures Parse(text) == Success(d) <==>
            -LIMIT < d < LIMIT && exists negative: bool, integer: string, fraction: string ::
              Numeral(text, negative, integer, fraction) && d == Denoted(negative, integer, fraction)
  {
    if Parse(text).Success? {
      ParsedIsNumeral(text);
    }
    forall negative: bool, integer: string, fraction: string | Numeral(text, negative, integer, fraction)
      ensures Parse(text) == FromCoefficient(Denoted(negative, integer, fraction))
    {
      ParseAssembled(negative, integer, fraction);
      ScaledIsDenoted(negative, integer, fraction);
    }
  }

  // ---- PostgreSQL numeric ----

  /** pgtype.Numeric: `coefficient * 10^exponent` when valid and finite; a missing coefficient is zero. */
  datatype Numeric = Numeric(valid: bool, notANumber: bool, finite: bool, coefficient: Option<int>, exponent: int)

  function NumericValue(d: Decimal): Numeric {
    Numeric(true, false, true, Some(d), -(SCALE as int))
  }

  /** Go's truncated quotient; the remainder has the sign of the dividend. */
  function TruncatedQuotient(n: int, d: nat): (q: int)
    requires d > 0
  {
    if n < 0 then -(Abs(n) / d) else n / d
  }

  /** A variable of type Decimal, as the scanner's receiver. */
  class Cell {
    var value: Decimal

    constructor (initial: Decimal)
      ensures value == initial
    {
      value := initial;
    }

    /** Overwrites the receiver with a database numeric, or reports why the numeric is not a decimal. */
    method ScanNumeric(source: Numeric) returns (outcome: Result<(), Error>)
      modifies this
      ensures outcome == (match Decode(source) case Success(_) => Success(()) case Failure(e) => Failure(e))
      ensures value == (match Decode(source) case Success(d) => d case Failure(_) => old(value))
    {
      if !source.valid {
        return Failure(NullDecimal);
      }
      if source.notANumber || !source.finite {
        return Failure(InvalidDecimal);
      }
      var coefficient := if source.coefficient.Some? then source.coefficient.value else 0;
      var power := source.exponent + SCALE;
      if power >= 0 {
        coefficient := coefficient * Pow10(power);
      } else {
        var divisor := Pow10(-power);
        var quotient := TruncatedQuotient(coefficient, divisor);
        if coefficient - quotient * divisor != 0 {
          return Failure(ScaleExceeded);
        }
        coefficient := quotient;
      }
      var parsed :- FromCoefficient(coefficient);
      value := parsed;
      return Success(());
    }
  }

  /** The value a numeric scans to. */
  function Decode(source: Numeric): Result<Decimal, Error> {
    if !source.valid then Failure(NullDecimal)
    else if source.notANumber || !source.finite then Failure(InvalidDecimal)
    else
      var coefficient := if source.coefficient.Some? then source.coefficient.value else 0;
      var power := source.exponent + SCALE;
      if power >= 0 then FromCoefficient(coefficient * Pow10(power))
      else
        var quotient := TruncatedQuotient(coefficient, Pow10(-power));
        if coefficient != quotient * Pow10(-power) then Failure(ScaleExceeded)
        else FromCoefficient(quotient)
  }

  /** `d / 10^18` is the number the numeric denotes, compared without fractions. */
  ghost predicate Denotes(source: Numeric, d: Decimal) {
    var coefficient := if source.coefficient.Some? then source.coefficient.value else 0;
    var power := source.exponent + SCALE;
    if power >= 0 then d == coefficient * Pow10(power) else d * Pow10(-power) == coefficient
  }

  /** Scanning accepts exactly the finite numerics that equal an in-range decimal, and yields that decimal. */
  lemma DecodeIsExact(source: Numeric, d: Decimal)
    ensures Decode(source) == Success(d) <==>
            && source.valid && !source.notANumber && source.finite
            && -LIMIT < d < LIMIT && Denotes(source, d)
  {
    var power := source.exponent + SCALE;
    if power < 0 {
      var coefficient := if source.coefficient.Some? then source.coefficient.value else 0;
      var divisor := Pow10(-power);
      if d * divisor == coefficient {
        TruncatedIsExact(d, divisor);
      }
    }
  }

  lemma TruncatedIsExact(d: int, k: nat)
    requires k > 0
    ensures TruncatedQuotient(d * k, k) == d
  {
    QuotientIsExact(Abs(d), k);
    assert Abs(d * k) == Abs(d) * k && (d < 0 <==> d * k < 0);
  }

  lemma QuotientIsExact(q: nat, k: nat)
    requires k > 0
    ensures q * k / k == q
  {
    var p := q * k;
    var (q', r) := QuoRem(p, k);
    if q' < q {
      ProductOrder(q', q, k);
    } else if q < q' {
      ProductOrder(q, q', k);
    }
  }

  /** A decimal written to the database and read back is unchanged. */
  lemma ScanInvertsNumericValue(d: Decimal)
    requires -LIMIT < d < LIMIT
    ensures Decode(NumericValue(d)) == Success(d)
  {
    DecodeIsExact(NumericValue(d), d);
  }
}
