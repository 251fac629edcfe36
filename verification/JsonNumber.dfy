/** Finite numbers as JSON texts: the layout of ECMAScript's Number::toString and the number grammar of section 6
    of RFC 8259. A double is represented by its shortest decimal digits and the position of its point. */
module JsonNumber {
  import opened Basics
  import opened Numerals
  import opened Text

  /** `Dec` is 0.d1d2...dk times ten to the power `point`. */
  datatype Num = Zero | Dec(neg: bool, digits: seq<nat>, point: int)

  predicate IsNum(n: Num) {
    n.Dec? ==> DigitsOf(n.digits, 10) && n.digits != [] && n.digits[0] != 0 && n.digits[|n.digits| - 1] != 0
  }

  datatype Parsed<T> = Parsed(value: T, rest: Str)

  const PLUS: Unit := 43
  const MINUS: Unit := 45
  const DOT: Unit := 46
  const DIGIT_ZERO: Unit := 48
  const UPPER_E: Unit := 69
  const LOWER_E: Unit := 101

  predicate IsDigit(u: Unit) {
    DIGIT_ZERO <= u < DIGIT_ZERO + 10
  }

  function DigitText(ds: seq<nat>): (t: Str)
    requires DigitsOf(ds, 10)
    ensures |t| == |ds| && forall i :: 0 <= i < |t| ==> t[i] == DIGIT_ZERO + ds[i]
  {
    seq(|ds|, i requires 0 <= i < |ds| => (DIGIT_ZERO + ds[i]) as Unit)
  }

  // ---------------------------------------------------------------- printing

  function Mantissa(ds: seq<nat>): Str
    requires DigitsOf(ds, 10) && ds != []
  {
    if |ds| == 1 then DigitText(ds) else DigitText(ds[..1]) + [DOT] + DigitText(ds[1..])
  }

  function Exponent(e: int): Str {
    [LOWER_E] + (if e < 0 then [MINUS] + DigitText(ToDigits(-e, 10)) else [PLUS] + DigitText(ToDigits(e, 10)))
  }

  function Layout(ds: seq<nat>, n: int): Str
    requires DigitsOf(ds, 10) && ds != []
  {
    if |ds| <= n <= 21 then DigitText(ds + Zeros(n - |ds|))
    else if 0 < n <= 21 then DigitText(ds[..n]) + [DOT] + DigitText(ds[n..])
    else if -6 < n <= 0 then [DIGIT_ZERO, DOT] + DigitText(Zeros(-n) + ds)
    else Mantissa(ds) + Exponent(n - 1)
  }

  function PrintNumber(n: Num): (t: Str)
    requires IsNum(n)
  {
    match n
    case Zero => [DIGIT_ZERO]
    case Dec(neg, ds, point) => if neg then [MINUS] + Layout(ds, point) else Layout(ds, point)
  }

  // ---------------------------------------------------------------- parsing

  function SpanDigits(t: Str): (r: (seq<nat>, Str))
    ensures DigitsOf(r.0, 10) && |r.0| + |r.1| == |t|
  {
    if t == [] || !IsDigit(t[0]) then ([], t)
    else
      var (ds, rest) := SpanDigits(t[1..]);
      ([(t[0] - DIGIT_ZERO) as nat] + ds, rest)
  }

  function StripTrailing(ds: seq<nat>): (r: seq<nat>)
    ensures |r| <= |ds| && r == ds[..|r|] && (r != [] ==> r[|r| - 1] != 0)
  {
    if ds != [] && ds[|ds| - 1] == 0 then StripTrailing(ds[..|ds| - 1]) else ds
  }

  /** The number of the digits `ds` with the point after the first `point` of them. */
  function Normal(neg: bool, ds: seq<nat>, point: int): Num {
    var zeros := LeadingZeros(ds);
    var core := StripTrailing(ds[zeros..]);
    if core == [] then Zero else Dec(neg, core, point - zeros)
  }

  function ParseExponent(neg: bool, ds: seq<nat>, point: int, t: Str): (r: Option<Parsed<Num>>)
    ensures r.Some? ==> |r.value.rest| <= |t|
  {
    if t == [] || (t[0] != LOWER_E && t[0] != UPPER_E) then Some(Parsed(Normal(neg, ds, point), t))
    else
      var signed := |t| > 1 && (t[1] == PLUS || t[1] == MINUS);
      var (e, rest) := SpanDigits(if signed then t[2..] else t[1..]);
      if e == [] then None
      else
        var shift := FromDigits(e, 10);
        Some(Parsed(Normal(neg, ds, if signed && t[1] == MINUS then point - shift else point + shift), rest))
  }

  function ParseUnsigned(neg: bool, t: Str): (r: Option<Parsed<Num>>)
    ensures r.Some? ==> |r.value.rest| < |t|
  {
    var (whole, u) := SpanDigits(t);
    if whole == [] || (|whole| > 1 && whole[0] == 0) then None
    else if u == [] || u[0] != DOT then ParseExponent(neg, whole, |whole|, u)
    else
      var (fraction, v) := SpanDigits(u[1..]);
      if fraction == [] then None else ParseExponent(neg, whole + fraction, |whole|, v)
  }

  function ParseNumber(t: Str): (r: Option<Parsed<Num>>)
    ensures r.Some? ==> |r.value.rest| < |t|
  {
    if t != [] && t[0] == MINUS then ParseUnsigned(true, t[1..]) else ParseUnsigned(false, t)
  }

  // ---------------------------------------------------------------- round trip

  /** No digit follows. */
  predicate NoDigit(rest: Str) {
    rest == [] || !IsDigit(rest[0])
  }

  /** Nothing follows that could still belong to a number. */
  predicate NumberEnds(rest: Str) {
    rest == [] || (!IsDigit(rest[0]) && rest[0] != DOT && rest[0] != LOWER_E && rest[0] != UPPER_E)
  }

  lemma {:induction false} SpanOfDigits(ds: seq<nat>, rest: Str)
    requires DigitsOf(ds, 10) && NoDigit(rest)
    ensures SpanDigits(DigitText(ds) + rest) == (ds, rest)
  {
    if ds == [] {
      assert DigitText(ds) + rest == rest;
    } else {
      var t := DigitText(ds) + rest;
      assert t[1..] == DigitText(ds[1..]) + rest;
      SpanOfDigits(ds[1..], rest);
      assert ds == [ds[0]] + ds[1..];
    }
  }

  lemma {:induction false} StripZeros(ds: seq<nat>, n: nat)
    requires ds != [] && ds[|ds| - 1] != 0
    ensures StripTrailing(ds + Zeros(n)) == ds
  {
    if n == 0 {
      assert ds + Zeros(0) == ds;
    } else {
      var all := ds + Zeros(n);
      assert all[..|all| - 1] == ds + Zeros(n - 1);
      StripZeros(ds, n - 1);
    }
  }

  /** Zeros around the digits change nothing but the place of the point. */
  lemma NormalOfPadded(neg: bool, before: nat, ds: seq<nat>, after: nat, point: int)
    requires ds != [] && ds[0] != 0 && ds[|ds| - 1] != 0
    ensures Normal(neg, Zeros(before) + (ds + Zeros(after)), point) == Dec(neg, ds, point - before)
  {
    CountZeros(before, ds + Zeros(after));
    StripZeros(ds, after);
  }

  lemma NormalOfDigits(neg: bool, ds: seq<nat>, point: int)
    requires ds != [] && ds[0] != 0 && ds[|ds| - 1] != 0
    ensures Normal(neg, ds, point) == Dec(neg, ds, point)
  {
    NormalOfPadded(neg, 0, ds, 0, point);
    assert Zeros(0) + (ds + Zeros(0)) == ds;
  }

  predicate Digits(ds: seq<nat>) {
    DigitsOf(ds, 10) && ds != [] && ds[0] != 0 && ds[|ds| - 1] != 0
  }

  lemma ParseWhole(neg: bool, whole: seq<nat>, rest: Str)
    requires DigitsOf(whole, 10) && whole != [] && NoDigit(rest) && (rest != [] ==> rest[0] != DOT)
    requires |whole| > 1 ==> whole[0] != 0
    ensures ParseUnsigned(neg, DigitText(whole) + rest) == ParseExponent(neg, whole, |whole|, rest)
  {
    SpanOfDigits(whole, rest);
  }

  lemma NoExponent(neg: bool, ds: seq<nat>, point: int, rest: Str)
    requires NumberEnds(rest)
    ensures ParseExponent(neg, ds, point, rest) == Some(Parsed(Normal(neg, ds, point), rest))
  {
  }

  lemma ParsePlain(neg: bool, all: seq<nat>, rest: Str)
    requires DigitsOf(all, 10) && all != [] && all[0] != 0 && NumberEnds(rest)
    ensures ParseUnsigned(neg, DigitText(all) + rest) == Some(Parsed(Normal(neg, all, |all|), rest))
  {
    ParseWhole(neg, all, rest);
    NoExponent(neg, all, |all|, rest);
  }

  lemma NormalOfWhole(neg: bool, ds: seq<nat>, n: nat)
    requires Digits(ds) && |ds| <= n
    ensures Normal(neg, ds + Zeros(n - |ds|), n) == Dec(neg, ds, n)
  {
    var all := ds + Zeros(n - |ds|);
    NormalOfPadded(neg, 0, ds, n - |ds|, n);
    assert Zeros(0) + all == all;
  }

  lemma WholeRoundTrip(neg: bool, ds: seq<nat>, n: nat, rest: Str)
    requires Digits(ds) && |ds| <= n && NumberEnds(rest)
    ensures ParseUnsigned(neg, DigitText(ds + Zeros(n - |ds|)) + rest) == Some(Parsed(Dec(neg, ds, n), rest))
  {
    ParsePlain(neg, ds + Zeros(n - |ds|), rest);
    NormalOfWhole(neg, ds, n);
  }

  /** A whole part and a fraction, followed by what ends them. */
  lemma PointRoundTrip(neg: bool, whole: seq<nat>, fraction: seq<nat>, rest: Str)
    requires DigitsOf(whole, 10) && DigitsOf(fraction, 10) && whole != [] && fraction != [] && NoDigit(rest)
    requires |whole| > 1 ==> whole[0] != 0
    ensures ParseUnsigned(neg, DigitText(whole) + ([DOT] + (DigitText(fraction) + rest))) == ParseExponent(neg, whole + fraction, |whole|, rest)
  {
    var tail := [DOT] + (DigitText(fraction) + rest);
    SpanOfDigits(whole, tail);
    assert tail[1..] == DigitText(fraction) + rest;
    SpanOfDigits(fraction, rest);
  }

  lemma ParseFraction(neg: bool, whole: seq<nat>, fraction: seq<nat>, rest: Str)
    requires DigitsOf(whole, 10) && DigitsOf(fraction, 10) && whole != [] && fraction != [] && NumberEnds(rest)
    requires |whole| > 1 ==> whole[0] != 0
    ensures ParseUnsigned(neg, DigitText(whole) + ([DOT] + (DigitText(fraction) + rest)))
      == Some(Parsed(Normal(neg, whole + fraction, |whole|), rest))
  {
    PointRoundTrip(neg, whole, fraction, rest);
    NoExponent(neg, whole + fraction, |whole|, rest);
  }

  lemma Regroup(a: Str, b: Str, c: Str, d: Str)
    ensures a + b + c + d == a + (b + (c + d))
  {
  }

  lemma RegroupThree(a: Str, b: Str, c: Str)
    ensures a + b + c == a + (b + c)
  {
  }

  lemma NormalOfSplit(neg: bool, ds: seq<nat>, n: nat)
    requires Digits(ds) && n <= |ds|
    ensures Normal(neg, ds[..n] + ds[n..], n) == Dec(neg, ds, n)
  {
    assert ds[..n] + ds[n..] == ds;
    NormalOfDigits(neg, ds, n);
  }

  lemma MiddleRoundTrip(neg: bool, ds: seq<nat>, n: nat, rest: Str)
    requires Digits(ds) && 0 < n < |ds| && NumberEnds(rest)
    ensures ParseUnsigned(neg, DigitText(ds[..n]) + [DOT] + DigitText(ds[n..]) + rest) == Some(Parsed(Dec(neg, ds, n), rest))
  {
    ParseFraction(neg, ds[..n], ds[n..], rest);
    Regroup(DigitText(ds[..n]), [DOT], DigitText(ds[n..]), rest);
    NormalOfSplit(neg, ds, n);
  }

  lemma NormalOfSmall(neg: bool, ds: seq<nat>, n: int)
    requires Digits(ds) && n <= 0
    ensures Normal(neg, [0] + (Zeros(-n) + ds), 1) == Dec(neg, ds, n)
  {
    assert [0] + (Zeros(-n) + ds) == Zeros(1 - n) + (ds + Zeros(0));
    NormalOfPadded(neg, 1 - n, ds, 0, 1);
  }

  lemma SmallRoundTrip(neg: bool, ds: seq<nat>, n: int, rest: Str)
    requires Digits(ds) && n <= 0 && NumberEnds(rest)
    ensures ParseUnsigned(neg, [DIGIT_ZERO, DOT] + DigitText(Zeros(-n) + ds) + rest) == Some(Parsed(Dec(neg, ds, n), rest))
  {
    ParseFraction(neg, [0], Zeros(-n) + ds, rest);
    ZeroPointFraction(Zeros(-n) + ds, rest);
    NormalOfSmall(neg, ds, n);
  }

  lemma ZeroPointFraction(fraction: seq<nat>, rest: Str)
    requires DigitsOf(fraction, 10)
    ensures [DIGIT_ZERO, DOT] + DigitText(fraction) + rest == DigitText([0]) + ([DOT] + (DigitText(fraction) + rest))
  {
    assert DigitText([0]) == [DIGIT_ZERO];
  }

  lemma ParseSignedText(neg: bool, ds: seq<nat>, point: int, t: Str, minus: bool, e: seq<nat>, rest: Str)
    requires |t| > 1 && t[0] == LOWER_E && t[1] == (if minus then MINUS else PLUS) && SpanDigits(t[2..]) == (e, rest) && e != []
    ensures ParseExponent(neg, ds, point, t)
      == Some(Parsed(Normal(neg, ds, if minus then point - FromDigits(e, 10) else point + FromDigits(e, 10)), rest))
  {
  }

  lemma ParseSigned(neg: bool, ds: seq<nat>, point: int, minus: bool, e: seq<nat>, rest: Str)
    requires DigitsOf(e, 10) && e != [] && NoDigit(rest)
    ensures ParseExponent(neg, ds, point, [LOWER_E, if minus then MINUS else PLUS] + (DigitText(e) + rest))
      == Some(Parsed(Normal(neg, ds, if minus then point - FromDigits(e, 10) else point + FromDigits(e, 10)), rest))
  {
    var t := [LOWER_E, if minus then MINUS else PLUS] + (DigitText(e) + rest);
    assert t[2..] == DigitText(e) + rest;
    SpanOfDigits(e, rest);
    ParseSignedText(neg, ds, point, t, minus, e, rest);
  }

  lemma ExponentText(e: int, rest: Str)
    ensures Exponent(e) + rest ==
      [LOWER_E, if e < 0 then MINUS else PLUS] + (DigitText(ToDigits(if e < 0 then -e else e, 10)) + rest)
  {
  }

  lemma SizeOfExponent(size: nat)
    requires size > 0
    ensures ToDigits(size, 10) != [] && FromDigits(ToDigits(size, 10), 10) == size
  {
    NoLeadingZero(size, 10);
    FromTo(size, 10);
  }

  lemma ExponentRoundTrip(neg: bool, ds: seq<nat>, point: int, e: int, rest: Str)
    requires e != 0 && NumberEnds(rest)
    ensures ParseExponent(neg, ds, point, Exponent(e) + rest) == Some(Parsed(Normal(neg, ds, point + e), rest))
  {
    var size := if e < 0 then -e else e;
    SizeOfExponent(size);
    ExponentText(e, rest);
    ParseSigned(neg, ds, point, e < 0, ToDigits(size, 10), rest);
  }

  lemma MantissaText(ds: seq<nat>, tail: Str)
    requires DigitsOf(ds, 10) && |ds| > 1
    ensures Mantissa(ds) + tail == DigitText(ds[..1]) + ([DOT] + (DigitText(ds[1..]) + tail))
  {
  }

  lemma ParseMantissa(neg: bool, ds: seq<nat>, tail: Str)
    requires Digits(ds) && tail != [] && tail[0] == LOWER_E
    ensures ParseUnsigned(neg, Mantissa(ds) + tail) == ParseExponent(neg, ds, 1, tail)
  {
    if |ds| == 1 {
      ParseWhole(neg, ds, tail);
    } else {
      PointRoundTrip(neg, ds[..1], ds[1..], tail);
      MantissaText(ds, tail);
      assert ds[..1] + ds[1..] == ds;
    }
  }

  lemma ExponentStarts(e: int, rest: Str)
    ensures Exponent(e) + rest != [] && (Exponent(e) + rest)[0] == LOWER_E
  {
  }

  lemma LargeRoundTrip(neg: bool, ds: seq<nat>, n: int, rest: Str)
    requires Digits(ds) && n != 1 && NumberEnds(rest)
    ensures ParseUnsigned(neg, Mantissa(ds) + Exponent(n - 1) + rest) == Some(Parsed(Dec(neg, ds, n), rest))
  {
    ExponentStarts(n - 1, rest);
    ParseMantissa(neg, ds, Exponent(n - 1) + rest);
    ExponentRoundTrip(neg, ds, 1, n - 1, rest);
    NormalOfDigits(neg, ds, n);
    RegroupThree(Mantissa(ds), Exponent(n - 1), rest);
  }

  lemma LayoutRoundTrip(neg: bool, ds: seq<nat>, n: int, rest: Str)
    requires Digits(ds) && NumberEnds(rest)
    ensures ParseUnsigned(neg, Layout(ds, n) + rest) == Some(Parsed(Dec(neg, ds, n), rest))
  {
    if |ds| <= n <= 21 {
      WholeRoundTrip(neg, ds, n, rest);
    } else if 0 < n <= 21 {
      MiddleRoundTrip(neg, ds, n, rest);
    } else if -6 < n <= 0 {
      SmallRoundTrip(neg, ds, n, rest);
    } else {
      LargeRoundTrip(neg, ds, n, rest);
    }
  }

  lemma LayoutStartsWithDigit(ds: seq<nat>, n: int)
    requires Digits(ds)
    ensures Layout(ds, n) != [] && IsDigit(Layout(ds, n)[0])
  {
  }

  lemma ZeroRoundTrip(rest: Str)
    requires NumberEnds(rest)
    ensures ParseNumber([DIGIT_ZERO] + rest) == Some(Parsed(Zero, rest))
  {
    assert DigitText([0]) == [DIGIT_ZERO];
    ParseWhole(false, [0], rest);
    NoExponent(false, [0], 1, rest);
    assert Normal(false, [0], 1) == Zero;
  }

  lemma NegativeText(t: Str, rest: Str)
    ensures ParseNumber([MINUS] + t + rest) == ParseUnsigned(true, t + rest)
  {
    assert ([MINUS] + t + rest)[1..] == t + rest;
  }

  lemma PositiveText(t: Str, rest: Str)
    requires t != [] && IsDigit(t[0])
    ensures ParseNumber(t + rest) == ParseUnsigned(false, t + rest)
  {
  }

  /** Every finite number is read back from its text, whatever follows it that is no part of a number. */
  lemma {:induction false} NumberRoundTrip(n: Num, rest: Str)
    requires IsNum(n) && NumberEnds(rest)
    ensures ParseNumber(PrintNumber(n) + rest) == Some(Parsed(n, rest))
    ensures PrintNumber(n) != [] && (PrintNumber(n)[0] == MINUS || IsDigit(PrintNumber(n)[0]))
  {
    match n
    case Zero => ZeroRoundTrip(rest);
    case Dec(neg, ds, point) =>
      LayoutRoundTrip(neg, ds, point, rest);
      LayoutStartsWithDigit(ds, point);
      if neg {
        NegativeText(Layout(ds, point), rest);
      } else {
        PositiveText(Layout(ds, point), rest);
      }
  }
}
