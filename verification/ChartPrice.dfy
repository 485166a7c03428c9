/** interface/src/lib/helpers/utils.ts, formatChartPrice: cutting the digits of a price.

    Prices are exact decimals. From 10^21 on the integer part prints with an exponent;
    such prices are not part of this model. */
module ChartPrice {
  import opened Decimal

  /** A decimal number: sign, integer part, and the digits after the point. */
  datatype Price = Price(negative: bool, whole: nat, fraction: string)

  predicate WellFormed(p: Price) {
    && AllDigits(p.fraction) && p.whole < Pow10(21)
    && (p.fraction != "" ==> p.fraction[|p.fraction| - 1] != '0')
  }

  /** The value of digits after the point. */
  function Fraction(s: string): real
    requires AllDigits(s)
  {
    if s == "" then 0.0 else (DigitValue(s[0]) as real + Fraction(s[1..])) / 10.0
  }

  function ValueOf(p: Price): real
    requires AllDigits(p.fraction)
  {
    var magnitude := p.whole as real + Fraction(p.fraction);
    if p.negative then -magnitude else magnitude
  }

  function Slice(s: string, n: nat): string { if |s| <= n then s else s[..n] }

  /** The printed integer part decides how many decimals are kept. */
  function FormatChartPrice(p: Price): real
    requires WellFormed(p)
  {
    if ValueOf(p) < 0.0001 then ValueOf(p) else
      var integerPart := Digits(p.whole);
      var length := if |integerPart| > 2 then 2 else if |integerPart| == 2 then 3 else 8;
      Value(integerPart) as real + Fraction(Slice(p.fraction, length))
  }

  // ---- the same as arithmetic ----

  function StepsPerUnit(x: real): real {
    if x >= 100.0 then 100.0 else if x >= 10.0 then 1000.0 else 100000000.0
  }

  /** Rounding down to 2, 3 or 8 decimals from 100, 10 and 0.0001 on. */
  function Truncated(x: real): real {
    if x < 0.0001 then x
    else if x >= 100.0 then (x * 100.0).Floor as real / 100.0
    else if x >= 10.0 then (x * 1000.0).Floor as real / 1000.0
    else (x * 100000000.0).Floor as real / 100000000.0
  }

  lemma {:induction false} FractionBounds(s: string)
    requires AllDigits(s)
    ensures 0.0 <= Fraction(s) < 1.0
  {
    if s != "" {
      FractionBounds(s[1..]);
      assert DigitValue(s[0]) <= 9;
    }
  }

  /** `x` with the point moved n places to the right. */
  function MovePoint(x: real, n: nat): real
    decreases n
  {
    if n == 0 then x else MovePoint(10.0 * x, n - 1)
  }

  /** The integer part `k` with the first n digits after the point read onto it. */
  function ReadOnto(k: nat, s: string, n: nat): nat
    requires AllDigits(s)
    decreases n
  {
    if n == 0 then k
    else if s == "" then ReadOnto(10 * k, s, n - 1)
    else ReadOnto(10 * k + DigitValue(s[0]), s[1..], n - 1)
  }

  /** Cutting after n digits leaves a whole number of n-th parts, and cuts off less than one. */
  lemma {:induction false} SliceIsFloor(k: nat, s: string, n: nat)
    requires AllDigits(s)
    ensures AllDigits(Slice(s, n))
    ensures MovePoint(k as real + Fraction(Slice(s, n)), n) == ReadOnto(k, s, n) as real
    ensures ReadOnto(k, s, n) as real <= MovePoint(k as real + Fraction(s), n) < ReadOnto(k, s, n) as real + 1.0
    decreases n
  {
    FractionBounds(s);
    if n == 0 {
      assert Slice(s, 0) == "";
    } else if s == "" {
      SliceIsFloor(10 * k, s, n - 1);
      assert 10.0 * (k as real) == (10 * k) as real;
    } else {
      var k' := 10 * k + DigitValue(s[0]);
      SliceIsFloor(k', s[1..], n - 1);
      var cut := Slice(s[1..], n - 1);
      assert Slice(s, n) == [s[0]] + cut && ([s[0]] + cut)[1..] == cut;
      assert 10.0 * (k as real + Fraction(Slice(s, n))) == k' as real + Fraction(cut);
      assert 10.0 * (k as real + Fraction(s)) == k' as real + Fraction(s[1..]);
    }
  }

  lemma MovePointByTwo(x: real, n: nat)
    ensures MovePoint(x, n + 2) == MovePoint(100.0 * x, n)
  {
    assert MovePoint(x, n + 2) == MovePoint(10.0 * x, n + 1) == MovePoint(10.0 * (10.0 * x), n);
  }

  lemma MovePointIs(x: real)
    ensures MovePoint(x, 2) == 100.0 * x && MovePoint(x, 3) == 1000.0 * x && MovePoint(x, 8) == 100000000.0 * x
  {
    MovePointByTwo(x, 0);
    MovePointByTwo(x, 1);
    assert MovePoint(100.0 * x, 1) == MovePoint(10.0 * (100.0 * x), 0);
    MovePointByTwo(x, 6);
    MovePointByTwo(100.0 * x, 4);
    MovePointByTwo(10000.0 * x, 2);
    MovePointByTwo(1000000.0 * x, 0);
  }

  /** When `shown` counts whole steps and `x` is less than a step above it, cutting x gives it. */
  lemma CutIs(x: real, shown: real, count: int)
    ensures 100.0 * shown == count as real <= 100.0 * x < count as real + 1.0 ==>
      (x * 100.0).Floor as real / 100.0 == shown
    ensures 1000.0 * shown == count as real <= 1000.0 * x < count as real + 1.0 ==>
      (x * 1000.0).Floor as real / 1000.0 == shown
    ensures 100000000.0 * shown == count as real <= 100000000.0 * x < count as real + 1.0 ==>
      (x * 100000000.0).Floor as real / 100000000.0 == shown
  {
    FloorIs(x * 100.0, count);
    FloorIs(x * 1000.0, count);
    FloorIs(x * 100000000.0, count);
  }

  lemma FloorIs(x: real, n: int)
    ensures n as real <= x < n as real + 1.0 ==> x.Floor == n
  {
  }

  /** Slicing the digits of a price is rounding it down. */
  lemma SlicingIsTruncation(p: Price)
    requires WellFormed(p)
    ensures FormatChartPrice(p) == Truncated(ValueOf(p))
  {
    hide Fraction, MovePoint, ReadOnto, Digits, Value, Slice, Pow10;
    var x := ValueOf(p);
    FractionBounds(p.fraction);
    if x >= 0.0001 {
      ValueOfDigits(p.whole);
      HundredHasThreeDigits(p.whole);
      var n := if p.whole >= 100 then 2 else if p.whole >= 10 then 3 else 8;
      SliceIsFloor(p.whole, p.fraction, n);
      var shown := FormatChartPrice(p);
      assert shown == p.whole as real + Fraction(Slice(p.fraction, n));
      MovePointIs(x);
      MovePointIs(shown);
      CutIs(x, shown, ReadOnto(p.whole, p.fraction, n));
      assert x >= 100.0 <==> p.whole >= 100;
      assert x >= 10.0 <==> p.whole >= 10;
    }
  }

  lemma HundredHasThreeDigits(n: nat)
    ensures |Digits(n)| > 2 <==> n >= 100
    ensures |Digits(n)| == 2 <==> 10 <= n < 100
  {
  }

  lemma TruncatedBounds(x: real)
    requires x >= 0.0001
    ensures x - 1.0 / StepsPerUnit(x) < Truncated(x) <= x
    ensures x >= 100.0 ==> Truncated(x) >= 100.0
    ensures x >= 10.0 ==> Truncated(x) >= 10.0
    ensures Truncated(x) >= 0.0001
  {
  }

  /** The error is never negative and less than one step of the shown precision. */
  lemma FormatError(p: Price)
    requires WellFormed(p)
    ensures 0.0 <= ValueOf(p) - FormatChartPrice(p) < 1.0 / StepsPerUnit(ValueOf(p))
  {
    SlicingIsTruncation(p);
    if ValueOf(p) >= 0.0001 { TruncatedBounds(ValueOf(p)); }
  }

  /** Larger prices never show smaller, also where the precision changes. */
  lemma FormatIsMonotone(p: Price, q: Price)
    requires WellFormed(p) && WellFormed(q) && ValueOf(p) <= ValueOf(q)
    ensures FormatChartPrice(p) <= FormatChartPrice(q)
  {
    SlicingIsTruncation(p);
    SlicingIsTruncation(q);
    TruncatedIsMonotone(ValueOf(p), ValueOf(q));
  }

  lemma TruncatedIsMonotone(x: real, y: real)
    requires x <= y
    ensures Truncated(x) <= Truncated(y)
  {
    if x >= 0.0001 { TruncatedBounds(x); }
    if y >= 0.0001 { TruncatedBounds(y); }
    FloorIsMonotone(x * 100.0, y * 100.0);
    FloorIsMonotone(x * 1000.0, y * 1000.0);
    FloorIsMonotone(x * 100000000.0, y * 100000000.0);
  }

  lemma FloorIsMonotone(x: real, y: real)
    requires x <= y
    ensures x.Floor <= y.Floor
  {
  }

  // ---- formatting again ----

  function WithoutEndZeros(s: string): (r: string)
    ensures |r| <= |s| && (r != "" ==> r[|r| - 1] != '0')
  {
    if s != "" && s[|s| - 1] == '0' then WithoutEndZeros(s[..|s| - 1]) else s
  }

  lemma {:induction false} EndZeroAddsNothing(s: string)
    requires AllDigits(s)
    ensures Fraction(s + "0") == Fraction(s)
  {
    if s == "" {
      assert ("" + "0")[1..] == "";
    } else {
      EndZeroAddsNothing(s[1..]);
      assert (s + "0")[1..] == s[1..] + "0";
    }
  }

  lemma {:induction false} EndZerosAddNothing(s: string)
    requires AllDigits(s)
    ensures AllDigits(WithoutEndZeros(s)) && Fraction(WithoutEndZeros(s)) == Fraction(s)
  {
    if s != "" && s[|s| - 1] == '0' {
      var init := s[..|s| - 1];
      assert s == init + "0";
      EndZeroAddsNothing(init);
      EndZerosAddNothing(init);
    }
  }

  /** The formatted price, as a price again. */
  function Shown(p: Price): Price {
    if !AllDigits(p.fraction) || ValueOf(p) < 0.0001 then p else
      var n := if p.whole >= 100 then 2 else if p.whole >= 10 then 3 else 8;
      p.(fraction := WithoutEndZeros(Slice(p.fraction, n)))
  }

  lemma ShownIsFormatted(p: Price)
    requires WellFormed(p)
    ensures WellFormed(Shown(p)) && ValueOf(Shown(p)) == FormatChartPrice(p)
  {
    hide Fraction, Digits, Value, Pow10;
    FractionBounds(p.fraction);
    if ValueOf(p) >= 0.0001 {
      var n := if p.whole >= 100 then 2 else if p.whole >= 10 then 3 else 8;
      ValueOfDigits(p.whole);
      HundredHasThreeDigits(p.whole);
      EndZerosAddNothing(Slice(p.fraction, n));
    }
  }

  /** Formatting what was formatted changes nothing. */
  lemma FormatIsIdempotent(p: Price)
    requires WellFormed(p)
    ensures WellFormed(Shown(p)) && ValueOf(Shown(p)) == FormatChartPrice(p)
    ensures FormatChartPrice(Shown(p)) == FormatChartPrice(p)
  {
    hide ValueOf, WellFormed, Fraction, FormatChartPrice, Truncated, Shown;
    ShownIsFormatted(p);
    SlicingIsTruncation(p);
    SlicingIsTruncation(Shown(p));
    FormattedTwice(p);
  }

  lemma FormattedTwice(p: Price)
    requires WellFormed(p)
    ensures Truncated(Truncated(ValueOf(p))) == Truncated(ValueOf(p))
  {
    hide ValueOf, WellFormed, Truncated;
    WellFormedDigits(p);
    TruncatedIsIdempotent(ValueOf(p));
  }

  lemma WellFormedDigits(p: Price)
    requires WellFormed(p)
    ensures AllDigits(p.fraction)
  {
  }

  lemma TruncatedIsIdempotent(x: real)
    ensures Truncated(Truncated(x)) == Truncated(x)
  {
    if x >= 0.0001 {
      TruncatedBounds(x);
      var t := Truncated(x);
      CutIs(t, t, (x * if x >= 100.0 then 100.0 else if x >= 10.0 then 1000.0 else 100000000.0).Floor);
    }
  }

  /** Negative prices are those of their digits with the sign turned round, and are shown
      in full, as are prices below a tenth of a thousandth. */
  lemma SmallPricesStay(p: Price)
    requires WellFormed(p)
    ensures p.negative ==> ValueOf(p) == -ValueOf(p.(negative := false)) && ValueOf(p) <= 0.0
    ensures !p.negative ==> ValueOf(p) >= p.whole as real
    ensures p.negative || ValueOf(p) < 0.0001 ==> FormatChartPrice(p) == ValueOf(p)
  {
    FractionBounds(p.fraction);
  }
}
