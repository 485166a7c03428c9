/** Printing and reading natural numbers in base ten. */
module Decimal {
  import opened Text

  predicate IsDigit(c: char) { '0' <= c <= '9' }

  predicate AllDigits(s: string) { forall c <- s :: IsDigit(c) }

  function DigitChar(d: nat): (c: char)
    requires d < 10
    ensures IsDigit(c) && DigitValue(c) == d
  {
    ('0' as int + d) as char
  }

  function DigitValue(c: char): (d: nat)
    requires IsDigit(c)
    ensures d < 10 && ('0' as int + d) as char == c
  {
    c as int - '0' as int
  }

  /** `${n}` for a non-negative integer. */
  function Digits(n: nat): (s: string)
    ensures s != "" && AllDigits(s)
    ensures |s| == 1 <==> n < 10
  {
    if n < 10 then [DigitChar(n)] else Digits(n / 10) + [DigitChar(n % 10)]
  }

  /** `Number(s)` for a string of digits, before rounding to a double. */
  function Value(s: string): nat
    requires AllDigits(s)
  {
    if s == "" then 0 else 10 * Value(s[..|s| - 1]) + DigitValue(s[|s| - 1])
  }

  predicate Canonical(s: string) { |s| == 1 || (s != "" && s[0] != '0') }

  lemma {:induction false} ValueOfDigits(n: nat)
    ensures Value(Digits(n)) == n
    ensures Canonical(Digits(n))
    ensures n > 0 ==> Digits(n)[0] != '0'
  {
    if n >= 10 {
      ValueOfDigits(n / 10);
      var s := Digits(n);
      assert s[..|s| - 1] == Digits(n / 10);
    }
  }

  lemma DigitsInjective(m: nat, n: nat)
    requires Digits(m) == Digits(n)
    ensures m == n
  {
    ValueOfDigits(m);
    ValueOfDigits(n);
  }

  lemma {:induction false} ValuePositive(s: string)
    requires AllDigits(s) && s != "" && s[0] != '0'
    ensures Value(s) > 0
  {
    if |s| > 1 { ValuePositive(s[..|s| - 1]); }
  }

  lemma {:induction false} DigitsOfCanonical(s: string)
    requires AllDigits(s) && Canonical(s)
    ensures Digits(Value(s)) == s
  {
    if |s| > 1 {
      ValuePositive(s[..|s| - 1]);
      DigitsOfCanonical(s[..|s| - 1]);
      assert s == s[..|s| - 1] + [s[|s| - 1]];
    }
  }

  /** Reading then printing gives the text back exactly when it has no
      superfluous leading zero. */
  lemma DigitsOfValue(s: string)
    requires AllDigits(s) && s != ""
    ensures Digits(Value(s)) == s <==> Canonical(s)
  {
    ValueOfDigits(Value(s));
    if Canonical(s) { DigitsOfCanonical(s); }
  }

  function Pow10(k: nat): (p: nat)
    ensures p >= 1
  {
    if k == 0 then 1 else 10 * Pow10(k - 1)
  }

  /** The last `w` digits of `n`, zero-padded on the left. */
  function Fixed(n: nat, w: nat): (s: string)
    ensures |s| == w && AllDigits(s)
  {
    if w == 0 then "" else Fixed(n / 10, w - 1) + [DigitChar(n % 10)]
  }

  lemma {:induction false} ValueOfFixed(n: nat, w: nat)
    requires n < Pow10(w)
    ensures Value(Fixed(n, w)) == n
  {
    if w > 0 {
      ValueOfFixed(n / 10, w - 1);
      assert Fixed(n, w)[..w - 1] == Fixed(n / 10, w - 1);
    }
  }

  /** On numbers of one fixed width, text order is number order. */
  lemma {:induction false} FixedOrder(a: nat, b: nat, w: nat)
    requires a < Pow10(w) && b < Pow10(w)
    ensures Less(Fixed(a, w), Fixed(b, w)) <==> a < b
  {
    if w > 0 {
      FixedOrder(a / 10, b / 10, w - 1);
      LessAppend(Fixed(a / 10, w - 1), [DigitChar(a % 10)], Fixed(b / 10, w - 1), [DigitChar(b % 10)]);
      if Fixed(a / 10, w - 1) == Fixed(b / 10, w - 1) {
        ValueOfFixed(a / 10, w - 1);
        ValueOfFixed(b / 10, w - 1);
      }
      assert DigitChar(a % 10) < DigitChar(b % 10) <==> a % 10 < b % 10;
      assert Less([DigitChar(a % 10)], [DigitChar(b % 10)]) <==> a % 10 < b % 10;
    }
  }
}
