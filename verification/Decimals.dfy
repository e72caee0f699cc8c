/** Decimal numerals without sign or leading zeros. */
module Decimals {

  predicate Digit(c: char) {
    '0' <= c <= '9'
  }

  predicate AllDigits(s: string) {
    forall i :: 0 <= i < |s| ==> Digit(s[i])
  }

  function DigitChar(d: nat): (c: char)
    requires d < 10
    ensures Digit(c)
  {
    '0' + d as char
  }

  function DigitValue(c: char): (d: nat)
    requires Digit(c)
    ensures d < 10
  {
    (c - '0') as nat
  }

  /** The numeral of n. */
  function Numeral(n: nat): (s: string)
    ensures s != [] && AllDigits(s)
  {
    if n < 10 then [DigitChar(n)] else Numeral(n / 10) + [DigitChar(n % 10)]
  }

  /** The value of a string of digits. */
  function Value(s: string): nat
    requires AllDigits(s)
  {
    if s == [] then 0 else 10 * Value(s[..|s| - 1]) + DigitValue(s[|s| - 1])
  }

  /** What [1-9][0-9]* matches. */
  predicate Positive(s: string) {
    s != [] && AllDigits(s) && s[0] != '0'
  }

  lemma {:induction false} NumeralValue(n: nat)
    ensures Value(Numeral(n)) == n
  {
    var s := Numeral(n);
    if n < 10 {
      assert s[..|s| - 1] == [];
    } else {
      NumeralValue(n / 10);
      assert s[..|s| - 1] == Numeral(n / 10);
    }
  }

  lemma {:induction false} NumeralPositive(n: nat)
    requires n >= 1
    ensures Positive(Numeral(n))
  {
    if n >= 10 {
      NumeralPositive(n / 10);
    }
  }

  lemma {:induction false} PositiveValue(s: string)
    requires Positive(s)
    ensures Value(s) >= 1
  {
    var front := s[..|s| - 1];
    if |s| == 1 {
      assert front == [];
      assert DigitValue(s[0]) >= 1;
    } else {
      assert Positive(front);
      PositiveValue(front);
    }
  }

  lemma NumeralStep(q: nat, d: nat)
    requires q >= 1 && d < 10
    ensures Numeral(10 * q + d) == Numeral(q) + [DigitChar(d)]
  {
    assert (10 * q + d) / 10 == q && (10 * q + d) % 10 == d;
  }

  lemma DigitRoundTrip(c: char)
    requires Digit(c)
    ensures DigitChar(DigitValue(c)) == c
  {
  }

  /** Canonical numerals and positive numbers correspond one to one. */
  lemma {:induction false} ValueNumeral(s: string)
    requires Positive(s)
    ensures Numeral(Value(s)) == s
  {
    var front, last := s[..|s| - 1], s[|s| - 1];
    DigitRoundTrip(last);
    hide DigitChar, DigitValue;
    if |s| == 1 {
      assert front == [] && Value(s) == DigitValue(last);
    } else {
      assert Positive(front);
      PositiveValue(front);
      ValueNumeral(front);
      hide Numeral;
      NumeralStep(Value(front), DigitValue(last));
      assert s == front + [last];
    }
  }
}
