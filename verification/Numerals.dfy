/** Decimal numerals as text: canonical whole numbers and fixed-width digit strings. */
module Numerals {

  predicate IsDigit(c: char) {
    '0' <= c <= '9'
  }

  predicate AllDigits(s: string) {
    forall i | 0 <= i < |s| :: IsDigit(s[i])
  }

  /** One or more digits without a redundant leading zero. */
  predicate IsNumeral(s: string) {
    s != "" && AllDigits(s) && (s[0] == '0' ==> |s| == 1)
  }

  function Digit(n: nat): (c: char)
    requires n < 10
    ensures IsDigit(c)
  {
    '0' + n as char
  }

  function DigitValue(c: char): nat {
    if IsDigit(c) then (c - '0') as nat else 0
  }

  /** The number a digit string denotes. */
  function Value(s: string): nat {
    if s == "" then 0 else Value(s[..|s| - 1]) * 10 + DigitValue(s[|s| - 1])
  }

  function Pow10(n: nat): (p: nat)
    ensures p > 0
  {
    if n == 0 then 1 else 10 * Pow10(n - 1)
  }

  /** The canonical numeral of n. */
  function Numeral(n: nat): string {
    if n < 10 then [Digit(n)] else Numeral(n / 10) + [Digit(n % 10)]
  }

  /** The last `width` digits of n, padded with zeros on the left. */
  function Padded(n: nat, width: nat): (s: string)
    ensures |s| == width
  {
    if width == 0 then "" else Padded(n / 10, width - 1) + [Digit(n % 10)]
  }

  lemma {:induction false} NumeralRoundTrip(n: nat)
    ensures IsNumeral(Numeral(n)) && Value(Numeral(n)) == n
    ensures n > 0 ==> Numeral(n)[0] != '0'
  {
    if n < 10 {
      assert Numeral(n)[..0] == "";
    } else {
      NumeralRoundTrip(n / 10);
      assert Numeral(n)[..|Numeral(n)| - 1] == Numeral(n / 10);
    }
  }

  lemma {:induction false} NumeralOfValue(s: string)
    requires IsNumeral(s)
    ensures Numeral(Value(s)) == s
    ensures s[0] != '0' ==> Value(s) > 0
  {
    var front := s[..|s| - 1];
    if |s| == 1 {
      assert front == "" && s == [s[0]];
    } else {
      NumeralOfValue(front);
      var last := DigitValue(s[|s| - 1]);
      var v := Value(s);
      assert v == Value(front) * 10 + last && last < 10 && Value(front) > 0;
      assert v >= 10 && v / 10 == Value(front) && v % 10 == last;
      hide Value;
      assert Numeral(v) == Numeral(v / 10) + [Digit(v % 10)];
      assert s == front + [Digit(last)];
    }
  }

  lemma {:induction false} PaddedRoundTrip(n: nat, width: nat)
    requires n < Pow10(width)
    ensures AllDigits(Padded(n, width)) && Value(Padded(n, width)) == n
  {
    if width > 0 {
      PaddedRoundTrip(n / 10, width - 1);
      hide Pow10;
      var s := Padded(n, width);
      assert s[..width - 1] == Padded(n / 10, width - 1) && s[width - 1] == Digit(n % 10);
    }
  }

  lemma {:induction false} PaddedOfValue(s: string)
    requires AllDigits(s)
    ensures Value(s) < Pow10(|s|) && Padded(Value(s), |s|) == s
  {
    if s != "" {
      var front := s[..|s| - 1];
      var last := DigitValue(s[|s| - 1]);
      PaddedOfValue(front);
      assert Value(s) == Value(front) * 10 + last && last < 10;
      assert Value(s) / 10 == Value(front) && Value(s) % 10 == last;
      assert Padded(Value(s), |s|) == Padded(Value(front), |front|) + [Digit(last)];
      assert s == front + [s[|s| - 1]];
    }
  }

  function Zeros(n: nat): (s: string)
    ensures |s| == n
  {
    seq(n, _ => '0')
  }

  /** Zeros on the right scale the value. */
  lemma {:induction false} ValueOfPadEnd(s: string, n: nat)
    ensures Value(s + Zeros(n)) == Value(s) * Pow10(n)
  {
    if n == 0 {
      assert s + Zeros(0) == s;
    } else {
      ValueOfPadEnd(s, n - 1);
      var padded := s + Zeros(n);
      assert padded[..|padded| - 1] == s + Zeros(n - 1);
      assert padded[|padded| - 1] == '0';
      assert Value(s) * Pow10(n - 1) * 10 == Value(s) * Pow10(n);
    }
  }

  /** The length of a numeral bounds its value, and the other way round. */
  lemma {:induction false} NumeralLength(n: nat, width: nat)
    requires width > 0
    ensures |Numeral(n)| <= width <==> n < Pow10(width)
  {
    if n < 10 {
      assert Pow10(width) >= 10 by { Pow10AtLeastTen(width); }
    } else if width == 1 {
      assert Pow10(1) == 10 * Pow10(0);
      NumeralRoundTrip(n / 10);
    } else {
      NumeralLength(n / 10, width - 1);
    }
  }

  lemma {:induction false} Pow10AtLeastTen(width: nat)
    requires width > 0
    ensures Pow10(width) >= 10
  {
    if width > 1 {
      Pow10AtLeastTen(width - 1);
    }
  }
}
