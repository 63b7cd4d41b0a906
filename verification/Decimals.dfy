/**
 * Fixed-point amounts. A decimal keeps its spelling, so two decimals are equal exactly when
 * their texts are, while Fixed gives the number of millionths they denote.
 */
module Decimals {
  import opened Checks
  import opened Numerals

  /** The parts of a spelled amount: sign, whole part, and `places` digits of fraction. */
  datatype Parts = Parts(negative: bool, whole: nat, fraction: nat, places: nat)

  ghost predicate WellSpelled(p: Parts) {
    p.whole < Pow10(12) && p.places <= 6 && p.fraction < Pow10(p.places)
  }

  function Scale(places: nat): int {
    match places
    case 0 => 1_000_000
    case 1 => 100_000
    case 2 => 10_000
    case 3 => 1_000
    case 4 => 100
    case 5 => 10
    case _ => 1
  }

  /** The amount in millionths. */
  function Fixed(p: Parts): int {
    (if p.negative then -1 else 1) * (p.whole * 1_000_000 + p.fraction * Scale(p.places))
  }

  /** The wire spelling. */
  function Text(p: Parts): string {
    (if p.negative then "-" else "") + Magnitude(p)
  }

  function Magnitude(p: Parts): string {
    Numeral(p.whole) + if p.places == 0 then "" else "." + Padded(p.fraction, p.places)
  }

  /** The position of the first point, or the length of the text. */
  function Point(s: string): (n: nat)
    ensures n <= |s| && (n < |s| ==> s[n] == '.') && forall i | 0 <= i < n :: s[i] != '.'
  {
    if s == "" || s[0] == '.' then 0 else 1 + Point(s[1..])
  }

  function Unsigned(text: string): string {
    if text != "" && text[0] == '-' then text[1..] else text
  }

  function Whole(body: string): string {
    body[..Point(body)]
  }

  function Fraction(body: string): string {
    if Point(body) < |body| then body[Point(body) + 1..] else ""
  }

  /** An optional sign, at most twelve whole digits, and at most six digits after a point. */
  predicate IsDecimal(text: string) {
    var body := Unsigned(text);
    && IsNumeral(Whole(body)) && |Whole(body)| <= 12
    && AllDigits(Fraction(body)) && |Fraction(body)| <= 6
    && (Point(body) < |body| ==> Fraction(body) != "")
  }

  /** Reads an amount from its text, as the wire readers do. */
  function FixedText(text: string): Result<int> {
    var _ :- Need(IsDecimal(text), InvalidSchema);
    var body := Unsigned(text);
    var fraction := Fraction(body);
    Ok((if text[0] == '-' then -1 else 1) *
       (Value(Whole(body)) * 1_000_000 + Value(fraction + Zeros(6 - |fraction|))))
  }

  /** The spelled parts of a decimal text. */
  function Spelled(text: string): Parts {
    var body := Unsigned(text);
    Parts(text != "" && text[0] == '-', Value(Whole(body)), Value(Fraction(body)), |Fraction(body)|)
  }

  lemma ScaleIsPower(places: nat)
    requires places <= 6
    ensures Scale(places) == Pow10(6 - places)
  {
    assert Pow10(1) == 10 && Pow10(2) == 100 && Pow10(3) == 1_000;
    assert Pow10(4) == 10_000 && Pow10(5) == 100_000 && Pow10(6) == 1_000_000;
  }

  lemma PointUnique(s: string, n: nat)
    requires n <= |s| && (n < |s| ==> s[n] == '.') && forall i | 0 <= i < n :: s[i] != '.'
    ensures Point(s) == n
  {
  }

  lemma SplitAtPoint(whole: string, tail: string)
    requires AllDigits(whole) && (tail == "" || tail[0] == '.')
    ensures Point(whole + tail) == |whole|
    ensures Whole(whole + tail) == whole && Fraction(whole + tail) == if tail == "" then "" else tail[1..]
  {
    PointUnique(whole + tail, |whole|);
  }

  lemma BodyOfText(p: Parts)
    requires WellSpelled(p)
    ensures var body := Unsigned(Text(p));
            && Whole(body) == Numeral(p.whole)
            && Fraction(body) == (if p.places == 0 then "" else Padded(p.fraction, p.places))
            && (Point(body) < |body| <==> p.places > 0)
    ensures Text(p) != "" && (Text(p)[0] == '-' <==> p.negative)
  {
    NumeralRoundTrip(p.whole);
    var whole := Numeral(p.whole);
    var tail := if p.places == 0 then "" else "." + Padded(p.fraction, p.places);
    assert Magnitude(p) == whole + tail && Unsigned(Text(p)) == Magnitude(p);
    SplitAtPoint(whole, tail);
  }

  /** Every well-spelled decimal is read back with its spelling and its amount. */
  lemma TextRoundTrip(p: Parts)
    requires WellSpelled(p)
    ensures IsDecimal(Text(p)) && Spelled(Text(p)) == p
    ensures FixedText(Text(p)) == Ok(Fixed(p))
  {
    BodyOfText(p);
    NumeralRoundTrip(p.whole);
    NumeralLength(p.whole, 12);
    PaddedRoundTrip(p.fraction, p.places);
    assert Pow10(0) == 1;
    AmountOfSpelling(Text(p));
  }

  lemma AmountOfSpelling(text: string)
    requires IsDecimal(text)
    ensures FixedText(text) == Ok(Fixed(Spelled(text)))
  {
    var fraction := Fraction(Unsigned(text));
    ScaleIsPower(|fraction|);
    ValueOfPadEnd(fraction, 6 - |fraction|);
  }

  /** Every accepted text is the spelling of a decimal with that amount. */
  lemma SpelledRoundTrip(text: string)
    requires IsDecimal(text)
    ensures WellSpelled(Spelled(text)) && Text(Spelled(text)) == text
    ensures FixedText(text) == Ok(Fixed(Spelled(text)))
  {
    AmountOfSpelling(text);
    PartsOfSpelling(text);
  }

  lemma PartsOfSpelling(text: string)
    requires IsDecimal(text)
    ensures WellSpelled(Spelled(text)) && Text(Spelled(text)) == text
  {
    var body := Unsigned(text);
    var p := Spelled(text);
    var fraction := Fraction(body);
    assert Numeral(p.whole) == Whole(body) && p.whole < Pow10(12) by {
      NumeralOfValue(Whole(body));
      NumeralLength(p.whole, 12);
    }
    assert p.fraction < Pow10(p.places) && Padded(p.fraction, p.places) == fraction by {
      PaddedOfValue(fraction);
    }
    BodySplits(body);
    assert Magnitude(p) == body;
    hide Magnitude, Whole, Fraction, Numeral, Padded;
    assert text == (if p.negative then "-" else "") + body;
  }

  lemma BodySplits(body: string)
    ensures body == Whole(body) + if Point(body) < |body| then "." + Fraction(body) else ""
  {
    var n := Point(body);
    if n < |body| {
      SplitsAt(body, n);
      assert Whole(body) == body[..n] && Fraction(body) == body[n + 1..];
    } else {
      assert Whole(body) == body && body + "" == body;
    }
  }

  lemma SplitsAt(s: string, n: nat)
    requires n < |s| && s[n] == '.'
    ensures s == s[..n] + ("." + s[n + 1..])
  {
  }

  /** Two decimals with one text are one decimal: equality of records is equality of texts. */
  lemma TextInjective(p: Parts, q: Parts)
    requires WellSpelled(p) && WellSpelled(q) && Text(p) == Text(q)
    ensures p == q
  {
    TextRoundTrip(p);
    TextRoundTrip(q);
  }

  /** A decimal on the wire. */
  type Decimal = p: Parts | p.places <= 6 witness Parts(false, 0, 0, 0)

  /** A decimal that may not carry a sign. */
  type Amount = p: Decimal | !p.negative witness Parts(false, 0, 0, 0)

  /** A positive whole number of shares. */
  type Quantity = p: Amount | p.places == 0 && p.fraction == 0 && p.whole > 0 witness Parts(false, 1, 0, 0)

  lemma AmountNonNegative(a: Amount)
    ensures Fixed(a) >= 0
  {
    assert a.fraction * Scale(a.places) >= 0;
  }

  lemma QuantityPositive(q: Quantity)
    ensures Fixed(q) > 0
  {
  }
}
