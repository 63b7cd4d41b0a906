/** Half-even division of integers: roundTiesToEven, section 4.3.1 of IEEE 754. */
module Rounding {
  import opened Checks

  const MICRO := 1_000_000

  /** The quotient computed on magnitudes, with the sign put back. */
  function HalfEven(n: int, d: int): int
    requires d > 0
  {
    var sign := if n < 0 then -1 else 1;
    var a := if n < 0 then -n else n;
    var q, r := a / d, a % d;
    sign * (q + if r * 2 > d || (r * 2 == d && q % 2 != 0) then 1 else 0)
  }

  function DivideEven(n: int, d: int): Result<int> {
    var _ :- Need(d > 0);
    Ok(HalfEven(n, d))
  }

  /** The product of two fixed-point numbers, rounded back to six places. */
  function Product(a: int, b: int): int {
    HalfEven(a * b, MICRO)
  }

  /** v is a nearest integer to n/d; if there are two, it is the even one. */
  ghost predicate NearestEven(n: int, d: int, v: int) {
    var gap := 2 * (n - v * d);
    -d <= gap <= d && ((gap == d || gap == -d) ==> v % 2 == 0)
  }

  lemma MagnitudeIsNearest(a: int, d: int)
    requires d > 0 && a >= 0
    ensures NearestEven(a, d, HalfEven(a, d))
  {
    var q, r := a / d, a % d;
    DivisionIdentity(a, d);
    var v := HalfEven(a, d);
    if v == q + 1 {
      assert v * d == q * d + d;
      assert 2 * (a - v * d) == 2 * r - 2 * d;
    } else {
      assert v == q;
      assert 2 * (a - v * d) == 2 * r;
    }
  }

  lemma DivisionIdentity(a: int, d: int)
    requires d > 0
    ensures a == (a / d) * d + a % d && 0 <= a % d < d
  {
  }

  lemma HalfEvenIsNearest(n: int, d: int)
    requires d > 0
    ensures NearestEven(n, d, HalfEven(n, d))
  {
    if n >= 0 {
      MagnitudeIsNearest(n, d);
    } else {
      var v := HalfEven(-n, d);
      MagnitudeIsNearest(-n, d);
      assert HalfEven(n, d) == -v;
      assert (-v) * d == -(v * d);
    }
  }

  lemma NearestEvenIsUnique(n: int, d: int, v: int, w: int)
    requires d > 0 && NearestEven(n, d, v) && NearestEven(n, d, w)
    ensures v == w
  {
    if v < w {
      Apart(d, v, w);
    } else if w < v {
      Apart(d, w, v);
    }
  }

  lemma Apart(d: int, v: int, w: int)
    requires d > 0 && v < w
    ensures w * d - v * d >= d
    ensures w * d - v * d == d ==> w == v + 1
  {
    assert w * d - v * d == (w - v) * d;
    if w - v >= 2 {
      assert (w - v) * d >= 2 * d;
    }
  }

  /** The quotient is characterised by nearness and the tie rule alone. */
  lemma HalfEvenCharacterised(n: int, d: int, v: int)
    requires d > 0
    ensures v == HalfEven(n, d) <==> NearestEven(n, d, v)
  {
    HalfEvenIsNearest(n, d);
    if NearestEven(n, d, v) {
      NearestEvenIsUnique(n, d, v, HalfEven(n, d));
    }
  }

  lemma HalfEvenOdd(n: int, d: int)
    requires d > 0
    ensures HalfEven(-n, d) == -HalfEven(n, d)
  {
    if n == 0 {
      HalfEvenExact(0, d);
    }
  }

  lemma HalfEvenMonotone(m: int, n: int, d: int)
    requires d > 0 && m <= n
    ensures HalfEven(m, d) <= HalfEven(n, d)
  {
    HalfEvenIsNearest(m, d);
    HalfEvenIsNearest(n, d);
    var v, w := HalfEven(m, d), HalfEven(n, d);
    if w < v {
      // Two crossed neighbours would be two nearest values of one number.
      Apart(d, w, v);
      NearestEvenIsUnique(n, d, v, w);
    }
  }

  lemma HalfEvenScales(n: int, d: int, k: int)
    requires d > 0 && k > 0
    ensures k * d > 0 && HalfEven(k * n, k * d) == HalfEven(n, d)
  {
    HalfEvenIsNearest(n, d);
    var v := HalfEven(n, d);
    NearestEvenScales(n, d, v, k);
    HalfEvenCharacterised(k * n, k * d, v);
  }

  lemma NearestEvenScales(n: int, d: int, v: int, k: int)
    requires d > 0 && k > 0 && NearestEven(n, d, v)
    ensures k * d > 0 && NearestEven(k * n, k * d, v)
  {
    var gap := 2 * (n - v * d);
    ScaledGap(n, d, v, k);
    MultiplyOrder(k, gap, d);
    MultiplyOrder(k, -d, gap);
    MultiplyOrder(k, 1, d);
    if gap < d {
      MultiplyOrder(k, gap + 1, d);
    }
    if -d < gap {
      MultiplyOrder(k, -d + 1, gap);
    }
  }

  lemma ScaledGap(n: int, d: int, v: int, k: int)
    ensures 2 * (k * n - v * (k * d)) == k * (2 * (n - v * d))
  {
    assert v * (k * d) == k * (v * d);
  }

  lemma MultiplyOrder(k: int, x: int, y: int)
    requires k > 0 && x <= y
    ensures k * x <= k * y
    ensures k * (x + 1) == k * x + k && k * -x == -(k * x)
  {
    assert k * y - k * x == k * (y - x);
  }

  lemma HalfEvenExact(v: int, d: int)
    requires d > 0
    ensures HalfEven(v * d, d) == v
  {
    HalfEvenCharacterised(v * d, d, v);
  }

  /** Rounding never crosses an integer bound of the exact quotient. */
  lemma HalfEvenWithin(n: int, d: int, low: int, high: int)
    requires d > 0 && low * d <= n <= high * d
    ensures low <= HalfEven(n, d) <= high
  {
    HalfEvenMonotone(low * d, n, d);
    HalfEvenMonotone(n, high * d, d);
    HalfEvenExact(low, d);
    HalfEvenExact(high, d);
  }

  /** A partial release of cost basis lies between zero and the whole basis. */
  lemma PartialReleaseWithinBasis(basis: int, sold: int, held: int)
    requires basis >= 0 && 0 <= sold <= held && held > 0
    ensures 0 <= HalfEven(basis * sold, held) <= basis
    ensures var residual := HalfEven(basis * sold, held) * held - basis * sold;
            -held <= 2 * residual <= held
  {
    MultiplyBounds(basis, sold, held);
    HalfEvenWithin(basis * sold, held, 0, basis);
    HalfEvenIsNearest(basis * sold, held);
  }

  lemma MultiplyBounds(x: int, y: int, z: int)
    requires x >= 0 && 0 <= y <= z
    ensures 0 <= x * y <= x * z
  {
    assert x * z - x * y == x * (z - y);
  }

  /** The largest whole number of micro-units whose exact cost does not exceed the capital. */
  function AffordableUnits(capital: int, price: int): int
    requires capital >= 0 && price > 0
  {
    capital * MICRO / price
  }

  lemma AffordableUnitsCost(capital: int, price: int)
    requires capital >= 0 && price > 0
    ensures var cost := Product(AffordableUnits(capital, price), price);
            && 0 <= cost <= capital
            && MICRO * (capital - cost) <= price - 1 + MICRO / 2
  {
    var units := AffordableUnits(capital, price);
    var exact := units * price;
    assert capital * MICRO == exact + (capital * MICRO) % price;
    assert 0 <= exact <= capital * MICRO;
    HalfEvenWithin(exact, MICRO, 0, capital);
    HalfEvenIsNearest(exact, MICRO);
  }

  /**
   * Sizes the initial benchmark holding, giving up one micro-unit at a time while the rounded
   * cost exceeds the capital. The first count is already affordable, so none is given up.
   */
  method SizeBenchmark(capital: int, price: int) returns (units: int, cash: int)
    requires capital >= 0 && price > 0
    ensures units == AffordableUnits(capital, price)
    ensures cash == capital - Product(units, price)
    ensures 0 <= cash && MICRO * cash <= price - 1 + MICRO / 2
  {
    units := capital * MICRO / price;
    while units > 0 && HalfEven(units * price, MICRO) > capital
      invariant units <= AffordableUnits(capital, price)
      invariant forall u | units < u <= AffordableUnits(capital, price) :: Product(u, price) > capital
      decreases units
    {
      units := units - 1;
    }
    AffordableUnitsCost(capital, price);
    cash := capital - HalfEven(units * price, MICRO);
  }
}
