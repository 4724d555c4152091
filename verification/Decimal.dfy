/** Money and rates: numbers with eight decimals, held as integers scaled by 10^8. */
module Decimal {
  const SCALE: int := 100_000_000
  const DIGITS: int := 8

  function Abs(a: int): nat {
    if a < 0 then -a else a
  }

  /** Integer quotient truncated toward zero. */
  function Quo(a: int, b: int): int
    requires b != 0
  {
    if (a < 0) == (b < 0) then Abs(a) / Abs(b) else -(Abs(a) / Abs(b))
  }

  function Mul(a: int, b: int): int {
    Quo(a * b, SCALE)
  }

  function Div(a: int, b: int): int
    requires b != 0
  {
    Quo(a * SCALE, b)
  }

  function Pow10(n: nat): (p: int)
    ensures p >= 1
  {
    if n == 0 then 1 else 10 * Pow10(n - 1)
  }

  /** The weight of the last digit kept at a precision: 10^(8 - precision), or 0 when nothing is rounded away. */
  function Unit(precision: int): (u: int)
    ensures u >= 0
  {
    if precision >= DIGITS then 0
    else if precision < 0 then Pow10(DIGITS)
    else Pow10(DIGITS - precision)
  }

  /** The number of units a value rounds to, a half going away from zero. */
  function Units(v: int, u: int): int
    requires u > 0
  {
    var q := Quo(v, u);
    if 2 * Abs(v - q * u) >= u then (if v < 0 then q - 1 else q + 1) else q
  }

  /** Half-away-from-zero rounding to a number of decimals. */
  function Round(v: int, precision: int): int {
    var u := Unit(precision);
    if u == 0 then v else Units(v, u) * u
  }

  /** The truncated quotient keeps the dividend's sign and leaves a remainder smaller than the divisor. */
  lemma QuoRemainder(a: int, b: int)
    requires b > 0
    ensures a >= 0 ==> 0 <= a - Quo(a, b) * b < b
    ensures a <= 0 ==> -b < a - Quo(a, b) * b <= 0
  {
    var q := Abs(a) / b;
    assert Abs(a) == q * b + Abs(a) % b;
    if a < 0 {
      assert Quo(a, b) == -q;
      assert Quo(a, b) * b == -(q * b);
    }
  }

  lemma QuoOdd(a: int, b: int)
    requires b > 0
    ensures Quo(-a, b) == -Quo(a, b)
  {
    assert Abs(-a) == Abs(a);
    if a == 0 {
      assert 0 / b == 0;
    }
  }

  lemma MulMonotone(x: int, y: int, b: int)
    requires b >= 0
    ensures x <= y ==> x * b <= y * b
  {
    if x <= y {
      assert (y - x) * b >= 0;
    }
  }

  /** Multiples less than a divisor apart are in order. */
  lemma Squeeze(q: int, p: int, b: int)
    requires b > 0
    requires q * b < p * b + b
    ensures q <= p
  {
    MulMonotone(p + 1, q, b);
  }

  lemma QuoMonotone(a: int, c: int, b: int)
    requires b > 0 && a <= c
    ensures Quo(a, b) <= Quo(c, b)
  {
    hide Quo;
    QuoRemainder(a, b);
    QuoRemainder(c, b);
    if a >= 0 || c <= 0 {
      Squeeze(Quo(a, b), Quo(c, b), b);
    } else {
      Squeeze(Quo(a, b), 0, b);
      Squeeze(0, Quo(c, b), b);
    }
  }

  lemma UnitsOdd(v: int, u: int)
    requires u > 0
    ensures Units(-v, u) == -Units(v, u)
  {
    QuoOdd(v, u);
    QuoRemainder(v, u);
    hide Quo;
    var q := Quo(v, u);
    assert (-q) * u == -(q * u);
    if v == 0 {
      Squeeze(q, 0, u);
      Squeeze(0, q, u);
    }
  }

  lemma RoundOdd(v: int, precision: int)
    ensures Round(-v, precision) == -Round(v, precision)
  {
    hide Units;
    var u := Unit(precision);
    if u != 0 {
      UnitsOdd(v, u);
      assert (-Units(v, u)) * u == -(Units(v, u) * u);
    }
  }

  lemma UnitsClose(v: int, u: int)
    requires u > 0
    ensures 2 * Abs(Units(v, u) * u - v) <= u
  {
    QuoRemainder(v, u);
    hide Quo;
    var q := Quo(v, u);
    assert (q + 1) * u == q * u + u;
    assert (q - 1) * u == q * u - u;
  }

  /** Rounding moves a value by at most half a unit. */
  lemma RoundHalfUnit(v: int, precision: int)
    ensures 2 * Abs(Round(v, precision) - v) <= Unit(precision)
  {
    var u := Unit(precision);
    if u != 0 {
      UnitsClose(v, u);
    }
  }

  lemma UnitsMonotone(v: int, w: int, u: int)
    requires u > 0 && v <= w
    ensures Units(v, u) <= Units(w, u)
  {
    QuoMonotone(v, w, u);
    QuoRemainder(v, u);
    QuoRemainder(w, u);
    hide Quo;
    var p, q := Quo(v, u), Quo(w, u);
    if v < 0 <= w {
      Squeeze(p, 0, u);
      Squeeze(0, q, u);
    } else if p < q && v >= 0 {
      assert (p + 1) * u == p * u + u;
    }
  }

  lemma RoundMonotone(v: int, w: int, precision: int)
    requires v <= w
    ensures Round(v, precision) <= Round(w, precision)
  {
    hide Units;
    var u := Unit(precision);
    if u != 0 {
      UnitsMonotone(v, w, u);
      var p, q := Units(v, u), Units(w, u);
      assert (q - p) * u >= 0;
      assert (q - p) * u == q * u - p * u;
    }
  }

  /** The weight of the last digit kept, written out. */
  ghost function Weight(precision: int): int {
    if precision >= 8 then 1
    else if precision == 7 then 10
    else if precision == 6 then 100
    else if precision == 5 then 1_000
    else if precision == 4 then 10_000
    else if precision == 3 then 100_000
    else if precision == 2 then 1_000_000
    else if precision == 1 then 10_000_000
    else 100_000_000
  }

  lemma UnitWeight(precision: int)
    ensures Unit(precision) == if precision >= 8 then 0 else Weight(precision)
  {
    assert Pow10(1) == 10 && Pow10(2) == 100 && Pow10(3) == 1_000 && Pow10(4) == 10_000;
    assert Pow10(5) == 100_000 && Pow10(6) == 1_000_000 && Pow10(7) == 10_000_000 && Pow10(8) == 100_000_000;
  }

  /**
   * Of the multiples of the weight, rounding picks the one nearest to the value, and of two as near the one farther
   * from zero; with eight digits or more that is the value itself.
   */
  lemma RoundExactly(v: int, precision: int, k: int)
    ensures var u := Weight(precision);
      k * u == Round(v, precision) <==>
        -u <= 2 * (k * u - v) <= u && (2 * (k * u - v) == u ==> v > 0) && (2 * (k * u - v) == -u ==> v < 0)
  {
    UnitWeight(precision);
    hide Unit;
    if precision < 8 {
      var u := Weight(precision);
      UnitsNearest(v, u, k);
      assert u % 2 == 0 && u > 0;
      hide Units, Weight;
      SameMultiple(k, Units(v, u), u);
    }
  }

  lemma SameMultiple(a: int, b: int, u: int)
    requires u > 0
    ensures a * u == b * u <==> a == b
  {
    if a < b { MulMonotone(a + 1, b, u); }
    if b < a { MulMonotone(b + 1, a, u); }
  }

  lemma UnitsNear(v: int, u: int)
    requires u > 0 && u % 2 == 0
    ensures Nearest(v, u, Units(v, u) * u)
  {
    QuoRemainder(v, u);
    hide Quo;
    var q := Quo(v, u);
    assert (q + 1) * u == q * u + u;
    assert (q - 1) * u == q * u - u;
    UnitsRest(v, q * u, u);
  }

  lemma UnitsRest(v: int, low: int, u: int)
    requires u > 0 && (v >= 0 ==> 0 <= v - low < u) && (v <= 0 ==> -u < v - low <= 0)
    ensures Nearest(v, u, if 2 * Abs(v - low) >= u then (if v < 0 then low - u else low + u) else low)
  {
  }

  /** A value is within half a unit, and when exactly so farther from zero. */
  predicate Nearest(v: int, u: int, near: int) {
    -u <= 2 * (near - v) <= u && (2 * (near - v) == u ==> v > 0) && (2 * (near - v) == -u ==> v < 0)
  }

  lemma NearestOnce(v: int, u: int, a: int, b: int)
    requires u > 0 && a < b && Nearest(v, u, a * u)
    ensures !Nearest(v, u, b * u)
  {
    MulMonotone(a + 1, b, u);
    assert (a + 1) * u == a * u + u;
    NearestApart(v, u, a * u, b * u);
  }

  lemma NearestApart(v: int, u: int, a: int, b: int)
    requires u > 0 && a + u <= b && Nearest(v, u, a)
    ensures !Nearest(v, u, b)
  {
  }

  /** The nearest number of units, a half going away from zero, and the only such number. */
  lemma UnitsNearest(v: int, u: int, k: int)
    requires u > 0 && u % 2 == 0
    ensures k == Units(v, u) <==> Nearest(v, u, k * u)
  {
    hide Units, Nearest;
    UnitsNear(v, u);
    var n := Units(v, u);
    if k < n {
      if Nearest(v, u, k * u) { NearestOnce(v, u, k, n); }
    } else if k > n {
      NearestOnce(v, u, n, k);
    }
  }

  /** The quotient is truncated: what is left over is smaller than the divisor and has the dividend's sign. */
  predicate Truncated(a: int, b: int, k: int) {
    (a >= 0 ==> 0 <= a - k * b < b) && (a <= 0 ==> -b < a - k * b <= 0)
  }

  /** Truncation leaves no choice. */
  lemma QuoExactly(a: int, b: int, k: int)
    requires b > 0
    ensures k == Quo(a, b) <==> Truncated(a, b, k)
  {
    QuoRemainder(a, b);
    hide Quo;
    if Truncated(a, b, k) {
      Squeeze(k, Quo(a, b), b);
      Squeeze(Quo(a, b), k, b);
    }
  }

  /** Products and quotients of eight-decimal numbers are cut, not rounded, to eight decimals. */
  lemma CutExactly(a: int, b: int, k: int)
    ensures k == Mul(a, b) <==> Truncated(a * b, 100_000_000, k)
    ensures b > 0 ==> (k == Div(a, b) <==> Truncated(a * 100_000_000, b, k))
    ensures b < 0 ==> (k == Div(a, b) <==> Truncated(-a * 100_000_000, -b, k))
  {
    QuoExactly(a * b, SCALE, k);
    if b > 0 {
      QuoExactly(a * SCALE, b, k);
    } else if b < 0 {
      QuoFlipped(a * SCALE, b);
      QuoExactly(-(a * SCALE), -b, k);
    }
  }

  lemma QuoFlipped(a: int, b: int)
    requires b != 0
    ensures Quo(a, b) == Quo(-a, -b)
  {
    if a == 0 {
      assert 0 / Abs(b) == 0;
    }
  }
}
