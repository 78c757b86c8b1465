/** The angle test of the parser: rounding to 15 significant digits always stays
    within its tolerance. */
module Tolerance {
  import opened Text
  import opened Decimals

  function Scale(e: int): (r: real)
    ensures r > 0.0
    decreases if e < 0 then -e else e
  {
    if e == 0 then 1.0 else if e > 0 then 10.0 * Scale(e - 1) else Scale(e + 1) / 10.0
  }

  /** m * 10^e. */
  function Mag(m: nat, e: int): real { m as real * Scale(e) }

  function ToReal(d: Decimal): real { if d.neg then -Mag(d.mant, d.exp) else Mag(d.mant, d.exp) }

  function Abs(x: real): real { if x < 0.0 then -x else x }

  const TOLERANCE := 0.000000000001

  /** `math.isclose` with rel_tol = abs_tol = 1e-12, over exact numbers. */
  predicate IsClose(a: real, b: real) {
    || Abs(a - b) <= TOLERANCE * Abs(b)
    || Abs(a - b) <= TOLERANCE * Abs(a)
    || Abs(a - b) <= TOLERANCE
  }

  lemma TenTimes(x: real, n: nat, s: real)
    requires x == 10.0 * n as real
    ensures x * s == n as real * (10.0 * s)
  {
  }

  lemma MagTen(n: nat, e: int)
    ensures Mag(10 * n, e) == Mag(n, e + 1)
  {
    assert Scale(e + 1) == 10.0 * Scale(e);
    TenTimes((10 * n) as real, n, Scale(e));
  }

  lemma {:induction false} MagPow(n: nat, k: nat, e: int)
    ensures Mag(n * Pow10(k), e) == Mag(n, e + k)
    decreases k
  {
    if k > 0 {
      MulSwap(n, Pow10(k - 1));
      MagTen(n * Pow10(k - 1), e);
      hide Mag;
      MagPow(n, k - 1, e + 1);
    }
  }

  /** The value does not depend on the representation. */
  lemma {:induction false} NormalizeValue(neg: bool, mant: nat, exp: int)
    ensures ToReal(Normalize(neg, mant, exp)) == ToReal(Decimal(neg, mant, exp))
    decreases mant
  {
    assert Mag(0, exp) == 0.0 && Mag(0, 0) == 0.0;
    hide Mag;
    if mant != 0 && mant % 10 == 0 {
      NormalizeValue(neg, mant / 10, exp + 1);
      MagTen(mant / 10, exp);
      assert mant == 10 * (mant / 10);
    }
  }

  /** Rounding half to even moves a number by at most half a unit. */
  lemma RoundError(n: nat, unit: nat)
    requires unit >= 1
    ensures var diff := RoundHalfEven(n, unit) * unit - n; 0 <= 2 * diff + unit && 2 * diff <= unit
  {
    var q := n / unit;
    assert n == q * unit + n % unit;
    assert (q + 1) * unit == q * unit + unit;
  }

  /** A number of n digits is at least 10^14 units of its 15th digit. */
  lemma UnitBound(n: nat)
    requires |Digits(n)| > SIGNIFICANT
    ensures 100_000_000_000_000 * Pow10(|Digits(n)| - SIGNIFICANT) <= n
  {
    var k := |Digits(n)| - SIGNIFICANT;
    DigitsBound(n);
    PowAdd(14, k);
    assert Pow10(14) == 100_000_000_000_000 by {
      assert Pow10(4) == 10_000 && Pow10(2) == 100;
      PowAdd(4, 4);
      PowAdd(8, 4);
      PowAdd(12, 2);
    }
  }

  /** Two mantissas at the same scale, apart by a 10^-12th of the second. */
  lemma MagClose(x: nat, y: nat, e: int)
    requires 0 <= 1_000_000_000_000 * (x - y) + y && 1_000_000_000_000 * (x - y) <= y
    ensures Abs(Mag(x, e) - Mag(y, e)) <= TOLERANCE * Mag(y, e) && Mag(y, e) >= 0.0
  {
    var s := Scale(e);
    var (rx, ry) := (x as real, y as real);
    assert rx - ry <= TOLERANCE * ry && ry - rx <= TOLERANCE * ry;
    MulOrder(rx - ry, TOLERANCE * ry, s);
    MulOrder(ry - rx, TOLERANCE * ry, s);
    MulOrder(0.0, ry, s);
    assert (rx - ry) * s == rx * s - ry * s && (ry - rx) * s == ry * s - rx * s;
    assert TOLERANCE * ry * s == TOLERANCE * (ry * s);
  }

  lemma MulOrder(x: real, y: real, s: real)
    requires x <= y && s > 0.0
    ensures x * s <= y * s
  {
  }

  /** Rounding to 15 significant digits stays within the tolerance. */
  lemma RoundClose(d: Param)
    ensures IsClose(ToReal(Round15(d)), ToReal(d))
  {
    var n := |Digits(d.mant)|;
    if n > SIGNIFICANT {
      var k := n - SIGNIFICANT;
      var q := RoundHalfEven(d.mant, Pow10(k));
      RoundError(d.mant, Pow10(k));
      UnitBound(d.mant);
      hide Mag, RoundHalfEven, Pow10, Digits, Normalize;
      NormalizeValue(d.neg, q, d.exp + k);
      MagPow(q, k, d.exp);
      MagClose(q * Pow10(k), d.mant, d.exp);
    }
  }
}
