/**
 A model of the part of `java.math.BigDecimal` that an account balance uses:
 construction from an unscaled integer and a scale, `add`, `subtract`,
 `compareTo` and the scale-sensitive `equals`.

 A decimal stands for the exact rational number `unscaled / 10^scale`. Its
 meaning is given by the ghost function `Value`, a real number; every
 operation is computed on integers alone and is proved to agree with `Value`.
 */
module Decimals {

  /** `unscaled × 10^-scale`. Java also admits negative scales; no value built
      by the account ever has one, so the scale is a `nat` here. */
  datatype Decimal = Decimal(unscaled: int, scale: nat)

  /** `BigDecimal.ZERO`: unscaled value 0 at scale 0. */
  const Zero: Decimal := Decimal(0, 0)

  /** `new BigDecimal(int)`: an integer amount has scale 0. */
  function FromInt(n: int): (d: Decimal)
    ensures Value(d) == n as real
    ensures d.scale == 0
  {
    Decimal(n, 0)
  }

  function Max(a: nat, b: nat): (m: nat)
    ensures m >= a && m >= b
    ensures m == a || m == b
  {
    if a < b then b else a
  }

  function Pow10(n: nat): (p: nat)
    ensures p >= 1
  {
    if n == 0 then 1 else 10 * Pow10(n - 1)
  }

  /** The number a decimal denotes. */
  ghost function Value(d: Decimal): real
  {
    d.unscaled as real / Pow10(d.scale) as real
  }

  lemma {:induction false} Pow10Add(a: nat, b: nat)
    ensures Pow10(a + b) == Pow10(a) * Pow10(b)
  {
    if b == 0 {
    } else {
      Pow10Add(a, b - 1);
      calc {
        Pow10(a + b);
        10 * Pow10(a + b - 1);
        10 * (Pow10(a) * Pow10(b - 1));
        Pow10(a) * (10 * Pow10(b - 1));
        Pow10(a) * Pow10(b);
      }
    }
  }

  /** Multiplying numerator and denominator by the same positive factor does
      not change a quotient. */
  lemma CancelFactor(u: int, p: nat, k: nat)
    requires p >= 1 && k >= 1
    ensures (u * k) as real / (p * k) as real == u as real / p as real
  {
    var x := u as real / p as real;
    assert x * p as real == u as real;
    assert (p * k) as real == p as real * k as real;
    assert (u * k) as real == u as real * k as real;
    assert x * (p * k) as real == (u * k) as real;
  }

  /** At a common scale, sums and differences of decimals are sums and
      differences of unscaled values. */
  lemma SameScaleLinear(x: int, y: int, p: nat)
    requires p >= 1
    ensures (x + y) as real / p as real == x as real / p as real + y as real / p as real
    ensures (x - y) as real / p as real == x as real / p as real - y as real / p as real
  {
  }

  /** At a common scale, the order of decimals is the order of unscaled values. */
  lemma SameScaleOrder(x: int, y: int, p: nat)
    requires p >= 1
    ensures x < y <==> x as real / p as real < y as real / p as real
    ensures x == y <==> x as real / p as real == y as real / p as real
  {
    var q := p as real;
    assert x as real / q * q == x as real;
    assert y as real / q * q == y as real;
    if x as real / q < y as real / q {
      assert x as real / q * q < y as real / q * q;
    }
    if x < y {
      assert x as real < y as real;
    }
  }

  /** The decimal with the same value as `d` at the larger scale `s`
      (`BigDecimal.setScale` without rounding). */
  function Rescale(d: Decimal, s: nat): (r: Decimal)
    requires d.scale <= s
    ensures r.scale == s
    ensures Value(r) == Value(d)
  {
    Pow10Add(d.scale, s - d.scale);
    CancelFactor(d.unscaled, Pow10(d.scale), Pow10(s - d.scale));
    Decimal(d.unscaled * Pow10(s - d.scale), s)
  }

  /** `BigDecimal.add`: exact sum at the larger of the two scales. */
  function Add(a: Decimal, b: Decimal): (r: Decimal)
    ensures r.scale == Max(a.scale, b.scale)
    ensures Value(r) == Value(a) + Value(b)
  {
    var s := Max(a.scale, b.scale);
    var x := Rescale(a, s);
    var y := Rescale(b, s);
    SameScaleLinear(x.unscaled, y.unscaled, Pow10(s));
    Decimal(x.unscaled + y.unscaled, s)
  }

  /** `BigDecimal.subtract`: exact difference at the larger of the two scales. */
  function Subtract(a: Decimal, b: Decimal): (r: Decimal)
    ensures r.scale == Max(a.scale, b.scale)
    ensures Value(r) == Value(a) - Value(b)
  {
    var s := Max(a.scale, b.scale);
    var x := Rescale(a, s);
    var y := Rescale(b, s);
    SameScaleLinear(x.unscaled, y.unscaled, Pow10(s));
    Decimal(x.unscaled - y.unscaled, s)
  }

  /** `BigDecimal.compareTo`: -1, 0 or 1 as `a` is numerically less than,
      equal to or greater than `b`; the scales play no part. */
  function CompareTo(a: Decimal, b: Decimal): (r: int)
    ensures -1 <= r <= 1
    ensures r < 0 <==> Value(a) < Value(b)
    ensures r == 0 <==> Value(a) == Value(b)
    ensures r > 0 <==> Value(a) > Value(b)
  {
    var s := Max(a.scale, b.scale);
    var x := Rescale(a, s);
    var y := Rescale(b, s);
    SameScaleOrder(x.unscaled, y.unscaled, Pow10(s));
    if x.unscaled < y.unscaled then -1
    else if x.unscaled == y.unscaled then 0
    else 1
  }

  /** `BigDecimal.equals`: equal in value AND in scale, so 1.0 and 1.00 differ. */
  function Equals(a: Decimal, b: Decimal): (r: bool)
    ensures r <==> Value(a) == Value(b) && a.scale == b.scale
  {
    SameScaleOrder(a.unscaled, b.unscaled, Pow10(a.scale));
    a.unscaled == b.unscaled && a.scale == b.scale
  }

  /** A decimal is determined by its value and its scale. */
  lemma ValueAndScaleDetermine(a: Decimal, b: Decimal)
    requires Value(a) == Value(b) && a.scale == b.scale
    ensures a == b
  {
    SameScaleOrder(a.unscaled, b.unscaled, Pow10(a.scale));
  }

  /** `compareTo` and `equals` disagree: equal scales are needed for `equals`,
      not for `compareTo`. One direction holds in general ... */
  lemma EqualsImpliesCompareZero(a: Decimal, b: Decimal)
    requires Equals(a, b)
    ensures CompareTo(a, b) == 0
  {
  }

  /** ... the other does not: 1.0 and 1.00 compare equal yet are not `equals`. */
  lemma CompareZeroNotEquals()
    ensures CompareTo(Decimal(10, 1), Decimal(100, 2)) == 0
    ensures !Equals(Decimal(10, 1), Decimal(100, 2))
  {
    assert Rescale(Decimal(10, 1), 2) == Decimal(100, 2);
  }

  /** Adding back what was subtracted restores the number, at the common scale. */
  lemma {:induction false} AddUndoesSubtract(a: Decimal, m: Decimal)
    ensures Add(Subtract(a, m), m) == Rescale(a, Max(a.scale, m.scale))
  {
    ValueAndScaleDetermine(Add(Subtract(a, m), m), Rescale(a, Max(a.scale, m.scale)));
  }
}
