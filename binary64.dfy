/** The float64 arithmetic behind the volume conversion of device.go: finite
    IEEE 754 binary64 values, a product rounded to nearest with ties to even,
    and Go's conversion of a float to an unsigned integer, which truncates
    toward zero. */
module Binary64 {
  import opened Wrappers

  /** 2 to the power n. */
  function Pow2(n: nat): (r: nat)
    ensures r >= 1
  {
    if n == 0 then 1 else 2 * Pow2(n - 1)
  }

  lemma {:induction false} Pow2Add(a: nat, b: nat)
    ensures Pow2(a + b) == Pow2(a) * Pow2(b)
    decreases a
  {
    if a > 0 {
      Pow2Add(a - 1, b);
    }
  }

  lemma {:induction false} Pow2Monotone(a: nat, b: nat)
    requires a <= b
    ensures Pow2(a) <= Pow2(b)
    decreases b
  {
    if a < b {
      Pow2Monotone(a, b - 1);
    }
  }

  lemma Pow2Of16()
    ensures Pow2(16) == 0x1_0000
  {
    assert Pow2(2) == 4;
    Pow2Add(2, 2);
    Pow2Add(4, 4);
    Pow2Add(8, 8);
  }

  lemma Pow2Of52()
    ensures Pow2(52) == 0x10_0000_0000_0000
    ensures Pow2(53) == 0x20_0000_0000_0000
  {
    Pow2Of16();
    Pow2Add(16, 16);
    Pow2Add(32, 16);
    assert Pow2(52) == 16 * Pow2(48);
    assert Pow2(53) == 2 * Pow2(52);
  }

  /** Integer division by a positive p rounds down. */
  lemma FloorDivision(m: nat, p: nat)
    requires p > 0
    ensures 0 <= m / p && (m / p) * p <= m < (m / p + 1) * p
  {
    assert m == (m / p) * p + m % p;
    assert (m / p + 1) * p == (m / p) * p + p;
  }

  /** A number of the form (-1)^negative * significand * 2^exponent. */
  datatype Float = Float(negative: bool, significand: nat, exponent: int)

  /** Every finite float64 is such a number with a significand below 2^53
      and an exponent between -1074 (the subnormal scale) and 971. */
  type Float64 = x: Float | x.significand < 0x20_0000_0000_0000 && -1074 <= x.exponent <= 971
    witness Float(false, 0, 0)

  /** The integer part of m * 2^e, for a non-negative m. */
  function Truncated(m: nat, e: int): (t: nat)
    ensures e >= 0 ==> t == m * Pow2(e)
    ensures e < 0 ==> t * Pow2(-e) <= m < (t + 1) * Pow2(-e)
  {
    if e >= 0 then m * Pow2(e)
    else
      var p := Pow2(-e);
      FloorDivision(m, p);
      m / p
  }

  /** The number of low bits of m that do not fit a 53-bit significand. */
  function Excess(m: nat): (k: nat)
    ensures m < Pow2(53 + k)
    ensures k > 0 ==> Pow2(52 + k) <= m
    decreases m
  {
    if m < Pow2(53) then 0 else 1 + Excess(m / 2)
  }

  /** With m = q * p + r, the multiple q * p is nearest when 2r <= p, and
      the multiple (q + 1) * p when 2r >= p; m lies halfway between them
      exactly when 2r = p. */
  lemma NearestMultiples(m: nat, p: nat, q: nat, r: nat)
    requires p > 0 && r < p && m == q * p + r
    ensures 2 * r <= p ==> 2 * m <= 2 * (q * p) + p && 2 * (q * p) <= 2 * m + p
    ensures 2 * r >= p ==> 2 * m <= 2 * ((q + 1) * p) + p && 2 * ((q + 1) * p) <= 2 * m + p
    ensures (2 * m == 2 * (q * p) + p || 2 * (q * p) == 2 * m + p) <==> 2 * r == p
    ensures (2 * m == 2 * ((q + 1) * p) + p || 2 * ((q + 1) * p) == 2 * m + p) <==> 2 * r == p
  {
    assert (q + 1) * p == q * p + p;
  }

  /** q * 2^k is within half of 2^k of m: q is a nearest multiple's quotient. */
  predicate Rounds(m: nat, q: nat, k: nat)
  {
    && 2 * m <= 2 * (q * Pow2(k)) + Pow2(k)
    && 2 * (q * Pow2(k)) <= 2 * m + Pow2(k)
  }

  /** m is exactly halfway between q * 2^k and one of its neighbouring
      multiples of 2^k. */
  predicate Tie(m: nat, q: nat, k: nat)
  {
    2 * m == 2 * (q * Pow2(k)) + Pow2(k) || 2 * (q * Pow2(k)) == 2 * m + Pow2(k)
  }

  /** m / 2^k rounded to the nearest integer, a tie going to the even one. */
  function RoundedQuotient(m: nat, k: nat): (q: nat)
    ensures Rounds(m, q, k)
    ensures Tie(m, q, k) ==> q % 2 == 0
  {
    var p := Pow2(k);
    var q := m / p;
    FloorDivision(m, p);
    var r := m - q * p;
    NearestMultiples(m, p, q, r);
    if 2 * r > p || (2 * r == p && q % 2 == 1) then q + 1 else q
  }

  /** The float64 product x * 100.00: the exact product, rounded to 53
      significant bits. A product past the float64 range would be an
      infinity; it is kept finite here, since every use of it below treats
      such a value as out of range anyway. */
  function Times100(x: Float64): (y: Float)
    ensures y.negative == x.negative
    ensures var k := y.exponent - x.exponent;
            && k >= 0
            && Rounds(x.significand * 100, y.significand, k)
            && (Tie(x.significand * 100, y.significand, k) ==> y.significand % 2 == 0)
            && x.significand * 100 < Pow2(53 + k)
            && (k > 0 ==> Pow2(52 + k) <= x.significand * 100)
  {
    var m := x.significand * 100;
    var k := Excess(m);
    Float(x.negative, RoundedQuotient(m, k), x.exponent + k)
  }

  /** Go's uint16(y): the value truncated toward zero, or None when that
      does not fit 16 bits, where the language leaves the result to the
      implementation. */
  function ToUint16(y: Float): (v: Option<nat>)
    ensures v.Some? <==> Truncated(y.significand, y.exponent) < 0x1_0000
                         && (y.negative ==> Truncated(y.significand, y.exponent) == 0)
    ensures v.Some? ==> v.value == Truncated(y.significand, y.exponent)
  {
    var t := Truncated(y.significand, y.exponent);
    if t >= 0x1_0000 || (y.negative && t > 0) then None else Some(t)
  }

  /** uint16(x * 100.00) for a finite float64 x. */
  function Percent(x: Float64): (v: Option<nat>)
    ensures v.Some? ==> v.value < 0x1_0000
    ensures v.Some? && x.negative ==> v.value == 0
  {
    ToUint16(Times100(x))
  }

  /** The integer part of the exact product of a non-negative x and 100. */
  function ExactPercent(x: Float64): nat
  {
    Truncated(x.significand * 100, x.exponent)
  }

  lemma MulMonotone(a: nat, b: nat, c: nat)
    requires a <= b
    ensures a * c <= b * c
  {
  }

  /** A strict inequality between multiples of a positive number holds
      between the factors. */
  lemma MulCancel(a: nat, b: nat, c: nat)
    requires c > 0 && a * c < b * c
    ensures a < b
  {
    if a >= b {
      MulMonotone(b, a, c);
    }
  }

  /** r = floor(q / D) gives r = floor(q * K / (D * K)). */
  lemma ScaledFloor(r: nat, q: nat, d: nat, k: nat)
    requires k > 0 && r * d <= q < (r + 1) * d
    ensures r * (d * k) <= q * k < (r + 1) * (d * k)
  {
    MulMonotone(r * d, q, k);
    MulMonotone(q + 1, (r + 1) * d, k);
    assert (r * d) * k == r * (d * k);
    assert ((r + 1) * d) * k == (r + 1) * (d * k);
    assert (q + 1) * k == q * k + k;
  }

  /** Two numbers less than half a unit k apart, with 2k at most p, have
      quotients by p at most one apart. */
  lemma CloseFloors(m: nat, x: nat, t: nat, r: nat, p: nat, k: nat)
    requires p > 0 && 2 * k <= p
    requires 2 * m <= 2 * x + k && 2 * x <= 2 * m + k
    requires t * p <= m < (t + 1) * p
    requires r * p <= x < (r + 1) * p
    ensures r <= t + 1 && t <= r + 1
  {
    assert (t + 2) * p == (t + 1) * p + p;
    assert (r + 2) * p == (r + 1) * p + p;
    MulCancel(r, t + 2, p);
    MulCancel(t, r + 2, p);
  }

  /** The large case on plain numbers: m >= b * k, q * k rounds m, and r is
      q scaled by f >= 1; then m and r are at least b. */
  lemma LargeCore(m: nat, q: nat, k: nat, b: nat, r: nat, f: nat)
    requires k >= 1 && b >= 1 && f >= 1 && 2 * m <= 2 * (q * k) + k && b * k <= m
    requires r == q * f
    ensures r >= b && m >= b
  {
    assert (2 * b - 1) * k < (2 * q + 1) * k;
    MulCancel(2 * b - 1, 2 * q + 1, k);
    MulMonotone(1, f, q);
    MulMonotone(1, k, b);
  }

  /** floor(m / j) is at least b when m >= b * k and j <= k. */
  lemma LargeFloor(m: nat, b: nat, k: nat, j: nat, t: nat)
    requires j >= 1 && j <= k && b * k <= m && m < (t + 1) * j
    ensures t >= b
  {
    MulMonotone(j, k, b);
    assert b * j < (t + 1) * j;
    MulCancel(b, t + 1, j);
  }

  /** When the rounded product's exponent is not negative, the exact and the
      rounded products are both at least 2^52. */
  lemma LargeProduct(m: nat, q: nat, k: nat, e: int)
    requires 2 * m <= 2 * (q * Pow2(k)) + Pow2(k)
    requires k > 0 && Pow2(52 + k) <= m && e + k >= 0
    ensures Truncated(m, e) >= Pow2(52) && Truncated(q, e + k) >= Pow2(52)
  {
    Pow2Add(52, k);
    LargeCore(m, q, Pow2(k), Pow2(52), Truncated(q, e + k), Pow2(e + k));
    if e >= 0 {
      MulMonotone(1, Pow2(e), m);
    } else {
      Pow2Monotone(-e, k);
      LargeFloor(m, Pow2(52), Pow2(k), Pow2(-e), Truncated(m, e));
    }
  }

  /** The small case on plain numbers: p = d * k with d >= 2, r = floor(q / d),
      t = floor(m / p), and q * k rounds m. */
  lemma SmallCore(m: nat, q: nat, t: nat, r: nat, d: nat, k: nat, p: nat)
    requires k >= 1 && d >= 2 && p == d * k
    requires r * d <= q < (r + 1) * d
    requires t * p <= m < (t + 1) * p
    requires 2 * m <= 2 * (q * k) + k && 2 * (q * k) <= 2 * m + k
    ensures r <= t + 1 && t <= r + 1
  {
    MulMonotone(2, d, k);
    ScaledFloor(r, q, d, k);
    CloseFloors(m, q * k, t, r, p, k);
  }

  /** When the rounded product's exponent is negative, the rounding error is
      below the unit that truncation drops, so the integer parts of the exact
      and the rounded products are at most one apart. */
  lemma SmallProduct(m: nat, q: nat, k: nat, e: int)
    requires 2 * m <= 2 * (q * Pow2(k)) + Pow2(k)
    requires 2 * (q * Pow2(k)) <= 2 * m + Pow2(k)
    requires e + k < 0
    ensures Truncated(m, e) <= Truncated(q, e + k) + 1
    ensures Truncated(q, e + k) <= Truncated(m, e) + 1
  {
    var d := -(e + k);
    Pow2Add(d, k);
    Pow2Monotone(1, d);
    SmallCore(m, q, Truncated(m, e), Truncated(q, e + k), Pow2(d), Pow2(k), Pow2(-e));
  }

  /** Rounding to 53 bits moves a product whose integer part fits 16 bits by
      less than one: both integer parts are then within one of each other.
      Here m is the exact significand, q the rounded one, k the dropped bits. */
  lemma RoundedTruncation(m: nat, q: nat, k: nat, e: int, f: int)
    requires Rounds(m, q, k) && f == e + k
    requires k > 0 ==> Pow2(52 + k) <= m
    requires Truncated(m, e) < 0x1_0000 || Truncated(q, f) < 0x1_0000
    ensures Truncated(m, e) <= Truncated(q, f) + 1
    ensures Truncated(q, f) <= Truncated(m, e) + 1
  {
    if k == 0 {
      assert Pow2(k) == 1;
      assert q == m;
    } else if f >= 0 {
      Pow2Of16();
      Pow2Monotone(16, 52);
      LargeProduct(m, q, k, e);
    } else {
      SmallProduct(m, q, k, e);
    }
  }

  /** The integer part of the rounded product is within one of that of the
      exact product when either fits 16 bits, and equal to it when the
      product needs no rounding. */
  lemma RoundedProduct(x: Float64)
    ensures var t := Truncated(x.significand * 100, x.exponent);
            var r := Truncated(Times100(x).significand, Times100(x).exponent);
            && (t < 0x1_0000 || r < 0x1_0000 ==> t <= r + 1 && r <= t + 1)
            && (x.significand * 100 < Pow2(53) ==> r == t)
  {
    var y := Times100(x);
    RoundedScale(x.significand * 100, y.significand, y.exponent - x.exponent, x.exponent, y.exponent);
  }

  /** RoundedProduct for a product m rounded to q at the scale 2^k. */
  lemma RoundedScale(m: nat, q: nat, k: nat, e: int, f: int)
    requires Rounds(m, q, k) && f == e + k
    requires k > 0 ==> Pow2(52 + k) <= m
    ensures var t := Truncated(m, e);
            var r := Truncated(q, f);
            && (t < 0x1_0000 || r < 0x1_0000 ==> t <= r + 1 && r <= t + 1)
            && (m < Pow2(53) ==> r == t)
  {
    if k == 0 {
      assert Pow2(k) == 1;
      assert q == m;
    } else {
      Pow2Monotone(53, 52 + k);
      if Truncated(m, e) < 0x1_0000 || Truncated(q, f) < 0x1_0000 {
        RoundedTruncation(m, q, k, e, f);
      }
    }
  }

  /** uint16(x * 100.00) is within one of the integer part of the exact
      product: rounding the float64 product can carry it across an integer,
      never further. A product that needs no rounding gives that integer part
      exactly. */
  lemma PercentNearExact(x: Float64)
    requires !x.negative
    ensures var v := Percent(x);
            && (ExactPercent(x) < 0xFFFF ==> v.Some?)
            && (v.Some? ==> ExactPercent(x) <= v.value + 1 && v.value <= ExactPercent(x) + 1)
            && (x.significand * 100 < Pow2(53) ==>
                  v == if ExactPercent(x) < 0x1_0000 then Some(ExactPercent(x)) else None)
  {
    RoundedProduct(x);
  }

  /** The level 0.29 is the float64 5224175567749775 * 2^-54. Its float64
      product with 100 is 28.999999999999996, so uint16 gives 28, not 29. */
  lemma TwentyNinePercentIsSentAsTwentyEight()
    ensures Percent(Float(false, 5224175567749775, -54)) == Some(28)
  {
    Pow2Of52();
    assert Pow2(6) == 64;
    Pow2Add(48, 4);
    assert Pow2(48) == 0x1_0000_0000_0000;
    assert Excess(8162774324609023) == 0;
    assert Excess(16325548649218046) == 1;
    assert Excess(32651097298436093) == 2;
    assert Excess(65302194596872187) == 3;
    assert Excess(130604389193744375) == 4;
    assert Excess(261208778387488750) == 5;
    assert Excess(522417556774977500) == 6;
    assert RoundedQuotient(522417556774977500, 6) == 8162774324609023;
    assert Truncated(8162774324609023, -48) == 28;
  }
}
