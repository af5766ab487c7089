/**
 IEEE 754 binary64 as far as the scheduler uses it: integers converted to float64 and products of
 non-negative integral values. Rounding is to nearest, ties to even (section 4.3.1 of IEEE 754-2008);
 a result of 2^1024 or more is +Inf (section 7.4).
 */
module Binary64 {
  import opened Jobs

  const TWO_52: int := 0x10_0000_0000_0000
  const TWO_53: int := 0x20_0000_0000_0000

  function Pow2(n: nat): (p: nat)
    ensures p >= 1
  {
    if n == 0 then 1 else 2 * Pow2(n - 1)
  }

  /** The distance between the neighbouring 53-bit values at `x`. */
  function Ulp(x: nat): (u: nat)
    ensures u >= 1
  {
    if x < TWO_53 then 1 else 2 * Ulp(x / 2)
  }

  /** The multiple of `u` nearest to `q * u + r`; of two, the even one. */
  function Nearest(q: nat, r: nat, u: nat): nat {
    if 2 * r > u || (2 * r == u && q % 2 == 1) then (q + 1) * u else q * u
  }

  function RoundNat(x: nat): int {
    var u := Ulp(x);
    Nearest(x / u, x % u, u)
  }

  /** float64(x) for an int64 `x`. The result is always an integer. */
  function OfInt(x: int): int {
    if x >= 0 then RoundNat(x) else -RoundNat(-x)
  }

  /** A non-negative, integral float64. */
  datatype Float = Finite(v: nat) | Inf

  function OfExact(x: nat): Float {
    if x >= Pow2(1024) then Inf else Finite(x)
  }

  /** math.Pow(2, y) */
  function PowTwo(y: Float): Float {
    if y.Inf? || y.v >= 1024 then Inf else Finite(Pow2(y.v))
  }

  /** The product of two floats, the first of which is not zero: no NaN can arise. */
  function Mul(a: Float, b: Float): Float
    requires a != Finite(0)
  {
    if a.Inf? || b.Inf? then Inf else OfExact(RoundNat(a.v * b.v))
  }

  predicate Greater(a: Float, n: nat) {
    a.Inf? || a.v > n
  }

  // ----- rounding

  lemma {:induction false} UlpBounds(x: nat)
    requires x >= TWO_53
    ensures TWO_52 * Ulp(x) <= x < TWO_53 * Ulp(x)
  {
    if x / 2 >= TWO_53 {
      UlpBounds(x / 2);
    }
  }

  lemma {:induction false} UlpSteps(x: nat, y: nat)
    requires x <= y
    ensures Ulp(x) == Ulp(y) || 2 * Ulp(x) <= Ulp(y)
  {
    if x >= TWO_53 {
      UlpSteps(x / 2, y / 2);
    }
  }

  lemma MulMonotone(a: nat, b: nat, u: nat)
    requires a <= b
    ensures a * u <= b * u
  {
    assert b * u == a * u + (b - a) * u;
  }

  lemma MulCancel(a: nat, b: nat, u: nat)
    requires a * u < b * u
    ensures a < b
  {
    if b <= a {
      MulMonotone(b, a, u);
    }
  }

  lemma DivMod(x: nat, u: nat)
    requires u >= 1
    ensures 0 <= x / u && 0 <= x % u < u && x == (x / u) * u + x % u
    ensures x < (x / u + 1) * u
  {
    assert (x / u + 1) * u == (x / u) * u + u;
  }

  lemma QuotientBounds(x: nat, u: nat, lo: nat, hi: nat)
    requires u >= 1 && lo * u <= x < hi * u
    ensures lo <= x / u < hi
  {
    DivMod(x, u);
    MulCancel(lo, x / u + 1, u);
    MulCancel(x / u, hi, u);
  }

  lemma DivisionUnique(x: nat, d: nat, q: nat, r: nat)
    requires d >= 1 && x == q * d + r && r < d
    ensures x / d == q && x % d == r
  {
    assert (q + 1) * d == q * d + d;
    QuotientBounds(x, d, q, q + 1);
    DivMod(x, d);
  }

  lemma NearestBounds(q: nat, r: nat, u: nat)
    ensures q * u <= Nearest(q, r, u) <= (q + 1) * u
  {
    MulMonotone(q, q + 1, u);
  }

  lemma NearestMonotone(p: nat, r: nat, q: nat, s: nat, u: nat)
    requires r < u && s < u && p * u + r <= q * u + s
    ensures Nearest(p, r, u) <= Nearest(q, s, u)
  {
    assert (q + 1) * u == q * u + u;
    MulCancel(p, q + 1, u);
    if p < q {
      NearestBounds(p, r, u);
      NearestBounds(q, s, u);
      MulMonotone(p + 1, q, u);
    }
  }

  lemma NearestWithin(q: nat, r: nat, u: nat, lo: nat, hi: nat)
    requires lo <= q < hi
    ensures lo * u <= Nearest(q, r, u) <= hi * u
  {
    NearestBounds(q, r, u);
    MulMonotone(lo, q, u);
    MulMonotone(q + 1, hi, u);
  }

  lemma RoundNear(x: nat)
    ensures x < TWO_53 ==> RoundNat(x) == x
    ensures x >= TWO_53 ==> TWO_52 * Ulp(x) <= RoundNat(x)
    ensures RoundNat(x) <= TWO_53 * Ulp(x)
  {
    if x >= TWO_53 {
      var u := Ulp(x);
      UlpBounds(x);
      QuotientBounds(x, u, TWO_52, TWO_53);
      NearestWithin(x / u, x % u, u, TWO_52, TWO_53);
    }
  }

  lemma RoundMonotone(x: nat, y: nat)
    requires x <= y
    ensures RoundNat(x) <= RoundNat(y)
  {
    var u, v := Ulp(x), Ulp(y);
    UlpSteps(x, y);
    if u == v {
      DivMod(x, u);
      DivMod(y, u);
      NearestMonotone(x / u, x % u, y / u, y % u, u);
    } else {
      RoundNear(x);
      RoundNear(y);
    }
  }

  lemma OfIntMonotone(x: int, y: int)
    requires x <= y
    ensures OfInt(x) <= OfInt(y)
  {
    if x >= 0 {
      RoundMonotone(x, y);
    } else if y < 0 {
      RoundMonotone(-y, -x);
    }
  }

  lemma OfIntExact(x: int)
    requires -TWO_53 <= x <= TWO_53
    ensures OfInt(x) == x
  {
    RoundNear(if x < 0 then -x else x);
    assert RoundNat(TWO_53) == TWO_53 by { assert Ulp(TWO_53 / 2) == 1; }
  }

  lemma DoubleNearest(q: nat, r: nat, u: nat)
    ensures Nearest(q, 2 * r, 2 * u) == 2 * Nearest(q, r, u)
  {
    assert q * (2 * u) == 2 * (q * u);
    assert (q + 1) * (2 * u) == 2 * ((q + 1) * u);
  }

  lemma DoubleDivision(x: nat, u: nat)
    requires u >= 1
    ensures (2 * x) / (2 * u) == x / u && (2 * x) % (2 * u) == 2 * (x % u)
  {
    DivMod(x, u);
    assert (x / u) * (2 * u) == 2 * ((x / u) * u);
    DivisionUnique(2 * x, 2 * u, x / u, 2 * (x % u));
  }

  lemma RoundDouble(x: nat)
    ensures RoundNat(2 * x) == 2 * RoundNat(x)
  {
    if 2 * x < TWO_53 {
      RoundNear(2 * x);
      RoundNear(x);
    } else {
      assert (2 * x) / 2 == x;
      DoubleDivision(x, Ulp(x));
      DoubleNearest(x / Ulp(x), x % Ulp(x), Ulp(x));
    }
  }

  /** Scaling a value of at most 53 bits by a power of two loses nothing. */
  lemma {:induction false} ScaleExact(x: nat, k: nat)
    requires x <= TWO_53
    ensures RoundNat(x * Pow2(k)) == x * Pow2(k)
  {
    if k == 0 {
      OfIntExact(x);
    } else {
      ScaleExact(x, k - 1);
      RoundDouble(x * Pow2(k - 1));
      assert x * Pow2(k) == 2 * (x * Pow2(k - 1));
    }
  }

  // ----- rounding is to nearest

  /** The integers a binary64 can hold, but for its bound on exponents. */
  ghost predicate Representable(y: nat) {
    exists m: nat, k: nat :: Scaled(y, m, k)
  }

  predicate Scaled(y: nat, m: nat, k: nat) {
    m < 9007199254740992 && y == m * Pow2(k)
  }

  function Dist(x: int, y: int): nat {
    if x <= y then y - x else x - y
  }

  lemma {:induction false} UlpIsPow2(x: nat) returns (k: nat)
    ensures Ulp(x) == Pow2(k)
  {
    if x < TWO_53 {
      k := 0;
    } else {
      k := UlpIsPow2(x / 2);
      k := k + 1;
    }
  }

  /** Powers of two divide one another. */
  lemma {:induction false} Pow2Divides(j: nat, k: nat) returns (f: nat)
    requires j <= k
    ensures Pow2(k) == f * Pow2(j)
  {
    if j == k {
      f := 1;
    } else {
      f := Pow2Divides(j, k - 1);
      f := 2 * f;
    }
  }

  /** From 2^52 units on, what is representable is a whole number of units. */
  lemma WholeUnits(y: nat, j: nat) returns (n: nat)
    requires Representable(y) && TWO_52 * Pow2(j) <= y
    ensures y == n * Pow2(j)
  {
    var m: nat, k: nat :| Scaled(y, m, k);
    if j <= k {
      var f := Pow2Divides(j, k);
      n := m * f;
      assert (m * f) * Pow2(j) == m * (f * Pow2(j));
    } else {
      var f := Pow2Divides(k, j - 1);
      assert Pow2(j) == 2 * Pow2(j - 1);
      TooSmall(m, Pow2(k), f, Pow2(j - 1));
    }
  }

  lemma TooSmall(m: nat, p: nat, f: nat, q: nat)
    requires m < TWO_53 && q == f * p && p >= 1 && q >= 1
    ensures m * p < TWO_52 * (2 * q)
  {
    MulCancel(0, f, p);
    MulMonotone(1, f, p);
    MulMonotone(m, TWO_53 - 1, p);
  }

  /** The number of units `Nearest` takes. */
  function Units(q: nat, r: nat, u: nat): (n: nat)
    ensures n * u == Nearest(q, r, u)
  {
    if 2 * r > u || (2 * r == u && q % 2 == 1) then q + 1 else q
  }

  lemma NearestIsClosest(q: nat, r: nat, u: nat, n: nat)
    requires r < u
    ensures Dist(q * u + r, Nearest(q, r, u)) <= Dist(q * u + r, n * u)
    ensures Dist(q * u + r, Nearest(q, r, u)) == Dist(q * u + r, n * u) && n * u != Nearest(q, r, u) ==>
              Units(q, r, u) % 2 == 0
  {
    assert (q + 1) * u == q * u + u;
    if n < q {
      MulMonotone(n + 1, q, u);
      assert (n + 1) * u == n * u + u;
    } else if n > q + 1 {
      MulMonotone(q + 2, n, u);
      assert (q + 2) * u == q * u + 2 * u;
    }
  }

  /** A 53-bit significand that is even. */
  ghost predicate EvenSignificand(y: nat) {
    exists m: nat, k: nat :: Scaled(y, m, k) && 4503599627370496 <= m && m % 2 == 0
  }

  /** A value of 2^52 to 2^53 units is representable, and its significand is even if the number of units is. */
  lemma UnitsRepresentable(n: nat, k: nat)
    requires TWO_52 <= n <= TWO_53
    ensures Representable(n * Pow2(k)) && (n % 2 == 0 ==> EvenSignificand(n * Pow2(k)))
  {
    if n < TWO_53 {
      assert Scaled(n * Pow2(k), n, k);
    } else {
      assert n * Pow2(k) == TWO_52 * Pow2(k + 1);
      assert Scaled(n * Pow2(k), TWO_52, k + 1);
    }
  }

  lemma UnitsInRange(x: nat)
    requires x >= TWO_53
    ensures TWO_52 <= Units(x / Ulp(x), x % Ulp(x), Ulp(x)) <= TWO_53
  {
    UlpBounds(x);
    QuotientBounds(x, Ulp(x), TWO_52, TWO_53);
  }

  /** The rounding of `x` is representable, no representable value is nearer to `x`, and of two that are equally near it
      is the one whose significand is even. */
  lemma RoundsToNearest(x: nat, y: nat)
    requires Representable(y)
    ensures Representable(RoundNat(x))
    ensures Dist(x, RoundNat(x)) <= Dist(x, y)
    ensures Dist(x, RoundNat(x)) == Dist(x, y) && RoundNat(x) != y ==> EvenSignificand(RoundNat(x))
  {
    if x < TWO_53 {
      RoundNear(x);
      assert Scaled(x, x, 0);
    } else {
      var j := UlpIsPow2(x);
      var u := Ulp(x);
      UnitsInRange(x);
      UnitsRepresentable(Units(x / u, x % u, u), j);
      DivMod(x, u);
      if TWO_52 * u <= y {
        var n := WholeUnits(y, j);
        NearestIsClosest(x / u, x % u, u, n);
      } else {
        UlpBounds(x);
        NearestIsClosest(x / u, x % u, u, TWO_52);
      }
    }
  }

  function Abs(x: int): nat {
    if x < 0 then -x else x
  }

  /** The conversion of an integer of either sign: representable, nearest, and even on a tie. */
  lemma OfIntToNearest(x: int, y: int)
    requires Representable(Abs(y))
    ensures Representable(Abs(OfInt(x)))
    ensures Dist(x, OfInt(x)) <= Dist(x, y)
    ensures Dist(x, OfInt(x)) == Dist(x, y) && OfInt(x) != y ==> EvenSignificand(Abs(OfInt(x)))
  {
    assert Scaled(0, 0, 0);
    RoundsToNearest(Abs(x), 0);
    RoundsToNearest(Abs(x), Abs(y));
  }
}
