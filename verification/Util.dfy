/** internal/util/util.go: retry backoff and the classification of HTTP status codes. */
module Util {
  import opened Jobs
  import opened Binary64

  const MAX_BACKOFF_MS: int := 10 * 60 * 1000
  const DEFAULT_JITTER_MAX_MS: int := 250

  predicate IsRetryableHttpStatus(code: int) {
    code == 429 || 500 <= code <= 599
  }

  predicate IsSuccessHttpStatus(code: int) {
    200 <= code <= 299
  }

  predicate IsClientErrorHttpStatus(code: int) {
    400 <= code <= 499 && code != 429
  }

  /** The executor retries every code outside 200-299 and 400-499, and 429; IsRetryableHTTPStatus is narrower. The two
      agree exactly on the codes 200-299 and 400-599. */
  lemma RetryBranchVersusClassifier(code: int)
    ensures !IsSuccessHttpStatus(code) && !IsClientErrorHttpStatus(code)
            <==> code < 200 || 300 <= code < 400 || code == 429 || 500 <= code
    ensures (IsRetryableHttpStatus(code) <==> code < 200 || 300 <= code < 400 || code == 429 || 500 <= code)
            <==> 200 <= code <= 299 || 400 <= code <= 599
  {
  }

  /** The exact, integer reading of the documented delay, without jitter. */
  function ExactBackoff(attempt: int, baseMs: nat): nat {
    Min(baseMs * Pow2(if attempt < 1 then 0 else attempt - 1), MAX_BACKOFF_MS)
  }

  /** Ten minutes, once base * 2^(attempt - 1) has reached them, and that product before. */
  lemma BackoffMeans(attempt: int, base: nat)
    ensures var exact := base * Pow2(if attempt < 1 then 0 else attempt - 1);
      ExactBackoff(attempt, base) == if exact >= 600000 then 600000 else exact
  {
  }

  /** The delay the code computes in float64. `jitterMs` is the value drawn from the random source. */
  method CalculateBackoff(attempt: int, backoffBaseMs: int, jitterMaxMs: nat, jitterMs: nat) returns (delay: int)
    requires Int64(attempt) && Int64(backoffBaseMs) && 0 < backoffBaseMs
    requires jitterMs <= jitterMaxMs
    ensures var exact := backoffBaseMs * Pow2(if attempt < 1 then 0 else attempt - 1);
      delay == (if exact >= 600000 then 600000 else exact) + jitterMs
    ensures delay == ExactBackoff(attempt, backoffBaseMs) + jitterMs
  {
    var a := attempt;
    if a < 1 {
      a := 1;
    }
    RoundMonotone(1, backoffBaseMs);
    RoundNear(1);
    Int64Finite(backoffBaseMs);
    var exponential := Mul(Finite(OfInt(backoffBaseMs)), PowTwo(OfExact(RoundNat(a - 1))));
    FloatBackoff(a - 1, backoffBaseMs);
    if Greater(exponential, MAX_BACKOFF_MS) {
      exponential := Finite(MAX_BACKOFF_MS);
    }
    delay := exponential.v + jitterMs;
  }

  lemma Int64Finite(x: nat)
    requires Int64(x)
    ensures RoundNat(x) < Pow2(1024)
  {
    Pow2Of60();
    Pow2Sum(60, 3);
    assert Pow2(3) == 8;
    ScaleExact(1, 63);
    RoundMonotone(x, Pow2(63));
    Pow2Strict(63, 1024);
  }

  lemma Pow2Of60()
    ensures Pow2(60) == 0x1000_0000_0000_0000
  {
    assert Pow2(10) == 1024;
    Pow2Sum(10, 10);
    Pow2Sum(20, 20);
    Pow2Sum(40, 20);
  }

  lemma {:induction false} Pow2Sum(m: nat, n: nat)
    ensures Pow2(m + n) == Pow2(m) * Pow2(n)
  {
    if n > 0 {
      Pow2Sum(m, n - 1);
      assert Pow2(m) * Pow2(n) == 2 * (Pow2(m) * Pow2(n - 1));
    }
  }

  lemma {:induction false} Pow2Strict(m: nat, n: nat)
    requires m < n
    ensures Pow2(m) < Pow2(n)
  {
    if m + 1 < n {
      Pow2Strict(m, n - 1);
    }
  }

  lemma Pow2Monotone(m: nat, n: nat)
    requires m <= n
    ensures Pow2(m) <= Pow2(n)
  {
    if m < n {
      Pow2Strict(m, n);
    }
  }

  lemma Pow2Of20()
    ensures Pow2(19) == 524288 && Pow2(20) == 1048576
  {
    assert Pow2(10) == 1024;
    Pow2Sum(10, 10);
  }

  /** Rounding, overflow to +Inf and the cap together give the exact value, and never NaN. */
  lemma FloatBackoff(k: nat, base: nat)
    requires Int64(base) && 0 < base && Int64(k)
    ensures RoundNat(base) > 0
    ensures var e := Mul(Finite(RoundNat(base)), PowTwo(OfExact(RoundNat(k))));
      if Greater(e, MAX_BACKOFF_MS) then base * Pow2(k) > MAX_BACKOFF_MS else e == Finite(base * Pow2(k))
  {
    RoundMonotone(1, base);
    RoundNear(1);
    RoundedExponent(k);
    var b, p := RoundNat(base), Pow2(k);
    if k < 1024 {
      if base <= TWO_53 {
        OfIntExact(base);
        ScaleExact(base, k);
        if base * p >= Pow2(1024) {
          Pow2Of20();
          Pow2Strict(20, 1024);
        }
      } else {
        RoundMonotone(TWO_53, base);
        OfIntExact(TWO_53);
        MulAtLeast(b, p);
        MulAtLeast(base, p);
        RoundMonotone(TWO_53, b * p);
      }
    } else {
      Pow2Of20();
      Pow2Strict(20, k);
      MulAtLeast(p, base);
    }
  }

  lemma RoundedExponent(k: nat)
    requires Int64(k)
    ensures PowTwo(OfExact(RoundNat(k))) == if k < 1024 then Finite(Pow2(k)) else Inf
  {
    Int64Finite(k);
    if k < 1024 {
      OfIntExact(k);
    } else {
      RoundMonotone(1024, k);
      OfIntExact(1024);
    }
  }

  lemma MulAtLeast(x: nat, p: nat)
    requires p >= 1
    ensures x * p >= x
  {
    assert x * p == x + x * (p - 1);
  }

  /** The delay never shrinks from one attempt to the next. */
  lemma BackoffMonotone(attempt: int, later: int, base: nat)
    requires attempt <= later
    ensures ExactBackoff(attempt, base) <= ExactBackoff(later, base)
  {
    var m, n := if attempt < 1 then 0 else attempt - 1, if later < 1 then 0 else later - 1;
    Pow2Monotone(m, n);
    MulMonotone(Pow2(m), Pow2(n), base);
  }

  /** From attempt 21 on, and from no earlier attempt, every base delay is at the cap. */
  lemma BackoffSaturates(attempt: int)
    ensures (forall base: nat :: 0 < base ==> ExactBackoff(attempt, base) == 600000) <==> attempt >= 21
  {
    Pow2Of20();
    if attempt >= 21 {
      Pow2Monotone(20, attempt - 1);
      forall base: nat | 0 < base
        ensures ExactBackoff(attempt, base) == MAX_BACKOFF_MS
      {
        MulAtLeast(Pow2(attempt - 1), base);
      }
    } else {
      Pow2Monotone(if attempt < 1 then 0 else attempt - 1, 19);
      assert ExactBackoff(attempt, 1) < MAX_BACKOFF_MS;
    }
  }

  /** The sum of the base delays before retries 1 to `n`. */
  function TotalBackoff(n: nat, base: nat): nat {
    if n == 0 then 0 else TotalBackoff(n - 1, base) + ExactBackoff(n, base)
  }

  /** Over a life of `n` retries the base delays stay within the cap and, while the cap is not reached,
      form the geometric series. */
  lemma {:induction false} RetryHorizon(n: nat, base: nat)
    ensures TotalBackoff(n, base) <= 600000 * n
    ensures n > 0 && base * Pow2(n - 1) <= 600000 ==> TotalBackoff(n, base) == base * (Pow2(n) - 1)
  {
    if n > 0 {
      RetryHorizon(n - 1, base);
      if n > 1 && base * Pow2(n - 1) <= MAX_BACKOFF_MS {
        GeometricStep(base, Pow2(n - 2));
      }
    }
  }

  lemma GeometricStep(base: nat, p: nat)
    ensures base * (2 * p) == 2 * (base * p)
    ensures base * (2 * (2 * p) - 1) == base * (2 * p - 1) + base * (2 * p)
  {
  }
}
