/** The backoff computed by sendWithRetry, time.Duration(float64(baseDelay) * math.Pow(2, float64(attempt-1))),
    with binary64 rounding (roundTiesToEven, section 4.3.1 of IEEE 754-2008) on non-negative integers. */
module Backoff {
  import opened Arithmetic
  import opened TtlStore

  function Pow2(k: nat): (p: nat)
    ensures p >= 1
  {
    if k == 0 then 1 else 2 * Pow2(k - 1)
  }

  const SIGNIFICANDS: nat := 0x20_0000_0000_0000        // 2^53
  const INT64_LIMIT: nat := 0x8000_0000_0000_0000       // 2^63

  lemma {:induction false} Pow2Add(j: nat, k: nat)
    ensures Pow2(j + k) == Pow2(j) * Pow2(k)
  {
    if j > 0 { Pow2Add(j - 1, k); }
  }

  lemma Pow2Monotone(j: nat, k: nat)
    requires j <= k
    ensures Pow2(j) <= Pow2(k)
  {
    Pow2Add(j, k - j);
    MulMonotone(1, Pow2(k - j), Pow2(j));
  }

  ghost predicate IsProduct(x: nat, m: nat, k: nat) { x == m * Pow2(k) }

  /** Integers with a 53-bit significand. */
  ghost predicate Representable(x: nat) {
    exists m: nat, k: nat :: m < SIGNIFICANDS && IsProduct(x, m, k)
  }

  /** The exponent of the last place of `n`: how many low bits do not fit into the significand. */
  function Shift(n: nat): nat {
    if n < SIGNIFICANDS then 0 else 1 + Shift(n / 2)
  }

  function Round(n: nat): nat {
    var u := Pow2(Shift(n));
    var q, r := n / u, n % u;
    if 2 * r < u || (2 * r == u && q % 2 == 0) then q * u else (q + 1) * u
  }

  lemma {:induction false} ShiftBounds(n: nat)
    ensures n < SIGNIFICANDS * Pow2(Shift(n))
    ensures Shift(n) > 0 ==> SIGNIFICANDS / 2 * Pow2(Shift(n)) <= n
    decreases n
  {
    if n >= SIGNIFICANDS {
      ShiftBounds(n / 2);
      if Shift(n / 2) == 0 { assert Pow2(1) == 2 * Pow2(0); }
    }
  }

  lemma BelowBinade(m: nat, k: nat, s: nat)
    requires m < SIGNIFICANDS && k < s
    ensures m * Pow2(k) < SIGNIFICANDS / 2 * Pow2(s)
  {
    MulMonotone(m + 1, SIGNIFICANDS, Pow2(k));
    MulAdd(m, 1, Pow2(k));
    Pow2Monotone(k + 1, s);
    assert Pow2(k + 1) == 2 * Pow2(k);
  }

  /** A representable number that is not below the binade of `n` is a multiple of its last place. */
  lemma MultipleOfUlp(s: nat, y: nat) returns (q: nat)
    requires Representable(y)
    requires s > 0 ==> SIGNIFICANDS / 2 * Pow2(s) <= y
    ensures y == q * Pow2(s)
  {
    var m: nat, k: nat :| m < SIGNIFICANDS && IsProduct(y, m, k);
    if k >= s {
      Pow2Add(k - s, s);
      q := m * Pow2(k - s);
      MulAssociate(m, Pow2(k - s), Pow2(s));
    } else {
      BelowBinade(m, k, s);
      assert false;
    }
  }

  /** Representable numbers are their own rounding. */
  lemma RoundRepresentable(n: nat)
    requires Representable(n)
    ensures Round(n) == n
  {
    ShiftBounds(n);
    var q := MultipleOfUlp(Shift(n), n);
    QuotientOfMultiple(q, Pow2(Shift(n)));
  }

  lemma RoundIsRepresentable(n: nat)
    ensures Representable(Round(n))
  {
    ShiftBounds(n);
    var s := Shift(n);
    QuotientBounds(n, Pow2(s), 0, SIGNIFICANDS);
    var q := n / Pow2(s);
    if Round(n) == q * Pow2(s) {
      assert IsProduct(Round(n), q, s);
    } else if q + 1 < SIGNIFICANDS {
      assert IsProduct(Round(n), q + 1, s);
    } else {
      assert Pow2(s + 1) == 2 * Pow2(s);
      assert IsProduct(Round(n), SIGNIFICANDS / 2, s + 1);
    }
  }

  function Distance(x: nat, y: nat): nat { if x <= y then y - x else x - y }

  lemma BetweenMultiples(n: nat, u: nat, y: nat)
    requires u > 0
    ensures var q := n / u; y * u <= q * u || (q + 1) * u <= y * u
  {
    var q := n / u;
    if y <= q { MulMonotone(y, q, u); } else { MulMonotone(q + 1, y, u); }
  }

  lemma RoundErrors(n: nat)
    ensures var u := Pow2(Shift(n));
      Distance(Round(n), n) <= n % u && Distance(Round(n), n) <= u - n % u
  {
    RoundBetween(n, Pow2(Shift(n)));
  }

  lemma RoundBetween(n: nat, u: nat)
    requires u > 0
    ensures n == n / u * u + n % u && (n / u + 1) * u == n / u * u + u
  {
    MulAdd(n / u, 1, u);
  }

  lemma FarFromOutside(n: nat, u: nat, y: nat)
    requires u > 0 && (y <= n / u * u || (n / u + 1) * u <= y)
    ensures Distance(y, n) >= n % u || Distance(y, n) >= u - n % u
  {
    MulAdd(n / u, 1, u);
  }

  /** Rounding is to nearest: no representable number is closer. */
  lemma RoundIsNearest(n: nat, y: nat)
    requires Representable(y)
    ensures Distance(Round(n), n) <= Distance(y, n)
  {
    ShiftBounds(n);
    RoundErrors(n);
    var u := Pow2(Shift(n));
    if Shift(n) > 0 && y < SIGNIFICANDS / 2 * u {
      QuotientBounds(n, u, SIGNIFICANDS / 2, SIGNIFICANDS);
      MulMonotone(SIGNIFICANDS / 2, n / u, u);
    } else {
      var z := MultipleOfUlp(Shift(n), y);
      BetweenMultiples(n, u, z);
    }
    FarFromOutside(n, u, y);
  }

  // ---- the computed backoff ----

  /** The converted duration; None where the conversion to int64 is out of range (an infinity or a NaN
      included), for which Go leaves the value to the platform. */
  function Delay(base: nat, attempt: nat): Option<nat>
    requires attempt >= 1
  {
    if attempt - 1 >= 1024 then None       // math.Pow(2, 1024) is +Inf
    else
      var product := Round(Round(base) * Pow2(attempt - 1));
      if product < INT64_LIMIT then Some(product) else None
  }

  /** Multiplying by a power of two needs no further bits. */
  lemma ScaleRepresentable(x: nat, k: nat)
    requires Representable(x)
    ensures Representable(x * Pow2(k))
  {
    var m: nat, j: nat :| m < SIGNIFICANDS && IsProduct(x, m, j);
    Pow2Add(j, k);
    MulAssociate(m, Pow2(j), Pow2(k));
    assert IsProduct(x * Pow2(k), m, j + k);
  }

  lemma Cancel(a: int, b: int, c: int)
    requires c > 0 && a != b
    ensures a * c != b * c
  {
    MulAdd(a - b, b, c);
    if a > b { MulMonotone(1, a - b, c); } else { MulMonotone(a - b, -1, c); }
  }

  /** Each sleep is baseDelay * 2^(attempt-1) exactly when baseDelay has a 53-bit significand and the
      product fits a Duration. */
  lemma DelayExactIff(base: nat, attempt: nat)
    requires attempt >= 1
    ensures Delay(base, attempt) == Some(base * Pow2(attempt - 1))
        <==> Representable(base) && attempt <= 1024 && base * Pow2(attempt - 1) < INT64_LIMIT
  {
    RoundIsRepresentable(base);
    var product := Round(base) * Pow2(attempt - 1);
    ScaleRepresentable(Round(base), attempt - 1);
    RoundRepresentable(product);
    if Representable(base) {
      RoundRepresentable(base);
    } else {
      Cancel(Round(base), base, Pow2(attempt - 1));
    }
  }

  /** The sleeps after the first `n` failed attempts, in order. */
  function Schedule(base: nat, n: nat): (d: seq<Option<nat>>)
    ensures |d| == n
  {
    seq(n, i requires 0 <= i < n => Delay(base, i + 1))
  }

  lemma ScheduleGrows(base: nat, n: nat)
    ensures Schedule(base, n) + [Delay(base, n + 1)] == Schedule(base, n + 1)
  {
  }

  function Total(d: seq<Option<nat>>): nat {
    if d == [] then 0 else Total(d[..|d| - 1]) + (if d[|d| - 1].Some? then d[|d| - 1].value else 0)
  }

  lemma EarlierFits(base: nat, n: nat)
    requires n > 1 && base * Pow2(n - 1) < INT64_LIMIT
    ensures base * Pow2(n - 2) < INT64_LIMIT
  {
    assert Pow2(n - 1) == 2 * Pow2(n - 2);
    MulAssociate(base, 2, Pow2(n - 2));
    MulAssociate(2, base, Pow2(n - 2));
  }

  lemma DoubleTotal(base: nat, p: nat)
    ensures base * (p - 1) + base * p == base * (2 * p - 1)
  {
    MulAdd(p - 1, p, base);
  }

  /** n backoffs sleep baseDelay * (2^n - 1) in total. */
  lemma {:induction false} ScheduleTotal(base: nat, n: nat)
    requires Representable(base) && n <= 1024 && (n > 0 ==> base * Pow2(n - 1) < INT64_LIMIT)
    ensures Total(Schedule(base, n)) == base * (Pow2(n) - 1)
    decreases n
  {
    if n > 0 {
      if n > 1 { EarlierFits(base, n); }
      ScheduleTotal(base, n - 1);
      assert Schedule(base, n)[..n - 1] == Schedule(base, n - 1);
      assert Schedule(base, n)[n - 1] == Some(base * Pow2(n - 1)) by { DelayExactIff(base, n); }
      DoubleTotal(base, Pow2(n - 1));
    }
  }
}
