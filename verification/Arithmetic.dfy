/** The non-linear arithmetic the proofs need, one fact at a time. */
module Arithmetic {

  lemma MulMonotone(a: int, b: int, c: nat)
    requires a <= b
    ensures a * c <= b * c && c * a <= c * b
  {
    assert (b - a) * c >= 0;
  }

  lemma MulAdd(a: int, b: int, c: int)
    ensures (a + b) * c == a * c + b * c && c * (a + b) == c * a + c * b
  {
  }

  lemma MulAssociate(a: int, b: int, c: int)
    ensures a * (b * c) == (a * b) * c
  {
  }

  lemma QuotientBounds(n: nat, u: nat, lo: nat, hi: nat)
    requires u > 0 && lo * u <= n < hi * u
    ensures lo <= n / u < hi
  {
    var q := n / u;
    assert q * u <= n < (q + 1) * u;
    if q + 1 <= lo { MulMonotone(q + 1, lo, u); assert false; }
    if hi <= q { MulMonotone(hi, q, u); assert false; }
  }

  lemma QuotientOfMultiple(q: nat, u: nat)
    requires u > 0
    ensures (q * u) / u == q && (q * u) % u == 0
  {
    MulAdd(q, 1, u);
    QuotientBounds(q * u, u, q, q + 1);
  }

  lemma QuotientAddOne(x: nat, u: nat)
    requires u > 0
    ensures (x + u) / u == x / u + 1
  {
    var q := x / u;
    assert q * u <= x < (q + 1) * u;
    MulAdd(q, 1, u);
    MulAdd(q + 1, 1, u);
    QuotientBounds(x + u, u, q + 1, q + 2);
  }

  lemma QuotientMonotone(x: nat, y: nat, u: nat)
    requires u > 0 && x <= y
    ensures x / u <= y / u
  {
    var q, r := x / u, y / u;
    assert q * u <= x && y < (r + 1) * u;
    if r + 1 <= q { MulMonotone(r + 1, q, u); assert false; }
  }
}
