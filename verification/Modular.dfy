/** Remainders and Go's 64-bit integers. */
module Modular {

  const MAX_INT64 := 0x7FFF_FFFF_FFFF_FFFF
  const SPAN := 0x1_0000_0000_0000_0000

  lemma ModShift(v: int, m: int, q: int)
    requires m > 0 && q * m <= v < (q + 1) * m
    ensures v % m == v - q * m
  {
    SameQuotient(v / m, v % m, q, v - q * m, m);
  }

  lemma SameQuotient(q: int, r: int, q': int, r': int, m: int)
    requires q * m + r == q' * m + r' && 0 <= r < m && 0 <= r' < m
    ensures r == r'
  {
    assert (q - q') * m == r' - r;
    if q > q' {
      Multiple(q - q', m);
    } else if q < q' {
      Multiple(q' - q, m);
    }
  }

  lemma Multiple(k: int, m: int)
    requires k > 0 && m > 0
    ensures k * m >= m
  {
  }

  lemma ModNext(n: nat, m: nat)
    requires m > 0
    ensures (n % m + 1) % m == (n + 1) % m
  {
    if n % m + 1 < m {
      ModShift(n + 1, m, n / m);
      ModShift(n % m + 1, m, 0);
    } else {
      ModShift(n + 1, m, n / m + 1);
      ModShift(n % m + 1, m, 1);
    }
  }

  predicate IsInt64(v: int) { -MAX_INT64 - 1 <= v <= MAX_INT64 }

  /** What Go's int64 arithmetic keeps of a result. */
  function Wrap64(v: int): (r: int)
    ensures IsInt64(r)
  {
    (v + MAX_INT64 + 1) % SPAN - MAX_INT64 - 1
  }

  lemma WrapIs(v: int, q: int)
    requires IsInt64(v - q * SPAN)
    ensures Wrap64(v) == v - q * SPAN
  {
    ModShift(v + MAX_INT64 + 1, SPAN, q);
  }

  /** The multiple of the span that wrapping takes away. */
  lemma WrapTakes(v: int) returns (q: int)
    ensures Wrap64(v) == v - q * SPAN
  {
    q := (v + MAX_INT64 + 1) / SPAN;
  }
}
