/** Small facts about natural-number products and Euclidean division. */
module Arith {

  lemma MulLe(k: nat, x: nat, y: nat)
    requires x <= y
    ensures k * x <= k * y
  {
  }

  lemma MulLtCancel(k: nat, x: nat, y: nat)
    requires k * x < k * y
    ensures x < y
  {
  }

  /** Euclidean division bounds the dividend between two multiples of the divisor. */
  lemma DivBounds(x: nat, d: nat)
    requires d > 0
    ensures (x / d) * d <= x < (x / d + 1) * d
  {
  }

  /** The remainder is the one the quotient-remainder pair determines. */
  lemma ModUnique(x: nat, d: nat, q: nat, r: nat)
    requires r < d && x == d * q + r
    ensures x / d == q && x % d == r
  {
    DivBounds(x, d);
    assert d * (x / d) <= x < d * (q + 1);
    MulLtCancel(d, x / d, q + 1);
    assert d * q <= x < d * (x / d + 1);
    MulLtCancel(d, q, x / d + 1);
  }

  lemma DivLe(x: nat, y: nat, d: nat)
    requires x <= y && d > 0
    ensures x / d <= y / d
  {
    assert d * (x / d) <= x;
    assert y < d * (y / d + 1);
    MulLtCancel(d, x / d, y / d + 1);
  }

  /** `count * each`, known to be a natural without nonlinear reasoning. */
  function Times(count: nat, each: nat): nat {
    count * each
  }

  /** Segment i of length len lies inside n such segments when i < n. */
  lemma SegmentFits(i: nat, n: nat, len: nat)
    requires i < n
    ensures i * len + len <= n * len
  {
    MulLe(len, i + 1, n);
  }

  /** A window of `count` segments of length len from segment `offset` is a
      nonempty region inside `n` segments exactly when the window is nonempty
      and ends by segment n. */
  lemma WindowFits(offset: nat, count: nat, n: nat, len: nat)
    ensures (0 < count * len && offset * len + count * len <= n * len)
            <==> (0 < count && 0 < len && offset + count <= n)
  {
    assert offset * len + count * len == len * (offset + count);
    if 0 < count && 0 < len && offset + count <= n {
      MulLe(len, offset + count, n);
      MulLe(count, 1, len);
    }
    if 0 < count * len && offset * len + count * len <= n * len {
      assert 0 < count;
      assert 0 < len;
      MulLtCancel(len, offset + count, n + 1);
    }
  }
}
