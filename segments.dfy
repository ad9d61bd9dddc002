/** The value a flat device buffer holds after a contiguous write. */
module Segments {

  /** `s` with the entries from `start` on replaced by `t`. */
  function Overwrite<T>(s: seq<T>, start: nat, t: seq<T>): (r: seq<T>)
    requires start + |t| <= |s|
    ensures |r| == |s|
    ensures forall i :: 0 <= i < |s| ==> r[i] == if start <= i < start + |t| then t[i - start] else s[i]
  {
    s[..start] + t + s[start + |t|..]
  }

  /** `n` copies of `v`. */
  function Repeat<T>(v: T, n: nat): (r: seq<T>)
    ensures |r| == n && forall i :: 0 <= i < n ==> r[i] == v
  {
    if n == 0 then [] else Repeat(v, n - 1) + [v]
  }

  /** `s` with the `len` entries from `start` on set to `v`. */
  function Fill<T>(s: seq<T>, start: nat, len: nat, v: T): (r: seq<T>)
    requires start + len <= |s|
    ensures |r| == |s|
    ensures forall i :: 0 <= i < |s| ==> r[i] == if start <= i < start + len then v else s[i]
  {
    Overwrite(s, start, Repeat(v, len))
  }

  /** A host buffer of `n` copies of `v`, filled one entry at a time. */
  method Filled<T(0)>(n: nat, v: T) returns (a: array<T>)
    ensures fresh(a) && a[..] == Repeat(v, n)
  {
    a := new T[n];
    for i := 0 to n
      invariant forall j :: 0 <= j < i ==> a[j] == v
    {
      a[i] := v;
    }
    assert forall j :: 0 <= j < n ==> a[..][j] == Repeat(v, n)[j];
  }

  /** A blocking write of the host buffer `src` into `dst` from entry `start` on. */
  method WriteRegion<T>(dst: array<T>, start: nat, src: array<T>)
    requires start + src.Length <= dst.Length && dst != src
    modifies dst
    ensures dst[..] == Overwrite(old(dst[..]), start, src[..])
  {
    forall k | 0 <= k < src.Length {
      dst[start + k] := src[k];
    }
    assert forall i :: 0 <= i < dst.Length ==> dst[i] == Overwrite(old(dst[..]), start, src[..])[i];
  }

  /** Segments that do not overlap can be filled in either order. */
  lemma FillDisjointCommute<T>(s: seq<T>, i: nat, m: nat, j: nat, n: nat, v: T, w: T)
    requires i + m <= j && j + n <= |s|
    ensures Fill(Fill(s, i, m, v), j, n, w) == Fill(Fill(s, j, n, w), i, m, v)
  {
    var x, y := Fill(Fill(s, i, m, v), j, n, w), Fill(Fill(s, j, n, w), i, m, v);
    assert forall k :: 0 <= k < |s| ==> x[k] == y[k];
  }
}
