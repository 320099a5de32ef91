/** Small shared vocabulary: an optional value and the minimum of two naturals. */
module Common {

  /** A value that may be absent (Python's `None`). */
  datatype Option<+T> = None | Some(value: T)

  function Min(a: nat, b: nat): (r: nat)
    ensures r <= a && r <= b && (r == a || r == b)
  {
    if a <= b then a else b
  }

  /** Python's `s[:n]` for a non-negative `n`: the first `n` elements, or all of `s` if it is shorter. */
  function SlicePrefix<T>(s: seq<T>, n: nat): (r: seq<T>)
    ensures r <= s && |r| == Min(n, |s|)
  {
    if |s| <= n then s else s[..n]
  }

  /** Python's `s[-n:]` for a positive `n`: the last `n` elements, or all of `s` if it is shorter. */
  function SliceSuffix<T>(s: seq<T>, n: nat): (r: seq<T>)
    requires n > 0
    ensures |r| == Min(n, |s|)
    ensures forall i :: 0 <= i < |r| ==> r[i] == s[|s| - |r| + i]
  {
    if |s| <= n then s else s[|s| - n..]
  }

  /** A piece that follows `a` inside a prefix of `r` is found verbatim in `r` at offset `|a|`. */
  lemma SliceWithin<T>(a: seq<T>, x: seq<T>, r: seq<T>)
    requires a + x <= r
    ensures r[|a|..|a| + |x|] == x
  {
    assert r[|a|..|a| + |x|] == (a + x)[|a|..];
  }
}
