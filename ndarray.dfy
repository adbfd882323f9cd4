/** The handful of numpy array operations the bridge and the LiDAR task rely on,
    stated on sequences: `arange`, fancy-index assignment (a scatter), fancy-index
    reading (a gather), `repeat` along a new leading axis, and the stepped slice
    `s[::k]`. */
module NdArray {

  /** `np.arange(n)`: the identity index map of length n. */
  function Identity(n: nat): (r: seq<int>)
    ensures |r| == n
    ensures forall i :: 0 <= i < n ==> r[i] == i
  {
    seq(n, i => i)
  }

  /** Every index of `p` addresses a slot of an array of length n. */
  predicate InRange(p: seq<int>, n: int)
  {
    forall i :: 0 <= i < |p| ==> 0 <= p[i] < n
  }

  /** No slot is addressed twice. */
  predicate Injective(p: seq<int>)
  {
    forall i, j :: 0 <= i < j < |p| ==> p[i] != p[j]
  }

  /** Slot j is addressed by some entry of `p`. */
  predicate Hit(p: seq<int>, j: int)
  {
    exists i :: 0 <= i < |p| && p[i] == j
  }

  /** `p` is a permutation of 0 .. |p|-1. */
  predicate IsPermutation(p: seq<int>)
  {
    InRange(p, |p|) && Injective(p) && forall j :: 0 <= j < |p| ==> Hit(p, j)
  }

  /** `a[idx] = vals` on a copy of `base`: element i of `vals` is written to slot
      idx[i], in increasing i, so that a later write to a repeated slot wins. */
  function Scatter<T>(base: seq<T>, idx: seq<int>, vals: seq<T>): (r: seq<T>)
    requires |idx| == |vals| && InRange(idx, |base|)
    ensures |r| == |base|
    decreases |vals|
  {
    if |vals| == 0 then base
    else Scatter(base, idx[..|idx| - 1], vals[..|vals| - 1])[idx[|idx| - 1] := vals[|vals| - 1]]
  }

  /** `src[idx]`: a new array whose element i is src[idx[i]]. */
  function Gather<T>(src: seq<T>, idx: seq<int>): (r: seq<T>)
    requires InRange(idx, |src|)
    ensures |r| == |idx|
    ensures forall i :: 0 <= i < |idx| ==> r[i] == src[idx[i]]
  {
    seq(|idx|, i requires 0 <= i < |idx| => src[idx[i]])
  }

  /** `np.repeat(x[np.newaxis, ...], n, axis=0)`: n copies of x. */
  function Repeat<T>(x: T, n: nat): (r: seq<T>)
    ensures |r| == n
    ensures forall i :: 0 <= i < n ==> r[i] == x
  {
    seq(n, _ => x)
  }

  /** `s[::k]` for a positive step k: the elements at 0, k, 2k, ... */
  function Stride<T>(s: seq<T>, k: nat): (r: seq<T>)
    requires k >= 1
    ensures |r| == (|s| + k - 1) / k
    decreases |s|
  {
    if |s| == 0 then []
    else
      var rest := s[if k < |s| then k else |s|..];
      StrideLength(|s|, k);
      [s[0]] + Stride(rest, k)
  }

  /** c * k >= k for every positive c. */
  lemma MulAtLeast(c: nat, k: nat)
    requires c >= 1
    ensures c * k >= k
  {
  }

  /** Euclidean division has a unique quotient. */
  lemma DivUnique(y: int, k: nat, a: int, b: int)
    requires k >= 1 && y == a * k + b && 0 <= b < k
    ensures y / k == a
  {
    var d, m := y / k, y % k;
    assert d * k + m == y;
    if d > a {
      MulAtLeast(d - a, k);
    } else if d < a {
      MulAtLeast(a - d, k);
    }
  }

  /** The arithmetic behind the length of `s[::k]`: dropping the first k of n > 0
      elements removes exactly one element from ceil(n / k). */
  lemma StrideLength(n: nat, k: nat)
    requires k >= 1 && n >= 1
    ensures k < n ==> (n + k - 1) / k == 1 + (n - k + k - 1) / k
    ensures k >= n ==> (n + k - 1) / k == 1
  {
    if k < n {
      var x := n - 1;
      var q, r := x / k, x % k;
      assert x == q * k + r;
      assert (q + 1) * k == q * k + k;
      DivUnique(n + k - 1, k, q + 1, r);
      DivUnique(n - k + k - 1, k, q, r);
    } else {
      DivUnique(n + k - 1, k, 1, n - 1);
    }
  }

  /** Element i of `s[::k]` is element i*k of `s`. */
  lemma {:induction false} StrideAt<T>(s: seq<T>, k: nat, i: nat)
    requires k >= 1 && i < |Stride(s, k)|
    ensures i * k < |s| && Stride(s, k)[i] == s[i * k]
    decreases |s|
  {
    if i > 0 {
      if k >= |s| {
        StrideLength(|s|, k);
        assert false;
      }
      var rest := s[k..];
      assert Stride(s, k) == [s[0]] + Stride(rest, k);
      StrideAt(rest, k, i - 1);
      assert (i - 1) * k + k == i * k;
    }
  }

  /** `s[::k]` is exactly the subsequence of every k-th element, from the first. */
  lemma StrideSpec<T>(s: seq<T>, k: nat)
    requires k >= 1
    ensures |Stride(s, k)| == (|s| + k - 1) / k
    ensures forall i :: 0 <= i < |Stride(s, k)| ==> i * k < |s| && Stride(s, k)[i] == s[i * k]
  {
    forall i | 0 <= i < |Stride(s, k)|
      ensures i * k < |s| && Stride(s, k)[i] == s[i * k]
    {
      StrideAt(s, k, i);
    }
  }

  /** After a scatter through an injective index, slot idx[i] holds vals[i]. */
  lemma {:induction false} ScatterWritten<T>(base: seq<T>, idx: seq<int>, vals: seq<T>, i: int)
    requires |idx| == |vals| && InRange(idx, |base|) && Injective(idx)
    requires 0 <= i < |idx|
    ensures Scatter(base, idx, vals)[idx[i]] == vals[i]
    decreases |vals|
  {
    var n := |vals|;
    if i < n - 1 {
      var idx', vals' := idx[..n - 1], vals[..n - 1];
      assert idx'[i] == idx[i] && vals'[i] == vals[i];
      assert idx[i] != idx[n - 1];
      ScatterWritten(base, idx', vals', i);
    }
  }

  /** A scatter leaves every slot that no index addresses as it was. */
  lemma {:induction false} ScatterUntouched<T>(base: seq<T>, idx: seq<int>, vals: seq<T>, j: int)
    requires |idx| == |vals| && InRange(idx, |base|)
    requires 0 <= j < |base| && !Hit(idx, j)
    ensures Scatter(base, idx, vals)[j] == base[j]
    decreases |vals|
  {
    var n := |vals|;
    if n > 0 {
      var idx', vals' := idx[..n - 1], vals[..n - 1];
      assert idx[n - 1] != j;
      assert forall i :: 0 <= i < |idx'| ==> idx'[i] == idx[i];
      assert !Hit(idx', j);
      ScatterUntouched(base, idx', vals', j);
    }
  }

  /** Reading back through an injective index returns what was scattered. */
  lemma GatherOfScatter<T>(base: seq<T>, idx: seq<int>, vals: seq<T>)
    requires |idx| == |vals| && InRange(idx, |base|) && Injective(idx)
    ensures Gather(Scatter(base, idx, vals), idx) == vals
  {
    var g := Gather(Scatter(base, idx, vals), idx);
    forall i | 0 <= i < |idx|
      ensures g[i] == vals[i]
    {
      ScatterWritten(base, idx, vals, i);
    }
  }

  /** Scattering what was gathered through a permutation rebuilds the source,
      whatever the array written into held before. */
  lemma ScatterOfGather<T>(base: seq<T>, src: seq<T>, idx: seq<int>)
    requires IsPermutation(idx) && |src| == |idx| && |base| == |idx|
    ensures Scatter(base, idx, Gather(src, idx)) == src
  {
    var g := Gather(src, idx);
    var s := Scatter(base, idx, g);
    forall j | 0 <= j < |src|
      ensures s[j] == src[j]
    {
      assert Hit(idx, j);
      var i :| 0 <= i < |idx| && idx[i] == j;
      ScatterWritten(base, idx, g, i);
    }
  }
}
