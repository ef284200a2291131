/** Sequence helpers shared by the scoring functions, the data generator and the metric tracker. */
module Sequences {

  /** `list(range(n))`. */
  function Range(n: nat): (r: seq<int>)
    ensures |r| == n
    ensures forall i :: 0 <= i < n ==> r[i] == i
  {
    seq(n, i => i)
  }

  /** `p` is a rearrangement of `range(n)`. */
  ghost predicate IsPermutation(p: seq<int>, n: nat)
  {
    multiset(p) == multiset(Range(n))
  }

  predicate IndicesIn(p: seq<int>, n: nat)
  {
    forall k :: 0 <= k < |p| ==> 0 <= p[k] < n
  }

  /** A permutation of `range(n)` has length `n` and holds only valid indices. */
  lemma PermutationBounds(p: seq<int>, n: nat)
    requires IsPermutation(p, n)
    ensures |p| == n
    ensures IndicesIn(p, n)
  {
    calc {
      |p|;
      |multiset(p)|;
      |multiset(Range(n))|;
      |Range(n)|;
    }
    forall k | 0 <= k < |p|
      ensures 0 <= p[k] < n
    {
      assert p[k] in multiset(p);
      assert p[k] in multiset(Range(n));
      assert p[k] in Range(n);
    }
  }

  /** `[s[i] for i in p]`: the elements of `s` at the positions listed in `p`, in that order. */
  function Gather<T>(s: seq<T>, p: seq<int>): (r: seq<T>)
    requires IndicesIn(p, |s|)
    ensures |r| == |p|
  {
    seq(|p|, j requires 0 <= j < |p| => s[p[j]])
  }

  /** `g` is `h` with one extra element inserted at position `i`. */
  lemma MultisetInsert<T>(g: seq<T>, h: seq<T>, i: nat)
    requires i < |g| && |h| + 1 == |g|
    requires g[..i] == h[..i] && g[i + 1..] == h[i..]
    ensures multiset(g) == multiset(h) + multiset{g[i]}
  {
    assert g == g[..i] + [g[i]] + g[i + 1..];
    assert h == h[..i] + h[i..];
  }

  /** Dropping position `i` of `q` keeps its indices valid and drops one copy of `q[i]`. */
  lemma RemoveIndex(q: seq<int>, i: nat, n: nat)
    requires IndicesIn(q, n) && i < |q|
    ensures IndicesIn(q[..i] + q[i + 1..], n)
    ensures multiset(q) == multiset(q[..i] + q[i + 1..]) + multiset{q[i]}
  {
    var rest := q[..i] + q[i + 1..];
    assert rest[..i] == q[..i] && rest[i..] == q[i + 1..];
    MultisetInsert(q, rest, i);
  }

  /** Gathering by `q` without position `i` loses exactly the one element `s[q[i]]`. */
  lemma GatherRemove<T>(s: seq<T>, q: seq<int>, i: nat, rest: seq<int>)
    requires IndicesIn(q, |s|) && i < |q|
    requires rest == q[..i] + q[i + 1..] && IndicesIn(rest, |s|)
    ensures multiset(Gather(s, q)) == multiset(Gather(s, rest)) + multiset{s[q[i]]}
  {
    var g, h := Gather(s, q), Gather(s, rest);
    assert g[..i] == h[..i];
    assert g[i + 1..] == h[i..];
    MultisetInsert(g, h, i);
  }

  /** Where an element of the multiset of `q` sits in `q`. */
  lemma PositionOf(q: seq<int>, a: int) returns (i: nat)
    requires a in multiset(q)
    ensures i < |q| && q[i] == a
  {
    assert a in q;
    i :| 0 <= i < |q| && q[i] == a;
  }

  lemma MultisetCancel(x: multiset<int>, y: multiset<int>, a: int)
    requires x + multiset{a} == y + multiset{a}
    ensures x == y
  {
    assert x == x + multiset{a} - multiset{a};
    assert y == y + multiset{a} - multiset{a};
  }

  /** The multiset of gathered elements depends only on the multiset of positions. */
  lemma {:induction false} GatherRespectsMultiset<T>(s: seq<T>, p: seq<int>, q: seq<int>)
    requires IndicesIn(p, |s|) && IndicesIn(q, |s|)
    requires multiset(p) == multiset(q)
    ensures multiset(Gather(s, p)) == multiset(Gather(s, q))
    decreases |p|
  {
    if p == [] {
      assert |q| == |multiset(q)| == 0;
    } else {
      var a, tail := p[0], p[1..];
      var i := PositionOf(q, a);
      var rest := q[..i] + q[i + 1..];
      RemoveIndex(q, i, |s|);
      RemoveIndex(p, 0, |s|);
      assert p[..0] + p[1..] == tail;
      MultisetCancel(multiset(tail), multiset(rest), a);
      GatherRespectsMultiset(s, tail, rest);
      GatherRemove(s, q, i, rest);
      GatherRemove(s, p, 0, tail);
      calc {
        multiset(Gather(s, p));
        multiset(Gather(s, tail)) + multiset{s[a]};
        multiset(Gather(s, rest)) + multiset{s[a]};
        multiset(Gather(s, q));
      }
    }
  }

  /** Gathering by a permutation of all positions rearranges `s` without losing or adding elements. */
  lemma GatherPermutation<T>(s: seq<T>, p: seq<int>)
    requires IsPermutation(p, |s|)
    ensures IndicesIn(p, |s|)
    ensures multiset(Gather(s, p)) == multiset(s)
  {
    PermutationBounds(p, |s|);
    var id := Range(|s|);
    GatherRespectsMultiset(s, p, id);
    assert Gather(s, id) == s;
  }

  /** The number of `true` entries, `len(arr[mask])` for a boolean mask. */
  function CountTrue(flags: seq<bool>): (c: nat)
    ensures c <= |flags|
    ensures c == |flags| <==> forall i :: 0 <= i < |flags| ==> flags[i]
    ensures c == 0 <==> forall i :: 0 <= i < |flags| ==> !flags[i]
  {
    if flags == [] then 0
    else
      var rest := CountTrue(flags[1..]);
      assert forall i :: 1 <= i < |flags| ==> flags[i] == flags[1..][i - 1];
      (if flags[0] then 1 else 0) + rest
  }

  /** Python's `sum` over a list of numbers. */
  function Sum(xs: seq<real>): real
  {
    if xs == [] then 0.0 else xs[0] + Sum(xs[1..])
  }

  /** Python's own evaluation of `sum(xs)`: a running total, started at 0, adding from the left. */
  function RunningTotal(total: real, xs: seq<real>): real
    decreases xs
  {
    if xs == [] then total else RunningTotal(total + xs[0], xs[1..])
  }

  /** The running total from any start is that start plus `Sum`, so `Sum` is what Python computes. */
  lemma {:induction false} SumIsRunningTotal(total: real, xs: seq<real>)
    ensures RunningTotal(total, xs) == total + Sum(xs)
    ensures RunningTotal(0.0, xs) == Sum(xs)
    decreases xs
  {
    if xs != [] {
      SumIsRunningTotal(total + xs[0], xs[1..]);
      SumIsRunningTotal(xs[0], xs[1..]);
    }
  }

  /** A sum of values that all lie in `[lo, hi]` lies in `[|xs| * lo, |xs| * hi]`. */
  lemma {:induction false} SumBounds(xs: seq<real>, lo: real, hi: real)
    requires forall i :: 0 <= i < |xs| ==> lo <= xs[i] <= hi
    ensures |xs| as real * lo <= Sum(xs) <= |xs| as real * hi
  {
    if xs != [] {
      SumBounds(xs[1..], lo, hi);
      assert (|xs| - 1) as real * lo + lo == |xs| as real * lo;
      assert (|xs| - 1) as real * hi + hi == |xs| as real * hi;
    }
  }
}
