/** The seeded shuffle, taken as an input: a permutation of the positions [0, n).
    Whatever generator produced it, the shuffled registry is a function of the
    registry and that permutation alone. */
module Permutation {

  /** `p` lists every position in [0, n) exactly once: it has length n,
      stays in range and never repeats a position. */
  predicate IsPermutation(p: seq<nat>, n: nat) {
    && |p| == n
    && (forall i :: 0 <= i < |p| ==> p[i] < n)
    && (forall i, j :: 0 <= i < j < |p| ==> p[i] != p[j])
  }

  /** `p` with the entry at position `j` taken out. */
  function RemoveAt(p: seq<nat>, j: nat): (q: seq<nat>)
    requires j < |p|
    ensures |q| == |p| - 1
    ensures forall i :: 0 <= i < j ==> q[i] == p[i]
    ensures forall i :: j <= i < |q| ==> q[i] == p[i + 1]
  {
    p[..j] + p[j + 1..]
  }

  /** `p` without its last entry `v`, with every position above `v` moved down by one. */
  function DropLast(p: seq<nat>): (q: seq<nat>)
    requires |p| > 0
    ensures |q| == |p| - 1
    ensures forall i :: 0 <= i < |q| ==> q[i] == if p[i] > p[|p| - 1] then p[i] - 1 else p[i]
  {
    var v := p[|p| - 1];
    seq(|p| - 1, i requires 0 <= i < |p| - 1 => if p[i] > v then p[i] - 1 else p[i])
  }

  /** Dropping the last entry of a permutation of [0, n) leaves a permutation of [0, n - 1). */
  lemma DropLastPermutation(p: seq<nat>, n: nat)
    requires IsPermutation(p, n) && n > 0
    ensures IsPermutation(DropLast(p), n - 1)
  {
  }

  /** Pigeonhole: n distinct positions below n are all of [0, n). */
  lemma {:induction false} PermutationCovers(p: seq<nat>, n: nat)
    requires IsPermutation(p, n)
    ensures forall k :: 0 <= k < n ==> k in p
    decreases n
  {
    if n == 0 {
      return;
    }
    var v := p[n - 1];
    var q := DropLast(p);
    DropLastPermutation(p, n);
    PermutationCovers(q, n - 1);
    forall k | 0 <= k < n
      ensures k in p
    {
      if k < v {
        assert k in q;
        var i :| 0 <= i < |q| && q[i] == k;
        assert p[i] == k;
      } else if k > v {
        assert k - 1 in q;
        var i :| 0 <= i < |q| && q[i] == k - 1;
        assert p[i] == k;
      } else {
        assert p[n - 1] == k;
      }
    }
  }

  /** The records at the listed positions, in the listed order. */
  function Pick<T>(s: seq<T>, p: seq<nat>): (r: seq<T>)
    requires forall i :: 0 <= i < |p| ==> p[i] < |s|
    ensures |r| == |p|
    ensures forall i :: 0 <= i < |p| ==> r[i] == s[p[i]]
  {
    seq(|p|, i requires 0 <= i < |p| => s[p[i]])
  }

  /** Picking along `p` with entry `j` removed, from the records below position `m`,
      is picking along `p` and dropping the `j`-th pick. */
  lemma PickRemoveAt<T>(s: seq<T>, p: seq<nat>, j: nat, m: nat)
    requires m <= |s| && j < |p|
    requires forall i :: 0 <= i < |p| ==> p[i] < |s|
    requires forall i :: 0 <= i < |p| && i != j ==> p[i] < m
    ensures Pick(s[..m], RemoveAt(p, j)) == Pick(s, p)[..j] + Pick(s, p)[j + 1..]
  {
  }

  /** Picking along a permutation reorders the records and neither drops nor repeats one. */
  lemma {:induction false} PickPermutationMultiset<T>(s: seq<T>, p: seq<nat>)
    requires IsPermutation(p, |s|)
    ensures multiset(Pick(s, p)) == multiset(s)
  {
    if |s| == 0 {
      return;
    }
    var m := |s| - 1;
    PermutationCovers(p, |s|);
    assert m in p;
    var j :| 0 <= j < |p| && p[j] == m;
    assert forall i :: 0 <= i < |p| && i != j ==> p[i] < m by {
      forall i | 0 <= i < |p| && i != j
        ensures p[i] < m
      {
        if i < j { assert p[i] != p[j]; } else { assert p[j] != p[i]; }
      }
    }
    var q := RemoveAt(p, j);
    assert IsPermutation(q, m);
    PickRemoveAt(s, p, j, m);
    PickPermutationMultiset(s[..m], q);
    var r := Pick(s, p);
    SpliceMultiset(r, j);
    SpliceMultiset(s, m);
  }

  /** Taking out entry `j` removes one copy of `r[j]` from the multiset. */
  lemma SpliceMultiset<T>(r: seq<T>, j: nat)
    requires j < |r|
    ensures multiset(r) == multiset(r[..j] + r[j + 1..]) + multiset{r[j]}
  {
    assert r == r[..j] + [r[j]] + r[j + 1..];
  }

  /** The shuffled registry: record `i` of the result is record `p[i]` of the input. */
  function Shuffle<T>(s: seq<T>, p: seq<nat>): (r: seq<T>)
    requires IsPermutation(p, |s|)
    ensures |r| == |s|
    ensures forall i :: 0 <= i < |s| ==> r[i] == s[p[i]]
    ensures multiset(r) == multiset(s)
  {
    PickPermutationMultiset(s, p);
    Pick(s, p)
  }
}
