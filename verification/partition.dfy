/** Cutting the shuffled registry into contiguous train, validation and test blocks. */
module Partition {
  import opened Sizes
  import opened Permutation

  /** The three blocks, each in shuffled order. */
  datatype Assignment<T> = Assignment(train: seq<T>, val: seq<T>, test: seq<T>)

  /** Prefix, middle and suffix of `s` with the given sizes: positions [0, train),
      [train, train + val) and [train + val, |s|). */
  function Slice<T>(s: seq<T>, z: SplitSizes): (a: Assignment<T>)
    requires Fits(z, |s|)
    ensures |a.train| == z.train && |a.val| == z.val && |a.test| == z.test
    ensures forall i :: 0 <= i < z.train ==> a.train[i] == s[i]
    ensures forall i :: 0 <= i < z.val ==> a.val[i] == s[z.train + i]
    ensures forall i :: 0 <= i < z.test ==> a.test[i] == s[z.train + z.val + i]
    ensures a.train + a.val + a.test == s
  {
    var b := z.train + z.val;
    assert s == s[..z.train] + s[z.train..b] + s[b..];
    Assignment(s[..z.train], s[z.train..b], s[b..])
  }

  /** No record is dropped or repeated: the blocks together hold exactly the records of `s`. */
  lemma SliceMultiset<T>(s: seq<T>, z: SplitSizes)
    requires Fits(z, |s|)
    ensures var a := Slice(s, z); multiset(a.train) + multiset(a.val) + multiset(a.test) == multiset(s)
  {
  }

  /** The distinct entries of a list of positions. */
  function Positions(p: seq<nat>): set<nat> {
    set k | k in p
  }

  /** Cutting a permutation of [0, n) gives three pairwise disjoint sets of source positions. */
  lemma IndexBlocksDisjoint(p: seq<nat>, n: nat, z: SplitSizes)
    requires IsPermutation(p, n) && Fits(z, n)
    ensures var b := Slice(p, z);
      && Positions(b.train) !! Positions(b.val)
      && Positions(b.train) !! Positions(b.test)
      && Positions(b.val) !! Positions(b.test)
  {
  }

  /** The three blocks of source positions together are exactly [0, n). */
  lemma {:induction false} IndexBlocksCover(p: seq<nat>, n: nat, z: SplitSizes)
    requires IsPermutation(p, n) && Fits(z, n)
    ensures var b := Slice(p, z);
      forall k: nat :: k in Positions(b.train) + Positions(b.val) + Positions(b.test) <==> k < n
  {
    var b := Slice(p, z);
    PermutationCovers(p, n);
    assert b.train + b.val + b.test == p;
    forall k: nat
      ensures k in Positions(b.train) + Positions(b.val) + Positions(b.test) <==> k in p
    {
      assert k in b.train + b.val + b.test <==> k in b.train || k in b.val || k in b.test;
    }
  }

  /** Shuffling then cutting is the same as cutting the permutation and picking each
      block's records from their source positions. */
  lemma ShuffleThenSlice<T>(s: seq<T>, p: seq<nat>, z: SplitSizes)
    requires IsPermutation(p, |s|) && Fits(z, |s|)
    ensures var b := Slice(p, z);
      Slice(Shuffle(s, p), z) == Assignment(Pick(s, b.train), Pick(s, b.val), Pick(s, b.test))
  {
  }
}
