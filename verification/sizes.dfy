/** The block sizes: truncated shares for train and validation, the remainder for test. */
module Sizes {
  import opened Proportions

  /** Python's `int()` on a float: truncation toward zero. */
  function Trunc(x: real): (r: int)
    ensures 0.0 <= x ==> 0 <= r && r as real <= x < r as real + 1.0
    ensures x < 0.0 ==> r <= 0 && r as real - 1.0 < x <= r as real
  {
    if 0.0 <= x then x.Floor else -((-x).Floor)
  }

  datatype SplitSizes = SplitSizes(train: int, val: int, test: int)

  /** The share of `n` records that `pct` percent stands for, before truncation. */
  function Share(n: nat, pct: real): real {
    n as real * pct / 100.0
  }

  /** Sizes as the script computes them, for any percentages. */
  function ComputeSizes(n: nat, p: Proportions): (z: SplitSizes)
    ensures z.train + z.val + z.test == n
    ensures 0.0 <= p.train ==> 0 <= z.train && z.train as real <= Share(n, p.train) < z.train as real + 1.0
    ensures 0.0 <= p.val ==> 0 <= z.val && z.val as real <= Share(n, p.val) < z.val as real + 1.0
  {
    var t := Trunc(Share(n, p.train));
    var v := Trunc(Share(n, p.val));
    SplitSizes(t, v, n - t - v)
  }

  /** Sizes that cut a sequence of `n` records into three contiguous blocks. */
  predicate Fits(z: SplitSizes, n: nat) {
    0 <= z.train && 0 <= z.val && 0 <= z.test && z.train + z.val + z.test == n
  }

  /** For non-negative percentages summing to 100 the sizes fit: since
      floor(a) + floor(b) <= a + b <= n, the test remainder is never negative.
      The test block receives at least its own share and less than two records more. */
  lemma ValidSizesFit(n: nat, p: Proportions)
    requires Valid(p)
    ensures Fits(ComputeSizes(n, p), n)
    ensures Share(n, p.test) <= ComputeSizes(n, p).test as real < Share(n, p.test) + 2.0
  {
  }

  /** With no records every block is empty. */
  lemma EmptyRegistrySizes(p: Proportions)
    requires Valid(p)
    ensures ComputeSizes(0, p) == SplitSizes(0, 0, 0)
  {
  }

  /** Three records at the default 50 / 20 / 30 give 1 / 0 / 2. */
  lemma ThreeRecordsDefaultSizes()
    ensures ComputeSizes(3, Defaults) == SplitSizes(1, 0, 2)
  {
  }
}
