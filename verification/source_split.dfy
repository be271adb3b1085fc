/** The script's split exactly as written: the tolerant sum check, Python's `int()`
    and pandas' positional slicing, which accepts negative and out-of-range bounds. */
module SourceSplit {
  import opened Errors
  import opened Proportions
  import opened Sizes
  import opened Partition

  /** A Python slice bound: a negative bound counts from the end, then the bound is
      clamped to [0, len]. */
  function Bound(b: int, len: nat): (r: nat)
    ensures r <= len
    ensures 0 <= b <= len ==> r == b
  {
    if b < 0 then (if b + len < 0 then 0 else b + len)
    else if b > len then len
    else b
  }

  /** `s[start:stop]` in Python (and `iloc[start:stop]` in pandas). */
  function PySlice<T>(s: seq<T>, start: int, stop: int): (r: seq<T>)
    ensures |r| <= |s|
    ensures 0 <= start <= stop <= |s| ==> r == s[start..stop]
  {
    var lo := Bound(start, |s|);
    var hi := Bound(stop, |s|);
    if lo < hi then s[lo..hi] else []
  }

  /** The script's three positional slices: everything before `n_train`, from `n_train`
      up to `n_train + n_val`, and everything from `n_train + n_val` on, for whatever
      sizes were computed. On sizes that fit it is the contiguous cut. */
  function SourceSlice<T>(s: seq<T>, z: SplitSizes): (a: Assignment<T>)
    ensures Fits(z, |s|) ==> a == Slice(s, z)
  {
    Assignment(PySlice(s, 0, z.train), PySlice(s, z.train, z.train + z.val), PySlice(s, z.train + z.val, |s|))
  }

  /** The script's split of the shuffled records `s`: check, size, slice. */
  function SourceRun<T>(s: seq<T>, p: Proportions): (r: Result<Assignment<T>>)
    ensures r.Ok? <==> IsClose(Total(p), 100.0)
    ensures r.Err? ==> r.error == InvalidProportions(Total(p))
    ensures r.Ok? ==> r.value == SourceSlice(s, ComputeSizes(|s|, p))
    ensures r.Ok? && Fits(ComputeSizes(|s|, p), |s|) ==> r.value == Slice(s, ComputeSizes(|s|, p))
  {
    var q :- SourceCheck(p);
    Ok(SourceSlice(s, ComputeSizes(|s|, q)))
  }

  /** On the proportions the corrected check accepts, the script's split is the
      contiguous cut by the computed sizes. */
  lemma SourceRunOnValid<T>(s: seq<T>, p: Proportions)
    requires Valid(p)
    ensures Fits(ComputeSizes(|s|, p), |s|)
    ensures SourceRun(s, p) == Ok(Slice(s, ComputeSizes(|s|, p)))
  {
  }

  /** A negative training percentage that still sums to 100. */
  const NegativeTrain := Proportions(-10.0, 10.0, 100.0)

  /** With ten records and -10 / 10 / 100 the script accepts the proportions, computes
      sizes -1 / 1 / 10, and writes nineteen records: the first nine land in both
      train and test. */
  lemma NegativeTrainDuplicates<T>(s: seq<T>)
    requires |s| == 10
    ensures SourceCheck(NegativeTrain).Ok? && !Valid(NegativeTrain)
    ensures ComputeSizes(10, NegativeTrain) == SplitSizes(-1, 1, 10)
    ensures var a := SourceRun(s, NegativeTrain).value;
      a.train == s[..9] && a.val == [] && a.test == s
  {
  }

  /** Percentages whose total, 100.0009765625, is within numpy's tolerance of 100.
      They are exact binary fractions, so the script's floating point gives the same numbers. */
  const OverTolerance := Proportions(50.00048828125, 50.0, 0.00048828125)

  /** With 204800 records these proportions pass the check, the sizes come out as
      102401 / 102400 / -1, the test block that should hold one record is empty,
      and the validation block is one record shorter than its computed size. */
  lemma ToleranceMakesTestNegative<T>(s: seq<T>)
    requires |s| == 204800
    ensures SourceCheck(OverTolerance).Ok? && !Valid(OverTolerance)
    ensures Share(204800, OverTolerance.test) == 1.0
    ensures ComputeSizes(204800, OverTolerance) == SplitSizes(102401, 102400, -1)
    ensures var a := SourceRun(s, OverTolerance).value;
      |a.train| == 102401 && |a.val| == 102399 && a.test == []
  {
  }
}
