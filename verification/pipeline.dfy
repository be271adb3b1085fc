/** The splitter end to end: check the proportions, project the registry, shuffle,
    size and cut. The shuffle is the permutation `perm` that the seeded generator
    produced, so the same registry, proportions and permutation always give the same split. */
module Pipeline {
  import opened Errors
  import opened Proportions
  import opened Sizes
  import opened Permutation
  import opened Records
  import opened Partition
  import SourceSplit

  /** The directory the sample lists go to: the registry's own directory, or "."
      when the prefix names none. */
  function OutputDir(registryDir: string): (d: string)
    ensures d != ""
    ensures registryDir != "" ==> d == registryDir
    ensures registryDir == "" ==> d == "."
  {
    if registryDir == "" then "." else registryDir
  }

  /** The split, with the corrected proportion check. */
  function SplitSamples(rows: seq<Row>, p: Proportions, perm: seq<nat>): (r: Result<Assignment<Sample>>)
    requires IsPermutation(perm, |rows|)
    ensures Total(p) != 100.0 ==> r == Err(InvalidProportions(Total(p)))
    ensures r.Ok? <==> Valid(p) && WellFormed(rows)
    ensures r.Ok? ==> r.value.train + r.value.val + r.value.test == Shuffle(Load(rows).value, perm)
    ensures r.Ok? ==> var z := ComputeSizes(|rows|, p);
      |r.value.train| == z.train && |r.value.val| == z.val && |r.value.test| == z.test
  {
    var q :- Validate(p);
    var samples :- Load(rows);
    ValidSizesFit(|samples|, q);
    Ok(Slice(Shuffle(samples, perm), ComputeSizes(|samples|, q)))
  }

  /** A wrong total is reported before the registry is looked at: the rows and the
      permutation make no difference, malformed rows included. */
  lemma RejectionComesFirst(rows: seq<Row>, perm: seq<nat>, rows': seq<Row>, perm': seq<nat>, p: Proportions)
    requires IsPermutation(perm, |rows|) && IsPermutation(perm', |rows'|)
    requires Total(p) != 100.0
    ensures SplitSamples(rows, p, perm) == SplitSamples(rows', p, perm') == Err(InvalidProportions(Total(p)))
  {
  }

  /** The three blocks together hold every registry sample exactly as often as the
      registry does. */
  lemma SplitKeepsEverySample(rows: seq<Row>, p: Proportions, perm: seq<nat>)
    requires IsPermutation(perm, |rows|) && Valid(p) && WellFormed(rows)
    ensures var a := SplitSamples(rows, p, perm).value;
      multiset(a.train) + multiset(a.val) + multiset(a.test) == multiset(Load(rows).value)
  {
  }

  /** Every output record is the first two fields of the registry line the permutation
      put at its position: block positions [0, n_train), [n_train, n_train + n_val) and
      [n_train + n_val, n) of the shuffled order. */
  lemma SplitRecordsComeFromRows(rows: seq<Row>, p: Proportions, perm: seq<nat>)
    requires IsPermutation(perm, |rows|) && Valid(p) && WellFormed(rows)
    ensures var a := SplitSamples(rows, p, perm).value;
      var z := ComputeSizes(|rows|, p);
      && (forall i :: 0 <= i < |a.train| ==> a.train[i] == Sample(rows[perm[i]][0], rows[perm[i]][1]))
      && (forall i :: 0 <= i < |a.val| ==>
            a.val[i] == Sample(rows[perm[z.train + i]][0], rows[perm[z.train + i]][1]))
      && (forall i :: 0 <= i < |a.test| ==>
            a.test[i] == Sample(rows[perm[z.train + z.val + i]][0], rows[perm[z.train + z.val + i]][1]))
  {
    var a := SplitSamples(rows, p, perm).value;
    var z := ComputeSizes(|rows|, p);
    ValidSizesFit(|rows|, p);
    assert a == Slice(Shuffle(Load(rows).value, perm), z);
  }

  /** Where the corrected check accepts, the model and the script produce the same split. */
  lemma SplitMatchesSource(rows: seq<Row>, p: Proportions, perm: seq<nat>)
    requires IsPermutation(perm, |rows|) && Valid(p) && WellFormed(rows)
    ensures SplitSamples(rows, p, perm) == SourceSplit.SourceRun(Shuffle(Load(rows).value, perm), p)
  {
  }

  /** An empty registry gives three empty blocks and no failure. */
  lemma EmptyRegistry(p: Proportions)
    requires Valid(p)
    ensures SplitSamples([], p, []) == Ok(Assignment([], [], []))
  {
  }

  /** Three samples at 50 / 20 / 30: one to train, none to validation, two to test,
      in shuffled order. */
  lemma {:induction false} ThreeSamples(rows: seq<Row>, perm: seq<nat>)
    requires IsPermutation(perm, |rows|) && |rows| == 3 && WellFormed(rows)
    ensures var s := Load(rows).value;
      SplitSamples(rows, Defaults, perm) == Ok(Assignment([s[perm[0]]], [], [s[perm[1]], s[perm[2]]]))
  {
    ThreeRecordsDefaultSizes();
    var s := Load(rows).value;
    var t := Shuffle(s, perm);
    assert Slice(t, SplitSizes(1, 0, 2)) == Assignment([t[0]], [], [t[1], t[2]]);
  }
}
