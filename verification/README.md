# Sample splitter for PLINK registries: a Dafny model

`src/split_plink_samples.py` splits the samples of a PLINK `.fam` registry into
train, validation and test lists. First it checks that the three percentages add up to 100.
Then it keeps the first two columns of each registry line (family ID and individual ID),
shuffles the rows with a seeded generator, and computes
`n_train = int(n * train / 100)`, `n_val = int(n * val / 100)` and
`n_test = n - n_train - n_val`. It cuts the shuffled rows into a prefix, a middle part
and a suffix of those sizes, writes the three lists and, unless `--no_plink` is given,
runs PLINK once per subset.

The model covers the partitioning logic in these modules:

- `Errors`: the failure values (`InvalidProportions`, `NegativeProportion`, `MalformedRecord`) and a `Result` type.
- `Proportions`: the percentages, the check as the script makes it (`SourceCheck`, numpy's `isclose`), and the corrected check (`Validate`).
- `Sizes`: Python's `int()` truncation and the size arithmetic.
- `Permutation`: the shuffle, given as a permutation of the positions `[0, n)`, and the proof that it neither drops nor repeats a record.
- `Records`: projection of registry lines to `(family ID, individual ID)` samples.
- `Partition`: the contiguous cut, and the proofs that it covers the records and that its blocks are disjoint.
- `SourceSplit`: the cut exactly as written, with Python's negative and out-of-range slice bounds. It also holds the two counterexamples listed under Findings.
- `Pipeline`: the whole split as a function of the registry lines, the proportions and the permutation, and the output-directory default.
- `Materialize`: the order of the PLINK runs, which stop at the first failure.

The seeded shuffle is the permutation `perm` that the generator produced. It is a parameter, so the
same registry, proportions and permutation always give the same split. The pipeline uses the
corrected check. Where that check accepts, `Pipeline.SplitMatchesSource` proves that the result
equals the script's own behaviour.

## Model

| member | source | states |
|---|---|---|
| Proportions.SourceCheck | src/split_plink_samples.py:21-24 | accepts the percentages exactly when their total is within numpy's default tolerance of 100 (±0.00100001); otherwise it fails with the total |
| Proportions.Validate | src/split_plink_samples.py:21-24 | corrected check: accepts exactly the non-negative triples whose total is 100, passes them through unchanged, and reports a wrong total before a negative percentage |
| Proportions.ValidateRefinesSourceCheck | src/split_plink_samples.py:21-24 | every triple the corrected check accepts also passes the script's check, with the same result |
| Proportions.DefaultsAreValid | src/split_plink_samples.py:13-15 | the command-line defaults 50 / 20 / 30 pass both checks |
| Pipeline.OutputDir | src/split_plink_samples.py:26-28 | the output directory is never empty: it is the registry's own directory when there is one, and "." otherwise |
| Records.FirstShortRow | src/split_plink_samples.py:37-38 | finds the first registry line with fewer than two fields; every earlier line has at least two |
| Records.Load | src/split_plink_samples.py:37-38 | succeeds exactly when every line has at least two fields; each sample is then the first two fields of its line, kept as text, in file order; otherwise it names the first short line (pandas' own reading differs, see Left out) |
| Permutation.PermutationCovers | src/split_plink_samples.py:38 | a shuffle order, with n distinct positions below n, uses every position in [0, n) |
| Permutation.DropLastPermutation | src/split_plink_samples.py:38 | a permutation of [0, n) without its last entry, renumbered, is a permutation of [0, n - 1) |
| Permutation.PickPermutationMultiset | src/split_plink_samples.py:38 | picking records along a permutation keeps the multiset of records |
| Permutation.Shuffle | src/split_plink_samples.py:38 | record i of the shuffled registry is record perm[i] of the input; the shuffle keeps the length and the multiset of records |
| Sizes.Trunc | src/split_plink_samples.py:42-43 | Python's `int()`: the integer between zero and x that is less than one away from x |
| Sizes.ComputeSizes | src/split_plink_samples.py:41-44 | for any n the three sizes add up to n; each non-negative percentage gives the floor of its share n·pct/100 |
| Sizes.ValidSizesFit | src/split_plink_samples.py:42-44 | for non-negative percentages summing to 100 all sizes are non-negative and n_train + n_val <= n; the test block holds at least its share and less than two records more |
| Sizes.EmptyRegistrySizes | src/split_plink_samples.py:41-44 | with n = 0 every size is 0 |
| Sizes.ThreeRecordsDefaultSizes | src/split_plink_samples.py:41-44 | n = 3 at 50 / 20 / 30 gives sizes 1 / 0 / 2 |
| Partition.Slice | src/split_plink_samples.py:47-49 | the blocks have the computed sizes, occupy positions [0, n_train), [n_train, n_train + n_val) and [n_train + n_val, n) in shuffled order, and joined back together give the shuffled sequence |
| Partition.SliceMultiset | src/split_plink_samples.py:47-49 | the three blocks together hold each record exactly as often as the shuffled sequence does |
| Partition.IndexBlocksDisjoint | src/split_plink_samples.py:47-49 | the source positions in the three blocks are pairwise disjoint |
| Partition.IndexBlocksCover | src/split_plink_samples.py:47-49 | the source positions of the three blocks together are exactly [0, n) |
| Partition.ShuffleThenSlice | src/split_plink_samples.py:38-49 | shuffling then cutting equals cutting the permutation and picking each block's records from their source positions |
| SourceSplit.Bound | src/split_plink_samples.py:47-49 | a slice bound ends up in [0, len], and a bound already in range is kept |
| SourceSplit.PySlice | src/split_plink_samples.py:47-49 | a Python slice is never longer than the sequence and is the plain sub-sequence for in-range ordered bounds |
| SourceSplit.SourceSlice | src/split_plink_samples.py:47-49 | the script's three `iloc` slices equal the contiguous cut whenever the sizes fit |
| SourceSplit.SourceRun | src/split_plink_samples.py:21-49 | for percentages whose shares are finite doubles, the script fails exactly when the total is not within numpy's tolerance of 100, and then reports that total; when the computed sizes fit, its output is the contiguous cut with those sizes |
| SourceSplit.SourceRunOnValid | src/split_plink_samples.py:41-49 | on proportions the corrected check accepts, the sizes fit and the script's split is the contiguous cut |
| SourceSplit.NegativeTrainDuplicates | src/split_plink_samples.py:21-49 | with 10 records and -10 / 10 / 100 the script accepts, computes sizes -1 / 1 / 10, and puts the first nine records in both train and test |
| SourceSplit.ToleranceMakesTestNegative | src/split_plink_samples.py:21-49 | with 204800 records and 50.00048828125 / 50 / 0.00048828125 the script accepts, computes n_test = -1, and leaves the test block empty although its share is one record |
| Pipeline.SplitSamples | src/split_plink_samples.py:21-49 | a wrong total fails with that total; the split succeeds exactly for valid proportions and a well-formed registry; the blocks have the computed sizes and together are the shuffled registry |
| Pipeline.RejectionComesFirst | src/split_plink_samples.py:21-38 | a wrong total gives the same failure whatever the registry and the permutation are, malformed lines included |
| Pipeline.SplitKeepsEverySample | src/split_plink_samples.py:38-49 | the three blocks together are the loaded registry as a multiset: nothing is dropped or repeated |
| Pipeline.SplitRecordsComeFromRows | src/split_plink_samples.py:38-49 | each output record is the first two fields, as text, of the registry line that the permutation put at its position in the block |
| Pipeline.SplitMatchesSource | src/split_plink_samples.py:21-49 | where the corrected check accepts, the model's split equals the script's split of the same shuffled registry |
| Pipeline.EmptyRegistry | src/split_plink_samples.py:41-49 | an empty registry gives sizes 0 / 0 / 0, three empty blocks and no failure (the script's pandas reader rejects an empty file earlier, see Left out) |
| Pipeline.ThreeSamples | src/split_plink_samples.py:38-49 | three samples at 50 / 20 / 30 put the first shuffled sample in train, none in validation and the other two in test |
| Materialize.RunInOrder | src/split_plink_samples.py:75-79 | the runs made are a non-empty prefix of the pending subsets; every run except the last succeeded; the runs stop early only after a failure |
| Materialize.PlinkRuns | src/split_plink_samples.py:66-81 | `--no_plink` makes no runs; otherwise the runs are a non-empty prefix of train, val, test |
| Materialize.TrainFailureStopsRest | src/split_plink_samples.py:75-79 | if the train run fails, val and test are never run |
| Materialize.RunsStopAtFirstFailure | src/split_plink_samples.py:75-79 | val is run exactly when train succeeded; test is run exactly when train and val succeeded |

## Left out

- Argument parsing (lines 9-18) is library glue. The defaults 50 / 20 / 30 appear only as `Proportions.Defaults`.
- The `.fam` existence check (lines 31-34), reading with pandas (line 37), writing the lists (lines 52-60) and console output are I/O. They are not modelled.
- Tokenising a line on whitespace is done by pandas. The model starts from each line's list of fields.
- Records.Load: does not model how `pd.read_csv` (line 37) reads the registry. The model reports the first line with fewer than two fields as `MalformedRecord` and keeps every field as text. pandas behaves differently in these cases:
  - an empty `.fam` file raises `EmptyDataError`, so the script fails where `Pipeline.EmptyRegistry` succeeds; the model gives three empty lists for an empty registry;
  - blank lines are skipped, where the model reports them as malformed;
  - a later line with more fields than the first raises a tokenizing error, where the model accepts it;
  - a file whose lines all have one field fails with `KeyError` at `df[[0, 1]]` (line 38);
  - shorter lines among longer ones get missing values;
  - column types are inferred, so an ID such as `0012` becomes `12`, `NA` becomes a missing value, and an integer column with missing values is written back as `7.0`. The first-two-fields property of `Pipeline.SplitRecordsComeFromRows` holds only for IDs that pandas keeps as text.
- The seeded generator of pandas' `sample` (line 38) is a foreign library. Its output is the permutation parameter, and the model does not reproduce pandas' order.
- Percentages are exact reals. Floating-point rounding in `n * pct / 100` and in the total is not modelled. Both counterexamples use exact binary fractions, so they do not depend on rounding.
- SourceSplit.SourceRun: percentages are exact reals, which never overflow. In the script, `n * pct` can overflow to infinity (for example `--train 1e308 --val=-1e308 --test 100` with n >= 2), and then `int()` raises `OverflowError` at lines 42-43; infinities and NaN are not modelled.
- Proportions.Validate: compares the total with 100 exactly on reals, instead of using numpy's tolerance (see Findings).
- Path handling (`os.path.dirname`, `basename` and `join`, lines 26-29, 53 and 68) is left out. Only the empty-directory default is kept, in `Pipeline.OutputDir`.
- The PLINK command line (lines 69-73) and the subprocess itself are external. Only the order of the runs and the stop at the first failure are modelled.

## Findings

| source | as written | input that shows it | evidently intended | confidence | as-written member | corrected member |
|---|---|---|---|---|---|---|
| src/split_plink_samples.py:21-49 | only the total of the percentages is checked; a negative size then becomes a Python slice bound counted from the end of the list | 10 samples with `--train -10 --val 10 --test 100`: sizes -1 / 1 / 10, train gets the first 9 samples, test gets all 10 | a negative percentage is rejected, so every sample lands in exactly one list | medium, not executed | SourceSplit.NegativeTrainDuplicates | Proportions.Validate, used by Pipeline.SplitSamples; disjointness and coverage proved in Pipeline.SplitKeepsEverySample and Partition.IndexBlocksDisjoint |
| src/split_plink_samples.py:21-44 | `np.isclose` accepts totals up to 100.00100001, so n_train + n_val can exceed n | 204800 samples with `--train 50.00048828125 --val 50 --test 0.00048828125`: sizes 102401 / 102400 / -1; validation gets 102399 samples and test none | the total is 100, so n_test is never negative and the test list holds at least its share | medium, not executed | SourceSplit.ToleranceMakesTestNegative | Proportions.Validate, with n_test >= 0 and the share bound proved in Sizes.ValidSizesFit |
