/** The train/validation/test percentages and the check made on them before anything else. */
module Proportions {
  import opened Errors

  /** Percentages as given on the command line (`--train`, `--val`, `--test`). */
  datatype Proportions = Proportions(train: real, val: real, test: real)

  /** The defaults of the command line: 50 / 20 / 30. */
  const Defaults := Proportions(50.0, 20.0, 30.0)

  function Total(p: Proportions): real {
    p.train + p.val + p.test
  }

  function Abs(x: real): real {
    if x < 0.0 then -x else x
  }

  /** numpy's `isclose(a, b)` with its default tolerances rtol = 1e-5 and atol = 1e-8,
      evaluated on exact reals. */
  predicate IsClose(a: real, b: real) {
    Abs(a - b) <= 0.00000001 + 0.00001 * Abs(b)
  }

  /** The check as the script makes it: the total only has to be close to 100. */
  function SourceCheck(p: Proportions): (r: Result<Proportions>)
    ensures r.Ok? <==> 100.0 - 0.00100001 <= Total(p) <= 100.0 + 0.00100001
    ensures r.Ok? ==> r.value == p
    ensures r.Err? ==> r.error == InvalidProportions(Total(p))
  {
    if IsClose(Total(p), 100.0) then Ok(p) else Err(InvalidProportions(Total(p)))
  }

  /** What a successful check guarantees in the corrected model. */
  predicate Valid(p: Proportions) {
    0.0 <= p.train && 0.0 <= p.val && 0.0 <= p.test && Total(p) == 100.0
  }

  /** The corrected check: the total must be exactly 100 and no percentage may be negative.
      A wrong total is reported first, as in the script. */
  function Validate(p: Proportions): (r: Result<Proportions>)
    ensures r.Ok? <==> Valid(p)
    ensures r.Ok? ==> r.value == p
    ensures Total(p) != 100.0 ==> r == Err(InvalidProportions(Total(p)))
    ensures Total(p) == 100.0 && !Valid(p) ==> r == Err(NegativeProportion)
  {
    if Total(p) != 100.0 then Err(InvalidProportions(Total(p)))
    else if p.train < 0.0 || p.val < 0.0 || p.test < 0.0 then Err(NegativeProportion)
    else Ok(p)
  }

  /** Everything the corrected check accepts, the script's check accepts too. */
  lemma ValidateRefinesSourceCheck(p: Proportions)
    ensures Validate(p).Ok? ==> SourceCheck(p) == Validate(p)
  {
  }

  /** The defaults pass both checks. */
  lemma DefaultsAreValid()
    ensures Validate(Defaults) == Ok(Defaults)
    ensures SourceCheck(Defaults) == Ok(Defaults)
  {
  }
}
