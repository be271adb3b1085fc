/** The optional PLINK step: one external run per subset, train, then val, then test,
    stopping at the first run that exits with an error. */
module Materialize {

  datatype Subset = Train | Val | Test

  /** The order of the runs. */
  const Order: seq<Subset> := [Train, Val, Test]

  /** The runs made for `pending`, given whether the external tool succeeds on each subset. */
  function RunInOrder(pending: seq<Subset>, succeeds: Subset -> bool): (ran: seq<Subset>)
    ensures ran <= pending
    ensures pending != [] ==> ran != []
    ensures forall i :: 0 <= i < |ran| - 1 ==> succeeds(ran[i])
    ensures |ran| < |pending| ==> !succeeds(ran[|ran| - 1])
  {
    if pending == [] then []
    else if succeeds(pending[0]) then [pending[0]] + RunInOrder(pending[1..], succeeds)
    else [pending[0]]
  }

  /** The runs of a whole invocation; `noPlink` is the `--no_plink` flag. */
  function PlinkRuns(noPlink: bool, succeeds: Subset -> bool): (ran: seq<Subset>)
    ensures noPlink ==> ran == []
    ensures !noPlink ==> ran != [] && ran <= Order
  {
    if noPlink then [] else RunInOrder(Order, succeeds)
  }

  /** A failing train run means val and test are never run. */
  lemma TrainFailureStopsRest(succeeds: Subset -> bool)
    requires !succeeds(Train)
    ensures PlinkRuns(false, succeeds) == [Train]
  {
  }

  /** A subset is run only if every subset before it succeeded; all three run
      exactly when train and val succeed. */
  lemma RunsStopAtFirstFailure(succeeds: Subset -> bool)
    ensures var ran := PlinkRuns(false, succeeds);
      && (Val in ran <==> succeeds(Train))
      && (Test in ran <==> succeeds(Train) && succeeds(Val))
  {
  }
}
