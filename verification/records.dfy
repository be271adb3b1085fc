/** Sample records and their projection from registry lines. */
module Records {
  import opened Errors

  /** One sample of the registry: family ID and individual ID. */
  datatype Sample = Sample(familyId: string, individualId: string)

  /** The whitespace-separated fields of one registry line. */
  type Row = seq<string>

  /** Every row has at least the two identifier fields. */
  predicate WellFormed(rows: seq<Row>) {
    forall i :: 0 <= i < |rows| ==> |rows[i]| >= 2
  }

  /** Position of the first row with fewer than two fields, or |rows| if there is none. */
  function FirstShortRow(rows: seq<Row>): (k: nat)
    ensures k <= |rows|
    ensures forall i :: 0 <= i < k ==> |rows[i]| >= 2
    ensures k < |rows| ==> |rows[k]| < 2
  {
    if rows == [] then 0
    else if |rows[0]| < 2 then 0
    else 1 + FirstShortRow(rows[1..])
  }

  /** Keeps the first two fields of every row, in file order; the first row that has
      fewer than two fields is reported. */
  function Load(rows: seq<Row>): (r: Result<seq<Sample>>)
    ensures r.Ok? <==> WellFormed(rows)
    ensures r.Ok? ==> |r.value| == |rows|
    ensures r.Ok? ==> forall i :: 0 <= i < |rows| ==> r.value[i] == Sample(rows[i][0], rows[i][1])
    ensures r.Err? ==> r.error.MalformedRecord? && r.error.line < |rows| && |rows[r.error.line]| < 2
    ensures r.Err? ==> forall i :: 0 <= i < r.error.line ==> |rows[i]| >= 2
  {
    var k := FirstShortRow(rows);
    if k < |rows| then Err(MalformedRecord(k))
    else Ok(seq(|rows|, i requires 0 <= i < |rows| => Sample(rows[i][0], rows[i][1])))
  }
}
