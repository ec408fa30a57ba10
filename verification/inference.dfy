/**
 * The price prediction: the assembled feature row handed to the pre-trained
 * regressor, which is loaded once and never changed.
 */
module Inference {
  import opened Wrappers
  import opened Tables
  import opened Features

  /**
   * The pre-trained regressor, as an opaque value: the number of columns it was
   * fitted on, and its (deterministic) estimate for a row of that width.
   */
  datatype Regressor = Regressor(inputWidth: nat, estimate: seq<real> -> real)

  /** Why no price was produced. */
  datatype PredictError =
    | RowFailed(cause: RowError)                    // a label had no table entry
    | WidthMismatch(expected: nat, actual: nat)     // the regressor was fitted on another width

  /** The regressor applied to one row; it rejects a row of a width it was not fitted on. */
  function Apply(m: Regressor, row: seq<real>): (r: Result<real, PredictError>)
    ensures r.Success? <==> |row| == m.inputWidth
    ensures r.Success? ==> r.value == m.estimate(row)
    ensures r.Failure? ==> r.error == WidthMismatch(m.inputWidth, |row|)
  {
    if |row| == m.inputWidth then Success(m.estimate(row))
    else Failure(WidthMismatch(m.inputWidth, |row|))
  }

  /**
   * Predicts the price of a phone: assembles the feature row and hands it to
   * the regressor. It succeeds exactly when every label is offered by its
   * selection box and the regressor takes 34 columns; an unknown label is
   * reported, as the row assembly reports it, before the regressor is consulted.
   */
  function PredictPrice(m: Regressor, s: Specs, c: Selection): (r: Result<real, PredictError>)
    ensures r.Success? <==> Offered(c) && m.inputWidth == RowWidth
    ensures !Offered(c) ==> r == Failure(RowFailed(AssembleRow(s, c).error))
    ensures Offered(c) && r.Failure? ==> r.error == WidthMismatch(m.inputWidth, 34)
  {
    match AssembleRow(s, c)
    case Failure(e) => Failure(RowFailed(e))
    case Success(row) => Apply(m, row)
  }

  /**
   * The prediction depends on the inputs only through the feature row: equal
   * rows give equal predictions, and a successful prediction is the
   * regressor's estimate for the assembled row.
   */
  lemma PredictionIsEstimateOfRow(m: Regressor, s: Specs, c: Selection)
    requires PredictPrice(m, s, c).Success?
    ensures AssembleRow(s, c).Success?
    ensures PredictPrice(m, s, c).value == m.estimate(AssembleRow(s, c).value)
  {
  }

  /**
   * A regressor that echoes one column sees, in column `i < 10`, the i-th
   * numeric specification: the row passes every input to the regressor.
   */
  lemma EchoedColumn(s: Specs, c: Selection, i: nat)
    requires Offered(c) && i < NumericCount
    ensures var echo := Regressor(34, row => if i < |row| then row[i] else 0.0);
      PredictPrice(echo, s, c) == Success(Numeric(s)[i])
  {
    var row := AssembleRow(s, c).value;
    assert row[..NumericCount][i] == row[i];
  }
}
