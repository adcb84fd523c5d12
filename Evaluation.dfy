/** Held-out evaluation (app.py:58-59, main.py:40-41): exact-match accuracy for a
    classification, FLAML's own score for a regression, both on the test part. */
module Evaluation {
  import opened Exceptions
  import opened Frame
  import opened Target
  import opened Oracles

  /** The positions where the prediction equals the true label. */
  function Matches(yTrue: seq<Cell>, yPred: seq<Cell>): (m: set<nat>)
    requires |yTrue| == |yPred|
  {
    set i: nat | i < |yTrue| && yTrue[i] == yPred[i]
  }

  /** How many predictions equal their true label, counted from the back. */
  function MatchCount(yTrue: seq<Cell>, yPred: seq<Cell>): (k: nat)
    requires |yTrue| == |yPred|
    ensures k == |Matches(yTrue, yPred)|
    ensures k <= |yTrue|
    ensures k == |yTrue| <==> forall i :: 0 <= i < |yTrue| ==> yTrue[i] == yPred[i]
    ensures k == 0 <==> forall i :: 0 <= i < |yTrue| ==> yTrue[i] != yPred[i]
    decreases |yTrue|
  {
    if yTrue == [] then
      assert Matches(yTrue, yPred) == {};
      0
    else
      var n := |yTrue| - 1;
      var ts, ps := yTrue[..n], yPred[..n];
      var rest := MatchCount(ts, ps);
      assert forall i :: 0 <= i < n ==> yTrue[i] == ts[i] && yPred[i] == ps[i];
      var hit := yTrue[n] == yPred[n];
      assert Matches(yTrue, yPred) == Matches(ts, ps) + (if hit then {n} else {});
      assert n !in Matches(ts, ps);
      (if hit then 1 else 0) + rest
  }

  lemma FractionBounds(k: nat, n: nat)
    requires 0 < n && k <= n
    ensures var q := k as real / n as real;
      0.0 <= q <= 1.0 && (q == 1.0 <==> k == n) && (q == 0.0 <==> k == 0)
  {
    var q := k as real / n as real;
    assert q * n as real == k as real;
    assert q <= 1.0 by {
      if q > 1.0 { assert q * n as real > 1.0 * n as real; }
    }
  }

  /** `accuracy_score(y_true, y_pred)`: the fraction of matching rows; label
      sequences of different lengths make it raise. */
  function AccuracyScore(yTrue: seq<Cell>, yPred: seq<Cell>): (r: Result<real>)
    requires |yTrue| > 0
    ensures r.Ok? <==> |yTrue| == |yPred|
    ensures r.Ok? ==> r.value == |Matches(yTrue, yPred)| as real / |yTrue| as real
    ensures r.Ok? ==> 0.0 <= r.value <= 1.0
    ensures r.Ok? ==> (r.value == 1.0 <==> forall i :: 0 <= i < |yTrue| ==> yTrue[i] == yPred[i])
    ensures r.Ok? ==> (r.value == 0.0 <==> forall i :: 0 <= i < |yTrue| ==> yTrue[i] != yPred[i])
  {
    if |yTrue| != |yPred| then
      Raised("Found input variables with inconsistent numbers of samples")
    else
      var k := MatchCount(yTrue, yPred);
      FractionBounds(k, |yTrue|);
      Ok(k as real / |yTrue| as real)
  }

  /** The score reported to the user. `predict` runs for both task types, so
      its failure fails either; the score depends only on the model and the
      test part. */
  function Evaluate(automl: AutoML, task: TaskType, model: FittedModel, xTest: Table, yTest: Column): (r: Result<real>)
    requires |yTest.cells| > 0
    ensures automl.predict(model, xTest).Raised? ==> r.Raised?
    ensures task == Classification && automl.predict(model, xTest).Ok? ==>
      r == AccuracyScore(yTest.cells, automl.predict(model, xTest).value)
    ensures task == Classification && r.Ok? ==>
      && automl.predict(model, xTest).Ok?
      && r == AccuracyScore(yTest.cells, automl.predict(model, xTest).value)
      && 0.0 <= r.value <= 1.0
    ensures task == Regression && automl.predict(model, xTest).Ok? ==>
      r == automl.score(model, xTest, yTest)
  {
    var pred :- automl.predict(model, xTest);
    if task == Classification then AccuracyScore(yTest.cells, pred)
    else automl.score(model, xTest, yTest)
  }
}
