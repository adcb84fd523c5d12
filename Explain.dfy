/** The explainer guard: which learner SHAP is given, and how failures become
    warnings (app.py:97-111) or a printed message (main.py:48-60). */
module Explain {
  import opened Exceptions
  import opened Frame
  import opened Oracles

  /** `model.estimator if hasattr(model, 'estimator') else model` */
  function Unwrap(m: FittedModel): (e: Estimator)
    ensures m.Wrapped? ==> e == m.inner
    ensures m.Direct? ==> e == m.model
  {
    match m
    case Direct(e) => e
    case Wrapped(_, inner) => inner
  }

  const IncompatibleWarning: string := "Model is not SHAP-compatible or unfitted."

  /** The prefix of the warning shown when the explainer raises. */
  const ShapFailedWarning: string := "\U{26A0}\U{FE0F} SHAP explanation could not be generated: "

  datatype Explanation = Explained(attributions: Attributions) | Unavailable(warning: string)

  /** The app's explainability tab once a model exists: the unwrapped learner
      must have both `fit` and `predict`; SHAP uses the training part as
      background and explains the test part; anything it raises becomes a
      warning. */
  function ExplainInApp(m: FittedModel, xTrain: Table, xTest: Table, shap: Shap): (r: Explanation)
    ensures r.Explained? <==>
      Unwrap(m).hasFit && Unwrap(m).hasPredict && shap(Unwrap(m), xTrain, xTest).Ok?
    ensures r.Explained? ==> r.attributions == shap(Unwrap(m), xTrain, xTest).value
    ensures !(Unwrap(m).hasFit && Unwrap(m).hasPredict) ==> r == Unavailable(IncompatibleWarning)
    ensures Unwrap(m).hasFit && Unwrap(m).hasPredict && shap(Unwrap(m), xTrain, xTest).Raised? ==>
      r == Unavailable(ShapFailedWarning + shap(Unwrap(m), xTrain, xTest).message)
  {
    var raw := Unwrap(m);
    if raw.hasFit && raw.hasPredict then
      match shap(raw, xTrain, xTest)
      case Ok(a) => Explained(a)
      case Raised(e) => Unavailable(ShapFailedWarning + e)
    else
      Unavailable(IncompatibleWarning)
  }

  /** The script's explainer: the same unwrap, no capability check, and any
      exception caught and reported. */
  function ExplainInScript(m: FittedModel, xTrain: Table, xTest: Table, shap: Shap): (r: Result<Attributions>)
    ensures r.Ok? <==> shap(Unwrap(m), xTrain, xTest).Ok?
    ensures r.Ok? ==> r.value == shap(Unwrap(m), xTrain, xTest).value
  {
    match shap(Unwrap(m), xTrain, xTest)
    case Ok(a) => Ok(a)
    case Raised(e) => Raised("Could not generate SHAP explanation: " + e)
  }

  /** The app is the script plus a guard: whatever the app explains, the script
      explains identically; the two differ only on a learner lacking `fit` or
      `predict`, which the app refuses without calling SHAP. */
  lemma AppGuardOnlyNarrows(m: FittedModel, xTrain: Table, xTest: Table, shap: Shap)
    ensures ExplainInApp(m, xTrain, xTest, shap).Explained? ==>
      ExplainInScript(m, xTrain, xTest, shap) == Ok(ExplainInApp(m, xTrain, xTest, shap).attributions)
    ensures Unwrap(m).hasFit && Unwrap(m).hasPredict ==>
      (ExplainInApp(m, xTrain, xTest, shap).Explained? <==> ExplainInScript(m, xTrain, xTest, shap).Ok?)
  {
  }
}
