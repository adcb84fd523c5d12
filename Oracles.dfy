/** The foreign collaborators, seen only through what the pipeline does with
    them: FLAML's `AutoML` (fit, predict, score) and SHAP's explainer. Each call
    either returns or raises. */
module Oracles {
  import opened Exceptions
  import opened Frame
  import opened Resolver

  /** A learner object, with the two attributes the app probes for. */
  datatype Estimator = Estimator(className: string, hasFit: bool, hasPredict: bool)

  /** `automl.model`: a learner, or one of FLAML's wrappers whose `.estimator`
      attribute holds the underlying learner. */
  datatype FittedModel =
    | Direct(model: Estimator)
    | Wrapped(outer: Estimator, inner: Estimator)

  /** `type(automl.model).__name__`, the best-model identifier shown to the user. */
  function ModelName(m: FittedModel): (name: string)
    ensures m.Direct? ==> name == m.model.className
    ensures m.Wrapped? ==> name == m.outer.className
  {
    match m
    case Direct(e) => e.className
    case Wrapped(outer, _) => outer.className
  }

  /** `AutoML.fit(X_train, y_train, **settings)`, `predict(X)`, `score(X, y)`. */
  datatype AutoML = AutoML(
    fit: (Table, Column, Settings) -> Result<FittedModel>,
    predict: (FittedModel, Table) -> Result<seq<Cell>>,
    score: (FittedModel, Table, Column) -> Result<real>)

  /** SHAP values per feature, one per explained row. */
  datatype Attributions = Attributions(perFeature: map<string, seq<real>>)

  /** `shap.Explainer(model, background)(rows)` followed by the summary plot. */
  type Shap = (Estimator, Table, Table) -> Result<Attributions>
}
