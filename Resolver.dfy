/** The constraint resolver of app.py:41-49: the interpretability checkbox and
    the inferred task type fix the estimator list, the metric and the settings
    handed to FLAML. The learner-family catalogue and the settings record are
    shared with the console script. */
module Resolver {
  import opened Target

  /** `estimator_list`: FLAML's own default (`'auto'`) or an explicit list. */
  datatype EstimatorList = Auto | Only(names: seq<string>)

  /** The keyword arguments passed to `AutoML.fit`. */
  datatype Settings = Settings(
    timeBudget: int,
    metric: string,
    task: TaskType,
    logFileName: string,
    estimators: EstimatorList)

  /** The learner families behind FLAML's estimator names. */
  datatype Family =
    | L1Logistic | L2Logistic | RandomForest | ExtraTrees
    | LightGBM | XGBoost | CatBoost | Other

  function FamilyOf(name: string): (f: Family) {
    if name == "lrl1" then L1Logistic
    else if name == "lrl2" then L2Logistic
    else if name == "rf" then RandomForest
    else if name == "extra_tree" then ExtraTrees
    else if name == "lgbm" then LightGBM
    else if name == "xgboost" then XGBoost
    else if name == "catboost" then CatBoost
    else Other
  }

  /** Linear models, whose coefficients can be read directly. */
  predicate Interpretable(f: Family) {
    f == L1Logistic || f == L2Logistic
  }

  /** The task kind a FLAML metric name scores, if it is one the pipeline uses. */
  predicate Scores(metric: string, task: TaskType) {
    (metric == "accuracy" && task == Classification) || (metric == "r2" && task == Regression)
  }

  /** The bounds of the time-budget slider (app.py:26). */
  const MinBudget: int := 10
  const MaxBudget: int := 300

  const AppLogFile: string := "acaml_ui.log"

  function AppSettings(timeBudget: int, interpretOnly: bool, task: TaskType): (s: Settings)
    requires MinBudget <= timeBudget <= MaxBudget
    ensures s.timeBudget == timeBudget && s.task == task && s.logFileName == AppLogFile
    ensures Scores(s.metric, s.task)
    ensures s.estimators.Only? <==> interpretOnly
    ensures interpretOnly ==>
      && (forall e :: e in s.estimators.names ==> Interpretable(FamilyOf(e)))
      && (exists e :: e in s.estimators.names && FamilyOf(e) == L1Logistic)
      && (exists e :: e in s.estimators.names && FamilyOf(e) == L2Logistic)
  {
    var estimators := if interpretOnly then Only(["lrl1", "lrl2"]) else Auto;
    assert FamilyOf("lrl1") == L1Logistic && FamilyOf("lrl2") == L2Logistic;
    assert interpretOnly ==> "lrl1" in estimators.names && "lrl2" in estimators.names;
    Settings(timeBudget, if task == Regression then "r2" else "accuracy", task, AppLogFile, estimators)
  }

  /** The metric is "r2" exactly for a regression and "accuracy" exactly for a
      classification, whatever the checkbox says. */
  lemma AppMetricFollowsTask(timeBudget: int, interpretOnly: bool, task: TaskType)
    requires MinBudget <= timeBudget <= MaxBudget
    ensures var s := AppSettings(timeBudget, interpretOnly, task);
      (s.metric == "r2" <==> task == Regression) && (s.metric == "accuracy" <==> task == Classification)
  {
  }
}
