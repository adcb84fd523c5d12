/** The Streamlit app (app.py): one click on "Run ACAML" runs the pipeline and,
    only if fitting, predicting and scoring all succeed, records five keys in the
    session; the Results and Explainability tabs read them back. */
module App {
  import opened Exceptions
  import opened Frame
  import Encoder
  import opened Target
  import opened Resolver
  import opened Split
  import opened Oracles
  import opened Evaluation
  import opened Explain

  datatype Option<+T> = None | Some(value: T)

  /** What a successful run records. */
  datatype Record = Record(xTrain: Table, xTest: Table, model: FittedModel, score: real, task: TaskType)

  /** `st.success`, `st.error` inside the handler, or an exception that escapes
      it (the split runs before the `try`). */
  datatype RunOutcome =
    | Trained(record: Record)
    | TrainingFailed(error: string)
    | Crashed(error: string)

  predicate RunRequires(raw: Table, target: string, timeBudget: int, perm: seq<nat>) {
    && Valid(raw) && HasColumn(raw, target)
    && MinBudget <= timeBudget <= MaxBudget
    && IsPermutation(perm, raw.rows)
  }

  /** app.py:23 and 30-69 as one value: encode, coerce the target, infer the
      task, resolve the settings, split, then fit, predict and score. */
  function Train(raw: Table, target: string, timeBudget: int, interpretOnly: bool,
                 perm: seq<nat>, flaml: AutoML): (r: RunOutcome)
    requires RunRequires(raw, target, timeBudget, perm)
    ensures r.Crashed? <==> raw.rows < 2
    ensures r.Trained? ==>
      var df := Prepare(raw, target);
      var p := SplitFrame(df, target, perm).value;
      var rec := r.record;
      && rec.task == InferTaskType(Get(df, target))
      && rec.xTrain == p.xTrain && rec.xTest == p.xTest
      && flaml.fit(p.xTrain, p.yTrain, AppSettings(timeBudget, interpretOnly, rec.task)) == Ok(rec.model)
      && Evaluate(flaml, rec.task, rec.model, p.xTest, p.yTest) == Ok(rec.score)
      && (rec.task == Classification ==> 0.0 <= rec.score <= 1.0)
      && (rec.task == Regression ==> flaml.score(rec.model, p.xTest, p.yTest) == Ok(rec.score))
    ensures raw.rows >= 2 ==>
      var df := Prepare(raw, target);
      var task := InferTaskType(Get(df, target));
      var p := SplitFrame(df, target, perm).value;
      var fitted := flaml.fit(p.xTrain, p.yTrain, AppSettings(timeBudget, interpretOnly, task));
      fitted.Ok? && Evaluate(flaml, task, fitted.value, p.xTest, p.yTest).Ok? ==>
        r == Trained(Record(p.xTrain, p.xTest, fitted.value, Evaluate(flaml, task, fitted.value, p.xTest, p.yTest).value, task))
  {
    var df := Prepare(raw, target);
    var task := InferTaskType(Get(df, target));
    var settings := AppSettings(timeBudget, interpretOnly, task);
    match SplitFrame(df, target, perm)
    case Raised(e) => Crashed(e)
    case Ok(p) =>
      SplitFrameShape(df, target, perm);
      match flaml.fit(p.xTrain, p.yTrain, settings)
      case Raised(e) => TrainingFailed("Training failed: " + e)
      case Ok(model) =>
        match Evaluate(flaml, task, model, p.xTest, p.yTest)
        case Raised(e) => TrainingFailed("Training failed: " + e)
        case Ok(score) => Trained(Record(p.xTrain, p.xTest, model, score, task))
  }

  /** An exception from fit, predict or scoring is reported with its message
      and nothing is recorded. */
  lemma FitFailureIsReported(raw: Table, target: string, timeBudget: int, interpretOnly: bool,
                             perm: seq<nat>, flaml: AutoML)
    requires RunRequires(raw, target, timeBudget, perm) && raw.rows >= 2
    ensures var df := Prepare(raw, target);
      var task := InferTaskType(Get(df, target));
      var p := SplitFrame(df, target, perm).value;
      var fitted := flaml.fit(p.xTrain, p.yTrain, AppSettings(timeBudget, interpretOnly, task));
      && (fitted.Raised? ==>
            Train(raw, target, timeBudget, interpretOnly, perm, flaml) == TrainingFailed("Training failed: " + fitted.message))
      && (fitted.Ok? && flaml.predict(fitted.value, p.xTest).Raised? ==>
            Train(raw, target, timeBudget, interpretOnly, perm, flaml)
              == TrainingFailed("Training failed: " + flaml.predict(fitted.value, p.xTest).message))
  {
    SplitFrameShape(Prepare(raw, target), target, perm);
  }

  /** The contents of the Results tab. */
  datatype ResultsView = NoResults | Shown(metricLabel: string, score: real, bestModel: string)

  /** The contents of the Explainability tab. */
  datatype ExplainView = NoModel | Explanation(explanation: Explanation)

  /** `st.session_state`, one optional field per key the app writes. */
  class Session {
    var xTrain: Option<Table>
    var xTest: Option<Table>
    var automl: Option<FittedModel>
    var accuracy: Option<real>
    var taskType: Option<TaskType>

    /** The five keys are present together or not at all. */
    predicate Valid()
      reads this
    {
      || (xTrain.Some? && xTest.Some? && automl.Some? && accuracy.Some? && taskType.Some?)
      || (xTrain.None? && xTest.None? && automl.None? && accuracy.None? && taskType.None?)
    }

    predicate Holds(rec: Record)
      reads this
    {
      && xTrain == Some(rec.xTrain) && xTest == Some(rec.xTest) && automl == Some(rec.model)
      && accuracy == Some(rec.score) && taskType == Some(rec.task)
    }

    /** A new session holds no keys. */
    constructor ()
      ensures Valid() && xTrain.None? && automl.None? && accuracy.None?
    {
      xTrain, xTest, automl, accuracy, taskType := None, None, None, None, None;
    }

    /** The click handler (app.py:29-69) on the table uploaded and encoded at
        app.py:19-23. Every key is written after fit, predict and score have
        succeeded, replacing an earlier run's; on failure the session keeps
        whatever it held, including an earlier run's results. */
    method Run(raw: Table, target: string, timeBudget: int, interpretOnly: bool,
               perm: seq<nat>, flaml: AutoML) returns (outcome: RunOutcome)
      requires Valid() && RunRequires(raw, target, timeBudget, perm)
      modifies this
      ensures Valid()
      ensures outcome == Train(raw, target, timeBudget, interpretOnly, perm, flaml)
      ensures outcome.Trained? ==> Holds(outcome.record)
      ensures !outcome.Trained? ==>
        && xTrain == old(xTrain) && xTest == old(xTest) && automl == old(automl)
        && accuracy == old(accuracy) && taskType == old(taskType)
    {
      var df := Encoder.Encode(raw, Encoder.LiteralTarget);
      assert Names(df) == Names(raw);
      df := CoerceTarget(df, target);
      var task := InferTaskType(Get(df, target));
      var settings := AppSettings(timeBudget, interpretOnly, task);
      var split := SplitFrame(df, target, perm);
      if split.Raised? {
        return Crashed(split.message);
      }
      var p := split.value;
      SplitFrameShape(df, target, perm);
      var fitted := flaml.fit(p.xTrain, p.yTrain, settings);
      if fitted.Raised? {
        return TrainingFailed("Training failed: " + fitted.message);
      }
      var acc := Evaluate(flaml, task, fitted.value, p.xTest, p.yTest);
      if acc.Raised? {
        return TrainingFailed("Training failed: " + acc.message);
      }
      xTrain := Some(p.xTrain);
      xTest := Some(p.xTest);
      automl := Some(fitted.value);
      accuracy := Some(acc.value);
      taskType := Some(task);
      outcome := Trained(Record(p.xTrain, p.xTest, fitted.value, acc.value, task));
    }

    /** The Results tab (app.py:73-91): the metric label follows the recorded
        task type, the score is the recorded one, the model name is the class of
        the recorded model. */
    function Results(): (v: ResultsView)
      reads this
      requires Valid()
      ensures v.NoResults? <==> accuracy.None?
      ensures v.Shown? ==>
        && v.score == accuracy.value
        && (v.metricLabel == "Accuracy" <==> taskType.value == Classification)
        && (v.metricLabel == "R2 Score" <==> taskType.value == Regression)
        && v.bestModel == ModelName(automl.value)
    {
      if accuracy.None? then NoResults
      else
        Shown(if taskType.value == Classification then "Accuracy" else "R2 Score",
              accuracy.value, ModelName(automl.value))
    }

    /** The Explainability tab (app.py:95-113): nothing before a run, otherwise
        the guarded explanation of the recorded model with the recorded training
        part as background and the recorded test part as the explained rows. */
    function Explainability(shap: Shap): (v: ExplainView)
      reads this
      requires Valid()
      ensures v.NoModel? <==> automl.None?
      ensures v.Explanation? ==> v.explanation == ExplainInApp(automl.value, xTrain.value, xTest.value, shap)
    {
      if automl.None? then NoModel
      else Explanation(ExplainInApp(automl.value, xTrain.value, xTest.value, shap))
    }
  }

  /** Two clicks on one page: a successful run fills both tabs from its
      record, and a failing run afterwards leaves both tabs showing the earlier
      run. */
  method TwoClicks(raw: Table, target: string, timeBudget: int, interpretOnly: bool,
                   perm: seq<nat>, good: AutoML, bad: AutoML, shap: Shap)
    returns (first: RunOutcome, second: RunOutcome,
             shown: ResultsView, explained: ExplainView, shownAfter: ResultsView, explainedAfter: ExplainView)
    requires RunRequires(raw, target, timeBudget, perm)
    ensures first == Train(raw, target, timeBudget, interpretOnly, perm, good)
    ensures first.Trained? ==>
      && shown.Shown? && shown.score == first.record.score && shown.bestModel == ModelName(first.record.model)
      && explained == Explanation(ExplainInApp(first.record.model, first.record.xTrain, first.record.xTest, shap))
    ensures first.Trained? ==> second == Train(raw, target, timeBudget, interpretOnly, perm, bad)
    ensures first.Trained? && !second.Trained? ==> shownAfter == shown && explainedAfter == explained
  {
    var s := new Session();
    first := s.Run(raw, target, timeBudget, interpretOnly, perm, good);
    shown, explained := s.Results(), s.Explainability(shap);
    second, shownAfter, explainedAfter := first, shown, explained;
    if first.Trained? {
      second := s.Run(raw, target, timeBudget, interpretOnly, perm, bad);
      shownAfter, explainedAfter := s.Results(), s.Explainability(shap);
    }
  }
}
