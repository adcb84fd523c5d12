/** The console script (main.py): a fixed table whose label column is called
    "target", two prompted answers, a fixed classification search, a held-out
    accuracy and an explanation whose failure is only reported. */
module Script {
  import opened Exceptions
  import opened Frame
  import opened Text
  import opened Target
  import opened Resolver
  import opened Split
  import opened Oracles
  import opened Evaluation
  import opened Explain

  /** The label column of the bundled data set (main.py:10). */
  const ScriptTarget: string := "target"
  const ScriptLogFile: string := "acaml.log"

  /** `input(...).strip().lower() == "yes"` (main.py:19). */
  function WantsInterpretable(answer: string): (yes: bool)
    ensures yes <==> var t := Strip(answer);
      |t| == 3 && t[0] in "yY" && t[1] in "eE" && t[2] in "sS"
  {
    var t := Strip(answer);
    assert |Lower(t)| == 3 ==> Lower(t)[0] == LowerChar(t[0]) && Lower(t)[1] == LowerChar(t[1]) && Lower(t)[2] == LowerChar(t[2]);
    Lower(t) == "yes"
  }

  /** The answer counts as yes exactly when it is "yes" in any mix of cases,
      surrounded by any whitespace. */
  lemma YesAnswers(answer: string)
    ensures WantsInterpretable(answer) <==>
      exists i, j :: 0 <= i <= j <= |answer| && AllSpace(answer[..i]) && AllSpace(answer[j..])
        && Lower(answer[i..j]) == "yes"
  {
    if WantsInterpretable(answer) {
      var l := StripLeft(answer);
      StripLeftSpec(answer);
      var r := StripRight(l);
      StripRightSpec(l);
      var i := |answer| - |l|;
      var j := i + |r|;
      assert answer[i..j] == r;
      assert answer[j..] == l[|r|..];
    }
    if exists i, j :: 0 <= i <= j <= |answer| && AllSpace(answer[..i]) && AllSpace(answer[j..])
        && Lower(answer[i..j]) == "yes" {
      var i, j :| 0 <= i <= j <= |answer| && AllSpace(answer[..i]) && AllSpace(answer[j..])
        && Lower(answer[i..j]) == "yes";
      var w := answer[i..j];
      assert LowerChar(w[0]) == 'y' && LowerChar(w[2]) == 's';
      assert answer == answer[..i] + w + answer[j..];
      StripPadded(answer[..i], w, answer[j..]);
    }
  }

  /** "y" is not yes; " YES\n" is. */
  lemma ShortAnswerIsNo()
    ensures !WantsInterpretable("y")
    ensures WantsInterpretable(" YES\n")
  {
    YesAnswers("y");
    var a := " YES\n";
    assert a[..1] == " " && a[4..] == "\n" && a[1..4] == "YES";
    YesAnswers(a);
  }

  /** main.py:23-26 */
  function ScriptEstimators(wantInterpretable: bool): (names: seq<string>)
    ensures "rf" in names && "extra_tree" in names
  {
    if wantInterpretable then ["lrl1", "rf", "extra_tree"]
    else ["lgbm", "xgboost", "rf", "extra_tree", "catboost"]
  }

  /** The script's "interpretable" choice is not restricted to linear models:
      besides L1-regularised logistic regression it keeps the two forest
      learners, and the other choice has no linear model at all. */
  lemma ScriptChoicesByFamily()
    ensures exists e :: e in ScriptEstimators(true) && Interpretable(FamilyOf(e))
    ensures exists e :: e in ScriptEstimators(true) && !Interpretable(FamilyOf(e))
    ensures forall e :: e in ScriptEstimators(false) ==> !Interpretable(FamilyOf(e))
    ensures forall e :: e in ScriptEstimators(true) ==> FamilyOf(e) != L2Logistic
  {
    var yes := ScriptEstimators(true);
    assert yes[0] == "lrl1" && FamilyOf("lrl1") == L1Logistic;
    assert yes[1] == "rf" && FamilyOf("rf") == RandomForest;
  }

  /** main.py:30-36: whatever the answers, a classification scored by accuracy. */
  function ScriptSettings(timeBudget: int, wantInterpretable: bool): (s: Settings)
    ensures s.task == Classification && s.metric == "accuracy" && Scores(s.metric, s.task)
    ensures s.timeBudget == timeBudget && s.logFileName == ScriptLogFile
    ensures s.estimators.Only? && s.estimators.names == ScriptEstimators(wantInterpretable)
  {
    Settings(timeBudget, "accuracy", Classification, ScriptLogFile, Only(ScriptEstimators(wantInterpretable)))
  }

  /** How the script ends: an exception nothing catches, or the printed
      accuracy and best model followed by an explanation or its error. */
  datatype ScriptOutcome =
    | Crashed(error: string)
    | Completed(accuracy: real, bestModel: string, explanation: Result<Attributions>)

  predicate ScriptRequires(df: Table, perm: seq<nat>) {
    Valid(df) && HasColumn(df, ScriptTarget) && IsPermutation(perm, df.rows)
  }

  /** main.py from the split on, with the two answers as given. */
  function RunScript(df: Table, budgetAnswer: string, interpretAnswer: string,
                     perm: seq<nat>, flaml: AutoML, shap: Shap): (r: ScriptOutcome)
    requires ScriptRequires(df, perm)
    ensures df.rows < 2 ==> r.Crashed?
    ensures ParseInt(budgetAnswer).Raised? ==> r.Crashed?
    ensures r.Completed? ==>
      var p := SplitFrame(df, ScriptTarget, perm).value;
      var settings := ScriptSettings(ParseInt(budgetAnswer).value, WantsInterpretable(interpretAnswer));
      flaml.fit(p.xTrain, p.yTrain, settings).Ok? &&
      var model := flaml.fit(p.xTrain, p.yTrain, settings).value;
      && flaml.predict(model, p.xTest).Ok?
      && AccuracyScore(p.yTest.cells, flaml.predict(model, p.xTest).value) == Ok(r.accuracy)
      && 0.0 <= r.accuracy <= 1.0
      && r.bestModel == ModelName(model)
      && r.explanation == ExplainInScript(model, p.xTrain, p.xTest, shap)
    ensures df.rows >= 2 && ParseInt(budgetAnswer).Ok? ==>
      var p := SplitFrame(df, ScriptTarget, perm).value;
      var settings := ScriptSettings(ParseInt(budgetAnswer).value, WantsInterpretable(interpretAnswer));
      var fitted := flaml.fit(p.xTrain, p.yTrain, settings);
      fitted.Ok? && flaml.predict(fitted.value, p.xTest).Ok? &&
      AccuracyScore(p.yTest.cells, flaml.predict(fitted.value, p.xTest).value).Ok? ==>
        r == Completed(AccuracyScore(p.yTest.cells, flaml.predict(fitted.value, p.xTest).value).value,
                       ModelName(fitted.value), ExplainInScript(fitted.value, p.xTrain, p.xTest, shap))
  {
    match SplitFrame(df, ScriptTarget, perm)
    case Raised(e) => Crashed(e)
    case Ok(p) =>
      SplitFrameShape(df, ScriptTarget, perm);
      match ParseInt(budgetAnswer)
      case Raised(e) => Crashed(e)
      case Ok(timeBudget) =>
        var settings := ScriptSettings(timeBudget, WantsInterpretable(interpretAnswer));
        match flaml.fit(p.xTrain, p.yTrain, settings)
        case Raised(e) => Crashed(e)
        case Ok(model) =>
          match flaml.predict(model, p.xTest)
          case Raised(e) => Crashed(e)
          case Ok(pred) =>
            match AccuracyScore(p.yTest.cells, pred)
            case Raised(e) => Crashed(e)
            case Ok(acc) => Completed(acc, ModelName(model), ExplainInScript(model, p.xTrain, p.xTest, shap))
  }

  /** Typing the decimal numeral of a budget, with any surrounding whitespace,
      gives that budget back. */
  lemma BudgetRoundTrip(n: nat, pre: string, post: string)
    requires AllSpace(pre) && AllSpace(post)
    ensures ParseInt(pre + DecimalString(n) + post) == Ok(n)
  {
    var w := DecimalString(n);
    assert !IsSpace(w[0]) && !IsSpace(w[|w| - 1]);
    StripPadded(pre, w, post);
  }

  /** Unlike the app, the script does not catch a failing fit: its exception
      ends the script with the oracle's message. */
  lemma FitFailureEndsScript(df: Table, budgetAnswer: string, interpretAnswer: string,
                             perm: seq<nat>, flaml: AutoML, shap: Shap)
    requires ScriptRequires(df, perm) && df.rows >= 2 && ParseInt(budgetAnswer).Ok?
    ensures var p := SplitFrame(df, ScriptTarget, perm).value;
      var settings := ScriptSettings(ParseInt(budgetAnswer).value, WantsInterpretable(interpretAnswer));
      flaml.fit(p.xTrain, p.yTrain, settings).Raised? ==>
        RunScript(df, budgetAnswer, interpretAnswer, perm, flaml, shap)
          == Crashed(flaml.fit(p.xTrain, p.yTrain, settings).message)
  {
  }

  /** The explanation step can never stop the script: with any other explainer
      the script completes exactly when it did, with the same accuracy and the
      same best model. */
  lemma ExplainerCannotStopScript(df: Table, budgetAnswer: string, interpretAnswer: string,
                                  perm: seq<nat>, flaml: AutoML, shap: Shap, other: Shap)
    requires ScriptRequires(df, perm)
    ensures var a := RunScript(df, budgetAnswer, interpretAnswer, perm, flaml, shap);
      var b := RunScript(df, budgetAnswer, interpretAnswer, perm, flaml, other);
      && (a.Completed? <==> b.Completed?)
      && (a.Completed? ==> a.accuracy == b.accuracy && a.bestModel == b.bestModel)
  {
  }
}
