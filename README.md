# ACAML — a Dafny model of the constraint-aware selection pipeline

ACAML ("Adaptive Constraint-Aware AutoML") takes a table and a target column. It
then does five things:

1. It turns the user's constraints (a time budget and a preference for
   interpretable models) into a FLAML configuration.
2. It infers whether the problem is a classification or a regression.
3. It trains on an 80/20 split.
4. It reports a score and the best model.
5. It explains that model with SHAP.

There are two front ends:

- `app.py`, a Streamlit page with three tabs. Its state lives in a session
  store.
- `main.py`, a script that runs once over the Iris data.

The model follows the pipeline step by step:

- **Data** (`Frame`): a table is a row count and a sequence of named columns. A
  cell is `NaN`, a number or a string. A column is `Numeric` or `Object`.
- **Text helpers** (`Text`): the string operations the pipeline relies on, as
  total functions. These are code-point order, comma removal, `strip`/`lower`,
  and a decimal `float()`/`int()` reader that returns `Raised` on bad input.
- **Encoding** (`Encoder`): every text column except one is replaced by
  category codes. A code is the rank of the string among the column's distinct
  strings, in code-point order. A missing value becomes -1.
- **Target** (`Target`): a text target loses its thousands separators and is
  converted to floats. The conversion is all-or-nothing. Afterwards the task is
  a regression exactly when the target is numeric and has more than ten
  distinct values.
- **Settings** (`Resolver`, `Script`): the FLAML configurations of the two
  front ends.
- **Split** (`Split`): the seeded 80/20 split. The test part has
  ceil(n/5) rows. The random permutation for seed 42 is a parameter.
- **Oracles** (`Oracles`): FLAML's `fit`/`predict`/`score` and the SHAP
  explainer are function-typed parameters that may raise. Every property is
  stated for all of their behaviours.
- **Scoring and explanation** (`Evaluation`, `Explain`): the accuracy score,
  scoring by `score`, unwrapping a FLAML wrapper, and the two ways the front
  ends guard the explainer.
- **The page** (`App`): the state is a class `Session` whose five fields mirror
  the session store. Its `Run` method performs a press of the Run button step
  by step. `Run` is proved equal to the pure `Train`. On success the five fields
  are written together; otherwise they are left untouched. The Results and
  Explainability tabs are functions of that state.
- **The script** (`Script`): one pure function from the data and the two typed
  answers to either a crash or a completed run.

Two behaviours of the code are kept as written, although they look unintended:

- **The encoder exemption.** The encoder exempts the column literally named
  `"target"`, not the chosen target. Its consequences are under "Findings".
- **The script's estimators.** The script's "interpretable" list is
  `["lrl1", "rf", "extra_tree"]`, and its "flexible" list also contains `rf` and
  `extra_tree`.

## Model

| member | source | states |
|---|---|---|
| Text.Less | app.py:23 | the empty string precedes every other string and nothing precedes it; a proper prefix comes before the longer string |
| Text.LessIrreflexive | app.py:23 | no string comes before itself in the order used to sort categories |
| Text.LessTransitive | app.py:23 | the category order is transitive |
| Text.LessTotal | app.py:23 | any two different strings are ordered one way or the other, so category ranks are well defined |
| Text.RemoveCommas | app.py:32 | the result holds no comma, keeps every other character, and is the input itself when it had no comma |
| Text.RemoveCommasAppend | app.py:32 | removing commas distributes over concatenation |
| Text.Strip | main.py:19 | `strip()` gives a part no longer than the input that neither starts nor ends with whitespace, and is empty exactly when the input is all whitespace |
| Text.StripLeftSpec | main.py:19 | `lstrip` drops a whitespace-only prefix and leaves a non-space first character (or nothing) |
| Text.StripRightSpec | main.py:19 | `rstrip` drops a whitespace-only suffix and leaves a non-space last character (or nothing) |
| Text.StripLeftAt | main.py:19 | every character before the kept part is whitespace |
| Text.StripRightAt | main.py:19 | every character after the kept part is whitespace |
| Text.StripPadded | main.py:19 | stripping a word padded with whitespace on both sides gives back the word |
| Text.LowerChar | main.py:19 | an upper-case ASCII letter maps to its lower-case letter (32 code points higher); every other character is kept |
| Text.Lower | main.py:19 | `lower()` keeps the length and lower-cases character by character |
| Text.AllDigitsAppend | app.py:32 | a concatenation is all digits exactly when both parts are |
| Text.DigitsValueAppend | app.py:32 | the value of a concatenation of digit strings is the first value shifted by the length of the second, plus the second |
| Text.Find | app.py:32 | finds the first position of a character, or the length when it is absent |
| Text.DigitsAreUnsignedDecimal | app.py:32 | a non-empty digit string is an unsigned decimal with its own value |
| Text.DigitsStrip | app.py:32 | stripping leaves a digit string unchanged |
| Text.DigitsParseAsFloat | app.py:32 | `float()` reads a non-empty digit string as its value |
| Text.UnsignedDecimalHasDigit | app.py:32 | a string without digits is not an unsigned decimal |
| Text.ParseFloat | app.py:32 | `float()` raises on an empty or all-whitespace string |
| Text.DecimalValue | app.py:32 | the value of a decimal literal, its whole digits plus its fraction digits scaled down by their count, is never negative |
| Text.UnsignedParses | app.py:32 | an unsigned decimal literal with digits on at least one side of its point reads as that value |
| Text.PosDecimalParses | app.py:32 | `float()` reads an unsigned decimal literal padded with whitespace as its value |
| Text.NegDecimalParses | app.py:32 | `float()` reads a minus sign and a decimal literal, padded with whitespace, as the negated value |
| Text.NegDigitsParse | app.py:32 | `float()` reads a minus sign and a digit string, padded with whitespace, as the negated integer |
| Text.NoDigitsNoFloat | app.py:32 | `float()` raises on every string without a digit |
| Text.ParseInt | main.py:18 | `int()` succeeds exactly on optionally signed, whitespace-padded digit strings, and returns the number the digits spell, negated after a minus sign |
| Frame.IndexOf | app.py:51-52 | the position of the first column with the given name |
| Frame.Get | app.py:52 | `df[target]` is a column of the table with that name |
| Frame.Drop | app.py:51 | `drop(columns=[target])` keeps the rows, keeps every other column and removes exactly the target |
| Frame.Replace | app.py:32 | assigning a column changes that column and no other |
| Frame.Take | app.py:53 | row selection applies to every column and keeps the table well formed |
| Encoder.Categories | app.py:23 | the categories are exactly the distinct strings of the column |
| Encoder.Code | app.py:23 | a missing value gets -1; a category gets a whole-number code from 0 up to the number of categories minus one |
| Encoder.EncodeColumn | app.py:23 | a text column other than the exempt one becomes numeric codes; every other column is unchanged |
| Encoder.Encode | app.py:23 | `df.apply` encodes column by column and keeps the table well formed |
| Encoder.CodeMonotone | app.py:23 | a string that sorts earlier gets a smaller code |
| Encoder.CodeInRange | app.py:23 | a code lies between 0 and the number of categories minus one |
| Encoder.CodeInjective | app.py:23 | two strings share a code exactly when they are equal |
| Encoder.EncodedCells | app.py:23 | missing values become -1, strings get codes in range, and two cells get the same code exactly when they are equal |
| Encoder.EncodeTouchesOnlyObjectColumns | app.py:23 | numeric columns and the exempt column pass through unchanged |
| Encoder.EncodeIdempotent | app.py:23 | encoding an encoded table changes nothing |
| Target.EncodeSparesKept | app.py:23 | the column the encoder is told to keep reaches target conversion exactly as it was read, and no column is renamed |
| Target.CoerceCell | app.py:32 | a converted cell is never text: a missing value stays missing, a number stays, and a string converts exactly when `float()` accepts it without its commas, to that value |
| Target.CoerceCells | app.py:32 | the conversion succeeds exactly when every cell converts, and then converts cell by cell |
| Target.CoerceTarget | app.py:30-34 | the converted table stays well formed with the same rows and column names |
| Target.CoerceTargetSpec | app.py:30-34 | a text target becomes numeric if every cell converts; otherwise (the bare `except: pass`), and for numeric targets, it is left as it was; other columns never change |
| Target.InferTaskType | app.py:36-39 | regression exactly when the target is numeric with more than ten distinct non-missing values |
| Target.NUnique | app.py:36 | `nunique()` is at most the number of rows, and zero exactly when every value is missing |
| Target.NUniqueOfDistinct | app.py:36 | `nunique()` counts every value once when none repeats and none is missing |
| Target.NUniqueAtMost | app.py:36 | `nunique()` is at most the number of values the column can take |
| Target.DistinctNumericBoundary | app.py:36-39 | with all values distinct, ten values give a classification and eleven a regression |
| Target.TextIsClassification | app.py:36-39 | a target that stays text is always a classification |
| Target.ThreeLabelsAreClassification | app.py:36-39 | a numeric target with labels 0, 1 and 2 (as in Iris) is a classification |
| Target.Prepare | app.py:23-34 | encoding, then target conversion, keep the table well formed with the target present |
| Target.OtherNamedTargetIsNeverCoerced | app.py:23 | a text target not literally named "target" is already codes, so the conversion leaves the table unchanged |
| Target.DecimalString | app.py:32 | every natural number has a digit string that reads back as that number |
| Target.Pad3 | app.py:32 | a three-digit group with leading zeros reads back as its value |
| Target.GroupedWithoutCommas | app.py:32 | a number written with thousands separators reads back as the number once the commas are removed |
| Target.GroupedRoundTrip | app.py:32 | converting a number written with thousands separators gives that number |
| Target.FormattedNumbersAreRegression | app.py:30-39 | a text "target" of more than ten distinct comma-formatted numbers converts and is a regression |
| Resolver.AppSettings | app.py:41-49 | budget and task pass through, the metric scores that task, and the log file is `acaml_ui.log`; the preference gives exactly the two interpretable logistic regressions, otherwise FLAML's automatic list |
| Resolver.AppMetricFollowsTask | app.py:45 | the metric is "r2" exactly for a regression and "accuracy" exactly for a classification |
| Split.SplitRows | app.py:53 | raises exactly when fewer than two rows; otherwise the test part has ceil(n/5) rows and the train part the rest |
| Split.SplitPartitionsRows | app.py:53 | train and test are disjoint and together cover every row |
| Split.SplitFrame | app.py:51-53 | features lose the target, labels are the target, and both are cut by the same rows |
| Split.SplitFrameShape | main.py:13-15 | the feature parts keep every column but the target, in both parts |
| Evaluation.MatchCount | app.py:59 | the number of positions where prediction and label agree; it equals the length exactly when all agree and is zero exactly when none do |
| Evaluation.FractionBounds | app.py:59 | a fraction of matches lies between 0 and 1 |
| Evaluation.AccuracyScore | main.py:41 | raises exactly on a length mismatch; otherwise is the number of agreeing positions divided by the number of test labels, so it lies in [0,1], is 1 exactly when all match and 0 exactly when none do |
| Evaluation.Evaluate | app.py:58-59 | a failed predict fails the evaluation; after a successful predict a classification is exactly the accuracy of the predictions on the test labels, and a regression is exactly the model's own score on the test part |
| Oracles.ModelName | app.py:84 | the best-model name is the class of the outer object, the wrapper when FLAML wrapped the learner |
| Explain.Unwrap | app.py:97-99 | a FLAML wrapper is replaced by its inner estimator; a bare estimator is kept |
| Explain.ExplainInApp | app.py:95-111 | attributions appear exactly when the unwrapped model has fit and predict and the explainer succeeds, and are the explainer's; a model without fit or predict gets "Model is not SHAP-compatible or unfitted."; an explainer that raises gets "⚠️ SHAP explanation could not be generated: " followed by its message |
| Explain.ExplainInScript | main.py:48-60 | no guard: the explanation succeeds exactly when the explainer does on the unwrapped model |
| Explain.AppGuardOnlyNarrows | app.py:101 | the page never explains a model the script could not, and explains every model with fit and predict that the script can |
| App.Train | app.py:29-69 | fewer than two rows crash the run; a trained record holds the inferred task, the split parts, the fitted model and its evaluation on the test part; and when fit and evaluation both succeed the run is trained with exactly that record |
| App.FitFailureIsReported | app.py:56-69 | a failing fit is reported as a training failure, never as a crash or a result |
| App.Session.constructor | app.py:73 | a fresh session holds no results |
| App.Session.Run | app.py:29-69 | the outcome is `Train` of the inputs; a success stores the record in all five fields at once, anything else leaves the session unchanged |
| App.Session.Results | app.py:73-91 | results are shown exactly when a score is stored, labelled "Accuracy" for a classification and "R2 Score" otherwise, with the best model's name |
| App.Session.Explainability | app.py:95-113 | an explanation is attempted exactly when a model is stored, on the stored train and test features |
| App.TwoClicks | app.py:56-111 | after a successful run both tabs show that run's score, model name and explanation; a later run whose training fails leaves both tabs showing the earlier run |
| Script.WantsInterpretable | main.py:19 | yes exactly when the stripped answer is three characters y/Y, e/E, s/S |
| Script.YesAnswers | main.py:19 | the answer counts as yes exactly when it is whitespace, then a part that lower-cases to "yes", then whitespace |
| Script.ShortAnswerIsNo | main.py:19 | "y" is a no; " YES" with a newline is a yes |
| Script.ScriptEstimators | main.py:23-26 | both lists contain "rf" and "extra_tree" |
| Script.ScriptChoicesByFamily | main.py:23-26 | the interpretable list mixes an interpretable model with tree ensembles and has no L2 logistic regression; the flexible list has no interpretable model |
| Script.ScriptSettings | main.py:30-36 | always a classification scored by accuracy with the typed budget, log file `acaml.log` and the chosen list |
| Script.RunScript | main.py:13-60 | fewer than two rows or an unreadable budget crash the script; a completed run holds the accuracy of the predictions on the test labels and the explainer's outcome on the unwrapped model; when fit, predict and accuracy all succeed the script completes with exactly those values |
| Script.BudgetRoundTrip | main.py:18 | typing a budget's decimal numeral, with any surrounding whitespace, gives that budget |
| Script.FitFailureEndsScript | main.py:37 | a failing fit crashes the script |
| Script.ExplainerCannotStopScript | main.py:48-60 | whether the run completes does not depend on the explainer |
| Findings.AsWrittenTextTargetIsRegression | app.py:23 | a text target not named "target" with more than ten distinct strings is inferred to be a regression |
| Findings.CityTargetBecomesRegression | app.py:23 | a table of eleven city names with "city" as target gives a regression |
| Findings.CityTableValid | app.py:23 | the city table is well formed and has the column "city" |
| Findings.PrepareIntended | app.py:23-34 | encoding that exempts the chosen target keeps the table well formed |
| Findings.WordFailsCoercion | app.py:32 | a word without digits or commas does not convert to a float |
| Findings.IntendedTextTargetIsClassification | app.py:23-39 | with the chosen target exempt, a text target with a value that does not convert is a classification |
| Findings.CityTargetIntended | app.py:23-39 | with the chosen target exempt, the city table gives a classification |

## Left out

- The Streamlit layout, file upload, widgets, HTML markup, the `st.success`, `st.error` and `st.info` messages, and the plots. Only the state these produce is modelled.
- The displayed score: the page formats it as `score*100` with two decimals. The model keeps the score as a real.
- Reading the CSV file and loading Iris. The table is an input. The script's table is any well-formed table with a column "target".
- Console input and output in the script. The two answers are string parameters; the printed lines are the fields of the completed outcome, with the printed model (main.py:42) reduced to its class name.
- FLAML's search, fitting, prediction and scoring, and SHAP's algorithm. These are function parameters that may raise; no property depends on what they compute. Because `Train` and `RunScript` are functions of these parameters, every outcome is proved for every behaviour of the oracles.
- The random permutation behind `random_state=42`. It is a parameter constrained to be a permutation of the rows.
- Split.SplitRows: the test size is ceil(n/5). Floating-point rounding of `0.2*n` is not modelled.
- Text.ParseInt and the `float()` reader accept plain decimals only. Exponents, `inf`/`nan`, underscores between digits and non-ASCII digits are not modelled.
- Text.LowerChar lower-cases ASCII letters only. Python's full Unicode case mapping is not modelled.
- Column dtypes other than numeric and text (booleans, dates, categoricals). Integer and float columns are both `Numeric`.
- Evaluation.AccuracyScore: raises only on a length mismatch. scikit-learn also raises on continuous labels (a numeric target with at most ten distinct non-integer values, which the task rule calls a classification) and on mixed text and numeric labels; the page then reports a training failure and the script crashes, where the model gives a score.
- Encoder.Encode: on a table with no rows pandas' `apply` returns the table unchanged, so text columns stay text, while the model encodes them. Nothing downstream can observe this: the split then raises.
- Label equality in accuracy and `nunique` compares cells as values. The floating-point quirks of NaN labels are not modelled.
- pandas keeps the table in place when the conversion of the target fails. The model returns the unchanged table, which is the same observable state.
- The session store keeps values across Streamlit reruns. The model keeps them in the fields of `Session`; page reruns as such are not modelled.

## Findings

| source | as written | input that shows it | evidently intended | confidence | as-written member | corrected member |
|---|---|---|---|---|---|---|
| app.py:23 | the encoder exempts only the column literally named "target", so any other text target is replaced by category codes before conversion and task inference | an 11-row table whose column "city" holds eleven different city names, with "city" chosen as target, is inferred to be a regression | the chosen target is never encoded, so a text target that does not convert to numbers is a classification | medium, not executed | Findings.CityTargetBecomesRegression | Findings.IntendedTextTargetIsClassification |
