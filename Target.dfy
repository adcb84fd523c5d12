/** Target coercion (app.py:30-34) and task-type inference (app.py:36-39). */
module Target {
  import opened Exceptions
  import opened Frame
  import opened Text
  import Encoder
  import opened Collections

  datatype TaskType = Classification | Regression

  /** More distinct numeric values than this make the task a regression. */
  const CardinalityThreshold: nat := 10

  // ---------------------------------------------------------------------------
  // Coercion: `df[t] = df[t].str.replace(',', '').astype(float)`, all or nothing.
  // ---------------------------------------------------------------------------

  /** What one cell becomes: a missing value stays missing, a string loses its
      commas and is read by `float()`. */
  function CoerceCell(c: Cell): (r: Result<Cell>)
    ensures r.Ok? ==> !r.value.Str?
    ensures c.NaN? ==> r == Ok(NaN)
    ensures c.Num? ==> r == Ok(c)
    ensures c.Str? ==> (r.Ok? <==> ParseFloat(RemoveCommas(c.s)).Ok?)
    ensures c.Str? && r.Ok? ==> r.value == Num(ParseFloat(RemoveCommas(c.s)).value)
  {
    match c
    case NaN => Ok(NaN)
    case Num(x) => Ok(Num(x))
    case Str(s) =>
      match ParseFloat(RemoveCommas(s))
      case Ok(v) => Ok(Num(v))
      case Raised(m) => Raised(m)
  }

  /** `astype(float)` over a whole column: the first cell that does not convert
      makes the whole conversion raise. */
  function CoerceCells(cells: seq<Cell>): (r: Result<seq<Cell>>)
    ensures r.Ok? <==> forall i :: 0 <= i < |cells| ==> CoerceCell(cells[i]).Ok?
    ensures r.Ok? ==> (|r.value| == |cells| &&
      forall i :: 0 <= i < |cells| ==> r.value[i] == CoerceCell(cells[i]).value)
    decreases |cells|
  {
    if cells == [] then Ok([])
    else
      match CoerceCell(cells[0])
      case Raised(m) => Raised(m)
      case Ok(c) =>
        match CoerceCells(cells[1..])
        case Raised(m) => Raised(m)
        case Ok(rest) =>
          assert forall i :: 1 <= i < |cells| ==> cells[i] == cells[1..][i - 1];
          Ok([c] + rest)
  }

  /** Only an object target is touched; when every cell converts, the column is
      replaced in place by the numbers, otherwise the exception is swallowed and
      the table is left as it was. */
  function CoerceTarget(t: Table, target: string): (r: Table)
    requires Valid(t) && HasColumn(t, target)
    ensures Valid(r) && r.rows == t.rows && Names(r) == Names(t)
  {
    var c := Get(t, target);
    if c.kind != Object then t
    else
      match CoerceCells(c.cells)
      case Raised(_) => t
      case Ok(v) =>
        var r := Replace(t, target, Column(target, Numeric, v));
        assert WellKinded(Column(target, Numeric, v)) by {
          forall i | 0 <= i < |v| ensures Fits(Numeric, v[i]) {
            assert Fits(Object, c.cells[i]);
          }
        }
        assert forall k :: 0 <= k < |r.columns| ==> r.columns[k].name == t.columns[k].name;
        assert Names(r) == Names(t);
        r
  }

  /** Coercion in full: a non-object target, or one with a cell that does not
      convert, leaves the table unchanged; otherwise the target column becomes
      numeric with each string's value, missing values stay missing, and every
      other column is untouched. */
  lemma CoerceTargetSpec(t: Table, target: string)
    requires Valid(t) && HasColumn(t, target)
    ensures var c := Get(t, target); var r := CoerceTarget(t, target);
      && HasColumn(r, target)
      && (c.kind != Object ==> r == t)
      && (c.kind == Object && (exists i :: 0 <= i < |c.cells| && CoerceCell(c.cells[i]).Raised?) ==> r == t)
      && (c.kind == Object && (forall i :: 0 <= i < |c.cells| ==> CoerceCell(c.cells[i]).Ok?) ==>
            var d := Get(r, target);
            && d.kind == Numeric && |d.cells| == |c.cells|
            && (forall i :: 0 <= i < |c.cells| && c.cells[i].NaN? ==> d.cells[i].NaN?)
            && (forall i :: 0 <= i < |c.cells| && c.cells[i].Str? ==>
                  d.cells[i] == Num(ParseFloat(RemoveCommas(c.cells[i].s)).value))
            && (forall k :: 0 <= k < |t.columns| && t.columns[k].name != target ==> r.columns[k] == t.columns[k]))
  {
    var c := Get(t, target);
    var r := CoerceTarget(t, target);
    var j := IndexOf(t, target);
    assert r.columns[j].name == target;
    if c.kind == Object && (forall i :: 0 <= i < |c.cells| ==> CoerceCell(c.cells[i]).Ok?) {
      var v := CoerceCells(c.cells).value;
      assert r.columns[j] == Column(target, Numeric, v);
      assert IndexOf(r, target) == j by {
        assert forall k :: 0 <= k < j ==> r.columns[k] == t.columns[k];
      }
    }
  }

  // ---------------------------------------------------------------------------
  // Task type: regression iff numeric and more than 10 distinct values.
  // ---------------------------------------------------------------------------

  /** The distinct non-missing values of a column. */
  function Distinct(cells: seq<Cell>): (d: set<Cell>) {
    set i | 0 <= i < |cells| && !cells[i].NaN? :: cells[i]
  }

  /** `series.nunique()`: missing values are not counted. */
  function NUnique(c: Column): (n: nat)
    ensures n <= |c.cells|
    ensures n == 0 <==> forall i :: 0 <= i < |c.cells| ==> c.cells[i].NaN?
  {
    DistinctBounds(c.cells);
    |Distinct(c.cells)|
  }

  lemma DistinctBounds(cells: seq<Cell>)
    ensures |Distinct(cells)| <= |cells|
    ensures |Distinct(cells)| == 0 <==> forall i :: 0 <= i < |cells| ==> cells[i].NaN?
  {
    ElementsAtMost(cells);
    SubsetCardLe(Distinct(cells), Elements(cells));
    if exists i :: 0 <= i < |cells| && !cells[i].NaN? {
      var i :| 0 <= i < |cells| && !cells[i].NaN?;
      assert cells[i] in Distinct(cells);
    }
  }

  function InferTaskType(c: Column): (r: TaskType)
    ensures r == Regression <==> c.kind == Numeric && NUnique(c) > CardinalityThreshold
  {
    if c.kind == Numeric && NUnique(c) > CardinalityThreshold then Regression else Classification
  }

  /** A column of pairwise different, non-missing values has as many distinct
      values as rows. */
  lemma NUniqueOfDistinct(cells: seq<Cell>)
    requires PairwiseDistinct(cells)
    requires forall i :: 0 <= i < |cells| ==> !cells[i].NaN?
    ensures |Distinct(cells)| == |cells|
  {
    assert Distinct(cells) == Elements(cells);
    DistinctElements(cells);
  }

  /** A column whose values all come from `vals` has at most |vals| distinct values. */
  lemma NUniqueAtMost(c: Column, vals: set<Cell>)
    requires forall i :: 0 <= i < |c.cells| && !c.cells[i].NaN? ==> c.cells[i] in vals
    ensures NUnique(c) <= |vals|
  {
    SubsetCardLe(Distinct(c.cells), vals);
  }

  /** The boundary of the heuristic: a numeric column of n different values is a
      regression exactly when n > 10, so 10 values give classification and 11
      give regression. */
  lemma DistinctNumericBoundary(c: Column)
    requires c.kind == Numeric && PairwiseDistinct(c.cells)
    requires forall i :: 0 <= i < |c.cells| ==> c.cells[i].Num?
    ensures InferTaskType(c) == Regression <==> |c.cells| > 10
    ensures |c.cells| == 10 ==> InferTaskType(c) == Classification
    ensures |c.cells| == 11 ==> InferTaskType(c) == Regression
  {
    NUniqueOfDistinct(c.cells);
  }

  /** A target that is still text is always a classification, whatever its
      cardinality. */
  lemma TextIsClassification(c: Column)
    requires c.kind == Object
    ensures InferTaskType(c) == Classification
  {
  }

  /** A numeric label column drawn from {0, 1, 2} is a classification, however
      many rows it has. */
  lemma ThreeLabelsAreClassification(c: Column)
    requires c.kind == Numeric
    requires forall i :: 0 <= i < |c.cells| ==> c.cells[i] in {Num(0.0), Num(1.0), Num(2.0)}
    ensures InferTaskType(c) == Classification
  {
    NUniqueAtMost(c, {Num(0.0), Num(1.0), Num(2.0)});
  }

  // ---------------------------------------------------------------------------
  // The app's front end: encode with the literal "target" exempt, then coerce.
  // ---------------------------------------------------------------------------

  /** app.py:23 followed by app.py:30-34. */
  function Prepare(raw: Table, target: string): (df: Table)
    requires Valid(raw) && HasColumn(raw, target)
    ensures Valid(df) && df.rows == raw.rows && HasColumn(df, target)
  {
    var enc := Encoder.Encode(raw, Encoder.LiteralTarget);
    assert Names(enc) == Names(raw);
    CoerceTarget(enc, target)
  }

  /** Because the encoder exempts the literal name "target" rather than the
      chosen target, a target with any other name reaches coercion already
      numeric, and the coercion does nothing. */
  lemma OtherNamedTargetIsNeverCoerced(raw: Table, target: string)
    requires Valid(raw) && HasColumn(raw, target) && target != Encoder.LiteralTarget
    ensures var enc := Encoder.Encode(raw, Encoder.LiteralTarget);
      && Get(enc, target).kind == Numeric
      && Prepare(raw, target) == enc
  {
    var enc := Encoder.Encode(raw, Encoder.LiteralTarget);
    assert Names(enc) == Names(raw);
    var j := IndexOf(enc, target);
    assert enc.columns[j] == Encoder.EncodeColumn(raw.columns[j], Encoder.LiteralTarget);
    assert raw.columns[j].kind == Numeric || raw.columns[j].kind == Object;
  }

  // ---------------------------------------------------------------------------
  // Thousands-separated numbers ("1,000") convert to the number they show.
  // ---------------------------------------------------------------------------

  /** The decimal digits of n, most significant first. */
  function DecimalString(n: nat): (s: string)
    ensures |s| > 0 && AllDigits(s) && DigitsValue(s) == n
    decreases n
  {
    if n < 10 then
      var s := [DigitChar(n)];
      assert s[..0] == [];
      s
    else
      var p := DecimalString(n / 10);
      var s := p + [DigitChar(n % 10)];
      assert s[..|s| - 1] == p;
      s
  }

  /** Three digits with leading zeros. */
  function Pad3(m: nat): (s: string)
    requires m < 1000
    ensures |s| == 3 && AllDigits(s) && DigitsValue(s) == m
  {
    var s := [DigitChar(m / 100), DigitChar(m / 10 % 10), DigitChar(m % 10)];
    assert s[..2][..1] == s[..1] && s[..1][..0] == [];
    assert DigitsValue(s[..1]) == m / 100;
    assert DigitsValue(s[..2]) == 10 * (m / 100) + m / 10 % 10;
    assert DigitsValue(s) == 10 * (10 * (m / 100) + m / 10 % 10) + m % 10;
    s
  }

  /** n written with a comma between groups of three digits, as "12,345". */
  function Grouped(n: nat): (g: string)
    decreases n
  {
    if n < 1000 then DecimalString(n) else Grouped(n / 1000) + "," + Pad3(n % 1000)
  }

  lemma {:induction false} GroupedWithoutCommas(n: nat)
    ensures |RemoveCommas(Grouped(n))| > 0 && AllDigits(RemoveCommas(Grouped(n)))
    ensures DigitsValue(RemoveCommas(Grouped(n))) == n
    decreases n
  {
    if n < 1000 {
      var s := DecimalString(n);
      assert ',' !in s by {
        forall i | 0 <= i < |s| ensures s[i] != ',' { assert IsDigit(s[i]); }
      }
    } else {
      var g, p := Grouped(n / 1000), Pad3(n % 1000);
      assert Grouped(n) == g + "," + p;
      GroupedWithoutCommas(n / 1000);
      var rg := RemoveCommas(g);
      RemoveCommasAppend(g + ",", p);
      RemoveCommasAppend(g, ",");
      assert RemoveCommas(",") == [];
      assert ',' !in p by {
        forall i | 0 <= i < |p| ensures p[i] != ',' { assert IsDigit(p[i]); }
      }
      assert RemoveCommas(Grouped(n)) == rg + p;
      DigitsValueAppend(rg, p);
      assert Pow10(3) == 1000;
      assert DigitsValue(rg + p) == (n / 1000) * 1000 + n % 1000;
    }
  }

  /** The column the encoder is told to keep reaches the next step as it was read. */
  lemma EncodeSparesKept(raw: Table, keep: string)
    requires Valid(raw) && HasColumn(raw, keep)
    ensures var enc := Encoder.Encode(raw, keep);
      Names(enc) == Names(raw) && HasColumn(enc, keep) && Get(enc, keep) == Get(raw, keep)
  {
    var enc := Encoder.Encode(raw, keep);
    assert Names(enc) == Names(raw);
    var j := IndexOf(raw, keep);
    assert IndexOf(enc, keep) == j by {
      assert forall k :: 0 <= k < |raw.columns| ==> enc.columns[k].name == raw.columns[k].name;
    }
  }

  /** Deleting the commas of "12,345" and reading it with `float()` gives 12345. */
  lemma GroupedRoundTrip(n: nat)
    ensures CoerceCell(Str(Grouped(n))) == Ok(Num(n as real))
  {
    GroupedWithoutCommas(n);
    DigitsParseAsFloat(RemoveCommas(Grouped(n)));
  }

  /** A text target literally named "target" holding more than ten different
      thousands-separated numbers is coerced to those numbers and inferred to be
      a regression. */
  lemma FormattedNumbersAreRegression(raw: Table, vals: seq<nat>)
    requires Valid(raw) && HasColumn(raw, Encoder.LiteralTarget)
    requires Get(raw, Encoder.LiteralTarget).kind == Object
    requires Get(raw, Encoder.LiteralTarget).cells == seq(|vals|, i requires 0 <= i < |vals| => Str(Grouped(vals[i])))
    requires forall i, k :: 0 <= i < k < |vals| ==> vals[i] != vals[k]
    requires |vals| > CardinalityThreshold
    ensures InferTaskType(Get(Prepare(raw, Encoder.LiteralTarget), Encoder.LiteralTarget)) == Regression
  {
    var target := Encoder.LiteralTarget;
    var enc := Encoder.Encode(raw, target);
    EncodeSparesKept(raw, target);
    var c := Get(enc, target);
    forall i | 0 <= i < |c.cells| ensures CoerceCell(c.cells[i]) == Ok(Num(vals[i] as real)) {
      GroupedRoundTrip(vals[i]);
    }
    CoerceTargetSpec(enc, target);
    var d := Get(Prepare(raw, target), target);
    assert forall i :: 0 <= i < |d.cells| ==> d.cells[i] == Num(vals[i] as real);
    DistinctNumericBoundary(d);
  }
}
