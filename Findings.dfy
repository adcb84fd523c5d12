/** app.py:23 exempts from encoding the column literally named "target", not the
    target the user picks at app.py:25. A text target under any other name is
    turned into category codes before coercion and inference, so a text label
    with more than ten classes is inferred to be a regression. The intended rule
    exempts the chosen target, and then a text target that does not convert to
    numbers is always a classification. */
module Findings {
  import opened Frame
  import opened Text
  import opened Collections
  import Encoder
  import opened Target

  /** As written: a text target not named "target", with more than ten
      different strings and no missing value, is inferred to be a regression. */
  lemma AsWrittenTextTargetIsRegression(raw: Table, target: string)
    requires Valid(raw) && HasColumn(raw, target) && target != Encoder.LiteralTarget
    requires Get(raw, target).kind == Object
    requires PairwiseDistinct(Get(raw, target).cells) && |Get(raw, target).cells| > CardinalityThreshold
    requires forall i :: 0 <= i < |Get(raw, target).cells| ==> Get(raw, target).cells[i].Str?
    ensures InferTaskType(Get(Prepare(raw, target), target)) == Regression
  {
    var c := Get(raw, target);
    var enc := Encoder.Encode(raw, Encoder.LiteralTarget);
    OtherNamedTargetIsNeverCoerced(raw, target);
    assert Names(enc) == Names(raw);
    var j := IndexOf(raw, target);
    assert IndexOf(enc, target) == j by {
      assert forall k :: 0 <= k < |raw.columns| ==> enc.columns[k].name == raw.columns[k].name;
    }
    var d := Get(enc, target);
    assert d == Encoder.EncodeColumn(c, Encoder.LiteralTarget);
    assert WellKinded(c) by { assert c == raw.columns[j]; }
    forall i, k | 0 <= i < k < |d.cells| ensures d.cells[i] != d.cells[k] {
      Encoder.EncodedCells(c, Encoder.LiteralTarget, i, k);
    }
    forall i | 0 <= i < |d.cells| ensures d.cells[i].Num? {
      Encoder.EncodedCells(c, Encoder.LiteralTarget, i, i);
    }
    DistinctNumericBoundary(d);
  }

  /** Eleven city names. */
  function Cities(): seq<Cell> {
    [Str("Accra"), Str("Berlin"), Str("Cairo"), Str("Delhi"), Str("Essen"), Str("Fez"),
     Str("Goa"), Str("Hanoi"), Str("Izmir"), Str("Jaipur"), Str("Kyoto")]
  }

  function CityTable(): Table {
    Table(11, [Column("city", Object, Cities())])
  }

  lemma CityTableValid()
    ensures Valid(CityTable()) && HasColumn(CityTable(), "city")
    ensures Get(CityTable(), "city") == Column("city", Object, Cities())
  {
    assert CityTable().columns[0].name == "city";
  }

  /** The input that shows it: "city" chosen as the target of an 11-row table
      of city names gives a regression. */
  lemma CityTargetBecomesRegression()
    ensures Valid(CityTable()) && HasColumn(CityTable(), "city")
    ensures InferTaskType(Get(Prepare(CityTable(), "city"), "city")) == Regression
  {
    var t := CityTable();
    assert t.columns[0].name == "city";
    assert Get(t, "city") == t.columns[0];
    assert forall i :: 0 <= i < 11 ==> Cities()[i].Str?;
    AsWrittenTextTargetIsRegression(t, "city");
  }

  /** The intended front end: the encoder exempts the chosen target. */
  function PrepareIntended(raw: Table, target: string): (df: Table)
    requires Valid(raw) && HasColumn(raw, target)
    ensures Valid(df) && df.rows == raw.rows && HasColumn(df, target)
  {
    var enc := Encoder.Encode(raw, target);
    assert Names(enc) == Names(raw);
    CoerceTarget(enc, target)
  }

  /** Corrected: the chosen target reaches coercion as it was read, so a text
      target with a value that does not convert stays text and is a
      classification, whatever its name and cardinality. */
  lemma IntendedTextTargetIsClassification(raw: Table, target: string)
    requires Valid(raw) && HasColumn(raw, target) && Get(raw, target).kind == Object
    requires exists i :: 0 <= i < |Get(raw, target).cells| && CoerceCell(Get(raw, target).cells[i]).Raised?
    ensures InferTaskType(Get(PrepareIntended(raw, target), target)) == Classification
  {
    var enc := Encoder.Encode(raw, target);
    EncodeSparesKept(raw, target);
    CoerceTargetSpec(enc, target);
  }

  /** A word without digits or commas fails the conversion to float. */
  lemma WordFailsCoercion(s: string)
    requires NoDigits(s) && ',' !in s
    ensures CoerceCell(Str(s)).Raised?
  {
    NoDigitsNoFloat(s);
  }

  /** On the same city table the corrected front end gives a classification. */
  lemma CityTargetIntended()
    ensures Valid(CityTable()) && HasColumn(CityTable(), "city")
    ensures InferTaskType(Get(PrepareIntended(CityTable(), "city"), "city")) == Classification
  {
    var t := CityTable();
    CityTableValid();
    WordFailsCoercion("Accra");
    assert CoerceCell(Get(t, "city").cells[0]).Raised?;
    IntendedTextTargetIsClassification(t, "city");
  }
}
