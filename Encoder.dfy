/** The column encoder of app.py:23: every object column not named `keep` becomes
    the integer codes of `col.astype('category').cat.codes`; every other column
    passes through. The app calls it with `keep` equal to the literal "target". */
module Encoder {
  import opened Frame
  import opened Text
  import Collections

  /** The name app.py exempts from encoding. */
  const LiteralTarget: string := "target"

  /** The categories pandas infers for an object column: its distinct strings. */
  function Categories(cells: seq<Cell>): (cats: set<string>)
    ensures forall i :: 0 <= i < |cells| && cells[i].Str? ==> cells[i].s in cats
    ensures forall s :: s in cats ==> Str(s) in cells
  {
    set i | 0 <= i < |cells| && cells[i].Str? :: cells[i].s
  }

  /** The categories that sort before `s`. */
  function Below(cats: set<string>, s: string): (b: set<string>) {
    set u | u in cats && Less(u, s)
  }

  /** The code of one cell: the position of its string among the sorted
      categories, and -1 for a missing value. */
  function Code(cats: set<string>, c: Cell): (r: real)
    ensures c.NaN? ==> r == -1.0
    ensures c.Str? && c.s in cats ==> 0.0 <= r < |cats| as real && r == r.Floor as real
  {
    if c.Str? then
      (if c.s in cats then CodeInRange(cats, c.s); |Below(cats, c.s)| as real
       else |Below(cats, c.s)| as real)
    else -1.0
  }

  predicate Encodes(c: Column, keep: string) {
    c.kind == Object && c.name != keep
  }

  function EncodeColumn(c: Column, keep: string): (r: Column)
    ensures r.name == c.name && |r.cells| == |c.cells|
    ensures !Encodes(c, keep) ==> r == c
    ensures Encodes(c, keep) ==> r.kind == Numeric && WellKinded(r)
  {
    if Encodes(c, keep) then
      var cats := Categories(c.cells);
      Column(c.name, Numeric, seq(|c.cells|, i requires 0 <= i < |c.cells| => Num(Code(cats, c.cells[i]))))
    else c
  }

  /** `df.apply(lambda col: ...)` over every column, order kept. */
  function Encode(t: Table, keep: string): (r: Table)
    requires Valid(t)
    ensures Valid(r) && r.rows == t.rows && |r.columns| == |t.columns|
    ensures forall j :: 0 <= j < |t.columns| ==> r.columns[j] == EncodeColumn(t.columns[j], keep)
  {
    Table(t.rows, seq(|t.columns|, j requires 0 <= j < |t.columns| => EncodeColumn(t.columns[j], keep)))
  }

  /** Codes follow the sorted order of the strings: a smaller string gets a
      smaller code. */
  lemma CodeMonotone(cats: set<string>, a: string, b: string)
    requires a in cats && Less(a, b)
    ensures |Below(cats, a)| < |Below(cats, b)|
  {
    forall u | u in Below(cats, a) ensures u in Below(cats, b) {
      LessTransitive(u, a, b);
    }
    LessIrreflexive(a);
    Collections.SubsetCardLt(Below(cats, a), Below(cats, b), a);
  }

  /** Codes run from 0 to one less than the number of categories. */
  lemma CodeInRange(cats: set<string>, s: string)
    requires s in cats
    ensures 0 <= |Below(cats, s)| < |cats|
  {
    LessIrreflexive(s);
    Collections.SubsetCardLt(Below(cats, s), cats, s);
  }

  /** Two strings of a column share a code exactly when they are equal. */
  lemma CodeInjective(cats: set<string>, a: string, b: string)
    requires a in cats && b in cats
    ensures |Below(cats, a)| == |Below(cats, b)| <==> a == b
  {
    if a != b {
      LessTotal(a, b);
      if Less(a, b) { CodeMonotone(cats, a, b); } else { CodeMonotone(cats, b, a); }
    }
  }

  /** What an encoded column holds: missing values become -1, strings become
      codes in [0, number of categories), equal strings share a code, distinct
      strings get distinct codes, and the codes preserve string order. */
  lemma EncodedCells(c: Column, keep: string, i: nat, k: nat)
    requires Encodes(c, keep) && WellKinded(c)
    requires i < |c.cells| && k < |c.cells|
    ensures var r := EncodeColumn(c, keep); var n := |Categories(c.cells)|;
      && (c.cells[i].NaN? ==> r.cells[i] == Num(-1.0))
      && (c.cells[i].Str? ==> r.cells[i].Num? && 0.0 <= r.cells[i].x < n as real && r.cells[i].x.Floor as real == r.cells[i].x)
      && (c.cells[i].Str? && c.cells[k].Str? ==>
            (r.cells[i] == r.cells[k] <==> c.cells[i] == c.cells[k]) &&
            (Less(c.cells[i].s, c.cells[k].s) ==> r.cells[i].x < r.cells[k].x))
  {
    var cats := Categories(c.cells);
    if c.cells[i].Str? {
      CodeInRange(cats, c.cells[i].s);
      if c.cells[k].Str? {
        CodeInjective(cats, c.cells[i].s, c.cells[k].s);
        if Less(c.cells[i].s, c.cells[k].s) { CodeMonotone(cats, c.cells[i].s, c.cells[k].s); }
      }
    }
  }

  /** The encoder touches only object columns whose name is not `keep`; every
      other column, and the column order, stay as they were. */
  lemma EncodeTouchesOnlyObjectColumns(t: Table, keep: string, j: nat)
    requires Valid(t) && j < |t.columns|
    ensures var r := Encode(t, keep);
      && r.columns[j].name == t.columns[j].name
      && (r.columns[j] != t.columns[j] ==> t.columns[j].kind == Object && t.columns[j].name != keep)
      && (t.columns[j].kind == Object && t.columns[j].name != keep ==> r.columns[j].kind == Numeric)
  {
  }

  /** A second pass changes nothing: after one pass, the only object column
      left is the one named `keep`. */
  lemma EncodeIdempotent(t: Table, keep: string)
    requires Valid(t)
    ensures Encode(Encode(t, keep), keep) == Encode(t, keep)
  {
    var once := Encode(t, keep);
    forall j | 0 <= j < |once.columns| ensures !Encodes(once.columns[j], keep) {
      assert once.columns[j] == EncodeColumn(t.columns[j], keep);
    }
    assert Encode(once, keep).columns == once.columns;
  }
}
