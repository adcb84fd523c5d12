/** The slice of a pandas DataFrame the pipeline touches: named columns of one dtype
    kind each, all of the same length. */
module Frame {
  import opened Exceptions

  /** One cell: a missing value (NaN), a number, or a string held by an object column. */
  datatype Cell = NaN | Num(x: real) | Str(s: string)

  /** The two dtype kinds the pipeline distinguishes: numeric, and object (text). */
  datatype Kind = Numeric | Object

  datatype Column = Column(name: string, kind: Kind, cells: seq<Cell>)

  datatype Table = Table(rows: nat, columns: seq<Column>)

  /** A cell that a column of kind `k` can hold. */
  predicate Fits(k: Kind, c: Cell) {
    c.NaN? || (k == Numeric && c.Num?) || (k == Object && c.Str?)
  }

  predicate WellKinded(c: Column) {
    forall i :: 0 <= i < |c.cells| ==> Fits(c.kind, c.cells[i])
  }

  /** Every column has `rows` well-kinded cells and column names are unique. */
  predicate Valid(t: Table) {
    && (forall j :: 0 <= j < |t.columns| ==> |t.columns[j].cells| == t.rows && WellKinded(t.columns[j]))
    && (forall j, k :: 0 <= j < k < |t.columns| ==> t.columns[j].name != t.columns[k].name)
  }

  function Names(t: Table): (r: seq<string>)
    ensures |r| == |t.columns|
    ensures forall j :: 0 <= j < |r| ==> r[j] == t.columns[j].name
  {
    seq(|t.columns|, j requires 0 <= j < |t.columns| => t.columns[j].name)
  }

  predicate HasColumn(t: Table, name: string) {
    exists j :: 0 <= j < |t.columns| && t.columns[j].name == name
  }

  /** Position of the column called `name` (`df.columns.get_loc`). */
  function IndexOf(t: Table, name: string): (j: nat)
    requires HasColumn(t, name)
    ensures j < |t.columns| && t.columns[j].name == name
    ensures forall k :: 0 <= k < j ==> t.columns[k].name != name
    decreases |t.columns|
  {
    if t.columns[0].name == name then 0
    else
      var rest := Table(t.rows, t.columns[1..]);
      assert HasColumn(rest, name) by {
        var j :| 0 <= j < |t.columns| && t.columns[j].name == name;
        assert j != 0 && rest.columns[j - 1] == t.columns[j];
      }
      1 + IndexOf(rest, name)
  }

  /** `df[name]`: the column itself (a Series keeps its name). */
  function Get(t: Table, name: string): (c: Column)
    requires HasColumn(t, name)
    ensures c.name == name && c in t.columns
  {
    t.columns[IndexOf(t, name)]
  }

  /** `df.drop(columns=[name])`: every other column, in the same order. */
  function Drop(t: Table, name: string): (r: Table)
    requires Valid(t) && HasColumn(t, name)
    ensures Valid(r) && r.rows == t.rows
    ensures |r.columns| == |t.columns| - 1 && !HasColumn(r, name)
    ensures forall c :: c in r.columns <==> c in t.columns && c.name != name
  {
    var j := IndexOf(t, name);
    var r := Table(t.rows, t.columns[..j] + t.columns[j + 1..]);
    assert forall k :: 0 <= k < |r.columns| ==> r.columns[k] == t.columns[if k < j then k else k + 1];
    r
  }

  /** `df[name] = c`: the column called `name` replaced in place, position kept. */
  function Replace(t: Table, name: string, c: Column): (r: Table)
    requires HasColumn(t, name)
    ensures r.rows == t.rows && |r.columns| == |t.columns|
    ensures r.columns[IndexOf(t, name)] == c
    ensures forall k :: 0 <= k < |t.columns| && t.columns[k].name != name ==> r.columns[k] == t.columns[k]
  {
    var j := IndexOf(t, name);
    Table(t.rows, t.columns[j := c])
  }

  /** The rows at positions `idx`, in that order (`X.iloc[idx]`). */
  function Rows(c: seq<Cell>, idx: seq<nat>): (r: seq<Cell>)
    requires forall i :: 0 <= i < |idx| ==> idx[i] < |c|
    ensures |r| == |idx| && forall i :: 0 <= i < |idx| ==> r[i] == c[idx[i]]
  {
    seq(|idx|, i requires 0 <= i < |idx| => c[idx[i]])
  }

  function TakeColumn(c: Column, idx: seq<nat>): (r: Column)
    requires forall i :: 0 <= i < |idx| ==> idx[i] < |c.cells|
    ensures r.name == c.name && r.kind == c.kind && r.cells == Rows(c.cells, idx)
  {
    Column(c.name, c.kind, Rows(c.cells, idx))
  }

  function Take(t: Table, idx: seq<nat>): (r: Table)
    requires Valid(t)
    requires forall i :: 0 <= i < |idx| ==> idx[i] < t.rows
    ensures Valid(r) && r.rows == |idx| && |r.columns| == |t.columns|
    ensures forall j :: 0 <= j < |t.columns| ==> r.columns[j] == TakeColumn(t.columns[j], idx)
  {
    Table(|idx|, seq(|t.columns|, j requires 0 <= j < |t.columns| => TakeColumn(t.columns[j], idx)))
  }
}
