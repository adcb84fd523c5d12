/** `train_test_split(X, y, test_size=0.2, random_state=42)`: the seeded shuffle
    is a permutation of the row numbers; the first ceil(0.2 * n) of it are the
    test rows and the rest the training rows. */
module Split {
  import opened Exceptions
  import opened Collections
  import opened Frame

  /** ceil(0.2 * n), the number of test rows. */
  function TestCount(n: nat): (k: nat) {
    (n + 4) / 5
  }

  predicate IsPermutation(p: seq<nat>, n: nat) {
    && |p| == n
    && (forall i :: 0 <= i < |p| ==> p[i] < n)
    && PairwiseDistinct(p)
  }

  datatype Partition = Partition(train: seq<nat>, test: seq<nat>)

  /** Row numbers of the two parts; scikit-learn raises when the training part
      would be empty, which is when there are fewer than two rows. */
  function SplitRows(n: nat, perm: seq<nat>): (r: Result<Partition>)
    requires IsPermutation(perm, n)
    ensures r.Raised? <==> n < 2
    ensures r.Ok? ==>
      && |r.value.test| == TestCount(n) && |r.value.train| == n - TestCount(n)
      && |r.value.test| >= 1 && |r.value.train| >= 1
      && (forall i :: 0 <= i < |r.value.train| ==> r.value.train[i] < n)
      && (forall i :: 0 <= i < |r.value.test| ==> r.value.test[i] < n)
  {
    var k := TestCount(n);
    if n - k <= 0 then
      Raised("With n_samples=" + (if n == 0 then "0" else "1") + ", test_size=0.2 and train_size=None, the resulting train set will be empty.")
    else
      Ok(Partition(perm[k..], perm[..k]))
  }

  /** No row is both a training and a test row, and every row is one of the two. */
  lemma SplitPartitionsRows(n: nat, perm: seq<nat>)
    requires IsPermutation(perm, n) && n >= 2
    ensures var p := SplitRows(n, perm).value;
      && (forall r :: r in p.train ==> r !in p.test)
      && (forall r: nat :: r < n ==> r in p.train || r in p.test)
  {
    var k := TestCount(n);
    var p := SplitRows(n, perm).value;
    forall r | r in p.train ensures r !in p.test {
      var i :| 0 <= i < |p.train| && p.train[i] == r;
      assert perm[k + i] == r;
      assert forall j :: 0 <= j < k ==> p.test[j] == perm[j] != r;
    }
    DistinctBelowCovers(perm, n);
    forall r: nat | r < n ensures r in p.train || r in p.test {
      assert r in perm;
      var i :| 0 <= i < |perm| && perm[i] == r;
      if i < k { assert p.test[i] == r; } else { assert p.train[i - k] == r; }
    }
  }

  /** The four parts `train_test_split` returns for the features (every column
      but the target) and the label (the target column). */
  datatype Parts = Parts(xTrain: Table, xTest: Table, yTrain: Column, yTest: Column)

  /** `X = df.drop(columns=[target]); y = df[target]`, then the split. */
  function SplitFrame(df: Table, target: string, perm: seq<nat>): (r: Result<Parts>)
    requires Valid(df) && HasColumn(df, target) && IsPermutation(perm, df.rows)
    ensures r.Raised? <==> df.rows < 2
    ensures r.Ok? ==>
      var p := SplitRows(df.rows, perm).value;
      && r.value.xTrain == Take(Drop(df, target), p.train)
      && r.value.xTest == Take(Drop(df, target), p.test)
      && r.value.yTrain == TakeColumn(Get(df, target), p.train)
      && r.value.yTest == TakeColumn(Get(df, target), p.test)
  {
    var parts :- SplitRows(df.rows, perm);
    var x, y := Drop(df, target), Get(df, target);
    Ok(Parts(Take(x, parts.train), Take(x, parts.test), TakeColumn(y, parts.train), TakeColumn(y, parts.test)))
  }

  /** The features are every column except the target, the label is the target
      column, the test part has ceil(0.2 * n) rows and the training part the
      rest, and the label parts line up row for row with the feature parts. */
  lemma SplitFrameShape(df: Table, target: string, perm: seq<nat>)
    requires Valid(df) && HasColumn(df, target) && IsPermutation(perm, df.rows) && df.rows >= 2
    ensures var p := SplitFrame(df, target, perm).value;
      && p.xTest.rows == |p.yTest.cells| == TestCount(df.rows) >= 1
      && p.xTrain.rows == |p.yTrain.cells| == df.rows - TestCount(df.rows) >= 1
      && p.yTrain.name == target && p.yTest.name == target
      && |p.xTrain.columns| == |p.xTest.columns| == |df.columns| - 1
      && (forall c :: c in p.xTrain.columns ==> c.name != target)
      && (forall j :: 0 <= j < |p.xTrain.columns| ==> p.xTrain.columns[j].name == p.xTest.columns[j].name)
      && (forall c :: c in df.columns && c.name != target ==> exists j :: 0 <= j < |p.xTrain.columns| && p.xTrain.columns[j].name == c.name)
  {
    var p := SplitFrame(df, target, perm).value;
    var x := Drop(df, target);
    var parts := SplitRows(df.rows, perm).value;
    forall c | c in p.xTrain.columns ensures c.name != target {
      var j :| 0 <= j < |p.xTrain.columns| && p.xTrain.columns[j] == c;
      assert c.name == x.columns[j].name;
      assert x.columns[j] in x.columns;
    }
    forall c | c in df.columns && c.name != target
      ensures exists j :: 0 <= j < |p.xTrain.columns| && p.xTrain.columns[j].name == c.name
    {
      var j :| 0 <= j < |x.columns| && x.columns[j] == c;
      assert p.xTrain.columns[j].name == c.name;
    }
  }
}
