/** Cardinality facts about finite sets and sequences used by the encoder, the
    task-type rule and the split. */
module Collections {

  /** The set of values a sequence holds. */
  function Elements<T>(s: seq<T>): (e: set<T>) {
    set i | 0 <= i < |s| :: s[i]
  }

  predicate PairwiseDistinct<T(==)>(s: seq<T>) {
    forall i, k :: 0 <= i < k < |s| ==> s[i] != s[k]
  }

  lemma SubsetCardLe<T>(a: set<T>, b: set<T>)
    requires a <= b
    ensures |a| <= |b|
  {
    assert b == a + (b - a) && a * (b - a) == {};
  }

  lemma SubsetCardLt<T>(a: set<T>, b: set<T>, x: T)
    requires a <= b && x in b && x !in a
    ensures |a| < |b|
  {
    var d := b - a;
    assert b == a + d && a * d == {};
    assert x in d;
  }

  /** A sequence without repetitions holds as many values as it is long. */
  lemma {:induction false} DistinctElements<T>(s: seq<T>)
    requires PairwiseDistinct(s)
    ensures |Elements(s)| == |s|
    decreases |s|
  {
    if s != [] {
      var init, last := s[..|s| - 1], s[|s| - 1];
      DistinctElements(init);
      assert Elements(s) == Elements(init) + {last} by {
        forall x | x in Elements(s) ensures x in Elements(init) + {last} {
          var i :| 0 <= i < |s| && s[i] == x;
          if i < |s| - 1 { assert init[i] == x; }
        }
      }
      assert last !in Elements(init);
    }
  }

  /** A sequence holds at most as many values as it is long. */
  lemma {:induction false} ElementsAtMost<T>(s: seq<T>)
    ensures |Elements(s)| <= |s|
    decreases |s|
  {
    if s != [] {
      var init := s[..|s| - 1];
      ElementsAtMost(init);
      assert Elements(s) <= Elements(init) + {s[|s| - 1]} by {
        forall x | x in Elements(s) ensures x in Elements(init) + {s[|s| - 1]} {
          var i :| 0 <= i < |s| && s[i] == x;
          if i < |s| - 1 { assert init[i] == x; }
        }
      }
      SubsetCardLe(Elements(s), Elements(init) + {s[|s| - 1]});
    }
  }

  /** The row numbers 0, 1, ..., n - 1. */
  function Range(n: nat): (r: seq<nat>)
    ensures |r| == n && forall i :: 0 <= i < n ==> r[i] == i
  {
    seq(n, i requires 0 <= i < n => i)
  }

  /** Pigeonhole: n different naturals below n are all of them. */
  lemma DistinctBelowCovers(s: seq<nat>, n: nat)
    requires |s| == n && PairwiseDistinct(s)
    requires forall i :: 0 <= i < |s| ==> s[i] < n
    ensures forall r: nat :: r < n ==> r in s
  {
    var all := Range(n);
    DistinctElements(s);
    DistinctElements(all);
    forall x | x in Elements(s) ensures x in Elements(all) {
      var i :| 0 <= i < |s| && s[i] == x;
      assert all[s[i]] == x;
    }
    forall r: nat | r < n ensures r in s {
      assert all[r] == r;
      if r !in s { SubsetCardLt(Elements(s), Elements(all), r); }
    }
  }
}
