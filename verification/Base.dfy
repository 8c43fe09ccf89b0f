/** Small shared vocabulary: an optional value and two facts about finite sets and sequences. */
module Base {

  datatype Option<+T> = None | Some(value: T)

  /** No value occurs twice. */
  ghost predicate NoDuplicates<T>(s: seq<T>) {
    forall i, j :: 0 <= i < j < |s| ==> s[i] != s[j]
  }

  /** A subset is no larger. */
  lemma SubsetSize<T>(a: set<T>, b: set<T>)
    requires a <= b
    ensures |a| <= |b|
  {
    assert |b - a| == |b| - |a|;
  }

  /** A subset of the same size is the whole set. */
  lemma SubsetOfSameSize<T>(a: set<T>, b: set<T>)
    requires a <= b && |a| == |b|
    ensures a == b
  {
    assert |b - a| == |b| - |a|;
  }

  /** A list without duplicates has as many elements as its element set. */
  lemma {:induction false} NoDuplicatesSize<T>(s: seq<T>)
    requires NoDuplicates(s)
    ensures |set x | x in s| == |s|
  {
    if s == [] {
    } else {
      var n := |s| - 1;
      NoDuplicatesSize(s[..n]);
      assert (set x | x in s) == (set x | x in s[..n]) + {s[n]};
      assert s[n] !in s[..n];
    }
  }

  /** A list never has more distinct elements than positions, and as many only without duplicates. */
  lemma {:induction false} ElementSetSize<T>(s: seq<T>)
    ensures |set x | x in s| <= |s|
    ensures |set x | x in s| == |s| ==> NoDuplicates(s)
  {
    if s == [] {
    } else {
      var n := |s| - 1;
      ElementSetSize(s[..n]);
      assert (set x | x in s) == (set x | x in s[..n]) + {s[n]};
      if |set x | x in s| == |s| {
        assert s[n] !in s[..n];
        forall i, j | 0 <= i < j < |s| ensures s[i] != s[j] {
          if j == n {
            assert s[..n][i] == s[i];
          } else {
            assert s[..n][i] == s[i] && s[..n][j] == s[j];
          }
        }
      }
    }
  }

  /** A search loop. */
  method Contains<T(==)>(list: seq<T>, value: T) returns (found: bool)
    ensures found == (value in list)
  {
    for i := 0 to |list|
      invariant value !in list[..i]
    {
      if list[i] == value {
        return true;
      }
    }
    return false;
  }
}
