/**
 * The comparisons that drift detection uses on selectors and tolerations
 * (pkg/k8shandler/util.go).  Both are written as "same length plus one-way
 * inclusion"; this module shows when that is the same as real equality.
 */
module Comparison {
  import opened Base

  datatype Toleration = Toleration(key: string, operator: string, value: string, effect: string, seconds: Option<int>)

  // ----- selectors -----

  predicate SelectorsSame(lhs: map<string, string>, rhs: map<string, string>) {
    |lhs| == |rhs| && forall k :: k in lhs ==> k in rhs && lhs[k] == rhs[k]
  }

  lemma SelectorsSameIsEquality(lhs: map<string, string>, rhs: map<string, string>)
    ensures SelectorsSame(lhs, rhs) <==> lhs == rhs
  {
    if SelectorsSame(lhs, rhs) {
      assert |lhs.Keys| == |rhs.Keys|;
      SubsetOfSameSize(lhs.Keys, rhs.Keys);
    }
  }

  /** The loop visits the left map in an arbitrary order, as ranging over a Go map does. */
  method AreSelectorsSame(lhs: map<string, string>, rhs: map<string, string>) returns (same: bool)
    ensures same <==> lhs == rhs
  {
    SelectorsSameIsEquality(lhs, rhs);
    if |lhs| != |rhs| {
      return false;
    }
    var todo := lhs.Keys;
    while todo != {}
      invariant todo <= lhs.Keys
      invariant forall k :: k in lhs && k !in todo ==> k in rhs && lhs[k] == rhs[k]
      decreases |todo|
    {
      var k :| k in todo;
      if k !in rhs || lhs[k] != rhs[k] {
        return false;
      }
      todo := todo - {k};
    }
    return true;
  }

  // ----- tolerations -----

  predicate TolerationSame(lhs: Toleration, rhs: Toleration) {
    && lhs.key == rhs.key
    && lhs.operator == rhs.operator
    && lhs.value == rhs.value
    && lhs.effect == rhs.effect
    && lhs.seconds.None? == rhs.seconds.None?
    && (lhs.seconds.Some? ==> lhs.seconds.value == rhs.seconds.value)
  }

  predicate ContainsToleration(t: Toleration, list: seq<Toleration>) {
    exists i :: 0 <= i < |list| && TolerationSame(list[i], t)
  }

  predicate TolerationsSame(lhs: seq<Toleration>, rhs: seq<Toleration>) {
    |lhs| == |rhs| && forall i :: 0 <= i < |lhs| ==> ContainsToleration(lhs[i], rhs)
  }

  /** Field-wise comparison is equality, hence an equivalence. */
  lemma TolerationSameIsEquality(lhs: Toleration, rhs: Toleration)
    ensures TolerationSame(lhs, rhs) <==> lhs == rhs
  {
    if TolerationSame(lhs, rhs) {
      assert lhs.seconds == rhs.seconds;
    }
  }

  lemma ContainsIsMembership(t: Toleration, list: seq<Toleration>)
    ensures ContainsToleration(t, list) <==> t in list
  {
    if t in list {
      var i :| 0 <= i < |list| && list[i] == t;
      assert TolerationSame(list[i], t);
    }
    if ContainsToleration(t, list) {
      var i :| 0 <= i < |list| && TolerationSame(list[i], t);
      TolerationSameIsEquality(list[i], t);
    }
  }

  lemma TolerationsSameReflexive(list: seq<Toleration>)
    ensures TolerationsSame(list, list)
  {
    forall i | 0 <= i < |list| ensures ContainsToleration(list[i], list) {
      ContainsIsMembership(list[i], list);
    }
  }

  /** Pigeonhole: without duplicates on the left, the code's comparison is multiset equality. */
  lemma TolerationsSameIsMultisetEquality(lhs: seq<Toleration>, rhs: seq<Toleration>)
    requires NoDuplicates(lhs)
    ensures TolerationsSame(lhs, rhs) <==> multiset(lhs) == multiset(rhs)
  {
    if TolerationsSame(lhs, rhs) {
      var L, R := set x | x in lhs, set x | x in rhs;
      forall x | x in L ensures x in R {
        var i :| 0 <= i < |lhs| && lhs[i] == x;
        assert ContainsToleration(lhs[i], rhs);
        ContainsIsMembership(x, rhs);
      }
      NoDuplicatesSize(lhs);
      ElementSetSize(rhs);
      SubsetSize(L, R);
      SubsetOfSameSize(L, R);
      SameSetNoDuplicates(lhs, rhs);
    } else if multiset(lhs) == multiset(rhs) {
      assert |multiset(lhs)| == |lhs| && |multiset(rhs)| == |rhs|;
      forall i | 0 <= i < |lhs| ensures ContainsToleration(lhs[i], rhs) {
        assert lhs[i] in multiset(rhs);
        ContainsIsMembership(lhs[i], rhs);
      }
    }
  }

  /**
   * With a duplicate on the left the comparison is too weak: overwriting one copy
   * by any toleration not on the list still compares as the same.
   */
  lemma DuplicatesHideDifference(lhs: seq<Toleration>, i: nat, j: nat, t: Toleration)
    requires i < j < |lhs| && lhs[i] == lhs[j] && t !in lhs
    ensures TolerationsSame(lhs, lhs[j := t]) && multiset(lhs) != multiset(lhs[j := t])
  {
    var rhs := lhs[j := t];
    forall k | 0 <= k < |lhs| ensures ContainsToleration(lhs[k], rhs) {
      assert rhs[if k == j then i else k] == lhs[k];
      ContainsIsMembership(lhs[k], rhs);
    }
    assert rhs[j] == t;
    assert t in multiset(rhs);
  }

  lemma SameSetNoDuplicates(lhs: seq<Toleration>, rhs: seq<Toleration>)
    requires NoDuplicates(lhs) && NoDuplicates(rhs)
    requires (set x | x in lhs) == (set x | x in rhs)
    ensures multiset(lhs) == multiset(rhs)
  {
    var L, R := set x | x in lhs, set x | x in rhs;
    forall x: Toleration ensures multiset(lhs)[x] == multiset(rhs)[x] {
      assert x in lhs <==> x in L;
      assert x in rhs <==> x in R;
      OccursOnce(lhs, x);
      OccursOnce(rhs, x);
    }
  }

  lemma {:induction false} OccursOnce<T>(s: seq<T>, x: T)
    requires NoDuplicates(s)
    ensures multiset(s)[x] == if x in s then 1 else 0
  {
    if s == [] {
    } else {
      var n := |s| - 1;
      OccursOnce(s[..n], x);
      assert s == s[..n] + [s[n]];
      assert s[n] !in s[..n];
    }
  }

  method AreTolerationsSame(lhs: seq<Toleration>, rhs: seq<Toleration>) returns (same: bool)
    ensures same <==> |lhs| == |rhs| && forall t :: t in lhs ==> t in rhs
    ensures NoDuplicates(lhs) ==> (same <==> multiset(lhs) == multiset(rhs))
    ensures same <==> TolerationsSame(lhs, rhs)
  {
    if NoDuplicates(lhs) {
      TolerationsSameIsMultisetEquality(lhs, rhs);
    }
    if |lhs| != |rhs| {
      return false;
    }
    for i := 0 to |lhs|
      invariant forall k :: 0 <= k < i ==> lhs[k] in rhs && ContainsToleration(lhs[k], rhs)
    {
      var found := HasToleration(lhs[i], rhs);
      ContainsIsMembership(lhs[i], rhs);
      if !found {
        return false;
      }
    }
    return true;
  }

  method HasToleration(t: Toleration, list: seq<Toleration>) returns (found: bool)
    ensures found <==> t in list
  {
    for i := 0 to |list|
      invariant t !in list[..i]
    {
      TolerationSameIsEquality(list[i], t);
      if TolerationSame(list[i], t) {
        return true;
      }
    }
    return false;
  }
}
