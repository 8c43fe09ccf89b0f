/**
 * Condition lists (pkg/k8shandler/status.go): a slice edited in place that acts as a map from
 * types to conditions.  A condition whose status is False is never stored; setting it removes
 * the stored one.
 */
module Conditions {
  import opened Base
  import opened Workload

  datatype ConditionType =
    | UpdatingSettings | ScalingUp | ScalingDown | Restarting
    | InvalidMasters | InvalidData | InvalidRedundancy | InvalidUUID
    | ESContainerWaiting | ESContainerTerminated | ProxyContainerWaiting | ProxyContainerTerminated
    | Unschedulable | NodeStorage

  /** Status is one of IsTrue, IsFalse, IsUnknown; time is the last transition time. */
  datatype ClusterCondition = ClusterCondition(kind: ConditionType, status: Condition, reason: string, message: string, time: int)

  /** getPodCondition and getESNodeCondition: the first condition of a type, or -1. */
  function Find(list: seq<ClusterCondition>, kind: ConditionType): (k: int)
    ensures -1 <= k < |list|
    ensures k >= 0 ==> list[k].kind == kind
    ensures forall j :: 0 <= j < (if k < 0 then |list| else k) ==> list[j].kind != kind
  {
    if list == [] then -1
    else
      var k := Find(list[..|list| - 1], kind);
      if k >= 0 then k else if list[|list| - 1].kind == kind then |list| - 1 else -1
  }

  function Lookup(list: seq<ClusterCondition>, kind: ConditionType): Option<ClusterCondition> {
    var k := Find(list, kind);
    if k < 0 then None else Some(list[k])
  }

  /** The list after setting a condition. */
  function Put(list: seq<ClusterCondition>, c: ClusterCondition): seq<ClusterCondition> {
    var k := Find(list, c.kind);
    if c.status == IsFalse then (if k < 0 then list else list[..k] + list[k + 1..])
    else if k < 0 then list + [c]
    else list[k := c]
  }

  /** Cluster conditions carry the time of their last change of status. */
  function Stamp(list: seq<ClusterCondition>, c: ClusterCondition, now: int): ClusterCondition {
    match Lookup(list, c.kind)
    case Some(previous) => c.(time := if previous.status == c.status then previous.time else now)
    case None => c.(time := now)
  }

  // ----- what a reader sees -----

  ghost predicate Proper(list: seq<ClusterCondition>) {
    && (forall i, j :: 0 <= i < j < |list| ==> list[i].kind != list[j].kind)
    && forall i :: 0 <= i < |list| ==> list[i].status != IsFalse
  }

  /** The conditions of other types, in order. */
  function Others(list: seq<ClusterCondition>, kind: ConditionType): seq<ClusterCondition> {
    if list == [] then []
    else
      var rest := Others(list[..|list| - 1], kind);
      if list[|list| - 1].kind == kind then rest else rest + [list[|list| - 1]]
  }

  /** Equal but for the time. */
  predicate SameView(a: Option<ClusterCondition>, b: Option<ClusterCondition>) {
    match (a, b)
    case (None, None) => true
    case (Some(x), Some(y)) => x.status == y.status && x.reason == y.reason && x.message == y.message
    case _ => false
  }

  lemma LookupAt(list: seq<ClusterCondition>, k: nat)
    requires Proper(list) && k < |list|
    ensures Find(list, list[k].kind) == k
  {
    var j := Find(list, list[k].kind);
  }

  /** Setting a condition keeps types unique and stores nothing False. */
  lemma PutProper(list: seq<ClusterCondition>, c: ClusterCondition)
    requires Proper(list)
    ensures Proper(Put(list, c))
  {
    var k := Find(list, c.kind);
    var r := Put(list, c);
    forall i, j | 0 <= i < j < |r| ensures r[i].kind != r[j].kind {
      if c.status == IsFalse && k >= 0 {
        assert r[i] == list[if i < k then i else i + 1];
        assert r[j] == list[if j < k then j else j + 1];
      }
    }
  }

  lemma LookupPresent(list: seq<ClusterCondition>, j: nat)
    requires Proper(list) && j < |list|
    ensures Lookup(list, list[j].kind) == Some(list[j])
  {
    LookupAt(list, j);
  }

  lemma LookupAbsent(list: seq<ClusterCondition>, kind: ConditionType)
    requires forall i :: 0 <= i < |list| ==> list[i].kind != kind
    ensures Lookup(list, kind) == None
  {
  }

  lemma Removed(list: seq<ClusterCondition>, k: nat, kind: ConditionType)
    requires Proper(list) && k < |list|
    requires Proper(list[..k] + list[k + 1..])
    ensures Lookup(list[..k] + list[k + 1..], kind) == if kind == list[k].kind then None else Lookup(list, kind)
  {
    var r, j := list[..k] + list[k + 1..], Find(list, kind);
    hide Find, Lookup, Proper;
    assert forall i :: 0 <= i < |r| ==> r[i] == list[if i < k then i else i + 1];
    if j >= 0 && j != k {
      LookupPresent(list, j);
      LookupPresent(r, if j < k then j else j - 1);
      assert list[j].kind != list[k].kind by {
        LookupPresent(list, k);
      }
    } else {
      assert forall i :: 0 <= i < |r| ==> r[i].kind != kind by {
        RestDiffers(list, k, kind);
      }
      LookupAbsent(r, kind);
      if j < 0 {
        LookupAbsent(list, kind);
      }
    }
  }

  lemma RestDiffers(list: seq<ClusterCondition>, k: nat, kind: ConditionType)
    requires Proper(list) && k < |list| && (Find(list, kind) == k || Find(list, kind) < 0)
    ensures forall i :: 0 <= i < |list| && i != k ==> list[i].kind != kind
  {
  }

  lemma Replaced(list: seq<ClusterCondition>, k: nat, c: ClusterCondition, kind: ConditionType)
    requires Proper(list) && k < |list| && list[k].kind == c.kind && Proper(list[k := c])
    ensures Lookup(list[k := c], kind) == if kind == c.kind then Some(c) else Lookup(list, kind)
  {
    var r, j := list[k := c], Find(list, kind);
    hide Find, Lookup, Proper;
    if kind == c.kind {
      LookupPresent(r, k);
    } else if j >= 0 {
      LookupPresent(list, j);
      LookupPresent(r, j);
    } else {
      LookupAbsent(list, kind);
      LookupAbsent(r, kind);
    }
  }

  lemma Appended(list: seq<ClusterCondition>, c: ClusterCondition, kind: ConditionType)
    requires Proper(list) && Proper(list + [c])
    ensures Lookup(list + [c], kind) == if kind == c.kind then Some(c) else Lookup(list, kind)
  {
    var r, j := list + [c], Find(list, kind);
    hide Find, Lookup, Proper;
    if kind == c.kind {
      LookupPresent(r, |list|);
    } else if j >= 0 {
      LookupPresent(list, j);
      LookupPresent(r, j);
    } else {
      LookupAbsent(list, kind);
      LookupAbsent(r, kind);
    }
  }

  /** As a map: the type set has the new condition, or none if it is False; every other type is as before. */
  lemma PutIsMapUpdate(list: seq<ClusterCondition>, c: ClusterCondition, kind: ConditionType)
    requires Proper(list)
    ensures Lookup(Put(list, c), kind)
         == if kind != c.kind then Lookup(list, kind) else if c.status == IsFalse then None else Some(c)
  {
    PutProper(list, c);
    hide Find, Lookup, Proper;
    var k := Find(list, c.kind);
    if k < 0 {
      if c.status == IsFalse {
        if kind == c.kind {
          LookupAbsent(list, kind);
        }
      } else {
        Appended(list, c, kind);
      }
    } else if c.status == IsFalse {
      Removed(list, k, kind);
    } else {
      Replaced(list, k, c, kind);
    }
  }

  lemma {:induction false} OthersConcatenate(a: seq<ClusterCondition>, b: seq<ClusterCondition>, kind: ConditionType)
    ensures Others(a + b, kind) == Others(a, kind) + Others(b, kind)
  {
    if b == [] {
      assert a + b == a;
    } else {
      var n := |b| - 1;
      assert (a + b)[..|a| + n] == a + b[..n];
      OthersConcatenate(a, b[..n], kind);
    }
  }

  /** The other conditions keep their content and their order. */
  lemma PutKeepsOthers(list: seq<ClusterCondition>, c: ClusterCondition)
    ensures Others(Put(list, c), c.kind) == Others(list, c.kind)
  {
    hide Others, Find;
    var k := Find(list, c.kind);
    OthersOfOne(c, c.kind);
    if k < 0 {
      OthersConcatenate(list, [c], c.kind);
    } else {
      var a, b := list[..k], list[k + 1..];
      OthersOfOne(list[k], c.kind);
      assert list == a + ([list[k]] + b);
      OthersConcatenate(a, [list[k]] + b, c.kind);
      OthersConcatenate([list[k]], b, c.kind);
      OthersConcatenate(a, b, c.kind);
      assert list[k := c] == a + ([c] + b);
      OthersConcatenate(a, [c] + b, c.kind);
      OthersConcatenate([c], b, c.kind);
    }
  }

  lemma OthersOfOne(c: ClusterCondition, kind: ConditionType)
    ensures Others([c], kind) == if c.kind == kind then [] else [c]
  {
    assert Others([c][..0], kind) == [];
  }

  /** The transition time of a stored condition moves exactly when its status does. */
  lemma StampKeepsTime(list: seq<ClusterCondition>, c: ClusterCondition, now: int)
    requires Proper(list)
    ensures var before, after := Lookup(list, c.kind), Lookup(Put(list, Stamp(list, c, now)), c.kind);
            after.Some? ==>
              after.value.time == if before.Some? && before.value.status == after.value.status then before.value.time else now
  {
    PutIsMapUpdate(list, Stamp(list, c, now), c.kind);
  }

  /** What the update functions return. */
  predicate Changes(list: seq<ClusterCondition>, c: ClusterCondition) {
    var k := Find(list, c.kind);
    if c.status == IsFalse then k >= 0
    else k < 0 || c.status != list[k].status || c.reason != list[k].reason || c.message != list[k].message
  }

  /** That is whether a reader sees a change. */
  lemma ChangesIsVisible(list: seq<ClusterCondition>, c: ClusterCondition)
    requires Proper(list)
    ensures Proper(Put(list, c))
    ensures Changes(list, c) <==> !SameView(Lookup(list, c.kind), Lookup(Put(list, c), c.kind))
  {
    PutProper(list, c);
    PutIsMapUpdate(list, c, c.kind);
    hide Find, Proper, Put;
  }

  // ----- sequences of updates -----

  function PutAll(list: seq<ClusterCondition>, updates: seq<ClusterCondition>): seq<ClusterCondition> {
    if updates == [] then list
    else Put(PutAll(list, updates[..|updates| - 1]), updates[|updates| - 1])
  }

  /** The last update of a type in a sequence of updates. */
  function LastOf(updates: seq<ClusterCondition>, kind: ConditionType): Option<ClusterCondition> {
    if updates == [] then None
    else if updates[|updates| - 1].kind == kind then Some(updates[|updates| - 1])
    else LastOf(updates[..|updates| - 1], kind)
  }

  /** After any sequence of updates each type shows its last update, and untouched types are as at first. */
  lemma {:induction false} LastUpdateWins(list: seq<ClusterCondition>, updates: seq<ClusterCondition>, kind: ConditionType)
    requires Proper(list)
    ensures Proper(PutAll(list, updates))
    ensures Lookup(PutAll(list, updates), kind) == match LastOf(updates, kind)
      case None => Lookup(list, kind)
      case Some(c) => if c.status == IsFalse then None else Some(c)
  {
    hide Lookup, Put;
    if updates != [] {
      var n := |updates| - 1;
      LastUpdateWins(list, updates[..n], kind);
      PutProper(PutAll(list, updates[..n]), updates[n]);
      PutIsMapUpdate(PutAll(list, updates[..n]), updates[n], kind);
    }
  }

  // ----- the slice, updated in place -----

  class ConditionList {
    var conditions: seq<ClusterCondition>

    constructor ()
      ensures conditions == [] && Proper(conditions)
    {
      conditions := [];
    }

    method IndexOf(kind: ConditionType) returns (index: int)
      ensures index == Find(conditions, kind)
    {
      for i := 0 to |conditions|
        invariant forall j :: 0 <= j < i ==> conditions[j].kind != kind
      {
        if conditions[i].kind == kind {
          return i;
        }
      }
      return -1;
    }

    /** updatePodCondition: true iff what a reader sees has changed; the time is the caller's. */
    method UpdatePodCondition(c: ClusterCondition) returns (changed: bool)
      modifies this
      ensures conditions == Put(old(conditions), c)
      ensures old(Proper(conditions)) ==> Proper(conditions)
      ensures old(Proper(conditions)) ==>
        changed == !SameView(old(Lookup(conditions, c.kind)), Lookup(conditions, c.kind))
    {
      hide Find, Lookup, Proper, SameView;
      if Proper(conditions) {
        ChangesIsVisible(conditions, c);
      }
      var index := IndexOf(c.kind);
      if c.status == IsFalse {
        if index >= 0 {
          conditions := conditions[..index] + conditions[index + 1..];
          return true;
        }
        return false;
      }
      if index < 0 {
        conditions := conditions + [c];
        return true;
      }
      var previous := conditions[index];
      conditions := conditions[index := c];
      return !(c.status == previous.status && c.reason == previous.reason && c.message == previous.message);
    }

    /** updateESNodeCondition: as above, with the time of the last change of status. */
    method UpdateClusterCondition(c: ClusterCondition, now: int) returns (changed: bool)
      modifies this
      ensures conditions == Put(old(conditions), Stamp(old(conditions), c, now))
      ensures old(Proper(conditions)) ==> Proper(conditions)
      ensures old(Proper(conditions)) ==>
        changed == !SameView(old(Lookup(conditions, c.kind)), Lookup(conditions, c.kind))
    {
      hide Find, Proper, SameView;
      if Proper(conditions) {
        ChangesIsVisible(conditions, Stamp(conditions, c, now));
      }
      var condition := c.(time := now);
      var index := IndexOf(c.kind);
      if condition.status == IsFalse {
        if index >= 0 {
          conditions := conditions[..index] + conditions[index + 1..];
          return true;
        }
        return false;
      }
      if index < 0 {
        conditions := conditions + [condition];
        return true;
      }
      var previous := conditions[index];
      if condition.status == previous.status {
        condition := condition.(time := previous.time);
      }
      conditions := conditions[index := condition];
      return !(condition.status == previous.status && condition.reason == previous.reason
               && condition.message == previous.message && condition.time == previous.time);
    }

    /** updatePodNotReadyCondition and updatePodNodeStorageCondition: an empty report clears the condition. */
    method Report(kind: ConditionType, reason: string, message: string, now: int) returns (changed: bool)
      requires Proper(conditions)
      modifies this
      ensures Proper(conditions)
      ensures Lookup(conditions, kind)
           == if reason == "" && message == "" then None
              else Some(ClusterCondition(kind, IsTrue, reason, message, now))
      ensures forall other :: other != kind ==> Lookup(conditions, other) == old(Lookup(conditions, other))
      ensures Others(conditions, kind) == old(Others(conditions, kind))
    {
      hide Put, Lookup, Others;
      var c := ClusterCondition(kind, if message == "" && reason == "" then IsFalse else IsTrue, reason, message, now);
      ghost var before := conditions;
      changed := UpdatePodCondition(c);
      forall other ensures Lookup(conditions, other)
        == if other != kind then Lookup(before, other) else if c.status == IsFalse then None else Some(c)
      {
        PutIsMapUpdate(before, c, other);
      }
      PutKeepsOthers(before, c);
    }

    /**
     * updateStatusConditions sets four conditions to False when they are absent.  As False is
     * never stored, it changes nothing.
     */
    method InitializeConditions(kinds: seq<ConditionType>, now: int)
      modifies this
      ensures conditions == old(conditions)
    {
      for i := 0 to |kinds|
        invariant conditions == old(conditions)
      {
        var index := IndexOf(kinds[i]);
        if index < 0 {
          var _ := UpdateClusterCondition(ClusterCondition(kinds[i], IsFalse, "", "", now), now);
        }
      }
    }
  }
}
