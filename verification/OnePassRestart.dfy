/**
 * What the unchecked write of the initial partition is worth when one pass begins a restart of
 * a StatefulSet and also finishes it; NodeRollouts treats restarts that take several passes.
 */
module OnePassRestart {
  import opened Base
  import opened Drift
  import opened Environment
  import opened Workload
  import Sts = StatefulSetUpgrade
  import opened PartitionRollout
  import opened Reconcile
  import opened StatusIndex
  import opened NodeRollouts

  ghost predicate Closes(w: World, w': World, name: string) {
    exists i :: |w.log| <= i < |w'.log| && w'.log[i] == Clear(name)
  }

  ghost predicate NoneClosed(w: World, w': World) {
    w.log <= w'.log && forall i :: |w.log| <= i < |w'.log| ==> !w'.log[i].Clear?
  }

  lemma NoneClosedTransitive(a: World, b: World, c: World)
    requires NoneClosed(a, b) && NoneClosed(b, c)
    ensures NoneClosed(a, c)
  {
    forall i | |a.log| <= i < |c.log| ensures !c.log[i].Clear? {
      if i < |b.log| {
        assert c.log[i] == b.log[i];
      }
    }
  }

  lemma BeginClosesNothing(env: Env, s: Step, sizeRequired: bool)
    requires s.n.name in s.w.objects
    ensures var t := Sts.BeginCycle(env, s, sizeRequired); NoneClosed(s.w, t.w) && t.n.name == s.n.name && t.n.name in t.w.objects
  {
    hide Sts.SetPartition, Grows;
    if s.u.under != IsTrue {
      var (green, w1) := Health(env, s.w, s.n.name);
      var (ok, size, w2) := NodeCount(env, w1);
      var n2 := s.n.(clusterSize := size);
      var (counted, replicas, w3) := ReplicaCount(env, n2, w2);
      SetPartitionEffect(env, n2, w3, replicas);
      Sts.SetPartitionGrows(env, n2, w3, replicas);
    }
  }

  lemma OneClosesNothing(env: Env, s: Step, index: int)
    requires s.n.name in s.w.objects
    ensures var t := Sts.One(env, s, index, false); NoneClosed(s.w, t.w) && t.n.name in t.w.objects
  {
    hide Sts.SetPartition, Grows, FirstAtLeast, FirstBelow;
    var (back, w1) := RejoinPoll(env, s.w, s.n.name, s.n.clusterSize);
    var (deleted, w2) := DeletePodCall(env, w1, s.n.name, index - 1);
    var (left, w3) := LeavePoll(env, w2, s.n.name, s.n.clusterSize);
    assert w3.objects == s.w.objects;
    SetPartitionEffect(env, s.n, w3, index - 1);
    Sts.SetPartitionGrows(env, s.n, w3, index - 1);
  }

  lemma {:induction false} LoopClosesNothing(env: Env, s: Step, index: int)
    requires s.n.name in s.w.objects
    ensures NoneClosed(s.w, Sts.Loop(env, s, index, false).w)
    decreases index
  {
    hide Sts.One;
    if s.go && index > 0 {
      var t := Sts.One(env, s, index, false);
      OneClosesNothing(env, s, index);
      LoopClosesNothing(env, t, index - 1);
      NoneClosedTransitive(s.w, t.w, Sts.Loop(env, t, index - 1, false).w);
    }
  }

  lemma RollClosesNothing(env: Env, s: Step)
    requires s.n.name in s.w.objects
    ensures NoneClosed(s.w, Sts.Roll(env, s, false).w)
  {
    hide Sts.Loop, Grows, FirstAtLeast;
    var (ok, ordinal, w1) := Sts.ReadPartition(env, s.n, s.w);
    assert w1.log == s.w.log && w1.objects == s.w.objects;
    LoopClosesNothing(env, s.(w := w1), ordinal);
    var l := Sts.Loop(env, s.(w := w1), ordinal, false);
    var r := Sts.AllBack(env, l);
    assert NoneClosed(l.w, r.w);
    NoneClosedTransitive(w1, l.w, r.w);
  }

  /** A restart that clears the upgrade had begun it, and leaves the node no longer under upgrade. */
  lemma ClosingFinishes(env: Env, s: Step)
    requires s.go && s.u.under != IsTrue && s.n.name in s.w.objects
    requires Closes(s.w, Sts.Call(env, s, false).w, s.n.name)
    ensures Sts.BeginCycle(env, s, true).go && Sts.Call(env, s, false).u.under != IsTrue
  {
    var b := Sts.BeginCycle(env, s, true);
    BeginClosesNothing(env, s, true);
    var f := Sts.FirstBlock(env, b, false);
    assert f.w == b.w && f.n == b.n;
    RollClosesNothing(env, f);
    hide Sts.BeginCycle, Sts.Roll;
    NoneClosedTransitive(s.w, f.w, Sts.Roll(env, f, false).w);
  }

  lemma CalmClosesNothing(w: World, w': World, name: string)
    ensures Calm(w, w', name) ==> !Closes(w, w', name)
  {
  }

  lemma ClosesInCall(a: World, b: World, c: World, d: World, name: string)
    requires Calm(a, b, name) && b.log <= c.log && Calm(c, d, name) && Closes(a, d, name)
    ensures Closes(b, c, name)
  {
    forall k | |a.log| <= k < |b.log| ensures d.log[k] != Clear(name) {
      assert d.log[k] == c.log[k] == b.log[k];
    }
    var i :| |a.log| <= i < |d.log| && d.log[i] == Clear(name);
    assert c.log[i] == Clear(name);
  }

  /** A restart call that begins and clears the upgrade. */
  lemma OneCallDecides(env: Env, s: Step)
    requires s.go && s.u.under != IsTrue && s.u.phase != RecoveringData && s.n.name in s.w.objects
    requires Closes(s.w, Sts.Call(env, s, false).w, s.n.name)
    ensures Sts.BeginCycle(env, s, true).go
    ensures var R := env(s.w.pos + 2).replicas;
            AllCycled(Sts.Call(env, s, false).w.log, |Sts.BeginCycle(env, s, true).w.log|, s.n.name, 0, R) <==>
              InitialWriteTakesEffect(env, s.w) || R <= s.w.objects[s.n.name].partition || R <= 0
  {
    hide Closes, Sts.Call, Sts.BeginCycle, AllCycled, InitialWriteTakesEffect, Resumes;
    ClosingFinishes(env, s);
    CycleBegins(env, s, false);
    UncheckedPartitionDecides(env, s, [Sts.BeginCycle(env, s, true)], [false]);
  }

  /**
   * If a pass without an update scheduled for the node clears its upgrade, it has restarted all R
   * pods, for the replica count R read as it began, if and only if the write of the initial
   * partition took effect, or the partition was already at least R.
   */
  lemma UncheckedWriteInOnePass(env: Env, c: Cluster, gen: seq<NodeState>, j: nat, name: string, size: int, mark: Mark)
    returns (s: Step)
    requires Kept(c, j, name, size, mark) && mark.0 != IsTrue && mark.1 != RecoveringData
    requires DistinctNodes(gen) && FindNode(gen, name) >= 0 && !UpgradeScheduled(EntryOf(c.stored, name))
    requires Closes(c.w, Pass(env, c, gen).w, name)
    ensures s.n.name == name && Calm(c.w, s.w, name) && s.u.under != IsTrue && Sts.BeginCycle(env, s, true).go
    ensures var R := env(s.w.pos + 2).replicas;
            AllCycled(Pass(env, c, gen).w.log, |Sts.BeginCycle(env, s, true).w.log|, name, 0, R) <==>
              InitialWriteTakesEffect(env, s.w) || R <= c.w.objects[name].partition || R <= 0
  {
    hide Pass, EntryOf, FindNode, Sts.Call, Sts.BeginCycle, On, AllCycled, InitialWriteTakesEffect, Closes, DistinctNodes;
    var _, call, u := PassAtMostOneCall(env, c, gen, j, name, size, mark);
    var r := Pass(env, c, gen);
    CalmClosesNothing(c.w, r.w, name);
    s := call.value;
    var t := Sts.Call(env, s, false);
    Sts.CallTame(env, s, false);
    ClosesInCall(c.w, s.w, t.w, r.w, name);
    OneCallDecides(env, s);
    var begun := Sts.BeginCycle(env, s, true);
    CalmCyclesNothing(t.w, r.w, |begun.w.log|, name, 0, env(s.w.pos + 2).replicas);
    KeptExists(c, j, name, size, mark);
    CalmPartitionKept(c.w, s.w, name);
  }
}
