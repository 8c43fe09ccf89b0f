/**
 * What the partition of a StatefulSet guarantees across any number of interrupted
 * and resumed update and restart calls of one upgrade cycle.
 */
module PartitionRollout {
  import opened Base
  import opened Drift
  import opened Environment
  import opened Workload
  import opened StatefulSetUpgrade

  /** Inside an open cycle: the server's object exists. */
  ghost predicate InCycle(s: Step) {
    s.u.under == IsTrue && s.n.name in s.w.objects
  }

  ghost function ServerPartition(s: Step): int
    requires InCycle(s)
  {
    s.w.objects[s.n.name].partition
  }

  /** Ordinal o was deleted and a leave poll succeeded right after. */
  ghost predicate CycledAt(log: seq<Event>, name: string, o: int, i: int) {
    0 <= i < |log| - 1 && log[i] == DeletePod(name, o, true) && log[i + 1] == Leave(name, true)
  }

  ghost predicate Cycled(log: seq<Event>, from: nat, name: string, o: int) {
    exists i :: from <= i && CycledAt(log, name, o, i)
  }

  ghost predicate AllCycled(log: seq<Event>, from: nat, name: string, low: int, high: int) {
    forall o :: low <= o < high ==> Cycled(log, from, name, o)
  }

  lemma AllCycledExtends(log: seq<Event>, log': seq<Event>, from: nat, name: string, low: int, high: int)
    requires AllCycled(log, from, name, low, high) && log <= log'
    ensures AllCycled(log', from, name, low, high)
  {
    forall o | low <= o < high ensures Cycled(log', from, name, o) {
      assert Cycled(log, from, name, o);
      var i :| from <= i && CycledAt(log, name, o, i);
      assert CycledAt(log', name, o, i);
    }
  }

  ghost predicate Lowering(e: Event, name: string) {
    e.Partition? && e.node == name && e.after < e.before
  }

  ghost predicate Raising(e: Event, name: string) {
    e.Partition? && e.node == name && e.after >= e.before
  }

  ghost predicate SeenBack(e: Event, name: string, size: int) {
    e.Rejoin? && e.node == name && e.ok && Observed(e.seen) >= size
  }

  /** Since from: the partition never rose, and between two lowerings a poll saw the cluster back at its size. */
  ghost predicate Spaced(log: seq<Event>, from: nat, name: string, size: int) {
    && from <= |log|
    && (forall i :: from <= i < |log| ==> !Raising(log[i], name))
    && forall i, j :: from <= i < j < |log| && Lowering(log[i], name) && Lowering(log[j], name) ==>
                        exists k :: i < k < j && SeenBack(log[k], name, size)
  }

  // ----- SetPartition -----

  /** Writing the partition leaves it as it was or sets it, and a change is the one event logged. */
  lemma SetPartitionEffect(env: Env, n: NodeState, w: World, partition: int)
    requires n.name in w.objects
    ensures var (ok, n', w') := SetPartition(env, n, w, partition);
            && n.name in w'.objects
            && var before, after := w.objects[n.name].partition, w'.objects[n.name].partition;
               && (after == before || after == partition)
               && (ok ==> after == partition)
               && w'.log == if after == before then w.log else w.log + [Partition(n.name, before, after)]
  {
    hide Grows;
    var (ok, n1, w1) := Reload(env, n, w);
    if ok && n1.self.spec.partition != partition {
      var n2 := n1.(self := n1.self.(spec := n1.self.spec.(partition := partition)));
      var (written, w2) := Write(env, w1, n.name, n2.self.spec);
      assert w2.objects[n.name] == n2.self.spec || w2.objects == w.objects;
      assert w2.log == w.log;
    }
  }

  // ----- one loop iteration -----

  /** The events of one iteration: nothing about the partition, or a successful rejoin poll and then one change. */
  ghost predicate OneEvents(s: Step, t: Step) {
    && s.w.log <= t.w.log
    && (forall i :: |s.w.log| <= i < |t.w.log| ==> !Raising(t.w.log[i], s.n.name))
    && forall j :: |s.w.log| <= j < |t.w.log| && Lowering(t.w.log[j], s.n.name) ==>
                     && |s.w.log| < j
                     && SeenBack(t.w.log[|s.w.log|], s.n.name, s.n.clusterSize)
                     && forall i :: |s.w.log| <= i < |t.w.log| && i != j ==> !Lowering(t.w.log[i], s.n.name)
  }

  /** An iteration for index, entered with the server's partition at or above it. */
  ghost predicate OneStep(s: Step, t: Step, index: int)
    requires InCycle(s)
  {
    && InCycle(t) && OneEvents(s, t)
    && ServerPartition(t) <= ServerPartition(s)
    && ServerPartition(t) >= index - 1
    && (!t.go ==> ServerPartition(t) == ServerPartition(s) || ServerPartition(t) == index - 1)
  }

  /** The exact events of restart's loop body. */
  lemma RestartOneLog(env: Env, s: Step, index: int)
    requires InCycle(s) && s.go
    ensures var t := RestartOne(env, s, index);
            && InCycle(t)
            && var before, after := ServerPartition(s), ServerPartition(t);
               && s.w.log <= t.w.log
               && (after == before || after == index - 1)
               && (t.go ==>
                     && |s.w.log| + 3 <= |t.w.log|
                     && SeenBack(t.w.log[|s.w.log|], s.n.name, s.n.clusterSize)
                     && CycledAt(t.w.log, s.n.name, index - 1, |s.w.log| + 1)
                     && t.w.log[|s.w.log| + 3..] ==
                        if after == before then [] else [Partition(s.n.name, before, after)])
               && (!t.go ==>
                     && after == before
                     && forall i :: |s.w.log| <= i < |t.w.log| ==> !t.w.log[i].Partition?)
  {
    hide SetPartition, FirstAtLeast, FirstBelow, Grows;
    var t := RestartOne(env, s, index);
    var (back, w1) := RejoinPoll(env, s.w, s.n.name, s.n.clusterSize);
    if back {
      var (deleted, w2) := DeletePodCall(env, w1, s.n.name, index - 1);
      if deleted {
        var (left, w3) := LeavePoll(env, w2, s.n.name, s.n.clusterSize);
        assert w3.objects == s.w.objects;
        if !left {
          assert t == s.(w := w3, go := false);
        } else {
          SetPartitionEffect(env, s.n, w3, index - 1);
          SetPartitionGrows(env, s.n, w3, index - 1);
          assert w3.log == s.w.log + [w1.log[|s.w.log|], DeletePod(s.n.name, index - 1, true), Leave(s.n.name, true)];
        }
      }
    }
  }

  lemma RestartOneStep(env: Env, s: Step, index: int)
    requires InCycle(s) && s.go && ServerPartition(s) >= index
    ensures var t := RestartOne(env, s, index);
            OneStep(s, t, index)
            && (if t.go then CycledAt(t.w.log, s.n.name, index - 1, |s.w.log| + 1)
                else ServerPartition(t) == ServerPartition(s))
  {
    var t := RestartOne(env, s, index);
    hide RestartOne;
    RestartOneLog(env, s, index);
    if t.go {
      forall i | |s.w.log| + 3 <= i < |t.w.log|
        ensures t.w.log[i] == Partition(s.n.name, ServerPartition(s), ServerPartition(t)) && i == |t.w.log| - 1
      {
        assert t.w.log[i] == t.w.log[|s.w.log| + 3..][i - |s.w.log| - 3];
      }
    }
  }

  lemma UpdateOneStep(env: Env, s: Step, index: int)
    requires InCycle(s) && ServerPartition(s) >= index
    ensures OneStep(s, UpdateOne(env, s, index), index)
  {
    hide SetPartition, FirstBelow, FirstAtLeast, Grows;
    var (back, w1) := RejoinPoll(env, s.w, s.n.name, s.n.clusterSize);
    if back {
      var (_, n2, w2) := SetPartition(env, s.n, w1, index - 1);
      SetPartitionEffect(env, s.n, w1, index - 1);
      SetPartitionGrows(env, s.n, w1, index - 1);
      var (left, w3) := LeavePoll(env, w2, n2.name, n2.clusterSize);
      assert w3.log[|s.w.log|] == w1.log[|s.w.log|];
    }
  }

  lemma OneStepEither(env: Env, s: Step, index: int, updating: bool)
    requires InCycle(s) && s.go && ServerPartition(s) >= index
    ensures OneStep(s, One(env, s, index, updating), index)
  {
    if updating {
      UpdateOneStep(env, s, index);
    } else {
      RestartOneStep(env, s, index);
    }
  }

  lemma SpacedStart(log: seq<Event>, name: string, size: int)
    ensures Spaced(log, |log|, name, size)
  {
  }

  lemma SpacedExtends(s: Step, t: Step, from: nat)
    requires Spaced(s.w.log, from, s.n.name, s.n.clusterSize) && OneEvents(s, t)
    ensures Spaced(t.w.log, from, s.n.name, s.n.clusterSize)
  {
    var name, size, log := s.n.name, s.n.clusterSize, t.w.log;
    assert forall i :: 0 <= i < |s.w.log| ==> log[i] == s.w.log[i];
    forall i, j | from <= i < j < |log| && Lowering(log[i], name) && Lowering(log[j], name)
      ensures exists k :: i < k < j && SeenBack(log[k], name, size)
    {
      if j < |s.w.log| {
        var k :| i < k < j && SeenBack(s.w.log[k], name, size);
        assert SeenBack(log[k], name, size);
      } else {
        assert SeenBack(log[|s.w.log|], name, size);
      }
    }
  }

  // ----- the loop -----

  lemma {:induction false} LoopSpaced(env: Env, s: Step, index: int, updating: bool, from: nat)
    requires InCycle(s) && ServerPartition(s) >= index
    requires Spaced(s.w.log, from, s.n.name, s.n.clusterSize)
    ensures var t := Loop(env, s, index, updating);
            && InCycle(t) && ServerPartition(t) <= ServerPartition(s)
            && Spaced(t.w.log, from, s.n.name, s.n.clusterSize)
    decreases index
  {
    hide One, OneEvents, Spaced, Grows;
    if s.go && index > 0 {
      var t := One(env, s, index, updating);
      OneStepEither(env, s, index, updating);
      OneTame(env, s, index, updating);
      SpacedExtends(s, t, from);
      LoopSpaced(env, t, index - 1, updating, from);
    }
  }

  lemma {:induction false} LoopCycles(env: Env, s: Step, index: int, from: nat, R: int)
    requires InCycle(s) && ServerPartition(s) >= index && from <= |s.w.log|
    requires AllCycled(s.w.log, from, s.n.name, if index < 0 then 0 else index, R)
    ensures var t := Loop(env, s, index, false);
            && InCycle(t)
            && AllCycled(t.w.log, from, s.n.name, if ServerPartition(t) < 0 then 0 else ServerPartition(t), R)
            && (s.go && t.go ==> AllCycled(t.w.log, from, s.n.name, 0, R))
    decreases index
  {
    hide RestartOne, OneEvents, Grows, CycledAt;
    if s.go && index > 0 {
      var t := RestartOne(env, s, index);
      assert t == One(env, s, index, false);
      RestartOneStep(env, s, index);
      OneTame(env, s, index, false);
      assert s.w.log <= t.w.log && from <= |t.w.log| by {
        RestartOneLog(env, s, index);
      }
      AllCycledExtends(s.w.log, t.w.log, from, s.n.name, index, R);
      if t.go {
        OneMoreCycled(t.w.log, from, s.n.name, index, R, |s.w.log| + 1);
        LoopCycles(env, t, index - 1, from, R);
      }
    }
  }

  lemma OneMoreCycled(log: seq<Event>, from: nat, name: string, index: int, R: int, i: nat)
    requires AllCycled(log, from, name, index, R) && from <= i && CycledAt(log, name, index - 1, i)
    ensures AllCycled(log, from, name, index - 1, R)
  {
    forall o | index - 1 <= o < R ensures Cycled(log, from, name, o) {
      if o == index - 1 {
        assert CycledAt(log, name, o, i);
      }
    }
  }

  // ----- one call inside a cycle -----

  lemma CallSpaced(env: Env, s: Step, updating: bool, from: nat)
    requires InCycle(s) && Spaced(s.w.log, from, s.n.name, s.n.clusterSize)
    ensures var t := Call(env, s, updating);
            && s.n.name in t.w.objects && t.w.objects[s.n.name].partition <= ServerPartition(s)
            && Spaced(t.w.log, from, s.n.name, s.n.clusterSize)
            && t.n.name == s.n.name && t.n.clusterSize == s.n.clusterSize
  {
    hide Grows, ExecuteUpdate;
    var b := FirstBlock(env, s, updating);
    FirstBlockTame(env, s, updating);
    FirstBlockKeepsPartition(env, s, updating);
    hide FirstBlock;
    var c := Roll(env, b, updating);
    if b.go && b.u.phase == NodeRestarting {
      var (ok, ordinal, w1) := ReadPartition(env, b.n, b.w);
      if ok {
        var a := b.(w := w1);
        LoopSpaced(env, a, ordinal, updating, from);
        LoopTame(env, a, ordinal, updating);
        var l := Loop(env, a, ordinal, updating);
        AllBackSpaced(env, l, from);
        AllBackKeepsPartition(env, l);
      }
    }
    assert Spaced(c.w.log, from, s.n.name, s.n.clusterSize);
    FinishSpaced(c, from);
  }

  lemma AllBackSpaced(env: Env, s: Step, from: nat)
    requires Spaced(s.w.log, from, s.n.name, s.n.clusterSize)
    ensures Spaced(AllBack(env, s).w.log, from, s.n.name, s.n.clusterSize)
  {
    assert OneEvents(s, AllBack(env, s));
    SpacedExtends(s, AllBack(env, s), from);
  }

  lemma FinishSpaced(s: Step, from: nat)
    requires Spaced(s.w.log, from, s.n.name, s.n.clusterSize)
    ensures Spaced(Finish(s).w.log, from, s.n.name, s.n.clusterSize)
  {
    SpacedExtends(s, Finish(s), from);
  }

  lemma AllBackKeepsPartition(env: Env, s: Step)
    ensures var t := AllBack(env, s);
            t.w.objects == s.w.objects && t.n.name == s.n.name && t.n.clusterSize == s.n.clusterSize
            && t.u.under == s.u.under && (t.u.phase == RecoveringData && s.u.phase != RecoveringData ==> s.go)
  {
  }

  lemma FirstBlockKeepsPartition(env: Env, s: Step, updating: bool)
    requires InCycle(s)
    ensures var t := FirstBlock(env, s, updating);
            && InCycle(t) && ServerPartition(t) == ServerPartition(s) && t.w.log == s.w.log
            && t.n.clusterSize == s.n.clusterSize && t.n.name == s.n.name
  {
    if s.go && AtStart(s.u.phase) && updating {
      var (changed, n1, w1) := IsChanged(env, s.n, s.w);
      var desired := s.n.self.spec;
      if changed {
        PatchKeepsTheRest(s.w.objects[s.n.name], desired);
      }
    }
  }

  lemma RestartCycles(env: Env, s: Step, from: nat, R: int)
    requires InCycle(s) && from <= |s.w.log| && s.u.phase != RecoveringData
    requires AllCycled(s.w.log, from, s.n.name, if ServerPartition(s) < 0 then 0 else ServerPartition(s), R)
    ensures var t := Call(env, s, false);
            && s.n.name in t.w.objects
            && var p := t.w.objects[s.n.name].partition;
               && AllCycled(t.w.log, from, s.n.name, if p < 0 then 0 else p, R)
               && (t.u.under != IsTrue ==> AllCycled(t.w.log, from, s.n.name, 0, R))
  {
    hide Loop, Grows, CycledAt, Cycled, AllCycled;
    var b := FirstBlock(env, s, false);
    var c := Roll(env, b, false);
    if b.go && b.u.phase == NodeRestarting {
      var (ok, ordinal, w1) := ReadPartition(env, b.n, b.w);
      if ok {
        var a := b.(w := w1);
        LoopCycles(env, a, ordinal, from, R);
        LoopTame(env, a, ordinal, false);
        var l := Loop(env, a, ordinal, false);
        AllBackKeepsPartition(env, l);
        CycledAfterAllBack(env, l, from, R);
      }
    }
    var p := c.w.objects[s.n.name].partition;
    AllCycledExtends(c.w.log, Finish(c).w.log, from, s.n.name, if p < 0 then 0 else p, R);
    if Finish(c).u.under != IsTrue {
      AllCycledExtends(c.w.log, Finish(c).w.log, from, s.n.name, 0, R);
    }
  }

  lemma CycledAfterAllBack(env: Env, l: Step, from: nat, R: int)
    requires InCycle(l)
    requires AllCycled(l.w.log, from, l.n.name, if ServerPartition(l) < 0 then 0 else ServerPartition(l), R)
    ensures AllCycled(AllBack(env, l).w.log, from, l.n.name, if ServerPartition(l) < 0 then 0 else ServerPartition(l), R)
    ensures AllCycled(l.w.log, from, l.n.name, 0, R) ==> AllCycled(AllBack(env, l).w.log, from, l.n.name, 0, R)
  {
    var t := AllBack(env, l);
    assert l.w.log <= t.w.log;
    AllCycledExtends(l.w.log, t.w.log, from, l.n.name, if ServerPartition(l) < 0 then 0 else ServerPartition(l), R);
    if AllCycled(l.w.log, from, l.n.name, 0, R) {
      AllCycledExtends(l.w.log, t.w.log, from, l.n.name, 0, R);
    }
  }

  // ----- whole cycles -----

  /** Work that leaves a node's partition and polls alone: of its events only harmless ones are added. */
  ghost predicate Calm(w: World, w': World, name: string) {
    && w.log <= w'.log
    && (forall i :: |w.log| <= i < |w'.log| && w'.log[i].node == name ==> Harmless(w'.log[i]))
    && (name in w.objects ==> name in w'.objects && w'.objects[name].partition == w.objects[name].partition)
  }

  /**
   * The rest of the operator between two calls: calm work, with the cluster size still recorded.
   * The persisted phase may be that of an earlier call, if a write of it was lost, as long as the
   * node is under upgrade.  NodeRollouts derives this from the passes.
   */
  ghost predicate Resumes(t: Step, s: Step) {
    && InCycle(s) && s.go
    && s.n.name == t.n.name && s.n.clusterSize == t.n.clusterSize
    && t.n.name in t.w.objects && Calm(t.w, s.w, s.n.name)
  }

  /** The states in which the calls of one cycle start; updating[i] says which procedure the i-th call runs. */
  ghost predicate CycleOfCalls(env: Env, starts: seq<Step>, updating: seq<bool>) {
    && |starts| == |updating| > 0
    && InCycle(starts[0])
    && forall i :: 0 <= i < |starts| - 1 ==> Resumes(Call(env, starts[i], updating[i]), starts[i + 1])
  }

  /** No call starts in the last phase; no procedure of a StatefulSet stops in it either. */
  ghost predicate NeverRecovering(starts: seq<Step>) {
    forall i :: 0 <= i < |starts| ==> starts[i].u.phase != RecoveringData
  }

  lemma ResumeSpaced(t: Step, s: Step, from: nat)
    requires Resumes(t, s) && Spaced(t.w.log, from, t.n.name, t.n.clusterSize)
    ensures Spaced(s.w.log, from, s.n.name, s.n.clusterSize)
  {
    assert OneEvents(t, s);
    SpacedExtends(t, s, from);
  }

  /**
   * How a cycle gets to its first state: a call that begins it is, from there on, a call made in
   * the cycle; and the partition is the replica count exactly if the unchecked write took effect, and
   * otherwise what it was before.
   */
  lemma CycleBegins(env: Env, s: Step, updating: bool)
    requires s.go && s.u.under != IsTrue && s.n.name in s.w.objects && BeginCycle(env, s, !updating).go
    ensures var t := BeginCycle(env, s, !updating);
            && InCycle(t) && t.u.phase == s.u.phase && t.n.name == s.n.name
            && Call(env, s, updating) == Call(env, t, updating)
            && ServerPartition(t) == if env(s.w.pos + 3).ok && (env(s.w.pos + 4).ok || env(s.w.pos + 4).applied)
                                     then env(s.w.pos + 2).replicas else s.w.objects[s.n.name].partition
  {
    var t := BeginCycle(env, s, !updating);
    BeginSetsPartition(env, s, !updating);
    assert BeginCycle(env, t, !updating) == t;
    hide BeginCycle, FirstBlock, Roll;
  }

  lemma BeginSetsPartition(env: Env, s: Step, sizeRequired: bool)
    requires s.u.under != IsTrue && s.n.name in s.w.objects && BeginCycle(env, s, sizeRequired).go
    ensures var t := BeginCycle(env, s, sizeRequired);
            && InCycle(t) && t.u.phase == s.u.phase && t.n.name == s.n.name
            && ServerPartition(t) == if env(s.w.pos + 3).ok && (env(s.w.pos + 4).ok || env(s.w.pos + 4).applied)
                                     then env(s.w.pos + 2).replicas else s.w.objects[s.n.name].partition
  {
    hide Grows, SetPartition;
    var (green, w1) := Health(env, s.w, s.n.name);
    var (ok, size, w2) := NodeCount(env, w1);
    var n2 := s.n.(clusterSize := size);
    var (counted, replicas, w3) := ReplicaCount(env, n2, w2);
    SetPartitionExactly(env, n2, w3, replicas);
  }

  lemma SetPartitionExactly(env: Env, n: NodeState, w: World, partition: int)
    requires n.name in w.objects
    ensures var r := SetPartition(env, n, w, partition);
            && n.name in r.2.objects && r.1.name == n.name
            && r.2.objects[n.name].partition == if env(w.pos).ok && (env(w.pos + 1).ok || env(w.pos + 1).applied)
                                                then partition else w.objects[n.name].partition
  {
    hide Grows;
  }

  /**
   * One-step rollout: for every interleaving of update and restart calls of a cycle, the
   * server's partition never rises, and between two lowerings a poll observed at least the
   * cluster size recorded when the cycle began.
   */
  lemma {:induction false} PartitionLowersOneRejoinAtATime(env: Env, starts: seq<Step>, updating: seq<bool>)
    requires CycleOfCalls(env, starts, updating)
    ensures var first, last := starts[0], |starts| - 1;
            var t := Call(env, starts[last], updating[last]);
            && first.n.name in t.w.objects
            && t.w.objects[first.n.name].partition <= ServerPartition(first)
            && Spaced(t.w.log, |first.w.log|, first.n.name, first.n.clusterSize)
            && t.n.name == first.n.name && t.n.clusterSize == first.n.clusterSize
    decreases |starts|
  {
    hide Call, Spaced;
    var last := |starts| - 1;
    var s := starts[last];
    var from := |starts[0].w.log|;
    SpacedStart(starts[0].w.log, starts[0].n.name, starts[0].n.clusterSize);
    if last > 0 {
      PartitionLowersOneRejoinAtATime(env, starts[..last], updating[..last]);
      var t := Call(env, starts[last - 1], updating[last - 1]);
      assert Resumes(t, s);
      ResumeSpaced(t, s, from);
    }
    CallSpaced(env, s, updating[last], from);
  }

  // ----- what a rejoin poll is worth -----

  /** The read that ended the poll did not fail. */
  ghost predicate ReallyBack(e: Event, name: string, size: int) {
    SeenBack(e, name, size) && e.seen.Size?
  }

  ghost predicate ReallySpaced(log: seq<Event>, from: nat, name: string, size: int) {
    forall i, j :: from <= i < j < |log| && Lowering(log[i], name) && Lowering(log[j], name) ==>
                     exists k :: i < k < j && ReallyBack(log[k], name, size)
  }

  /** A cluster size that could not be read ends a restart before it begins, but an update goes on with 0. */
  lemma UnreadSizeIsRecordedAsZero(env: Env, s: Step)
    requires s.u.under != IsTrue && env(s.w.pos).health == "green" && !env(s.w.pos + 1).ok
    ensures !BeginCycle(env, s, true).go && BeginCycle(env, s, true).u == s.u
    ensures BeginCycle(env, s, false).n.clusterSize == 0
  {
    hide Grows, SetPartition;
    var (green, w1) := Health(env, s.w, s.n.name);
    var (ok, size, w2) := NodeCount(env, w1);
    var n2 := s.n.(clusterSize := size);
    var (counted, replicas, w3) := ReplicaCount(env, n2, w2);
    SetPartitionGrows(env, n2, w3, replicas);
  }

  lemma SpacedByReadings(log: seq<Event>, from: nat, name: string, size: int)
    requires Spaced(log, from, name, size) && size > 0
    ensures ReallySpaced(log, from, name, size)
  {
    forall i, j | from <= i < j < |log| && Lowering(log[i], name) && Lowering(log[j], name)
      ensures exists k :: i < k < j && ReallyBack(log[k], name, size)
    {
      var k :| i < k < j && SeenBack(log[k], name, size);
      assert ReallyBack(log[k], name, size);
    }
  }

  /** Nothing fails but the size reads inside the pollers, and these always do. */
  function BlindPolls(): Env {
    (p: nat) => Answer(true, true, true, "green", 0, [FailedRead], 0, Some("1"), "", "", [])
  }

  /** The events of an update call that sees nothing. */
  function BlindEvents(name: string, P: int): seq<Event> {
    [Rejoin(name, FailedRead, true), Partition(name, P, P - 1), Leave(name, false)]
  }

  /** With no size recorded, an update call that sees nothing lowers the partition by one. */
  lemma BlindUpdateLowers(s: Step)
    requires InCycle(s) && s.go && s.u.phase == NodeRestarting && ServerPartition(s) > 0 && s.n.clusterSize <= 0
    ensures var t, P := Call(BlindPolls(), s, true), ServerPartition(s);
            && InCycle(t) && t.u == s.u && ServerPartition(t) == P - 1
            && t.n.name == s.n.name && t.n.clusterSize == s.n.clusterSize
            && t.w.log == s.w.log + BlindEvents(s.n.name, P)
  {
    hide Grows;
    var env := BlindPolls();
    var P := ServerPartition(s);
    var (ok, ordinal, w1) := ReadPartition(env, s.n, s.w);
    assert ok && ordinal == P;
    var a := s.(w := w1);
    assert FirstAtLeast([FailedRead], s.n.clusterSize) == Some(FailedRead);
    assert FirstBelow([FailedRead], s.n.clusterSize) == None by {
      FailedReadEndsLeavePoll([FailedRead], s.n.clusterSize);
    }
    hide FirstAtLeast, FirstBelow;
    var t := One(env, a, P, true);
    assert !t.go;
    assert Loop(env, a, P, true) == t;
  }

  lemma BlindLowerings(log: seq<Event>, name: string, P: int, size: int)
    ensures !ReallySpaced(log + BlindEvents(name, P) + BlindEvents(name, P - 1), |log|, name, size)
  {
    var n, l := |log|, log + BlindEvents(name, P) + BlindEvents(name, P - 1);
    assert l[n + 1] == Partition(name, P, P - 1) && l[n + 4] == Partition(name, P - 1, P - 2);
    assert Lowering(l[n + 1], name) && Lowering(l[n + 4], name);
    assert l[n + 2] == Leave(name, false) && l[n + 3] == Rejoin(name, FailedRead, true);
  }

  /** Two such calls make a cycle in which nothing was seen. */
  lemma BlindCycle(s: Step) returns (starts: seq<Step>)
    requires InCycle(s) && s.go && s.u.phase == NodeRestarting && ServerPartition(s) >= 2 && s.n.clusterSize <= 0
    ensures CycleOfCalls(BlindPolls(), starts, [true, true]) && starts[0] == s
    ensures !ReallySpaced(Call(BlindPolls(), starts[1], true).w.log, |s.w.log|, s.n.name, s.n.clusterSize)
  {
    hide Call, ReallySpaced, BlindPolls;
    var env, P := BlindPolls(), ServerPartition(s);
    BlindUpdateLowers(s);
    var t := Call(env, s, true);
    var s' := t.(go := true);
    assert Resumes(t, s');
    BlindUpdateLowers(s');
    BlindLowerings(s.w.log, s.n.name, P, s.n.clusterSize);
    starts := [s, s'];
  }

  /**
   * So the polls between two lowerings really saw the pods back, in every cycle from a given start,
   * if and only if that start has a size recorded; the start needs two pods still to go.
   */
  lemma RejoinsAreRealIffSizeRecorded(s: Step)
    requires InCycle(s) && s.go && s.u.phase == NodeRestarting && ServerPartition(s) >= 2
    ensures s.n.clusterSize > 0 <==>
            forall env: Env, starts, updating :: CycleOfCalls(env, starts, updating) && starts[0] == s ==>
              ReallySpaced(Call(env, starts[|starts| - 1], updating[|updating| - 1]).w.log, |s.w.log|, s.n.name, s.n.clusterSize)
  {
    hide Call, Spaced, ReallySpaced, BlindPolls;
    var size, name := s.n.clusterSize, s.n.name;
    if size > 0 {
      forall env: Env, starts, updating | CycleOfCalls(env, starts, updating) && starts[0] == s
        ensures ReallySpaced(Call(env, starts[|starts| - 1], updating[|updating| - 1]).w.log, |s.w.log|, name, size)
      {
        PartitionLowersOneRejoinAtATime(env, starts, updating);
        SpacedByReadings(Call(env, starts[|starts| - 1], updating[|updating| - 1]).w.log, |s.w.log|, name, size);
      }
    } else {
      var starts := BlindCycle(s);
      assert CycleOfCalls(BlindPolls(), starts, [true, true]);
    }
  }

  /**
   * Restart completeness: with the partition at R when the cycle began, after any number of
   * timed-out and resumed restarts every ordinal from the server's partition up to R was
   * deleted and seen to leave; and a finished cycle did so for every ordinal below R.
   */
  lemma {:induction false} RestartDeletesEveryOrdinal(env: Env, starts: seq<Step>, updating: seq<bool>, R: int)
    requires CycleOfCalls(env, starts, updating)
    requires forall i :: 0 <= i < |updating| ==> !updating[i]
    requires ServerPartition(starts[0]) == R && NeverRecovering(starts) && R >= 0
    ensures var first, last := starts[0], |starts| - 1;
            var t := Call(env, starts[last], false);
            && first.n.name in t.w.objects && t.n.name == first.n.name
            && var p := t.w.objects[first.n.name].partition;
               && AllCycled(t.w.log, |first.w.log|, first.n.name, if p < 0 then 0 else p, R)
               && (t.u.under != IsTrue ==> AllCycled(t.w.log, |first.w.log|, first.n.name, 0, R))
               && t.u.phase != RecoveringData
               && |first.w.log| <= |t.w.log|
    decreases |starts|
  {
    hide Call, CycledAt, Cycled;
    var last := |starts| - 1;
    var s := starts[last];
    var from := |starts[0].w.log|;
    CallTame(env, s, false);
    if last > 0 {
      RestartDeletesEveryOrdinal(env, starts[..last], updating[..last], R);
      var t := Call(env, starts[last - 1], updating[last - 1]);
      assert Resumes(t, s);
      var p := ServerPartition(s);
      AllCycledExtends(t.w.log, s.w.log, from, s.n.name, if p < 0 then 0 else p, R);
    }
    RestartCycles(env, s, from, R);
    NeverStopsRecovering(env, s, false);
  }

  lemma NeverStopsRecovering(env: Env, s: Step, updating: bool)
    requires InCycle(s) && s.u.phase != RecoveringData
    ensures Call(env, s, updating).u.phase != RecoveringData
  {
    hide ExecuteUpdate;
    var b := FirstBlock(env, s, updating);
    if b.go && b.u.phase == NodeRestarting {
      var (ok, ordinal, w1) := ReadPartition(env, b.n, b.w);
      if ok {
        LoopTame(env, b.(w := w1), ordinal, updating);
      }
    }
  }

  // ----- what the initial partition write is worth -----

  /** The ordinals deleted, in order. */
  ghost function Deletions(log: seq<Event>, name: string): seq<int> {
    if log == [] then []
    else
      var e := log[|log| - 1];
      Deletions(log[..|log| - 1], name) + if e.DeletePod? && e.node == name && e.ok then [e.ordinal] else []
  }

  ghost function Down(index: int): seq<int>
    decreases index
  {
    if index <= 0 then [] else [index - 1] + Down(index - 1)
  }

  lemma {:induction false} DownElements(index: int, o: int)
    ensures o in Down(index) <==> 0 <= o < index
    decreases index
  {
    if index > 0 {
      DownElements(index - 1, o);
    }
  }

  lemma DeletionsStep(log: seq<Event>, e: Event, name: string)
    ensures Deletions(log + [e], name)
         == Deletions(log, name) + if e.DeletePod? && e.node == name && e.ok then [e.ordinal] else []
  {
    assert (log + [e])[..|log|] == log;
  }

  lemma RestartOneDeletes(env: Env, s: Step, index: int)
    requires InCycle(s) && s.go && RestartOne(env, s, index).go
    ensures Deletions(RestartOne(env, s, index).w.log, s.n.name) == Deletions(s.w.log, s.n.name) + [index - 1]
  {
    hide Deletions, SetPartition, FirstBelow, FirstAtLeast, Grows;
    var name := s.n.name;
    var (back, w1) := RejoinPoll(env, s.w, name, s.n.clusterSize);
    var (deleted, w2) := DeletePodCall(env, w1, name, index - 1);
    var (left, w3) := LeavePoll(env, w2, name, s.n.clusterSize);
    DeletionsStep(s.w.log, w1.log[|s.w.log|], name);
    DeletionsStep(w1.log, w2.log[|w1.log|], name);
    DeletionsStep(w2.log, w3.log[|w2.log|], name);
    SetPartitionEffect(env, s.n, w3, index - 1);
    var w4 := SetPartition(env, s.n, w3, index - 1).2;
    if w4.log != w3.log {
      DeletionsStep(w3.log, w4.log[|w3.log|], name);
    }
  }

  lemma {:induction false} LoopDeletes(env: Env, s: Step, index: int)
    requires InCycle(s) && ServerPartition(s) >= index && s.go && Loop(env, s, index, false).go
    ensures Deletions(Loop(env, s, index, false).w.log, s.n.name) == Deletions(s.w.log, s.n.name) + Down(index)
    decreases index
  {
    hide RestartOne, OneStep, OneEvents, Grows, Deletions, CycledAt;
    if index > 0 {
      var t := RestartOne(env, s, index);
      assert t.go;
      assert InCycle(t) && ServerPartition(t) >= index - 1 by {
        RestartOneLog(env, s, index);
      }
      assert t.n.name == s.n.name by {
        OneTame(env, s, index, false);
      }
      RestartOneDeletes(env, s, index);
      LoopDeletes(env, t, index - 1);
      assert Down(index) == [index - 1] + Down(index - 1);
    }
  }

  /** A restart that runs through in one call deletes the ordinals below the server's partition, each once, from the top. */
  lemma CompletedRestartDeletes(env: Env, s: Step)
    requires InCycle(s) && s.go && s.u.phase != RecoveringData && Call(env, s, false).u.under != IsTrue
    ensures Deletions(Call(env, s, false).w.log, s.n.name) == Deletions(s.w.log, s.n.name) + Down(ServerPartition(s))
    ensures forall o :: o in Down(ServerPartition(s)) <==> 0 <= o < ServerPartition(s)
  {
    forall o {
      DownElements(ServerPartition(s), o);
    }
    hide Loop, Deletions, Grows, FirstAtLeast;
    var b := FirstBlock(env, s, false);
    var (ok, ordinal, w1) := ReadPartition(env, b.n, b.w);
    assert ok;
    var a := b.(w := w1);
    var l := Loop(env, a, ordinal, false);
    LoopTame(env, a, ordinal, false);
    assert l.go;
    LoopDeletes(env, a, ordinal);
    var name := s.n.name;
    var c := AllBack(env, l);
    DeletionsStep(l.w.log, c.w.log[|l.w.log|], name);
    DeletionsStep(c.w.log, Clear(name), name);
  }

  // ----- which ordinals a cycle can reach -----

  /** In the new part of the log only ordinals below P are cycled; it does not start by completing an older deletion. */
  ghost predicate Reaches(log: seq<Event>, log': seq<Event>, name: string, P: int) {
    && log <= log'
    && (|log| < |log'| ==> log'[|log|] != Leave(name, true))
    && forall o, i :: |log| <= i && CycledAt(log', name, o, i) ==> o < P
  }

  lemma ReachesTransitive(a: seq<Event>, b: seq<Event>, c: seq<Event>, name: string, P: int)
    requires Reaches(a, b, name, P) && Reaches(b, c, name, P)
    ensures Reaches(a, c, name, P)
  {
    forall o, i | |a| <= i && CycledAt(c, name, o, i) ensures o < P {
      if i < |b| - 1 {
        assert c[i] == b[i] && c[i + 1] == b[i + 1];
        assert CycledAt(b, name, o, i);
      }
    }
  }

  lemma OneEventReaches(log: seq<Event>, e: Event, name: string, P: int)
    requires e != Leave(name, true)
    ensures Reaches(log, log + [e], name, P)
  {
  }

  lemma RestartOneReaches(env: Env, s: Step, index: int, P: int)
    requires InCycle(s) && s.go && index <= P
    ensures Reaches(s.w.log, RestartOne(env, s, index).w.log, s.n.name, P)
  {
    hide SetPartition, FirstAtLeast, FirstBelow, Grows;
    var t, name := RestartOne(env, s, index), s.n.name;
    var (back, w1) := RejoinPoll(env, s.w, name, s.n.clusterSize);
    if back {
      var (deleted, w2) := DeletePodCall(env, w1, name, index - 1);
      if deleted {
        var (left, w3) := LeavePoll(env, w2, name, s.n.clusterSize);
        assert w3.log == s.w.log + [w1.log[|s.w.log|], DeletePod(name, index - 1, true), Leave(name, left)];
        if left {
          SetPartitionEffect(env, s.n, w3, index - 1);
        }
      }
    }
  }

  lemma {:induction false} LoopReaches(env: Env, s: Step, index: int, P: int)
    requires InCycle(s) && index <= P
    ensures Reaches(s.w.log, Loop(env, s, index, false).w.log, s.n.name, P)
    decreases index
  {
    hide RestartOne, Reaches;
    if s.go && index > 0 {
      var t := RestartOne(env, s, index);
      assert t == One(env, s, index, false);
      RestartOneReaches(env, s, index, P);
      assert InCycle(t) by {
        RestartOneLog(env, s, index);
      }
      assert t.n.name == s.n.name by {
        OneTame(env, s, index, false);
      }
      LoopReaches(env, t, index - 1, P);
      ReachesTransitive(s.w.log, t.w.log, Loop(env, t, index - 1, false).w.log, s.n.name, P);
    } else {
      assert Reaches(s.w.log, s.w.log, s.n.name, P) by {
        ReachesReflexive(s.w.log, s.n.name, P);
      }
    }
  }

  lemma ReachesReflexive(log: seq<Event>, name: string, P: int)
    ensures Reaches(log, log, name, P)
  {
  }

  /** A restart call in a cycle cycles only ordinals below the server's partition. */
  lemma RestartReaches(env: Env, s: Step, P: int)
    requires InCycle(s) && ServerPartition(s) <= P
    ensures Reaches(s.w.log, Call(env, s, false).w.log, s.n.name, P)
  {
    hide Loop, Reaches, FirstAtLeast, Grows;
    var name := s.n.name;
    var b := FirstBlock(env, s, false);
    var c := Roll(env, b, false);
    ReachesReflexive(s.w.log, name, P);
    if b.go && b.u.phase == NodeRestarting {
      var (ok, ordinal, w1) := ReadPartition(env, b.n, b.w);
      if ok {
        var a := b.(w := w1);
        var l := Loop(env, a, ordinal, false);
        LoopReaches(env, a, ordinal, P);
        LoopTame(env, a, ordinal, false);
        if l.go {
          var (back, w2) := RejoinPoll(env, l.w, name, l.n.clusterSize);
          OneEventReaches(l.w.log, w2.log[|l.w.log|], name, P);
          ReachesTransitive(s.w.log, l.w.log, w2.log, name, P);
          assert c.w.log == w2.log;
        }
      }
    }
    assert Reaches(s.w.log, c.w.log, name, P);
    OneEventReaches(c.w.log, Clear(name), name, P);
    ReachesTransitive(s.w.log, c.w.log, c.w.log + [Clear(name)], name, P);
  }

  lemma CalmReaches(w: World, w': World, name: string, P: int)
    requires Calm(w, w', name)
    ensures Reaches(w.log, w'.log, name, P)
  {
  }

  /** Over a whole cycle of restarts only ordinals below the partition it started with are cycled. */
  lemma {:induction false} CycleReaches(env: Env, starts: seq<Step>, updating: seq<bool>)
    requires CycleOfCalls(env, starts, updating)
    requires forall i :: 0 <= i < |updating| ==> !updating[i]
    ensures var first, last := starts[0], |starts| - 1;
            && starts[last].n.name == first.n.name
            && Reaches(first.w.log, Call(env, starts[last], false).w.log, first.n.name, ServerPartition(first))
    decreases |starts|
  {
    hide Call, Reaches, Calm, Spaced;
    var last := |starts| - 1;
    var s, first := starts[last], starts[0];
    var P := ServerPartition(first);
    if last == 0 {
      RestartReaches(env, s, P);
    } else {
      CycleReaches(env, starts[..last], updating[..last]);
      PartitionLowersOneRejoinAtATime(env, starts[..last], updating[..last]);
      var t := Call(env, starts[last - 1], updating[last - 1]);
      assert Resumes(t, s);
      CalmReaches(t.w, s.w, s.n.name, P);
      ReachesTransitive(first.w.log, t.w.log, s.w.log, s.n.name, P);
      assert ServerPartition(s) <= P by {
        CalmPartition(t, s);
      }
      RestartReaches(env, s, P);
      ReachesTransitive(first.w.log, s.w.log, Call(env, s, false).w.log, s.n.name, P);
    }
  }

  lemma CalmPartition(t: Step, s: Step)
    requires Resumes(t, s)
    ensures ServerPartition(s) == t.w.objects[t.n.name].partition
  {
  }

  /**
   * A finished cycle of restarts, however often it was cut short and resumed, has deleted and seen
   * leave all of the ordinals below R if and only if the server's partition was at least R when
   * the cycle began.
   */
  lemma StartingPartitionDecides(env: Env, starts: seq<Step>, updating: seq<bool>, R: nat)
    requires CycleOfCalls(env, starts, updating)
    requires forall i :: 0 <= i < |updating| ==> !updating[i]
    requires NeverRecovering(starts) && Call(env, starts[|starts| - 1], false).u.under != IsTrue
    ensures var first, t := starts[0], Call(env, starts[|starts| - 1], false);
            AllCycled(t.w.log, |first.w.log|, first.n.name, 0, R) <==> R <= ServerPartition(first) || R == 0
  {
    hide Call, Resumes, CycledAt;
    var first, t := starts[0], Call(env, starts[|starts| - 1], false);
    var P := ServerPartition(first);
    if P >= 0 {
      RestartDeletesEveryOrdinal(env, starts, updating, P);
    }
    if R > 0 && R > P {
      CycleReaches(env, starts, updating);
      assert !Cycled(t.w.log, |first.w.log|, first.n.name, R - 1);
    }
  }

  /** The write of the initial partition, in the call that begins at w, takes effect: it is read, and then written. */
  predicate InitialWriteTakesEffect(env: Env, w: World) {
    env(w.pos + 3).ok && (env(w.pos + 4).ok || env(w.pos + 4).applied)
  }

  /**
   * The write of the initial partition is not checked.  A cycle of restarts that begins with the
   * call in s, for the replica count R read there, restarts all R pods by the time it finishes if and
   * only if that write takes effect or the partition from before was already at least R.
   */
  lemma UncheckedPartitionDecides(env: Env, s: Step, starts: seq<Step>, updating: seq<bool>)
    requires s.go && s.u.under != IsTrue && s.n.name in s.w.objects
    requires BeginCycle(env, s, true).go
    requires NeverRecovering(starts) && CycleOfCalls(env, starts, updating) && starts[0] == BeginCycle(env, s, true)
    requires forall i :: 0 <= i < |updating| ==> !updating[i]
    requires Call(env, starts[|starts| - 1], false).u.under != IsTrue
    ensures var R, t := env(s.w.pos + 2).replicas, Call(env, starts[|starts| - 1], false);
            AllCycled(t.w.log, |starts[0].w.log|, s.n.name, 0, R) <==>
              InitialWriteTakesEffect(env, s.w) || R <= s.w.objects[s.n.name].partition || R <= 0
  {
    hide Call, Resumes, AllCycled, SetPartition, BeginCycle;
    var R := env(s.w.pos + 2).replicas;
    BeginSetsPartition(env, s, true);
    if R >= 0 {
      StartingPartitionDecides(env, starts, updating, R);
    } else {
      assert AllCycled(Call(env, starts[|starts| - 1], false).w.log, |starts[0].w.log|, s.n.name, 0, R) by {
        NothingToCycle(Call(env, starts[|starts| - 1], false).w.log, |starts[0].w.log|, s.n.name, R);
      }
    }
  }

  lemma NothingToCycle(log: seq<Event>, from: nat, name: string, R: int)
    requires R <= 0
    ensures AllCycled(log, from, name, 0, R)
  {
  }

  // ----- a failing input -----

  /** Everything succeeds and every poll sees three nodes, except that the fifth call, a write, is lost. */
  function LosingFifthCall(R: nat): Env {
    (p: nat) => Answer(p != 4, false, true, "green", 3, [Size(3)], R, Some("1"), "", "", [])
  }

  function FreshNode(): NodeState {
    NodeState(StatefulSet, "es", Object(false, None, BLANK_SPEC), "", "", "", 0)
  }

  function FreshWorld(): World {
    World(map["es" := BLANK_SPEC], true, [], 0, true, true, true, true)
  }

  /** With partition 0 and the initial write lost, a restart of R > 0 pods finishes without deleting any. */
  lemma LostWriteRestartsNothing(R: nat)
    requires R > 0
    ensures var s := Step(FreshNode(), NEW_UPGRADE, FreshWorld(), true);
            var t := Call(LosingFifthCall(R), s, false);
            && t.u == NEW_UPGRADE.(phase := ControllerUpdated)
            && (forall i :: 0 <= i < |t.w.log| ==> !t.w.log[i].DeletePod?)
            && !AllCycled(t.w.log, 0, "es", 0, R)
  {
    hide Grows;
    var env := LosingFifthCall(R);
    var s := Step(FreshNode(), NEW_UPGRADE, FreshWorld(), true);
    var b := BeginCycle(env, s, true);
    assert b.u.under == IsTrue && b.w.pos == 5 && b.n.clusterSize == 3 && b.w.objects["es"].partition == 0;
    var t := Call(env, s, false);
    assert !Cycled(t.w.log, 0, "es", 0);
  }
}
