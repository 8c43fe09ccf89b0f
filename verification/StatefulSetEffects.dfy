/**
 * What one call of a StatefulSet's update or restart, and creating one, do to the server, to the
 * hashes and in which order.
 */
module StatefulSetEffects {
  import opened Base
  import opened Drift
  import opened Environment
  import opened Workload
  import opened StatefulSetUpgrade
  import opened PartitionRollout
  import opened CleanCalls
  import CallEffects

  // ----- the end of a call -----

  /** A log that ends in a poll that saw the cluster back at a size, and the clearing of the upgrade. */
  ghost predicate EndsBack(log: seq<Event>, name: string, size: int) {
    |log| >= 2 && log[|log| - 1] == Clear(name) && SeenBack(log[|log| - 2], name, size)
  }

  lemma RollEnds(env: Env, s: Step, updating: bool)
    requires s.u.phase != RecoveringData
    ensures var t := Roll(env, s, updating);
            && t.n.name == s.n.name && t.n.clusterSize == s.n.clusterSize && s.w.log <= t.w.log
            && t.u == s.u.(phase := t.u.phase)
            && (t.u.phase == RecoveringData ==>
                  && t.go && |s.w.log| < |t.w.log|
                  && SeenBack(t.w.log[|t.w.log| - 1], s.n.name, s.n.clusterSize))
            && (t.u.phase != RecoveringData ==> t.u == s.u)
  {
    hide Grows, FirstAtLeast;
    if s.go && s.u.phase == NodeRestarting {
      var (ok, ordinal, w1) := ReadPartition(env, s.n, s.w);
      if ok {
        var a := s.(w := w1);
        LoopTame(env, a, ordinal, updating);
        LoopKeepsSize(env, a, ordinal, updating);
        var l := Loop(env, a, ordinal, updating);
        hide Loop;
        if l.go {
          var (back, w2) := RejoinPoll(env, l.w, l.n.name, l.n.clusterSize);
          if back {
            RefreshHashesGrows(env, l.n, w2);
          }
        }
      }
    }
  }

  lemma {:induction false} LoopKeepsSize(env: Env, s: Step, index: int, updating: bool)
    ensures var t := Loop(env, s, index, updating);
            t.n.clusterSize == s.n.clusterSize && t.n.name == s.n.name && t.u == s.u && s.w.log <= t.w.log
    decreases index
  {
    hide One;
    if s.go && index > 0 {
      OneKeepsSize(env, s, index, updating);
      LoopKeepsSize(env, One(env, s, index, updating), index - 1, updating);
    }
  }

  lemma OneKeepsSize(env: Env, s: Step, index: int, updating: bool)
    ensures var t := One(env, s, index, updating);
            t.n.clusterSize == s.n.clusterSize && t.n.name == s.n.name && t.u == s.u && s.w.log <= t.w.log
  {
    OneTame(env, s, index, updating);
    assert s.w.log <= One(env, s, index, updating).w.log;
    hide SetPartition, Grows, FirstAtLeast, FirstBelow;
    var (back, w1) := RejoinPoll(env, s.w, s.n.name, s.n.clusterSize);
    SetPartitionGrows(env, s.n, w1, index - 1);
    var (deleted, w2) := DeletePodCall(env, w1, s.n.name, index - 1);
    var (left, w3) := LeavePoll(env, w2, s.n.name, s.n.clusterSize);
    SetPartitionGrows(env, s.n, w3, index - 1);
  }

  lemma FirstBlockShape(env: Env, s: Step, updating: bool)
    ensures var t := FirstBlock(env, s, updating);
            && t.n.name == s.n.name && t.n.clusterSize == s.n.clusterSize && t.u == s.u.(phase := t.u.phase) && t.w.log == s.w.log
            && (t.go ==> s.go && !AtStart(t.u.phase)) && (t.u.phase == RecoveringData <==> s.u.phase == RecoveringData)
            && (!t.go ==> t.u == s.u)
  {
    if s.go && AtStart(s.u.phase) && updating {
      ExecuteUpdateGrows(env, s.n, s.w);
      CallEffects.ExecuteUpdateKeepsNode(env, s.n, s.w);
    }
    hide ExecuteUpdate, Grows;
  }

  lemma BeginShape(env: Env, s: Step, sizeRequired: bool)
    ensures var t := BeginCycle(env, s, sizeRequired);
            && t.n.name == s.n.name && t.u.phase == s.u.phase && (t.go ==> s.go || s.u.under != IsTrue)
            && (s.go ==> t.u == if t.go then s.u.(under := IsTrue) else s.u)
            && s.w.log <= t.w.log && (s.u.under == IsTrue ==> t == s)
            && (s.u.under != IsTrue && t.go ==> t.n.clusterSize == if env(s.w.pos + 1).ok then env(s.w.pos + 1).size else 0)
  {
    BeginTame(env, s, sizeRequired);
    assert s.w.log <= BeginCycle(env, s, sizeRequired).w.log;
    hide SetPartition, Grows;
    if s.u.under != IsTrue {
      var (green, w1) := Health(env, s.w, s.n.name);
      var (ok, size, w2) := NodeCount(env, w1);
      var n2 := s.n.(clusterSize := size);
      var (counted, replicas, w3) := ReplicaCount(env, n2, w2);
      SetPartitionGrows(env, n2, w3, replicas);
    }
  }

  /**
   * A call of update or restart that began before recovery clears the upgrade exactly if it runs to
   * its end, and right before that a poll saw the cluster back at the recorded size; a call that
   * begins a cycle records the size that it read, or 0.
   */
  lemma ClearsOnlyWhenBack(env: Env, s: Step, updating: bool)
    requires s.go && s.u.phase != RecoveringData
    ensures var t := Call(env, s, updating);
            && (t.go ==> |s.w.log| + 2 <= |t.w.log| && EndsBack(t.w.log, s.n.name, t.n.clusterSize)
                         && t.u == s.u.(under := Blank, phase := ControllerUpdated))
            && (s.u.under == IsTrue ==> t.n.clusterSize == s.n.clusterSize && (t.go <==> t.u.under != IsTrue))
            && (s.u.under != IsTrue && (t.go || t.u.under == IsTrue) ==>
                  t.n.clusterSize == if env(s.w.pos + 1).ok then env(s.w.pos + 1).size else 0)
  {
    var a := BeginCycle(env, s, !updating);
    var b := FirstBlock(env, a, updating);
    BeginShape(env, s, !updating);
    FirstBlockShape(env, a, updating);
    RollEnds(env, b, updating);
    FinishEnds(Roll(env, b, updating));
    hide BeginCycle, FirstBlock, Roll, Finish, EndsBack;
  }

  lemma FinishEnds(s: Step)
    ensures var t := Finish(s);
            && t.n == s.n && (t.u.phase == RecoveringData ==> !s.go)
            && (if s.go && s.u.phase == RecoveringData
                then t.go && |t.w.log| == |s.w.log| + 1 && t.u == s.u.(under := Blank, phase := ControllerUpdated)
                else t == s)
            && (s.go && s.u.phase == RecoveringData && s.w.log != []
                && SeenBack(s.w.log[|s.w.log| - 1], s.n.name, s.n.clusterSize) ==>
                  EndsBack(t.w.log, s.n.name, s.n.clusterSize))
  {
  }

  /** So a cycle of calls that is over ended so. */
  lemma FinishedCycleSawAllBack(env: Env, starts: seq<Step>, updating: seq<bool>)
    requires CycleOfCalls(env, starts, updating) && NeverRecovering(starts) && starts[|starts| - 1].go
    requires Call(env, starts[|starts| - 1], updating[|updating| - 1]).u.under != IsTrue
    ensures var last := |starts| - 1;
            var t := Call(env, starts[last], updating[last]);
            && EndsBack(t.w.log, starts[0].n.name, starts[0].n.clusterSize) && |starts[last].w.log| + 2 <= |t.w.log|
  {
    var last := |starts| - 1;
    SameNode(env, starts, updating, last);
    assert InCycle(starts[last]) by {
      if last > 0 {
        assert Resumes(Call(env, starts[last - 1], updating[last - 1]), starts[last]);
      }
    }
    hide Call, Resumes;
    ClearsOnlyWhenBack(env, starts[last], updating[last]);
  }

  lemma {:induction false} SameNode(env: Env, starts: seq<Step>, updating: seq<bool>, i: nat)
    requires CycleOfCalls(env, starts, updating) && NeverRecovering(starts) && i < |starts|
    ensures starts[i].n.name == starts[0].n.name && starts[i].n.clusterSize == starts[0].n.clusterSize
  {
    if i > 0 {
      SameNode(env, starts, updating, i - 1);
      var s := starts[i - 1];
      assert InCycle(s) by {
        if i > 1 {
          assert Resumes(Call(env, starts[i - 2], updating[i - 2]), s);
        }
      }
      assert Resumes(Call(env, s, updating[i - 1]), starts[i]);
      CallTame(env, s, updating[i - 1]);
      CallSpacedSize(env, s, updating[i - 1]);
      hide Call;
    }
  }

  lemma CallSpacedSize(env: Env, s: Step, updating: bool)
    requires s.u.under == IsTrue && s.u.phase != RecoveringData
    ensures Call(env, s, updating).n.clusterSize == s.n.clusterSize
  {
    if s.go {
      ClearsOnlyWhenBack(env, s, updating);
    }
    hide ExecuteUpdate;
  }

  // ----- update waits for each pod to go -----

  /** Every lowering since from is followed right away by a poll for the pod to leave; if strictly, one that succeeded. */
  ghost predicate Awaited(log: seq<Event>, from: nat, name: string, strictly: bool) {
    forall i :: from <= i < |log| && Lowering(log[i], name) ==>
      && i + 1 < |log| && log[i + 1].Leave? && log[i + 1].node == name
      && (log[i + 1].ok || (!strictly && i + 2 == |log|))
  }

  lemma AwaitedExtends(log: seq<Event>, log': seq<Event>, from: nat, name: string)
    requires Awaited(log, from, name, true) && log <= log' && from <= |log|
    requires forall i :: |log| <= i < |log'| ==> !log'[i].Partition?
    ensures Awaited(log', from, name, true)
  {
    assert forall i :: 0 <= i < |log| ==> log'[i] == log[i];
  }

  lemma UpdateOneAwaits(env: Env, s: Step, index: int, from: nat)
    requires s.go && s.n.name in s.w.objects && Awaited(s.w.log, from, s.n.name, true) && from <= |s.w.log|
    ensures var t := One(env, s, index, true);
            && t.n.name == s.n.name && s.n.name in t.w.objects && s.w.log <= t.w.log
            && Awaited(t.w.log, from, s.n.name, t.go)
  {
    hide SetPartition, Grows, FirstAtLeast, FirstBelow;
    var (back, w1) := RejoinPoll(env, s.w, s.n.name, s.n.clusterSize);
    AwaitedExtends(s.w.log, w1.log, from, s.n.name);
    SetPartitionEffect(env, s.n, w1, index - 1);
    SetPartitionGrows(env, s.n, w1, index - 1);
    if back {
      var (_, n2, w2) := SetPartition(env, s.n, w1, index - 1);
      var (left, w3) := LeavePoll(env, w2, n2.name, n2.clusterSize);
      assert w3.log == w2.log + [Leave(s.n.name, left)];
    }
  }

  lemma {:induction false} UpdateLoopAwaits(env: Env, s: Step, index: int, from: nat)
    requires s.go && s.n.name in s.w.objects && Awaited(s.w.log, from, s.n.name, true) && from <= |s.w.log|
    ensures var t := Loop(env, s, index, true); Awaited(t.w.log, from, s.n.name, t.go) && |s.w.log| <= |t.w.log|
    decreases index
  {
    hide One, Awaited;
    if index > 0 {
      UpdateOneAwaits(env, s, index, from);
      var t := One(env, s, index, true);
      if t.go {
        UpdateLoopAwaits(env, t, index - 1, from);
      }
    }
  }

  /**
   * An update in a cycle polls for a pod to leave right after each lowering of the partition, and goes
   * on only if it did; a call that runs to its end saw one leave after every lowering.
   */
  lemma UpdateAwaitsEachPod(env: Env, s: Step)
    requires InCycle(s) && s.go && s.u.phase != RecoveringData
    ensures var t := Call(env, s, true); Awaited(t.w.log, |s.w.log|, s.n.name, t.go)
  {
    var name, from := s.n.name, |s.w.log|;
    var b := FirstBlock(env, s, true);
    FirstBlockShape(env, s, true);
    hide FirstBlock;
    if b.go {
      var (ok, ordinal, w1) := ReadPartition(env, b.n, b.w);
      if ok {
        var a := b.(w := w1);
        UpdateLoopAwaits(env, a, ordinal, from);
        hide Loop, Awaited;
        var l := Loop(env, a, ordinal, true);
        LoopKeepsSize(env, a, ordinal, true);
        if l.go {
          AllBackAwaits(env, l, from);
        }
      }
    }
  }

  lemma AllBackAwaits(env: Env, s: Step, from: nat)
    requires s.go && Awaited(s.w.log, from, s.n.name, true) && from <= |s.w.log|
    ensures Awaited(Finish(AllBack(env, s)).w.log, from, s.n.name, true)
  {
    hide FirstAtLeast, Grows, Awaited;
    AwaitedExtends(s.w.log, Finish(AllBack(env, s)).w.log, from, s.n.name);
  }

  // ----- update writes the spec -----

  lemma LoopFreezesSpec(env: Env, s: Step, index: int, updating: bool, desired: Spec)
    requires s.n.name in s.w.objects
    ensures var t := Loop(env, s, index, updating);
            t.n.name == s.n.name && s.n.name in t.w.objects
            && (Agrees(t.w.objects[s.n.name], desired) <==> Agrees(s.w.objects[s.n.name], desired))
    decreases index
  {
    hide One, Agrees;
    if s.go && index > 0 {
      OneFreezesSpec(env, s, index, updating, desired);
      LoopFreezesSpec(env, One(env, s, index, updating), index - 1, updating, desired);
    }
  }

  lemma OneFreezesSpec(env: Env, s: Step, index: int, updating: bool, desired: Spec)
    requires s.n.name in s.w.objects
    ensures var t := One(env, s, index, updating);
            t.n.name == s.n.name && s.n.name in t.w.objects
            && (Agrees(t.w.objects[s.n.name], desired) <==> Agrees(s.w.objects[s.n.name], desired))
  {
    hide SetPartition, Agrees, Grows, FirstAtLeast, FirstBelow;
    var (back, w1) := RejoinPoll(env, s.w, s.n.name, s.n.clusterSize);
    SetPartitionFreezesSpec(env, s.n, w1, index - 1, desired);
    var (deleted, w2) := DeletePodCall(env, w1, s.n.name, index - 1);
    var (left, w3) := LeavePoll(env, w2, s.n.name, s.n.clusterSize);
    SetPartitionFreezesSpec(env, s.n, w3, index - 1, desired);
    assert w3.objects == s.w.objects;
  }

  lemma SetPartitionFreezesSpec(env: Env, n: NodeState, w: World, partition: int, desired: Spec)
    requires n.name in w.objects
    ensures var (_, n', w') := SetPartition(env, n, w, partition);
            && n'.name == n.name && n.name in w'.objects
            && (Agrees(w'.objects[n.name], desired) <==> Agrees(w.objects[n.name], desired))
  {
    SetPartitionOnly(env, n, w, partition);
    hide SetPartition, Agrees;
    var w' := SetPartition(env, n, w, partition).2;
    SameComparedAgrees(w'.objects[n.name], w.objects[n.name], desired);
  }

  lemma SetPartitionOnly(env: Env, n: NodeState, w: World, partition: int)
    requires n.name in w.objects
    ensures var (_, n', w') := SetPartition(env, n, w, partition);
            && n'.name == n.name && n.name in w'.objects
            && w'.objects[n.name] == w.objects[n.name].(partition := w'.objects[n.name].partition)
  {
    hide Grows;
  }

  /**
   * An update in a cycle that passes its first block leaves the server in agreement with what node.self
   * then held, on the compared fields, exactly if the check could read the workload, or it agreed
   * before.  CycleBegins says what a call that begins a cycle has in node.self by then.
   */
  lemma UpdateAgreesIffReadable(env: Env, s: Step)
    requires InCycle(s) && s.go && AtStart(s.u.phase)
    requires var t := Call(env, s, true); t.u.phase == NodeRestarting || t.go
    ensures var t, name := Call(env, s, true), s.n.name;
            && name in t.w.objects
            && (Agrees(t.w.objects[name], s.n.self.spec) <==>
                  env(s.w.pos).ok || Agrees(s.w.objects[name], s.n.self.spec))
  {
    var b := FirstBlock(env, s, true);
    FirstBlockShape(env, s, true);
    var desired := s.n.self.spec;
    if ExecuteUpdate(env, s.n, s.w).0 {
      CallEffects.ExecuteUpdateAgrees(env, s.n, s.w);
    }
    hide ExecuteUpdate, Agrees, Grows;
    assert b.go;
    RollFreezesSpec(env, b, desired);
  }

  lemma RollFreezesSpec(env: Env, s: Step, desired: Spec)
    requires s.n.name in s.w.objects
    ensures var t := Finish(Roll(env, s, true));
            && s.n.name in t.w.objects
            && (Agrees(t.w.objects[s.n.name], desired) <==> Agrees(s.w.objects[s.n.name], desired))
  {
    hide Agrees, Loop, AllBack, Grows;
    var (ok, ordinal, w1) := ReadPartition(env, s.n, s.w);
    LoopFreezesSpec(env, s.(w := w1), ordinal, true, desired);
    AllBackKeepsObjects(env, Loop(env, s.(w := w1), ordinal, true));
  }

  lemma AllBackKeepsObjects(env: Env, s: Step)
    ensures AllBack(env, s).w.objects == s.w.objects
  {
    hide FirstAtLeast, Grows;
  }

  // ----- hashes -----

  /** A clean call that began before recovery ends the cycle and leaves a current hash, so no redeploy is needed after it. */
  lemma CleanCallRefreshes(env: Env, s: Step, updating: bool, hash: string)
    requires FixedSecret(env, hash) && s.go && s.u.phase != RecoveringData && Call(env, s, updating).w.clean
    ensures var t := Call(env, s, updating);
            && t.u == s.u.(under := Blank, phase := ControllerUpdated) && t.n.secretHash == hash
            && (State(env, t.n, t.w).3.clean ==> State(env, t.n, t.w).1 == Blank)
  {
    var a := BeginCycle(env, s, !updating);
    var b := FirstBlock(env, a, updating);
    var c := Roll(env, b, updating);
    BeginShape(env, s, !updating);
    FirstBlockShape(env, a, updating);
    hide BeginCycle, FirstBlock, Roll, Tame, State, AtStart;
    FirstBlockTame(env, a, updating);
    RollTame(env, b, updating);
    FinishTame(c);
    TameClean(c, Finish(c));
    TameClean(b, c);
    TameClean(a, b);
    CleanBeginGoes(env, s, !updating);
    CleanFirstBlockGoes(env, a, updating);
    RestartingOrRecovering(b);
    CleanRollRefreshes(env, b, updating, hash);
    RedeployIffStale(env, Call(env, s, updating).n, Call(env, s, updating).w, hash);
  }

  lemma RestartingOrRecovering(s: Step)
    requires !AtStart(s.u.phase) && s.u.phase != RecoveringData
    ensures s.u.phase == NodeRestarting
  {
  }

  lemma TameClean(s: Step, t: Step)
    requires Tame(s, t) && t.w.clean
    ensures s.w.clean
  {
  }

  lemma RedeployIffStale(env: Env, n: NodeState, w: World, hash: string)
    requires FixedSecret(env, hash)
    ensures State(env, n, w).3.clean ==> State(env, n, w).1 == if n.secretHash == hash then Blank else IsTrue
  {
    hide Agrees, Patch, Grows;
  }

  lemma CleanBeginGoes(env: Env, s: Step, sizeRequired: bool)
    requires s.go && BeginCycle(env, s, sizeRequired).w.clean
    ensures BeginCycle(env, s, sizeRequired).go
  {
    hide Grows, SetPartition;
    if s.u.under != IsTrue {
      var (green, w1) := Health(env, s.w, s.n.name);
      var (ok, size, w2) := NodeCount(env, w1);
      var n2 := s.n.(clusterSize := size);
      var (counted, replicas, w3) := ReplicaCount(env, n2, w2);
      SetPartitionGrows(env, n2, w3, replicas);
    }
  }

  lemma CleanFirstBlockGoes(env: Env, s: Step, updating: bool)
    requires s.go && FirstBlock(env, s, updating).w.clean
    ensures FirstBlock(env, s, updating).go
  {
    if AtStart(s.u.phase) && updating {
      CleanExecuteUpdate(env, s.n, s.w);
    }
    hide ExecuteUpdate, Grows;
  }

  lemma CleanRollRefreshes(env: Env, s: Step, updating: bool, hash: string)
    requires FixedSecret(env, hash) && s.go && s.u.phase == NodeRestarting && Roll(env, s, updating).w.clean
    ensures var t := Roll(env, s, updating);
            t.go && t.u == s.u.(phase := RecoveringData) && t.n.secretHash == hash
  {
    var (ok, ordinal, w1) := ReadPartition(env, s.n, s.w);
    var a := s.(w := w1);
    var l := Loop(env, a, ordinal, updating);
    LoopKeepsSize(env, a, ordinal, updating);
    if ok {
      CleanLoopGoes(env, a, ordinal, updating);
    }
    hide Loop, Grows, FirstAtLeast, RefreshHashes;
    assert ok && l.go;
    var (back, w2) := RejoinPoll(env, l.w, l.n.name, l.n.clusterSize);
    RefreshHashesGrows(env, l.n, w2);
    assert back;
    CleanRefreshHashes(env, l.n, w2, hash);
  }

  lemma {:induction false} CleanLoopGoes(env: Env, s: Step, index: int, updating: bool)
    requires s.go
    ensures var t := Loop(env, s, index, updating); t.w.clean ==> t.go && s.w.clean
    decreases index
  {
    hide One;
    if index > 0 {
      var t := One(env, s, index, updating);
      CleanOneGoes(env, s, index, updating);
      if t.go {
        CleanLoopGoes(env, t, index - 1, updating);
      }
    }
  }

  lemma CleanOneGoes(env: Env, s: Step, index: int, updating: bool)
    requires s.go
    ensures var t := One(env, s, index, updating); t.w.clean ==> t.go && s.w.clean
  {
    hide SetPartition, FirstAtLeast, FirstBelow;
    var (back, w1) := RejoinPoll(env, s.w, s.n.name, s.n.clusterSize);
    SetPartitionGrows(env, s.n, w1, index - 1);
    var (deleted, w2) := DeletePodCall(env, w1, s.n.name, index - 1);
    var (left, w3) := LeavePoll(env, w2, s.n.name, s.n.clusterSize);
    SetPartitionGrows(env, s.n, w3, index - 1);
  }

  // ----- creating -----

  /**
   * A clean creation: a new workload has the desired spec and a current hash; an existing one gets the
   * desired replicas and stays otherwise as it is, and so does the hash.
   */
  lemma CleanCreateScales(env: Env, n: NodeState, w: World, hash: string)
    requires FixedSecret(env, hash) && CreateNode(env, n, w).2.clean && (n.self.unsaved || n.name in w.objects)
    ensures var (ok, n', w') := CreateNode(env, n, w);
            && ok && n.name in w'.objects
            && if n.name in w.objects
               then w'.objects[n.name] == w.objects[n.name].(replicas := n.self.spec.replicas) && n'.secretHash == n.secretHash
               else w'.objects[n.name] == n.self.spec && n'.secretHash == hash
  {
    hide Grows, Scale;
    if n.name in w.objects {
      var w1 := if n.self.unsaved then Create(env, w, n.name, n.self.spec).1 else w;
      CleanScale(env, n, w1);
    } else {
      var (result, w1) := Create(env, w, n.name, n.self.spec);
      CleanRefreshHashes(env, n.(self := n.self.(unsaved := false)), w1, hash);
      hide RefreshHashes;
    }
  }

  lemma CleanScale(env: Env, n: NodeState, w: World)
    requires n.name in w.objects && Scale(env, n, w).1.clean
    ensures var (n', w') := Scale(env, n, w);
            && n.name in w'.objects && n'.secretHash == n.secretHash
            && w'.objects[n.name] == w.objects[n.name].(replicas := n.self.spec.replicas)
  {
    hide Grows, SetReplicas;
    var (ok, n1, w1) := Reload(env, n, w);
    if ok && n1.self.spec.replicas != n.self.spec.replicas {
      CleanSetReplicas(env, n1, w1, n.self.spec.replicas);
    }
  }

  // ----- one pod at a time -----

  /** The changes of a node's partition, in order. */
  ghost function PartitionSteps(log: seq<Event>, name: string): seq<(int, int)> {
    if log == [] then []
    else
      var e := log[|log| - 1];
      PartitionSteps(log[..|log| - 1], name) + if e.Partition? && e.node == name then [(e.before, e.after)] else []
  }

  /** From a partition down to 0, by ones. */
  ghost function ByOnes(index: int): seq<(int, int)>
    decreases index
  {
    if index <= 0 then [] else [(index, index - 1)] + ByOnes(index - 1)
  }

  lemma NoStep(log: seq<Event>, e: Event, name: string)
    ensures PartitionSteps(log + [e], name)
         == PartitionSteps(log, name) + if e.Partition? && e.node == name then [(e.before, e.after)] else []
  {
    assert (log + [e])[..|log|] == log;
  }

  ghost predicate StepsDown(s: Step, t: Step, index: int) {
    && t.go && t.n.name == s.n.name && t.u == s.u && t.w.clean
    && s.n.name in t.w.objects && t.w.objects[s.n.name].partition == index - 1
    && PartitionSteps(t.w.log, s.n.name) == PartitionSteps(s.w.log, s.n.name) + [(index, index - 1)]
  }

  /** A clean iteration, entered with the server's partition at index, lowers it by one. */
  lemma CleanUpdateOneSteps(env: Env, s: Step, index: int)
    requires InCycle(s) && s.go && ServerPartition(s) == index && UpdateOne(env, s, index).w.clean
    ensures StepsDown(s, UpdateOne(env, s, index), index)
  {
    CleanOneGoes(env, s, index, true);
    hide SetPartition, Grows, FirstAtLeast, FirstBelow, PartitionSteps;
    var name := s.n.name;
    var (back, w1) := RejoinPoll(env, s.w, name, s.n.clusterSize);
    NoStep(s.w.log, w1.log[|s.w.log|], name);
    SetPartitionGrows(env, s.n, w1, index - 1);
    CleanSetPartition(env, s.n, w1, index - 1);
    var (_, n2, w2) := SetPartition(env, s.n, w1, index - 1);
    NoStep(w1.log, Partition(name, index, index - 1), name);
    var (left, w3) := LeavePoll(env, w2, n2.name, n2.clusterSize);
    NoStep(w2.log, w3.log[|w2.log|], name);
  }

  lemma CleanRestartOneSteps(env: Env, s: Step, index: int)
    requires InCycle(s) && s.go && ServerPartition(s) == index && RestartOne(env, s, index).w.clean
    ensures StepsDown(s, RestartOne(env, s, index), index)
  {
    CleanOneGoes(env, s, index, false);
    hide SetPartition, Grows, FirstAtLeast, FirstBelow, PartitionSteps;
    var name := s.n.name;
    var (back, w1) := RejoinPoll(env, s.w, name, s.n.clusterSize);
    NoStep(s.w.log, w1.log[|s.w.log|], name);
    var (deleted, w2) := DeletePodCall(env, w1, name, index - 1);
    NoStep(w1.log, w2.log[|w1.log|], name);
    var (left, w3) := LeavePoll(env, w2, name, s.n.clusterSize);
    NoStep(w2.log, w3.log[|w2.log|], name);
    SetPartitionGrows(env, s.n, w3, index - 1);
    CleanSetPartition(env, s.n, w3, index - 1);
    NoStep(w3.log, Partition(name, index, index - 1), name);
  }

  lemma CleanOneSteps(env: Env, s: Step, index: int, updating: bool)
    requires InCycle(s) && s.go && ServerPartition(s) == index && One(env, s, index, updating).w.clean
    ensures StepsDown(s, One(env, s, index, updating), index)
  {
    hide UpdateOne, RestartOne, StepsDown;
    if updating {
      CleanUpdateOneSteps(env, s, index);
    } else {
      CleanRestartOneSteps(env, s, index);
    }
  }

  /** Setting the partition to another value, when all goes well. */
  lemma CleanSetPartition(env: Env, n: NodeState, w: World, partition: int)
    requires n.name in w.objects && w.objects[n.name].partition != partition
    ensures var (_, n', w') := SetPartition(env, n, w, partition);
            w'.clean ==> n.name in w'.objects && w'.objects[n.name].partition == partition
                         && w'.log == w.log + [Partition(n.name, w.objects[n.name].partition, partition)]
  {
    hide Grows;
  }

  lemma {:induction false} CleanLoopSteps(env: Env, s: Step, index: int, updating: bool)
    requires InCycle(s) && s.go && ServerPartition(s) == index && Loop(env, s, index, updating).w.clean
    ensures var t := Loop(env, s, index, updating);
            && t.go && t.n.name == s.n.name && t.n.name in t.w.objects
            && (index >= 0 ==> t.w.objects[t.n.name].partition == 0)
            && PartitionSteps(t.w.log, s.n.name) == PartitionSteps(s.w.log, s.n.name) + ByOnes(index)
    decreases index
  {
    hide One, PartitionSteps;
    if index > 0 {
      CleanLoopGoes(env, One(env, s, index, updating), index - 1, updating) by {
        CleanOneGoes(env, s, index, updating);
      }
      CleanOneSteps(env, s, index, updating);
      CleanLoopSteps(env, One(env, s, index, updating), index - 1, updating);
    }
  }

  /**
   * A clean call in a cycle, from a phase before recovery, lowers the partition from where it is down to
   * 0 by ones, and in no other steps.
   */
  lemma CleanCallLowersByOnes(env: Env, s: Step, updating: bool)
    requires InCycle(s) && s.go && s.u.phase != RecoveringData && Call(env, s, updating).w.clean
    ensures PartitionSteps(Call(env, s, updating).w.log, s.n.name)
         == PartitionSteps(s.w.log, s.n.name) + ByOnes(ServerPartition(s))
  {
    var name, P := s.n.name, ServerPartition(s);
    var b := FirstBlock(env, s, updating);
    FirstBlockShape(env, s, updating);
    FirstBlockKeepsPartition(env, s, updating);
    RollTame(env, b, updating);
    FinishTame(Roll(env, b, updating));
    TameClean(Roll(env, b, updating), Finish(Roll(env, b, updating)));
    TameClean(b, Roll(env, b, updating));
    CleanFirstBlockGoes(env, s, updating);
    hide FirstBlock, Grows, PartitionSteps, AtStart, FirstAtLeast, RefreshHashes;
    RestartingOrRecovering(b);
    var (ok, ordinal, w1) := ReadPartition(env, b.n, b.w);
    var a := b.(w := w1);
    LoopTame(env, a, ordinal, updating);
    LoopKeepsSize(env, a, ordinal, updating);
    hide Loop;
    var l := Loop(env, a, ordinal, updating);
    assert ok && ordinal == P;
    AllBackTame(env, l);
    TameClean(l, AllBack(env, l));
    CleanLoopSteps(env, a, ordinal, updating);
    AllBackStepsNothing(env, l);
  }

  lemma AllBackStepsNothing(env: Env, s: Step)
    requires s.go
    ensures PartitionSteps(Finish(AllBack(env, s)).w.log, s.n.name) == PartitionSteps(s.w.log, s.n.name)
  {
    hide FirstAtLeast, Grows, PartitionSteps;
    var (back, w1) := RejoinPoll(env, s.w, s.n.name, s.n.clusterSize);
    NoStep(s.w.log, w1.log[|s.w.log|], s.n.name);
    if back {
      RefreshHashesGrows(env, s.n, w1);
      NoStep(w1.log, Clear(s.n.name), s.n.name);
    }
  }

  // ----- what stops the loop -----

  ghost predicate FailsLast(log: seq<Event>, log': seq<Event>, name: string) {
    |log| < |log'| && var e := log'[|log'| - 1]; e.node == name && (e.Rejoin? || e.Leave? || e.DeletePod?) && !e.ok
  }

  lemma UpdateOneStops(env: Env, s: Step, index: int)
    requires s.go
    ensures var t := UpdateOne(env, s, index); !t.go ==> FailsLast(s.w.log, t.w.log, s.n.name)
  {
    hide SetPartition, Grows, FirstAtLeast, FirstBelow;
    var (back, w1) := RejoinPoll(env, s.w, s.n.name, s.n.clusterSize);
    SetPartitionGrows(env, s.n, w1, index - 1);
    PartitionGrows(env, s.n, w1, index - 1);
  }

  lemma RestartOneStops(env: Env, s: Step, index: int)
    requires s.go
    ensures var t := RestartOne(env, s, index); !t.go ==> FailsLast(s.w.log, t.w.log, s.n.name)
  {
    hide SetPartition, Grows, FirstAtLeast, FirstBelow;
  }

  /** An iteration is stopped only by a failed step that it logs last: a poll or the deletion of the pod. */
  lemma OnlyFailureStopsPod(env: Env, s: Step, index: int, updating: bool)
    requires s.go
    ensures var t := One(env, s, index, updating); !t.go ==> FailsLast(s.w.log, t.w.log, s.n.name)
  {
    hide UpdateOne, RestartOne, FailsLast;
    if updating {
      UpdateOneStops(env, s, index);
    } else {
      RestartOneStops(env, s, index);
    }
  }

  lemma PartitionGrows(env: Env, n: NodeState, w: World, partition: int)
    ensures w.log <= SetPartition(env, n, w, partition).2.log
  {
    SetPartitionGrows(env, n, w, partition);
  }
}
