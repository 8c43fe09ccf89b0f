/**
 * The rolling upgrade of a StatefulSet node (pkg/k8shandler/statefulset.go).  The
 * server's partition doubles as the persisted position of the rollout.
 */
module StatefulSetUpgrade {
  import opened Base
  import opened Drift
  import opened Environment
  import opened Workload

  /** Reads into node.self, so the desired spec is replaced by the server's; a change of the partition is logged. */
  function SetPartition(env: Env, n: NodeState, w: World, partition: int): (bool, NodeState, World) {
    var (ok, n1, w1) := Reload(env, n, w);
    if !ok then (false, n1, w1)
    else if n1.self.spec.partition == partition then (true, n1, w1)
    else
      var before := n1.self.spec.partition;
      var n2 := n1.(self := n1.self.(spec := n1.self.spec.(partition := partition)));
      var (written, w2) := Write(env, w1, n.name, n2.self.spec);
      (written, n2,
       if w2.objects[n.name].partition == before then w2 else Note(w2, Partition(n.name, before, partition)))
  }

  /** partition(): the server's value. */
  function ReadPartition(env: Env, n: NodeState, w: World): (bool, int, World) {
    var (ok, w1) := Read(env, w, n.name);
    (ok, if ok then w.objects[n.name].partition else -1, w1)
  }

  /** Start a cycle: green, cluster size, then the partition at the replica count, whatever comes of writing it. */
  function BeginCycle(env: Env, s: Step, sizeRequired: bool): Step {
    if s.u.under == IsTrue then s
    else
      var (green, w1) := Health(env, s.w, s.n.name);
      if !green then s.(w := w1, go := false)
      else
        var (ok, size, w2) := NodeCount(env, w1);
        if !ok && sizeRequired then s.(w := w2, go := false)
        else
          var n2 := s.n.(clusterSize := size);
          var (counted, replicas, w3) := ReplicaCount(env, n2, w2);
          if !counted then s.(n := n2, w := w3, go := false)
          else
            var (_, n4, w4) := SetPartition(env, n2, w3, replicas);
            s.(n := n4, u := s.u.(under := IsTrue), w := Note(w4, Begin(s.n.name)))
  }

  function FirstBlock(env: Env, s: Step, updating: bool): Step {
    if !s.go || !AtStart(s.u.phase) then s
    else if updating then
      var (ok, n1, w1) := ExecuteUpdate(env, s.n, s.w);
      if !ok then s.(n := n1, w := w1, go := false)
      else s.(n := n1, u := s.u.(phase := NodeRestarting), w := w1)
    else
      s.(u := s.u.(phase := NodeRestarting))
  }

  /** restart's loop body for ordinal index - 1: all in, delete the pod, it is gone, remember the position. */
  function RestartOne(env: Env, s: Step, index: int): Step {
    var (back, w1) := RejoinPoll(env, s.w, s.n.name, s.n.clusterSize);
    if !back then s.(w := w1, go := false)
    else
      var (deleted, w2) := DeletePodCall(env, w1, s.n.name, index - 1);
      if !deleted then s.(w := w2, go := false)
      else
        var (left, w3) := LeavePoll(env, w2, s.n.name, s.n.clusterSize);
        if !left then s.(w := w3, go := false)
        else
          var (_, n4, w4) := SetPartition(env, s.n, w3, index - 1);
          s.(n := n4, w := w4)
  }

  /** update's loop body: all in, lower the partition, the pod is gone. */
  function UpdateOne(env: Env, s: Step, index: int): Step {
    var (back, w1) := RejoinPoll(env, s.w, s.n.name, s.n.clusterSize);
    if !back then s.(w := w1, go := false)
    else
      var (_, n2, w2) := SetPartition(env, s.n, w1, index - 1);
      var (left, w3) := LeavePoll(env, w2, n2.name, n2.clusterSize);
      s.(n := n2, w := w3, go := left)
  }

  function One(env: Env, s: Step, index: int, updating: bool): Step {
    if updating then UpdateOne(env, s, index) else RestartOne(env, s, index)
  }

  function Loop(env: Env, s: Step, index: int, updating: bool): Step
    decreases index
  {
    if !s.go || index <= 0 then s else Loop(env, One(env, s, index, updating), index - 1, updating)
  }

  /** After the loop every pod must be back. */
  function AllBack(env: Env, s: Step): Step {
    if !s.go then s
    else
      var (back, w1) := RejoinPoll(env, s.w, s.n.name, s.n.clusterSize);
      if !back then s.(w := w1, go := false)
      else
        var (n2, w2) := RefreshHashes(env, s.n, w1);
        s.(n := n2, u := s.u.(phase := RecoveringData), w := w2)
  }

  function Roll(env: Env, s: Step, updating: bool): Step {
    if !s.go || s.u.phase != NodeRestarting then s
    else
      var (ok, ordinal, w1) := ReadPartition(env, s.n, s.w);
      if !ok then s.(w := w1, go := false)
      else AllBack(env, Loop(env, s.(w := w1), ordinal, updating))
  }

  function Finish(s: Step): Step {
    if !s.go || s.u.phase != RecoveringData then s
    else s.(u := s.u.(under := Blank, phase := ControllerUpdated), w := Note(s.w, Clear(s.n.name)))
  }

  /** One call of update (updating) or of restart. */
  function Call(env: Env, s: Step, updating: bool): Step {
    Finish(Roll(env, FirstBlock(env, BeginCycle(env, s, !updating), updating), updating))
  }

  /** scale() overwrites node.self with the server's copy. */
  function Scale(env: Env, n: NodeState, w: World): (NodeState, World) {
    var desired := n.self.spec.replicas;
    var (ok, n1, w1) := Reload(env, n, w);
    if !ok || n1.self.spec.replicas == desired then (n1, w1)
    else
      var (_, n2, w2) := SetReplicas(env, n1, w1, desired);
      (n2, w2)
  }

  function CreateNode(env: Env, n: NodeState, w: World): (bool, NodeState, World) {
    if !n.self.unsaved then
      var (n1, w1) := Scale(env, n, w);
      (true, n1, w1)
    else
      var (result, w1) := Create(env, w, n.name, n.self.spec);
      match result
      case CreateFailed => (false, n, w1)
      case AlreadyExists =>
        var (n2, w2) := Scale(env, n, w1);
        (true, n2, w2)
      case Created =>
        var (n2, w2) := RefreshHashes(env, n.(self := n.self.(unsaved := false)), w1);
        (true, n2, w2)
  }

  /** An unschedulable node is updated at once and the pod at the partition deleted. */
  function Progress(env: Env, n: NodeState, w: World): (NodeState, World) {
    var (changed, n1, w1) := IsChanged(env, n, w);
    if !changed then (n1, w1)
    else
      var (ok, n2, w2) := ExecuteUpdate(env, n1, w1);
      if !ok then (n2, w2)
      else
        var (found, ordinal, w3) := ReadPartition(env, n2, w2);
        if !found then (n2, w3)
        else (n2, DeletePodCall(env, w3, n.name, ordinal).1)
  }

  // ----- footprints -----

  lemma SetPartitionGrows(env: Env, n: NodeState, w: World, partition: int)
    ensures var r := SetPartition(env, n, w, partition);
            && Grows(w, r.2, n.name) && r.1.name == n.name && r.1.kind == n.kind
            && r.1.clusterSize == n.clusterSize && r.2.allocation == w.allocation
  {
    hide Grows;
    var (ok, n1, w1) := Reload(env, n, w);
    if ok && n1.self.spec.partition != partition {
      var before := n1.self.spec.partition;
      var n2 := n1.(self := n1.self.(spec := n1.self.spec.(partition := partition)));
      var (written, w2) := Write(env, w1, n.name, n2.self.spec);
      GrowsTransitive(w, w1, w2, n.name);
      var w3 := Note(w2, Partition(n.name, before, partition));
      NoteGrows(w2, Partition(n.name, before, partition));
      GrowsTransitive(w, w2, w3, n.name);
    }
  }

  /** The footprint of a StatefulSet block: it also leaves shard allocation alone. */
  ghost predicate Tame(s: Step, t: Step) {
    Follows(s, t) && t.w.allocation == s.w.allocation
  }

  lemma TameTransitive(a: Step, b: Step, c: Step)
    requires Tame(a, b) && Tame(b, c)
    ensures Tame(a, c)
  {
    FollowsTransitive(a, b, c);
  }

  lemma BeginTame(env: Env, s: Step, sizeRequired: bool)
    ensures Tame(s, BeginCycle(env, s, sizeRequired))
  {
    hide Grows, SetPartition;
    if s.u.under == IsTrue {
      GrowsReflexive(s.w, s.n.name);
    } else {
      var (green, w1) := Health(env, s.w, s.n.name);
      var (ok, size, w2) := NodeCount(env, w1);
      TickGrows(w1, ok, s.n.name);
      GrowsTransitive(s.w, w1, w2, s.n.name);
      var n2 := s.n.(clusterSize := size);
      var (counted, replicas, w3) := ReplicaCount(env, n2, w2);
      GrowsTransitive(s.w, w2, w3, s.n.name);
      var (_, n4, w4) := SetPartition(env, n2, w3, replicas);
      SetPartitionGrows(env, n2, w3, replicas);
      GrowsTransitive(s.w, w3, w4, s.n.name);
      NoteGrows(w4, Begin(s.n.name));
      GrowsTransitive(s.w, w4, Note(w4, Begin(s.n.name)), s.n.name);
    }
  }

  lemma FirstBlockTame(env: Env, s: Step, updating: bool)
    ensures Tame(s, FirstBlock(env, s, updating))
  {
    hide Grows, ExecuteUpdate;
    ExecuteUpdateGrows(env, s.n, s.w);
    GrowsReflexive(s.w, s.n.name);
  }

  lemma OneTame(env: Env, s: Step, index: int, updating: bool)
    ensures Tame(s, One(env, s, index, updating))
    ensures One(env, s, index, updating).u == s.u
    ensures One(env, s, index, updating).n.clusterSize == s.n.clusterSize
  {
    hide Grows, SetPartition, FirstAtLeast, FirstBelow;
    var (back, w1) := RejoinPoll(env, s.w, s.n.name, s.n.clusterSize);
    if !back {
    } else if updating {
      var (_, n2, w2) := SetPartition(env, s.n, w1, index - 1);
      SetPartitionGrows(env, s.n, w1, index - 1);
      GrowsTransitive(s.w, w1, w2, s.n.name);
      GrowsTransitive(s.w, w2, LeavePoll(env, w2, n2.name, n2.clusterSize).1, s.n.name);
    } else {
      var (deleted, w2) := DeletePodCall(env, w1, s.n.name, index - 1);
      GrowsTransitive(s.w, w1, w2, s.n.name);
      var (left, w3) := LeavePoll(env, w2, s.n.name, s.n.clusterSize);
      GrowsTransitive(s.w, w2, w3, s.n.name);
      SetPartitionGrows(env, s.n, w3, index - 1);
      GrowsTransitive(s.w, w3, SetPartition(env, s.n, w3, index - 1).2, s.n.name);
    }
  }

  lemma {:induction false} LoopTame(env: Env, s: Step, index: int, updating: bool)
    ensures Tame(s, Loop(env, s, index, updating))
    ensures Loop(env, s, index, updating).u == s.u
    ensures Loop(env, s, index, updating).n.clusterSize == s.n.clusterSize
    decreases index
  {
    hide Grows, One;
    GrowsReflexive(s.w, s.n.name);
    if s.go && index > 0 {
      var t := One(env, s, index, updating);
      OneTame(env, s, index, updating);
      LoopTame(env, t, index - 1, updating);
      TameTransitive(s, t, Loop(env, t, index - 1, updating));
    }
  }

  lemma RollTame(env: Env, s: Step, updating: bool)
    ensures Tame(s, Roll(env, s, updating))
    ensures Roll(env, s, updating).u.under == s.u.under
  {
    hide Grows, Loop;
    GrowsReflexive(s.w, s.n.name);
    if s.go && s.u.phase == NodeRestarting {
      var (ok, ordinal, w1) := ReadPartition(env, s.n, s.w);
      if ok {
        var a := s.(w := w1);
        var b := Loop(env, a, ordinal, updating);
        LoopTame(env, a, ordinal, updating);
        TameTransitive(s, a, b);
        AllBackTame(env, b);
        TameTransitive(s, b, AllBack(env, b));
      }
    }
  }

  lemma AllBackTame(env: Env, s: Step)
    ensures Tame(s, AllBack(env, s))
  {
    if s.go {
      var (back, w1) := RejoinPoll(env, s.w, s.n.name, s.n.clusterSize);
      RefreshHashesGrows(env, s.n, w1);
      GrowsTransitive(s.w, w1, AllBack(env, s).w, s.n.name);
    }
  }

  lemma CallTame(env: Env, s: Step, updating: bool)
    ensures Tame(s, Call(env, s, updating))
  {
    hide Grows, BeginCycle, FirstBlock, Roll;
    var a := BeginCycle(env, s, !updating);
    BeginTame(env, s, !updating);
    var b := FirstBlock(env, a, updating);
    FirstBlockTame(env, a, updating);
    TameTransitive(s, a, b);
    var c := Roll(env, b, updating);
    RollTame(env, b, updating);
    TameTransitive(s, b, c);
    FinishTame(c);
    TameTransitive(s, c, Finish(c));
  }

  lemma FinishTame(s: Step)
    ensures Tame(s, Finish(s))
  {
  }
}
