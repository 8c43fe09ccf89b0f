/**
 * The rolling upgrade of a Deployment node (pkg/k8shandler/deployment.go): update
 * and restart, each cut into the blocks that the persisted phase gates.
 */
module DeploymentUpgrade {
  import opened Base
  import opened Drift
  import opened Environment
  import opened Workload

  /** Start a cycle on a green cluster; restart needs the cluster size, update goes on without it. */
  function BeginCycle(env: Env, s: Step, sizeRequired: bool): Step {
    if s.u.under == IsTrue then s
    else
      var (green, w1) := Health(env, s.w, s.n.name);
      if !green then s.(w := w1, go := false)
      else
        var (ok, size, w2) := NodeCount(env, w1);
        if !ok && sizeRequired then s.(w := w2, go := false)
        else s.(n := s.n.(clusterSize := size), u := s.u.(under := IsTrue), w := Note(w2, Begin(s.n.name)))
  }

  /** restart: disable allocation, flush, scale down and see the node leave. */
  function Drain(env: Env, s: Step): Step {
    if !s.go || !AtStart(s.u.phase) then s
    else
      var (_, replicas, w0) := ReplicaCount(env, s.n, s.w);
      var w1 := Note(w0, Counted(s.n.name, replicas));
      if replicas <= 0 then s.(u := s.u.(phase := NodeRestarting), w := w1)
      else
        var (disabled, w2) := SetAllocation(env, w1, s.n.name, false);
        if !disabled then s.(w := w2, go := false)
        else
          var (scaled, n3, w3) := SetReplicas(env, s.n, Flush(env, w2, s.n.name), 0);
          if !scaled then s.(n := n3, w := w3, go := false)
          else
            var (left, w4) := LeavePoll(env, w3, n3.name, n3.clusterSize);
            if !left then s.(n := n3, w := w4, go := false)
            else s.(n := n3, u := s.u.(phase := NodeRestarting), w := w4)
  }

  /** update: disable allocation, flush and write the new spec. */
  function Apply(env: Env, s: Step): Step {
    if !s.go || !AtStart(s.u.phase) then s
    else
      var (disabled, w1) := SetAllocation(env, s.w, s.n.name, false);
      if !disabled then s.(w := w1, go := false)
      else
        var (ok, n2, w2) := ExecuteUpdate(env, s.n, Flush(env, w1, s.n.name));
        var w3 := Note(w2, Applied(s.n.name, Revision(n2), ok));
        if !ok then s.(n := n2, w := w3, go := false)
        else s.(n := n2.(revision := Revision(n2)), u := s.u.(phase := NodeRestarting), w := w3)
  }

  /** The common end of both second blocks: enable allocation and start recovery. */
  function Reenable(env: Env, s: Step): Step {
    var (enabled, w1) := SetAllocation(env, s.w, s.n.name, true);
    if !enabled then s.(w := w1, go := false)
    else s.(u := s.u.(phase := RecoveringData), w := w1)
  }

  /** restart: scale up, see the node rejoin, refresh the hashes. */
  function ScaleUp(env: Env, s: Step): Step {
    var (scaled, n1, w1) := SetReplicas(env, s.n, s.w, 1);
    if !scaled then s.(n := n1, w := w1, go := false)
    else
      var (back, w2) := RejoinPoll(env, w1, n1.name, n1.clusterSize);
      if !back then s.(n := n1, w := w2, go := false)
      else
        var (n3, w3) := RefreshHashes(env, n1, w2);
        s.(n := n3, w := w3)
  }

  /** update: unpause, see the rollout, pause, refresh the hashes, see the node rejoin. */
  function RollOut(env: Env, s: Step): Step {
    var (_, n1, w1) := SetPaused(env, s.n, s.w, false);
    var (rolled, n2, w2) := RolloutPoll(env, n1, w1);
    if !rolled then s.(n := n2, w := w2, go := false)
    else
      var (_, n3, w3) := SetPaused(env, n2, w2, true);
      var (n4, w4) := RefreshHashes(env, n3, w3);
      var (back, w5) := RejoinPoll(env, w4, n4.name, n4.clusterSize);
      s.(n := n4, w := w5, go := back)
  }

  function Recycle(env: Env, s: Step, updating: bool): Step {
    if !s.go || s.u.phase != NodeRestarting then s
    else
      var t := if updating then RollOut(env, s) else ScaleUp(env, s);
      if t.go then Reenable(env, t) else t
  }

  /** Wait for green, then close the cycle. */
  function Recover(env: Env, s: Step): Step {
    if !s.go || s.u.phase != RecoveringData then s
    else
      var (green, w1) := Health(env, s.w, s.n.name);
      if !green then s.(w := w1, go := false)
      else s.(u := s.u.(under := Blank, phase := ControllerUpdated), w := Note(w1, Clear(s.n.name)))
  }

  /** One call of update (updating) or of restart. */
  function Call(env: Env, s: Step, updating: bool): Step {
    var t := BeginCycle(env, s, !updating);
    Recover(env, Recycle(env, if updating then Apply(env, t) else Drain(env, t), updating))
  }

  function CreateNode(env: Env, n: NodeState, w: World): (bool, NodeState, World) {
    if !n.self.unsaved then SetPaused(env, n, w, true)
    else
      var (result, w1) := Create(env, w, n.name, n.self.spec);
      match result
      case CreateFailed => (false, n, w1)
      case AlreadyExists => SetPaused(env, n, w1, true)
      case Created =>
        var (rolled, n2, w2) := InitialRolloutPoll(env, n.(self := n.self.(unsaved := false)), w1);
        if !rolled then (false, n2, w2)
        else
          var (n3, w3) := RefreshHashes(env, n2, w2);
          SetPaused(env, n3, w3, true)
  }

  /** An unschedulable node is updated at once; its phase change is written to a copy and lost. */
  function Progress(env: Env, n: NodeState, w: World): (NodeState, World) {
    var (changed, n1, w1) := IsChanged(env, n, w);
    if !changed then (n1, w1)
    else
      var (ok, n2, w2) := ExecuteUpdate(env, n1, w1);
      if !ok then (n2, w2)
      else
        var (unpaused, n3, w3) := SetPaused(env, n2, w2, false);
        if !unpaused then (n3, w3)
        else
          var (rolled, n4, w4) := RolloutPoll(env, n3, w3);
          var n5 := if rolled then n4.(revision := Revision(n4)) else n4;
          var (_, n6, w6) := SetPaused(env, n5, w4, true);
          (n6, w6)
  }

  // ----- footprint of each block -----

  lemma BeginFollows(env: Env, s: Step, sizeRequired: bool)
    ensures Follows(s, BeginCycle(env, s, sizeRequired))
  {
    hide Grows;
    if s.u.under == IsTrue {
      GrowsReflexive(s.w, s.n.name);
    } else {
      var (green, w1) := Health(env, s.w, s.n.name);
      var (ok, size, w2) := NodeCount(env, w1);
      TickGrows(w1, ok, s.n.name);
      GrowsTransitive(s.w, w1, w2, s.n.name);
      NoteGrows(w2, Begin(s.n.name));
      GrowsTransitive(s.w, w2, Note(w2, Begin(s.n.name)), s.n.name);
    }
  }

  lemma DrainFollows(env: Env, s: Step)
    ensures Follows(s, Drain(env, s))
  {
    hide Grows, SetReplicas;
    GrowsReflexive(s.w, s.n.name);
    if s.go && AtStart(s.u.phase) {
      var (_, replicas, w0) := ReplicaCount(env, s.n, s.w);
      var w1 := Note(w0, Counted(s.n.name, replicas));
      NoteGrows(w0, Counted(s.n.name, replicas));
      GrowsTransitive(s.w, w0, w1, s.n.name);
      if replicas > 0 {
        var (disabled, w2) := SetAllocation(env, w1, s.n.name, false);
        GrowsTransitive(s.w, w1, w2, s.n.name);
        if disabled {
          var f := Flush(env, w2, s.n.name);
          GrowsTransitive(s.w, w2, f, s.n.name);
          var (scaled, n3, w3) := SetReplicas(env, s.n, f, 0);
          SetReplicasGrows(env, s.n, f, 0);
          GrowsTransitive(s.w, f, w3, s.n.name);
          if scaled {
            var (left, w4) := LeavePoll(env, w3, n3.name, n3.clusterSize);
            GrowsTransitive(s.w, w3, w4, s.n.name);
          }
        }
      }
    }
  }

  lemma ApplyFollows(env: Env, s: Step)
    ensures Follows(s, Apply(env, s))
  {
    hide Grows, ExecuteUpdate;
    GrowsReflexive(s.w, s.n.name);
    if s.go && AtStart(s.u.phase) {
      var (disabled, w1) := SetAllocation(env, s.w, s.n.name, false);
      if disabled {
        var f := Flush(env, w1, s.n.name);
        GrowsTransitive(s.w, w1, f, s.n.name);
        ExecuteUpdateGrows(env, s.n, f);
        var (ok, n2, w2) := ExecuteUpdate(env, s.n, f);
        GrowsTransitive(s.w, f, w2, s.n.name);
        NoteGrows(w2, Applied(s.n.name, Revision(n2), ok));
        GrowsTransitive(s.w, w2, Note(w2, Applied(s.n.name, Revision(n2), ok)), s.n.name);
      }
    }
  }

  lemma ScaleUpFollows(env: Env, s: Step)
    ensures Follows(s, ScaleUp(env, s))
  {
    hide Grows, SetReplicas, RefreshHashes;
    var (scaled, n1, w1) := SetReplicas(env, s.n, s.w, 1);
    SetReplicasGrows(env, s.n, s.w, 1);
    if scaled {
      var (back, w2) := RejoinPoll(env, w1, n1.name, n1.clusterSize);
      GrowsTransitive(s.w, w1, w2, s.n.name);
      RefreshHashesGrows(env, n1, w2);
      GrowsTransitive(s.w, w2, RefreshHashes(env, n1, w2).1, s.n.name);
    }
  }

  lemma RollOutFollows(env: Env, s: Step)
    ensures Follows(s, RollOut(env, s))
  {
    hide Grows, SetPaused, RefreshHashes;
    var (_, n1, w1) := SetPaused(env, s.n, s.w, false);
    SetPausedGrows(env, s.n, s.w, false);
    var (rolled, n2, w2) := RolloutPoll(env, n1, w1);
    RolloutPollGrows(env, n1, w1);
    GrowsTransitive(s.w, w1, w2, s.n.name);
    if rolled {
      var (_, n3, w3) := SetPaused(env, n2, w2, true);
      SetPausedGrows(env, n2, w2, true);
      GrowsTransitive(s.w, w2, w3, s.n.name);
      var (n4, w4) := RefreshHashes(env, n3, w3);
      RefreshHashesGrows(env, n3, w3);
      GrowsTransitive(s.w, w3, w4, s.n.name);
      GrowsTransitive(s.w, w4, RejoinPoll(env, w4, n4.name, n4.clusterSize).1, s.n.name);
    }
  }

  lemma RecycleFollows(env: Env, s: Step, updating: bool)
    ensures Follows(s, Recycle(env, s, updating))
  {
    hide Grows, RollOut, ScaleUp;
    GrowsReflexive(s.w, s.n.name);
    if s.go && s.u.phase == NodeRestarting {
      var t := if updating then RollOut(env, s) else ScaleUp(env, s);
      if updating {
        RollOutFollows(env, s);
      } else {
        ScaleUpFollows(env, s);
      }
      if t.go {
        FollowsTransitive(s, t, Reenable(env, t));
      }
    }
  }

  lemma RecoverFollows(env: Env, s: Step)
    ensures Follows(s, Recover(env, s))
  {
    hide Grows;
    GrowsReflexive(s.w, s.n.name);
    if s.go && s.u.phase == RecoveringData {
      var (green, w1) := Health(env, s.w, s.n.name);
      NoteGrows(w1, Clear(s.n.name));
      GrowsTransitive(s.w, w1, Note(w1, Clear(s.n.name)), s.n.name);
    }
  }

  lemma CallFollows(env: Env, s: Step, updating: bool)
    ensures Follows(s, Call(env, s, updating))
  {
    hide Grows, BeginCycle, Apply, Drain, Recycle, Recover;
    var t := BeginCycle(env, s, !updating);
    BeginFollows(env, s, !updating);
    var x := if updating then Apply(env, t) else Drain(env, t);
    if updating {
      ApplyFollows(env, t);
    } else {
      DrainFollows(env, t);
    }
    FollowsTransitive(s, t, x);
    var y := Recycle(env, x, updating);
    RecycleFollows(env, x, updating);
    FollowsTransitive(s, x, y);
    RecoverFollows(env, y);
    FollowsTransitive(s, y, Recover(env, y));
  }
}
