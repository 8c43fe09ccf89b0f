/** What creating, helping, updating and restarting one node leave untouched, whatever its kind. */
module Footprint {
  import opened Base
  import opened Drift
  import opened Environment
  import opened Workload
  import Dep = DeploymentUpgrade
  import Sts = StatefulSetUpgrade
  import opened Reconcile

  /** Events that neither open or close a cycle nor set allocation. */
  ghost predicate QuietSince(log: seq<Event>, log': seq<Event>) {
    log <= log' && forall i :: |log| <= i < |log'| ==> Harmless(log'[i]) || log'[i].MinMasters? || log'[i].Deleted?
  }

  /** Only harmless events are added. */
  ghost predicate HarmlessOnly(log: seq<Event>, log': seq<Event>) {
    log <= log' && forall i :: |log| <= i < |log'| ==> Harmless(log'[i])
  }

  ghost predicate SamePartition(w: World, w': World, name: string) {
    name in w.objects ==> name in w'.objects && w'.objects[name].partition == w.objects[name].partition
  }

  /** The same node, in a world grown by its own quiet work; its partition and recorded size stay. */
  ghost predicate Quiet(n: NodeState, w: World, n': NodeState, w': World) {
    && n'.name == n.name && n'.kind == n.kind && n'.clusterSize == n.clusterSize
    && Grows(w, w', n.name) && HarmlessOnly(w.log, w'.log) && w'.allocation == w.allocation
    && SamePartition(w, w', n.name)
  }

  lemma QuietTransitive(a: NodeState, wa: World, b: NodeState, wb: World, c: NodeState, wc: World)
    requires Quiet(a, wa, b, wb) && Quiet(b, wb, c, wc)
    ensures Quiet(a, wa, c, wc)
  {
    GrowsTransitive(wa, wb, wc, a.name);
    assert forall i :: |wa.log| <= i < |wb.log| ==> wc.log[i] == wb.log[i];
  }

  lemma ReloadQuiet(env: Env, n: NodeState, w: World)
    ensures var r := Reload(env, n, w); Quiet(n, w, r.1, r.2)
  {
    hide Grows;
  }

  lemma SetPausedQuiet(env: Env, n: NodeState, w: World, paused: bool)
    ensures var r := SetPaused(env, n, w, paused); Quiet(n, w, r.1, r.2)
  {
    SetPausedGrows(env, n, w, paused);
    hide Grows;
  }

  lemma SetReplicasQuiet(env: Env, n: NodeState, w: World, replicas: int)
    ensures var r := SetReplicas(env, n, w, replicas); Quiet(n, w, r.1, r.2)
  {
    SetReplicasGrows(env, n, w, replicas);
    hide Grows;
  }

  lemma RefreshHashesQuiet(env: Env, n: NodeState, w: World)
    ensures var r := RefreshHashes(env, n, w); Quiet(n, w, r.0, r.1)
  {
    RefreshHashesGrows(env, n, w);
    hide RefreshHashes, Grows;
  }

  lemma IsChangedQuiet(env: Env, n: NodeState, w: World)
    ensures var r := IsChanged(env, n, w); Quiet(n, w, r.1, r.2)
  {
    hide Grows, Agrees, Patch;
  }

  lemma ExecuteUpdateQuiet(env: Env, n: NodeState, w: World)
    ensures var r := ExecuteUpdate(env, n, w); Quiet(n, w, r.1, r.2)
  {
    ExecuteUpdateGrows(env, n, w);
    hide Grows, Agrees, Patch, OutOfRange;
    if n.name in w.objects {
      PatchKeepsTheRest(w.objects[n.name], n.self.spec);
    }
  }

  lemma StateQuiet(env: Env, n: NodeState, w: World)
    ensures var r := State(env, n, w); Quiet(n, w, r.2, r.3) && r.3.log == w.log
  {
    StateGrows(env, n, w);
    hide Grows, Agrees, Patch;
  }

  lemma TickQuiet(n: NodeState, n': NodeState, w: World, ok: bool)
    requires n'.name == n.name && n'.kind == n.kind && n'.clusterSize == n.clusterSize
    ensures Quiet(n, w, n', Tick(w, ok))
  {
  }

  lemma CreateQuiet(env: Env, n: NodeState, n': NodeState, w: World)
    requires n'.name == n.name && n'.kind == n.kind && n'.clusterSize == n.clusterSize
    ensures Quiet(n, w, n', Create(env, w, n.name, n.self.spec).1)
  {
    hide Grows;
  }

  lemma CreateDeploymentQuiet(env: Env, n: NodeState, w: World)
    ensures var r := Dep.CreateNode(env, n, w); Quiet(n, w, r.1, r.2)
  {
    hide Quiet, SetPaused, RefreshHashes, Create;
    if !n.self.unsaved {
      SetPausedQuiet(env, n, w, true);
    } else {
      var (result, w1) := Create(env, w, n.name, n.self.spec);
      CreateQuiet(env, n, n, w);
      match result
      case CreateFailed =>
      case AlreadyExists =>
        SetPausedQuiet(env, n, w1, true);
        QuietTransitive(n, w, n, w1, SetPaused(env, n, w1, true).1, SetPaused(env, n, w1, true).2);
      case Created =>
        var n1 := n.(self := n.self.(unsaved := false));
        CreateQuiet(env, n, n1, w);
        var (rolled, n2, w2) := InitialRolloutPoll(env, n1, w1);
        TickQuiet(n1, n2, w1, rolled);
        QuietTransitive(n, w, n1, w1, n2, w2);
        if rolled {
          var (n3, w3) := RefreshHashes(env, n2, w2);
          RefreshHashesQuiet(env, n2, w2);
          QuietTransitive(n, w, n2, w2, n3, w3);
          SetPausedQuiet(env, n3, w3, true);
          QuietTransitive(n, w, n3, w3, SetPaused(env, n3, w3, true).1, SetPaused(env, n3, w3, true).2);
        }
    }
  }

  lemma ScaleQuiet(env: Env, n: NodeState, w: World)
    ensures var r := Sts.Scale(env, n, w); Quiet(n, w, r.0, r.1)
  {
    hide Quiet, SetReplicas;
    var desired := n.self.spec.replicas;
    var (ok, n1, w1) := Reload(env, n, w);
    ReloadQuiet(env, n, w);
    if ok && n1.self.spec.replicas != desired {
      SetReplicasQuiet(env, n1, w1, desired);
      QuietTransitive(n, w, n1, w1, SetReplicas(env, n1, w1, desired).1, SetReplicas(env, n1, w1, desired).2);
    }
  }

  lemma CreateNodeQuiet(env: Env, n: NodeState, w: World)
    ensures var r := CreateNode(env, n, w); Quiet(n, w, r.1, r.2)
  {
    hide Quiet, Sts.Scale, RefreshHashes, Create, Dep.CreateNode;
    if n.kind.Deployment? {
      CreateDeploymentQuiet(env, n, w);
    } else if !n.self.unsaved {
      ScaleQuiet(env, n, w);
    } else {
      var (result, w1) := Create(env, w, n.name, n.self.spec);
      CreateQuiet(env, n, n, w);
      match result
      case CreateFailed =>
      case AlreadyExists =>
        ScaleQuiet(env, n, w1);
        QuietTransitive(n, w, n, w1, Sts.Scale(env, n, w1).0, Sts.Scale(env, n, w1).1);
      case Created =>
        var n1 := n.(self := n.self.(unsaved := false));
        CreateQuiet(env, n, n1, w);
        RefreshHashesQuiet(env, n1, w1);
        QuietTransitive(n, w, n1, w1, RefreshHashes(env, n1, w1).0, RefreshHashes(env, n1, w1).1);
    }
  }

  lemma RolloutPollQuiet(env: Env, n: NodeState, w: World)
    ensures var r := RolloutPoll(env, n, w); Quiet(n, w, r.1, r.2)
  {
    RolloutPollGrows(env, n, w);
    hide Grows, RolloutPoll;
  }

  lemma RevisionQuiet(n: NodeState, w: World, n': NodeState, n'': NodeState, w': World)
    requires Quiet(n, w, n', w') && n''.name == n'.name && n''.kind == n'.kind && n''.clusterSize == n'.clusterSize
    ensures Quiet(n, w, n'', w')
  {
    hide Grows;
  }

  lemma ProgressDeploymentQuiet(env: Env, n: NodeState, w: World)
    ensures var r := Dep.Progress(env, n, w); Quiet(n, w, r.0, r.1)
  {
    hide Quiet, IsChanged, ExecuteUpdate, SetPaused, RolloutPoll;
    var (changed, n1, w1) := IsChanged(env, n, w);
    IsChangedQuiet(env, n, w);
    if changed {
      var (ok, n2, w2) := ExecuteUpdate(env, n1, w1);
      ExecuteUpdateQuiet(env, n1, w1);
      QuietTransitive(n, w, n1, w1, n2, w2);
      if ok {
        var (unpaused, n3, w3) := SetPaused(env, n2, w2, false);
        SetPausedQuiet(env, n2, w2, false);
        QuietTransitive(n, w, n2, w2, n3, w3);
        if unpaused {
          var (rolled, n4, w4) := RolloutPoll(env, n3, w3);
          var n5 := if rolled then n4.(revision := Revision(n4)) else n4;
          RolloutPollQuiet(env, n3, w3);
          assert Quiet(n3, w3, n5, w4) by {
            RevisionQuiet(n3, w3, n4, n5, w4);
          }
          QuietTransitive(n, w, n3, w3, n5, w4);
          SetPausedQuiet(env, n5, w4, true);
          QuietTransitive(n, w, n5, w4, SetPaused(env, n5, w4, true).1, SetPaused(env, n5, w4, true).2);
        }
      }
    }
  }

  lemma ProgressNodeQuiet(env: Env, n: NodeState, w: World)
    ensures var r := ProgressNode(env, n, w); Quiet(n, w, r.0, r.1)
  {
    hide Quiet, IsChanged, ExecuteUpdate, Dep.Progress;
    if n.kind.Deployment? {
      ProgressDeploymentQuiet(env, n, w);
    } else {
      var (changed, n1, w1) := IsChanged(env, n, w);
      IsChangedQuiet(env, n, w);
      if changed {
        var (ok, n2, w2) := ExecuteUpdate(env, n1, w1);
        ExecuteUpdateQuiet(env, n1, w1);
        QuietTransitive(n, w, n1, w1, n2, w2);
        if ok {
          var (found, ordinal, w3) := Sts.ReadPartition(env, n2, w2);
          TickQuiet(n2, n2, w2, found);
          QuietTransitive(n, w, n2, w2, n2, w3);
          if found {
            DeletePodQuiet(env, n, n2, w3, ordinal);
            QuietTransitive(n, w, n2, w3, n2, DeletePodCall(env, w3, n.name, ordinal).1);
          }
        }
      }
    }
  }

  lemma DeletePodQuiet(env: Env, n: NodeState, n': NodeState, w: World, ordinal: int)
    requires n'.name == n.name
    ensures Quiet(n', w, n', DeletePodCall(env, w, n'.name, ordinal).1)
  {
    hide Grows;
  }

  // ----- update and restart -----

  /** The footprint of a call on one node; only a Deployment's call may set allocation. */
  lemma CallNodeFollows(env: Env, s: Step, updating: bool)
    ensures var t := CallNode(env, s, updating);
            Follows(s, t) && (s.n.kind.StatefulSet? ==> t.w.allocation == s.w.allocation)
  {
    hide Grows, Dep.Call, Sts.Call;
    if s.n.kind.Deployment? {
      Dep.CallFollows(env, s, updating);
    } else {
      Sts.CallTame(env, s, updating);
    }
  }

  lemma TreatFollows(env: Env, n: NodeState, e: Entry, w: World, updating: bool)
    ensures var (n', e', w') := Treat(env, n, e, w, updating);
            var s := CallNode(env, Step(n, e.upgrade, w, true), updating);
            && n'.name == n.name && n'.kind == n.kind && Grows(w, w', n.name)
            && w'.log == s.w.log && w'.allocation == s.w.allocation
            && e'.deploymentName == e.deploymentName && e'.statefulSetName == e.statefulSetName
            && e'.unschedulable == e.unschedulable
            && e'.upgrade.under == s.u.under && e'.upgrade.phase == s.u.phase
  {
    hide Grows, CallNode, State;
    var s := CallNode(env, Step(n, e.upgrade, w, true), updating);
    CallNodeFollows(env, Step(n, e.upgrade, w, true), updating);
    StateGrows(env, s.n, s.w);
    GrowsTransitive(w, s.w, State(env, s.n, s.w).3, n.name);
  }

  lemma RaiseFollows(env: Env, n: NodeState, e: Entry, isNew: bool, w: World)
    ensures var (ok, n', e', w') := Raise(env, n, e, isNew, w);
            && Quiet(n, w, n', w')
            && e'.upgrade.under == e.upgrade.under && e'.upgrade.phase == e.upgrade.phase
            && e'.unschedulable == e.unschedulable
            && (!isNew ==> e'.deploymentName == e.deploymentName && e'.statefulSetName == e.statefulSetName)
            && (ok && isNew ==> e'.deploymentName == if n.kind.Deployment? then n.name else "")
            && (ok && isNew ==> e'.statefulSetName == if n.kind.Deployment? then "" else n.name)
  {
    var (ok, n1, w1) := CreateNode(env, n, w);
    CreateNodeQuiet(env, n, w);
    assert n1.name == n.name && n1.kind == n.kind;
    hide Quiet, CreateNode;
    if ok {
      StateQuiet(env, n1, w1);
      StateGrows(env, n1, w1);
      hide State;
      QuietTransitive(n, w, n1, w1, State(env, n1, w1).2, State(env, n1, w1).3);
    }
  }
}
