/**
 * What becomes of a Deployment's update that wrote the spec but was cut short before recovery: the
 * evaluation that follows finds nothing to update, so a restart continues the cycle, and it can end
 * without the new spec ever having been seen to roll out.
 */
module InterruptedUpdate {
  import opened Base
  import opened Drift
  import opened Environment
  import opened Workload
  import opened DeploymentUpgrade
  import opened CleanCalls
  import opened CycleSafety
  import opened CallEffects
  import opened LostStatus
  import opened Reconcile
  import opened StatusIndex
  import NodeRollouts

  /** The server agrees with node.self. */
  ghost predicate Synced(n: NodeState, w: World) {
    n.name in w.objects && Agrees(w.objects[n.name], n.self.spec)
  }

  lemma ApplySyncs(env: Env, s: Step)
    requires s.go && AtStart(s.u.phase) && s.n.name in s.w.objects && env(s.w.pos + 2).ok && Apply(env, s).go
    ensures Synced(Apply(env, s).n, Apply(env, s).w)
  {
    var (disabled, w1) := SetAllocation(env, s.w, s.n.name, false);
    var f := Flush(env, w1, s.n.name);
    ExecuteUpdateSyncs(env, s.n, f);
    hide ExecuteUpdate, Agrees, Grows;
  }

  lemma ExecuteUpdateSyncs(env: Env, n: NodeState, w: World)
    requires n.name in w.objects && env(w.pos).ok && ExecuteUpdate(env, n, w).0
    ensures var r := ExecuteUpdate(env, n, w); r.1.name == n.name && Synced(r.1, r.2)
  {
    var server := w.objects[n.name];
    AgreesReflexive(Patch(server, n.self.spec));
    if Agrees(server, n.self.spec) {
      PatchOfAgreeing(server, n.self.spec);
    }
    hide Agrees, Patch, OutOfRange, Grows;
  }

  lemma SetPausedSyncs(env: Env, n: NodeState, w: World, paused: bool)
    requires Synced(n, w)
    ensures var r := SetPaused(env, n, w, paused); r.1.name == n.name && Synced(r.1, r.2)
  {
    SetPausedGrows(env, n, w, paused);
    SelfAfterPause(env, n, w, paused);
    hide SetPaused, Grows, Agrees;
    var (_, n', w') := SetPaused(env, n, w, paused);
    SameComparedAgrees(w'.objects[n.name], w.objects[n.name], n.self.spec);
    SameComparedAgrees(n'.self.spec, n.self.spec, w'.objects[n.name]);
  }

  lemma SelfAfterPause(env: Env, n: NodeState, w: World, paused: bool)
    ensures SameCompared(SetPaused(env, n, w, paused).1.self.spec, n.self.spec)
  {
  }

  lemma RolloutPollSyncs(env: Env, n: NodeState, w: World)
    requires Synced(n, w)
    ensures var r := RolloutPoll(env, n, w); r.1.name == n.name && Synced(r.1, r.2)
  {
    AgreesReflexive(w.objects[n.name]);
    hide Agrees;
  }

  lemma RollOutSyncs(env: Env, s: Step)
    requires Synced(s.n, s.w)
    ensures Synced(RollOut(env, s).n, RollOut(env, s).w)
  {
    hide SetPaused, RolloutPoll, RefreshHashes, Grows, Agrees, FirstAtLeast;
    var (_, n1, w1) := SetPaused(env, s.n, s.w, false);
    SetPausedSyncs(env, s.n, s.w, false);
    var (rolled, n2, w2) := RolloutPoll(env, n1, w1);
    RolloutPollSyncs(env, n1, w1);
    if rolled {
      var (_, n3, w3) := SetPaused(env, n2, w2, true);
      SetPausedSyncs(env, n2, w2, true);
      RefreshHashesGrows(env, n3, w3);
      RefreshKeepsSelf(env, n3, w3);
    }
  }

  lemma RefreshKeepsSelf(env: Env, n: NodeState, w: World)
    ensures RefreshHashes(env, n, w).0.self == n.self
  {
  }

  lemma RecycleSyncs(env: Env, s: Step)
    requires Synced(s.n, s.w)
    ensures Synced(Recycle(env, s, true).n, Recycle(env, s, true).w)
  {
    RollOutSyncs(env, s);
    hide RollOut, Agrees;
  }

  /**
   * An update that could read the workload and then stops in NodeRestarting looks done: the evaluation
   * right after it schedules no upgrade, whether or not it can read.
   */
  lemma InterruptedUpdateLooksDone(env: Env, s: Step)
    requires s.go && AtStart(s.u.phase) && s.n.name in s.w.objects
    requires env(s.w.pos + if s.u.under == IsTrue then 2 else 4).ok
    requires Call(env, s, true).u.phase == NodeRestarting
    ensures var t := Call(env, s, true); State(env, t.n, t.w).0 == Blank
  {
    var a, b, c := UpdateParts(env, s);
    hide BeginCycle, Apply, Recycle, Call, Agrees, Advances, State, Recover;
    ApplySyncs(env, a);
    RecycleSyncs(env, b);
    SyncedLooksDone(env, Call(env, s, true).n, Call(env, s, true).w);
  }

  lemma SyncedLooksDone(env: Env, n: NodeState, w: World)
    requires Synced(n, w)
    ensures State(env, n, w).0 == Blank
  {
    hide Agrees, Patch, Grows;
  }

  /** And a pass continues a node that is not scheduled for an upgrade with a restart. */
  lemma UnscheduledContinuesAsRestart(c: Cluster)
    requires Indexed(c) && ModeOf(c).Continue?
    ensures var i := ModeOf(c).i;
            ModeOf(c).updating <==> UpgradeScheduled(EntryOf(c.mem, c.nodes[i].name))
  {
    var i := ModeOf(c).i;
    NodeRollouts.ModeFacts(c, i, c.nodes[i].name);
  }

  // ----- an example -----

  const OLD := BLANK_SPEC.(paused := true, replicas := 1, containers := [Container("old", map[], map[], "")])
  const NEW := BLANK_SPEC.(containers := [Container("new", map[], map[], "")])

  const STEADY: Env := _ => GOOD

  function Drifted(): Step {
    Step(NodeState(Deployment, "es", Object(true, None, NEW), "", "", "", 0), NEW_UPGRADE.(scheduledUpgrade := IsTrue),
         World(map["es" := OLD], true, [], 0, true, true, true, true), true)
  }

  const UNPAUSED := BLANK_SPEC.(replicas := 1, containers := [Container("new", map[], map[], "")])

  /** After the first block of the update the spec is written. */
  lemma AppliesNew()
    ensures var b := Apply(STEADY, BeginCycle(STEADY, Drifted(), false));
            && b.go && b.u == Drifted().u.(under := IsTrue, phase := NodeRestarting) && b.n.name == "es"
            && b.n.clusterSize == 1 && b.n.revision == "1" && b.n.self.spec == UNPAUSED.(paused := true)
            && b.w.objects == map["es" := UNPAUSED.(paused := true)]
            && forall i :: 0 <= i < |b.w.log| ==> !b.w.log[i].RolledOut?
  {
    hide Grows;
    var a := BeginCycle(STEADY, Drifted(), false);
    assert a.go && a.w.objects == map["es" := OLD] && a.n == Drifted().n.(clusterSize := 1);
    assert a.w.log == [HealthRead("es", true), Begin("es")];
    assert !ContainerAgrees(OLD.containers[0], NEW.containers[0]);
    assert Patch(OLD, NEW).containers == UNPAUSED.containers;
    assert Patch(OLD, NEW) == UNPAUSED.(paused := true);
  }

  /** The second block unpauses and sees no new revision. */
  lemma SeesNoRollout(s: Step)
    requires s.go && s.u.phase == NodeRestarting && s.n.name == "es" && s.n.revision == "1"
    requires s.w.objects == map["es" := UNPAUSED.(paused := true)]
    requires forall i :: 0 <= i < |s.w.log| ==> !s.w.log[i].RolledOut?
    ensures var c := Recycle(STEADY, s, true);
            && !c.go && c.u == s.u && c.n.name == "es" && c.n.clusterSize == s.n.clusterSize
            && c.w.objects == map["es" := UNPAUSED]
            && forall i :: 0 <= i < |c.w.log| && c.w.log[i].RolledOut? ==> !c.w.log[i].ok
  {
    hide Grows;
    var (ok, n1, w1) := SetPaused(STEADY, s.n, s.w, false);
    assert ok && w1.objects == map["es" := UNPAUSED] && n1.name == "es" && n1.revision == "1";
    assert w1.log == s.w.log + [Paused("es", false, false, true)];
    var (rolled, n2, w2) := RolloutPoll(STEADY, n1, w1);
    assert !rolled && w2.log == w1.log + [RolledOut("es", "1", "1", false)];
    hide SetPaused, RolloutPoll;
  }

  /** The restart that continues runs to its end, with the Deployment as it is. */
  lemma RestartEnds(s: Step)
    requires s.go && s.u.under == IsTrue && s.u.phase == NodeRestarting && s.n.name == "es" && s.n.clusterSize == 1
    requires s.w.objects == map["es" := UNPAUSED]
    requires forall i :: 0 <= i < |s.w.log| && s.w.log[i].RolledOut? ==> !s.w.log[i].ok
    ensures var r := Call(STEADY, s, false);
            && r.go && r.u == s.u.(under := Blank, phase := ControllerUpdated) && r.w.allocation
            && r.w.objects == map["es" := UNPAUSED]
            && forall i :: 0 <= i < |r.w.log| && r.w.log[i].RolledOut? ==> !r.w.log[i].ok
  {
    hide Grows;
    assert BeginCycle(STEADY, s, true) == s && Drain(STEADY, s) == s;
    var (ok, n1, w1) := SetReplicas(STEADY, s.n, s.w, 1);
    assert ok && w1.objects == s.w.objects && w1.log == s.w.log + [Scaled("es", 1, 1, true)];
    assert n1.name == "es" && n1.clusterSize == 1;
    hide SetReplicas;
    var (back, w2) := RejoinPoll(STEADY, w1, n1.name, n1.clusterSize);
    assert back && w2.log == w1.log + [Rejoin("es", Size(1), true)];
    var c := Recycle(STEADY, s, false);
    assert c.go && c.u == s.u.(phase := RecoveringData) && c.w.log == w2.log + [Allocation("es", true, true)];
    assert c.w.allocation && c.w.objects == w1.objects && c.n.name == "es";
    hide Recycle;
    assert Recover(STEADY, c).w.log == c.w.log + [HealthRead("es", true), Clear("es")];
  }

  /**
   * Every call succeeds, but no new revision shows up within the poll.  The update stops, and the
   * restart that continues the cycle ends it: allocation is enabled and the upgrade cleared although
   * no rollout was seen, and the Deployment is left unpaused.
   */
  lemma UpdateEndsWithoutRollout()
    ensures var t := Call(STEADY, Drifted(), true);
            var (up, redo, n, w) := State(STEADY, t.n, t.w);
            var u := t.u.(scheduledUpgrade := up, scheduledRedeploy := redo);
            var r := Call(STEADY, Step(n, u, w, true), false);
            && t.u.under == IsTrue && t.u.phase == NodeRestarting && up == Blank
            && r.go && r.u.under == Blank && r.u.phase == ControllerUpdated && r.w.allocation
            && (forall i :: 0 <= i < |r.w.log| && r.w.log[i].RolledOut? ==> !r.w.log[i].ok)
            && "es" in r.w.objects && !r.w.objects["es"].paused
  {
    var b := Apply(STEADY, BeginCycle(STEADY, Drifted(), false));
    AppliesNew();
    SeesNoRollout(b);
    var t := Call(STEADY, Drifted(), true);
    assert t == Recycle(STEADY, b, true);
    hide BeginCycle, Apply, Recycle, Call, State;
    InterruptedUpdateLooksDone(STEADY, Drifted());
    StateGrows(STEADY, t.n, t.w);
    StateKeepsSize(STEADY, t.n, t.w);
    var (up, redo, n, w) := State(STEADY, t.n, t.w);
    RestartEnds(Step(n, t.u.(scheduledUpgrade := up, scheduledRedeploy := redo), w, true));
  }

  lemma StateKeepsSize(env: Env, n: NodeState, w: World)
    ensures State(env, n, w).2.clusterSize == n.clusterSize
  {
    hide Agrees, Patch, Grows;
  }
}
