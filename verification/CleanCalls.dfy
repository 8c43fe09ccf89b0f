/**
 * What a Deployment's procedures achieve when every external call succeeds (the flag clean),
 * health is green and the secret does not change: update makes the server's workload agree
 * with the desired spec, restart leaves the compared fields alone, and both finish the cycle
 * with a current secret hash.
 */
module CleanCalls {
  import opened Base
  import opened Comparison
  import opened Drift
  import opened Environment
  import opened Workload
  import opened DeploymentUpgrade

  /** The secret's hash is the same at every read. */
  ghost predicate FixedSecret(env: Env, hash: string) {
    forall i :: env(i).secretHash == hash
  }

  /** Equal in every field that drift detection compares. */
  ghost predicate SameCompared(a: Spec, b: Spec) {
    a.selector == b.selector && a.tolerations == b.tolerations && a.containers == b.containers
  }

  lemma SameComparedAgrees(a: Spec, b: Spec, desired: Spec)
    requires SameCompared(a, b)
    ensures Agrees(a, desired) <==> Agrees(b, desired)
    ensures Agrees(desired, a) <==> Agrees(desired, b)
  {
  }

  lemma SameComparedSelf(a: Spec, b: Spec)
    requires SameCompared(a, b)
    ensures Agrees(a, b)
  {
    SameComparedAgrees(a, b, b);
    AgreesReflexive(b);
  }

  /** The server has the node's object, with the compared fields of spec. */
  ghost predicate ServerHas(w: World, name: string, spec: Spec) {
    name in w.objects && SameCompared(w.objects[name], spec)
  }

  // ----- shared operations -----

  lemma CleanIsChanged(env: Env, n: NodeState, w: World)
    requires IsChanged(env, n, w).2.clean
    ensures var (changed, n', w') := IsChanged(env, n, w);
            && n.name in w.objects && w'.objects == w.objects
            && (changed <==> !Agrees(w.objects[n.name], n.self.spec))
            && n'.self.spec == Patch(w.objects[n.name], n.self.spec)
            && n' == n.(self := n'.self) && w.clean
  {
    hide Agrees, Patch, Grows;
  }

  lemma CleanExecuteUpdate(env: Env, n: NodeState, w: World)
    requires ExecuteUpdate(env, n, w).2.clean
    ensures var (ok, n', w') := ExecuteUpdate(env, n, w);
            && ok && n.name in w'.objects && Agrees(w'.objects[n.name], n.self.spec)
            && n' == n.(self := n'.self)
  {
    var (changed, n1, w1) := IsChanged(env, n, w);
    ExecuteUpdateGrows(env, n, w);
    assert w1.clean;
    CleanIsChanged(env, n, w);
    PatchAgrees(w.objects[n.name], n.self.spec);
    hide Agrees, Patch, IsChanged, Grows;
  }

  lemma CleanSetPaused(env: Env, n: NodeState, w: World, paused: bool)
    requires SetPaused(env, n, w, paused).2.clean
    ensures var (ok, n', w') := SetPaused(env, n, w, paused);
            && ok && n.name in w.objects && n.name in w'.objects
            && w'.objects[n.name] == w.objects[n.name].(paused := paused)
            && SameCompared(n'.self.spec, n.self.spec) && n' == n.(self := n'.self)
            && n'.self.unsaved == n.self.unsaved
  {
    hide Grows;
  }

  lemma CleanSetReplicas(env: Env, n: NodeState, w: World, replicas: int)
    requires SetReplicas(env, n, w, replicas).2.clean
    ensures var (ok, n', w') := SetReplicas(env, n, w, replicas);
            && ok && n.name in w.objects && n.name in w'.objects
            && w'.objects[n.name] == w.objects[n.name].(replicas := replicas)
            && n'.self.spec == w'.objects[n.name] && n' == n.(self := n'.self)
  {
    hide Grows;
  }

  lemma CleanRefreshHashes(env: Env, n: NodeState, w: World, hash: string)
    requires FixedSecret(env, hash) && RefreshHashes(env, n, w).1.clean
    ensures var (n', w') := RefreshHashes(env, n, w);
            n'.secretHash == hash && n' == n.(configHash := n'.configHash, secretHash := hash) && w'.objects == w.objects
  {
  }

  lemma CleanState(env: Env, n: NodeState, w: World, hash: string)
    requires FixedSecret(env, hash) && State(env, n, w).3.clean
    ensures var (up, redo, n', w') := State(env, n, w);
            && n.name in w.objects && w'.objects == w.objects
            && up == (if Agrees(w.objects[n.name], n.self.spec) then Blank else IsTrue)
            && redo == (if n.secretHash == hash then Blank else IsTrue)
            && n'.secretHash == n.secretHash
  {
    CleanIsChanged(env, n, w);
    hide IsChanged;
  }

  // ----- the blocks of a call -----

  lemma CleanBegin(env: Env, s: Step, sizeRequired: bool)
    requires BeginCycle(env, s, sizeRequired).w.clean
    ensures var t := BeginCycle(env, s, sizeRequired);
            && t.go == s.go && t.u == s.u.(under := IsTrue) && t.w.objects == s.w.objects
            && t.n == s.n.(clusterSize := t.n.clusterSize)
  {
    hide Grows;
  }

  lemma CleanApply(env: Env, s: Step)
    requires s.go && AtStart(s.u.phase) && Apply(env, s).w.clean
    ensures var t := Apply(env, s);
            && t.go && t.u == s.u.(phase := NodeRestarting) && t.n.name == s.n.name && t.n.kind == s.n.kind
            && s.n.name in t.w.objects && Agrees(t.w.objects[s.n.name], s.n.self.spec)
  {
    var (disabled, w1) := SetAllocation(env, s.w, s.n.name, false);
    var f := Flush(env, w1, s.n.name);
    ExecuteUpdateGrows(env, s.n, f);
    hide Grows, Agrees;
    if disabled {
      assert Apply(env, s).w.objects == ExecuteUpdate(env, s.n, f).2.objects && ExecuteUpdate(env, s.n, f).2.clean;
      CleanExecuteUpdate(env, s.n, f);
      hide ExecuteUpdate;
    }
  }

  lemma CleanDrain(env: Env, s: Step)
    requires s.go && AtStart(s.u.phase) && Drain(env, s).w.clean
    ensures var t := Drain(env, s);
            && t.go && t.u == s.u.(phase := NodeRestarting) && t.n.name == s.n.name && t.n.kind == s.n.kind
            && s.n.name in s.w.objects && s.n.name in t.w.objects
            && t.w.objects[s.n.name] == s.w.objects[s.n.name].(replicas := t.w.objects[s.n.name].replicas)
  {
    var (ok, replicas, w0) := ReplicaCount(env, s.n, s.w);
    var w1 := Note(w0, Counted(s.n.name, replicas));
    if replicas > 0 {
      var (disabled, w2) := SetAllocation(env, w1, s.n.name, false);
      var f := Flush(env, w2, s.n.name);
      var (scaled, n3, w3) := SetReplicas(env, s.n, f, 0);
      SetReplicasGrows(env, s.n, f, 0);
      hide Grows, SetReplicas, FirstBelow;
      if disabled {
        assert w3.clean;
        CleanSetReplicas(env, s.n, f, 0);
        assert s.w.objects == f.objects;
      }
    }
  }

  lemma CleanScaleUp(env: Env, s: Step, hash: string)
    requires FixedSecret(env, hash) && ScaleUp(env, s).w.clean && s.go
    ensures var t := ScaleUp(env, s);
            && t.go && t.u == s.u && t.n.name == s.n.name && t.n.kind == s.n.kind && t.n.secretHash == hash
            && s.n.name in s.w.objects && s.n.name in t.w.objects
            && t.w.objects[s.n.name] == s.w.objects[s.n.name].(replicas := 1) && t.n.self.spec == t.w.objects[s.n.name]
  {
    var (scaled, n1, w1) := SetReplicas(env, s.n, s.w, 1);
    var (back, w2) := RejoinPoll(env, w1, n1.name, n1.clusterSize);
    RefreshHashesGrows(env, n1, w2);
    assert w1.clean;
    CleanSetReplicas(env, s.n, s.w, 1);
    hide Grows, SetReplicas, FirstAtLeast;
    assert back;
    CleanRefreshHashes(env, n1, w2, hash);
    hide RefreshHashes;
  }

  lemma CleanRollOut(env: Env, s: Step, hash: string)
    requires FixedSecret(env, hash) && RollOut(env, s).w.clean && s.go
    ensures var t := RollOut(env, s);
            && t.go && t.u == s.u && t.n.name == s.n.name && t.n.kind == s.n.kind && t.n.secretHash == hash
            && s.n.name in s.w.objects && s.n.name in t.w.objects
            && t.w.objects[s.n.name] == s.w.objects[s.n.name].(paused := true) && ServerHas(t.w, s.n.name, t.n.self.spec)
  {
    hide SetPaused, RefreshHashes, FirstAtLeast;
    var (_, n1, w1) := SetPaused(env, s.n, s.w, false);
    SetPausedGrows(env, s.n, s.w, false);
    var (rolled, n2, w2) := RolloutPoll(env, n1, w1);
    assert rolled;
    var (_, n3, w3) := SetPaused(env, n2, w2, true);
    SetPausedGrows(env, n2, w2, true);
    var (n4, w4) := RefreshHashes(env, n3, w3);
    RefreshHashesGrows(env, n3, w3);
    assert w4.clean;
    assert w3.clean && w2.clean && w1.clean;
    CleanSetPaused(env, s.n, s.w, false);
    CleanSetPaused(env, n2, w2, true);
    CleanRefreshHashes(env, n3, w3, hash);
  }

  /** The middle of a call, from NodeRestarting to RecoveringData. */
  lemma CleanRecycle(env: Env, s: Step, updating: bool, hash: string)
    requires FixedSecret(env, hash) && s.go && s.u.phase == NodeRestarting && Recycle(env, s, updating).w.clean
    ensures var t := Recycle(env, s, updating);
            && t.go && t.u == s.u.(phase := RecoveringData) && t.n.name == s.n.name && t.n.secretHash == hash
            && s.n.name in s.w.objects && ServerHas(t.w, s.n.name, t.n.self.spec)
            && t.w.objects[s.n.name] == if updating then s.w.objects[s.n.name].(paused := true)
                                        else s.w.objects[s.n.name].(replicas := 1)
  {
    hide RollOut, ScaleUp, Grows;
    var t := if updating then RollOut(env, s) else ScaleUp(env, s);
    assert t.w.clean;
    if updating {
      CleanRollOut(env, s, hash);
    } else {
      CleanScaleUp(env, s, hash);
    }
    var r := Reenable(env, t);
    assert t.go && r.w.objects == t.w.objects;
  }

  lemma CleanRecover(env: Env, s: Step)
    requires s.go && s.u.phase == RecoveringData && Recover(env, s).w.clean
    ensures var t := Recover(env, s);
            && t.go && t.u == s.u.(under := Blank, phase := ControllerUpdated)
            && t.n == s.n && t.w.objects == s.w.objects
  {
    hide Grows;
  }

  /**
   * Whatever phase a cycle was left in, a clean call finishes it; and unless only recovery was left
   * to do, an update leaves the Deployment paused, a restart with one replica, and both a current hash.
   */
  lemma CleanCallFinishes(env: Env, s: Step, updating: bool, hash: string)
    requires FixedSecret(env, hash) && s.go && Call(env, s, updating).w.clean
    ensures Call(env, s, updating).u == s.u.(under := Blank, phase := ControllerUpdated)
    ensures var t := Call(env, s, updating);
            s.u.phase != RecoveringData ==>
              && t.n.secretHash == hash && s.n.name in t.w.objects
              && if updating then t.w.objects[s.n.name].paused else t.w.objects[s.n.name].replicas == 1
  {
    hide BeginCycle, Apply, Drain, Recycle, Recover, Grows;
    var a := BeginCycle(env, s, !updating);
    var b := if updating then Apply(env, a) else Drain(env, a);
    var c := Recycle(env, b, updating);
    CleanPrefix(env, s, updating);
    CleanBegin(env, s, !updating);
    if AtStart(a.u.phase) {
      if updating {
        CleanApply(env, a);
      } else {
        CleanDrain(env, a);
      }
    } else {
      NotAtStart(env, a);
    }
    if b.u.phase == NodeRestarting {
      CleanRecycle(env, b, updating, hash);
    } else {
      NotRestarting(env, b, updating);
    }
    CleanRecover(env, c);
  }

  lemma NotAtStart(env: Env, s: Step)
    requires !AtStart(s.u.phase)
    ensures Apply(env, s) == s && Drain(env, s) == s
  {
  }

  lemma NotRestarting(env: Env, s: Step, updating: bool)
    requires s.u.phase != NodeRestarting
    ensures Recycle(env, s, updating) == s
  {
  }

  /** A clean call was clean after each of its blocks. */
  lemma CleanPrefix(env: Env, s: Step, updating: bool)
    requires Call(env, s, updating).w.clean
    ensures var a := BeginCycle(env, s, !updating);
            var b := if updating then Apply(env, a) else Drain(env, a);
            a.w.clean && b.w.clean && Recycle(env, b, updating).w.clean
  {
    hide BeginCycle, Apply, Drain, Recycle, Recover;
    var a := BeginCycle(env, s, !updating);
    var b := if updating then Apply(env, a) else Drain(env, a);
    var c := Recycle(env, b, updating);
    RecoverFollows(env, c);
    RecycleFollows(env, b, updating);
    if updating {
      ApplyFollows(env, a);
    } else {
      DrainFollows(env, a);
    }
  }

  /**
   * A clean call from the start finishes the cycle, refreshes the hash, leaves node.self with
   * the server's compared fields, and: an update makes the server agree with the desired spec and
   * leaves the Deployment paused; a restart leaves it with one replica and otherwise as it was.
   */
  lemma CleanCallFromStart(env: Env, s: Step, updating: bool, hash: string)
    requires FixedSecret(env, hash) && s.go && AtStart(s.u.phase) && Call(env, s, updating).w.clean
    ensures var t := Call(env, s, updating);
            && t.u == s.u.(under := Blank, phase := ControllerUpdated)
            && t.n.name == s.n.name && t.n.secretHash == hash
            && ServerHas(t.w, s.n.name, t.n.self.spec)
            && (updating ==> Agrees(t.w.objects[s.n.name], s.n.self.spec) && t.w.objects[s.n.name].paused)
            && (!updating ==> s.n.name in s.w.objects
                              && t.w.objects[s.n.name] == s.w.objects[s.n.name].(replicas := 1))
  {
    hide BeginCycle, Apply, Drain, Recycle, Recover, Agrees, Grows;
    var a := BeginCycle(env, s, !updating);
    var b := if updating then Apply(env, a) else Drain(env, a);
    var c := Recycle(env, b, updating);
    CleanCallFinishes(env, s, updating, hash);
    CleanPrefix(env, s, updating);
    CleanBegin(env, s, !updating);
    if updating {
      CleanApply(env, a);
    } else {
      CleanDrain(env, a);
    }
    CleanRecycle(env, b, updating, hash);
    CleanRecover(env, c);
    if updating {
      SameComparedAgrees(c.w.objects[s.n.name], b.w.objects[s.n.name], s.n.self.spec);
    }
  }

  /**
   * A clean creation succeeds and leaves the Deployment paused: a new one otherwise has the desired
   * spec, and a current hash; an existing one stays otherwise as it is, and node.self still holds the
   * desired compared fields.
   */
  lemma CleanCreate(env: Env, n: NodeState, w: World, hash: string)
    requires FixedSecret(env, hash) && CreateNode(env, n, w).2.clean
    ensures var (ok, n', w') := CreateNode(env, n, w);
            && ok && n'.name == n.name && SameCompared(n'.self.spec, n.self.spec) && n.name in w'.objects
            && w'.objects[n.name] == (if n.name in w.objects then w.objects[n.name] else n.self.spec).(paused := true)
            && n'.secretHash == if n.name in w.objects then n.secretHash else hash
  {
    if !n.self.unsaved {
      CleanSetPaused(env, n, w, true);
      hide SetPaused;
    } else {
      var (result, w1) := Create(env, w, n.name, n.self.spec);
      match result
      case CreateFailed =>
      case AlreadyExists =>
        CleanSetPaused(env, n, w1, true);
        hide SetPaused;
      case Created =>
        CleanCreateNew(env, n, w, hash);
    }
  }

  lemma CleanCreateNew(env: Env, n: NodeState, w: World, hash: string)
    requires FixedSecret(env, hash) && CreateNode(env, n, w).2.clean
    requires n.self.unsaved && Create(env, w, n.name, n.self.spec).0.Created?
    ensures var (ok, n', w') := CreateNode(env, n, w);
            && ok && n'.name == n.name && SameCompared(n'.self.spec, n.self.spec)
            && n.name !in w.objects && n.name in w'.objects && w'.objects[n.name] == n.self.spec.(paused := true)
            && n'.secretHash == hash
  {
    hide SetPaused, RefreshHashes, Grows;
    var (result, w1) := Create(env, w, n.name, n.self.spec);
    var (rolled, n2, w2) := InitialRolloutPoll(env, n.(self := n.self.(unsaved := false)), w1);
    assert rolled;
    var (n3, w3) := RefreshHashes(env, n2, w2);
    CleanSetPaused(env, n3, w3, true);
    SetPausedGrows(env, n3, w3, true);
    assert w3.clean by {
      CleanMonotone(w3, SetPaused(env, n3, w3, true).2, n3.name);
    }
    CleanRefreshHashes(env, n2, w2, hash);
  }

  lemma CleanMonotone(w: World, w': World, name: string)
    requires Grows(w, w', name) && w'.clean
    ensures w.clean
  {
  }
}
