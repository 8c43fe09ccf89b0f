/**
 * What one call of a Deployment's update or restart does to the server and in which order, cut
 * short anywhere, whatever fails: replicas, the pause, the rollout, the spec and the recorded size.
 */
module CallEffects {
  import opened Base
  import opened Drift
  import opened Environment
  import opened Workload
  import opened DeploymentUpgrade
  import opened CycleSafety
  import opened CleanCalls

  /** The call cleared the node's upgrade. */
  ghost predicate Clears(s: Step, t: Step) {
    |s.w.log| < |t.w.log| && t.w.log[|t.w.log| - 1] == Clear(s.n.name)
  }

  /** The call got beyond phase NodeRestarting. */
  ghost predicate Advances(s: Step, t: Step) {
    t.u.phase == RecoveringData || Clears(s, t)
  }

  /** Of the events since, none is an attempt to scale, pause, write or roll out, and none clears. */
  ghost predicate NoWork(log: seq<Event>, log': seq<Event>) {
    log <= log' && forall i :: |log| <= i < |log'| ==>
      log'[i].HealthRead? || log'[i].Begin? || log'[i].Rejoin? || log'[i].Allocation?
  }

  // ----- the blocks -----

  lemma BeginEffect(env: Env, s: Step, sizeRequired: bool)
    requires s.go
    ensures var t := BeginCycle(env, s, sizeRequired);
            && t.w.objects == s.w.objects && t.n == s.n.(clusterSize := t.n.clusterSize) && NoWork(s.w.log, t.w.log)
            && t.u == (if t.go then s.u.(under := IsTrue) else s.u)
            && (s.u.under == IsTrue ==> t == s)
            && (t.go && s.u.under != IsTrue ==>
                  t.w.pos == s.w.pos + 2 && t.n.clusterSize == if env(s.w.pos + 1).ok then env(s.w.pos + 1).size else 0)
  {
    hide Grows;
  }

  /** The second block of restart: one attempt to scale up, and when it ends well, the whole block. */
  lemma ScaleUpEffect(env: Env, s: Step)
    requires s.go && s.u.phase == NodeRestarting
    ensures var t := Recycle(env, s, false);
            var (ok, n1, w1) := SetReplicas(env, s.n, s.w, 1);
            && t.w.objects == w1.objects && NoWork(w1.log, t.w.log)
            && t.n.name == s.n.name && t.n.clusterSize == n1.clusterSize
            && (t.go <==> t.u.phase == RecoveringData)
            && (t.go ==> ok && ScaledUpAt(t.w.log, s.n.name, |t.w.log| - 1) && |t.w.log| == |s.w.log| + 3
                         && Observed(t.w.log[|t.w.log| - 2].seen) >= t.n.clusterSize)
  {
    SetReplicasGrows(env, s.n, s.w, 1);
    hide SetReplicas, RefreshHashes, Grows, FirstAtLeast, ScaledUpAt;
    var (scaled, n1, w1) := SetReplicas(env, s.n, s.w, 1);
    if scaled {
      var (back, w2) := RejoinPoll(env, w1, n1.name, n1.clusterSize);
      RefreshHashesGrows(env, n1, w2);
      assert w2.objects == w1.objects && NoWork(w1.log, w2.log);
      var j := w2.log[|w1.log|];
      if back {
        ScaledUpEnds(s.w.log, s.n.name, j);
        assert w2.log + [Allocation(s.n.name, true, true)]
            == s.w.log + [Scaled(s.n.name, 1, 1, true), j, Allocation(s.n.name, true, true)];
      }
    }
  }

  lemma ScaledUpEnds(log: seq<Event>, name: string, j: Event)
    requires j.Rejoin? && j.node == name && j.ok
    ensures ScaledUpAt(log + [Scaled(name, 1, 1, true), j, Allocation(name, true, true)], name, |log| + 2)
  {
  }

  /** The events of update's second block, when it ends well. */
  lemma RollOutEvents(env: Env, s: Step) returns (events: seq<Event>)
    requires s.go
    ensures var t := RollOut(env, s);
            && t.u == s.u && t.n.name == s.n.name && t.n.clusterSize == s.n.clusterSize && t.n.revision == s.n.revision
            && s.w.log <= t.w.log
            && (t.go ==>
                  && t.w.log == s.w.log + events && Rollout(events, s.n)
                  && s.n.name in t.w.objects && t.w.objects[s.n.name].paused == events[2].now)
  {
    hide SetPaused, RolloutPoll, RefreshHashes, Grows, FirstAtLeast;
    var (_, n1, w1) := SetPaused(env, s.n, s.w, false);
    SetPausedGrows(env, s.n, s.w, false);
    var (rolled, n2, w2) := RolloutPoll(env, n1, w1);
    RolloutPollGrows(env, n1, w1);
    if rolled {
      var (_, n3, w3) := SetPaused(env, n2, w2, true);
      SetPausedGrows(env, n2, w2, true);
      var (n4, w4) := RefreshHashes(env, n3, w3);
      RefreshHashesGrows(env, n3, w3);
      RefreshKeepsRevision(env, n3, w3);
      var (back, w5) := RejoinPoll(env, w4, n4.name, n4.clusterSize);
      events := [w1.log[|s.w.log|], w2.log[|w1.log|], w3.log[|w2.log|], w5.log[|w4.log|]];
    } else {
      events := [];
    }
  }

  /** Unpausing, a rollout away from the recorded revision, pausing, and the node back at the recorded size. */
  ghost predicate Rollout(events: seq<Event>, n: NodeState) {
    && |events| == 4
    && events[0].Paused? && events[0].node == n.name && !events[0].paused
    && events[1].RolledOut? && events[1].node == n.name && events[1].from == n.revision != events[1].to && events[1].ok
    && events[2].Paused? && events[2].node == n.name && events[2].paused && (events[2].ok ==> events[2].now)
    && BackAt(events, n.name, 3) && Observed(events[3].seen) >= n.clusterSize
  }

  /** The second block of update, likewise. */
  lemma RollOutEffect(env: Env, s: Step) returns (events: seq<Event>)
    requires s.go && s.u.phase == NodeRestarting
    ensures var t := Recycle(env, s, true);
            && t.n.name == s.n.name && t.n.clusterSize == s.n.clusterSize && t.n.revision == s.n.revision
            && (t.go <==> t.u.phase == RecoveringData) && s.w.log <= t.w.log
            && (t.go ==>
                  && t.w.log == s.w.log + events + [Allocation(s.n.name, true, true)] && Rollout(events, s.n)
                  && s.n.name in t.w.objects && t.w.objects[s.n.name].paused == events[2].now)
  {
    events := RollOutEvents(env, s);
    hide RollOut, Grows, Rollout;
  }

  lemma RefreshKeepsRevision(env: Env, n: NodeState, w: World)
    ensures RefreshHashes(env, n, w).0.revision == n.revision
  {
  }

  // ----- when a call gets on -----

  lemma NoClearTransitive(a: seq<Event>, b: seq<Event>, c: seq<Event>, name: string)
    requires NoClear(a, b, name) && NoClear(b, c, name)
    ensures NoClear(a, c, name)
  {
    forall i | |a| <= i < |c| ensures c[i] != Clear(name) {
      if i < |b| {
        assert c[i] == b[i];
      }
    }
  }

  lemma RecycleCloses(env: Env, s: Step, updating: bool)
    ensures var t := Recycle(env, s, updating);
            && NoClear(s.w.log, t.w.log, s.n.name) && t.n.name == s.n.name
            && (t.go ==> s.go && t.u.phase != NodeRestarting)
            && (s.u.phase == NodeRestarting && t.u.phase == RecoveringData ==> t.go)
  {
    hide RollOut, ScaleUp, Grows, Tails;
    if s.go && s.u.phase == NodeRestarting {
      if updating {
        RollOutShape(env, s);
      } else {
        ScaleUpShape(env, s);
      }
    }
  }

  /** The states of a call between its blocks. */
  ghost predicate Blocks(env: Env, s: Step, updating: bool, a: Step, b: Step, c: Step) {
    && a == BeginCycle(env, s, !updating)
    && b == (if updating then Apply(env, a) else Drain(env, a))
    && c == Recycle(env, b, updating)
  }

  /** Up to recovery a call clears nothing, and goes on only into recovery. */
  lemma BeforeRecovery(env: Env, s: Step, updating: bool, a: Step, b: Step, c: Step)
    requires s.go && Blocks(env, s, updating, a, b, c)
    ensures NoClear(s.w.log, c.w.log, s.n.name) && c.n.name == s.n.name
    ensures c.go ==> c.u == s.u.(under := IsTrue, phase := RecoveringData)
    ensures b.go || c == b
    ensures s.u.phase != RecoveringData ==> (c.u.phase == RecoveringData <==> c.go)
  {
    hide BeginCycle, Recycle, Apply, Drain, Grows, FirstBlock, NoClear, NoWork;
    BeginEffect(env, s, !updating);
    NoWorkClearsNothing(s.w.log, a.w.log, s.n.name);
    FirstBlockEffect(env, a, updating);
    RecycleCloses(env, b, updating);
    RecycleStatus(env, b, updating);
    BlockNames(env, s, updating, a, b, c);
    NoClearTransitive(s.w.log, a.w.log, b.w.log, s.n.name);
    NoClearTransitive(s.w.log, b.w.log, c.w.log, s.n.name);
  }

  lemma NoWorkClearsNothing(log: seq<Event>, log': seq<Event>, name: string)
    requires NoWork(log, log')
    ensures NoClear(log, log', name)
  {
  }

  /** The first block of either procedure: it ends in NodeRestarting, or leaves the status as it is. */
  lemma FirstBlockEffect(env: Env, s: Step, updating: bool)
    ensures var t := if updating then Apply(env, s) else Drain(env, s);
            && NoClear(s.w.log, t.w.log, s.n.name)
            && t.u == (if s.go && t.go && AtStart(s.u.phase) then s.u.(phase := NodeRestarting) else s.u)
            && (t.go ==> s.go) && (s.go && !AtStart(s.u.phase) ==> t == s)
  {
    if updating {
      ApplyShape(env, s);
    } else {
      DrainShape(env, s);
    }
    hide SetReplicas, ExecuteUpdate, Grows, NoClear, Heads;
  }

  lemma RecycleStatus(env: Env, s: Step, updating: bool)
    ensures var t := Recycle(env, s, updating);
            && (t.u == s.u || t.u == s.u.(phase := RecoveringData)) && (!s.go || s.u.phase != NodeRestarting ==> t == s)
            && (t.u != s.u ==> t.go)
  {
    hide RollOut, ScaleUp, Grows, Tails, NoClear;
    if s.go && s.u.phase == NodeRestarting {
      if updating {
        RollOutShape(env, s);
      } else {
        ScaleUpShape(env, s);
      }
    }
  }

  /**
   * A call clears the upgrade exactly if it runs to its end; and unless it began in recovery, it
   * gets beyond NodeRestarting exactly if its second block runs to the end.
   */
  lemma CallAdvances(env: Env, s: Step, updating: bool, a: Step, b: Step, c: Step)
    requires s.go && Blocks(env, s, updating, a, b, c)
    ensures var t := Call(env, s, updating);
            && t == Recover(env, c)
            && (Clears(s, t) <==> t.go) && (t.go ==> t.u == s.u.(under := Blank, phase := ControllerUpdated))
            && (s.u.phase != RecoveringData ==> (Advances(s, t) <==> c.go))
            && t.n == c.n && t.w.objects == c.w.objects && NoWorkButClear(c.w.log, t.w.log)
  {
    hide BeginCycle, Recycle, Apply, Drain, Recover, Grows, NoClear, NoWorkButClear;
    BeforeRecovery(env, s, updating, a, b, c);
    RecoverEffect(env, s.w.log, c);
  }

  lemma RecoverEffect(env: Env, log: seq<Event>, c: Step)
    requires NoClear(log, c.w.log, c.n.name) && (c.go ==> c.u.phase == RecoveringData)
    ensures var t := Recover(env, c);
            && (t.go <==> |log| < |t.w.log| && t.w.log[|t.w.log| - 1] == Clear(c.n.name))
            && t.u == (if t.go then c.u.(under := Blank, phase := ControllerUpdated) else c.u) && (t.go ==> c.go)
            && t.n == c.n && t.w.objects == c.w.objects && NoWorkButClear(c.w.log, t.w.log)
  {
    hide Grows;
  }

  ghost predicate NoWorkButClear(log: seq<Event>, log': seq<Event>) {
    log <= log' && forall i :: |log| <= i < |log'| ==> log'[i].HealthRead? || log'[i].Clear?
  }

  lemma BlockNames(env: Env, s: Step, updating: bool, a: Step, b: Step, c: Step)
    requires Blocks(env, s, updating, a, b, c)
    ensures a.n.name == b.n.name == c.n.name == s.n.name
  {
    hide BeginCycle, Apply, Drain, Recycle, Grows;
    BeginFollows(env, s, !updating);
    DrainFollows(env, a);
    ApplyFollows(env, a);
    RecycleFollows(env, b, updating);
  }

  // ----- restart: replicas -----

  /** A scale-down was acknowledged. */
  ghost predicate ScaledDown(events: seq<Event>, name: string) {
    Scaled(name, 0, 0, true) in events
  }

  /** A scale-up took effect, acknowledged or not. */
  ghost predicate ScaledUp(events: seq<Event>, name: string) {
    Scaled(name, 1, 1, true) in events || Scaled(name, 1, 1, false) in events
  }

  /** A positive count of replicas was read. */
  ghost predicate CountedSome(events: seq<Event>, name: string) {
    exists k :: k > 0 && Counted(name, k) in events
  }

  /** A beginning of restart's first block, as far as it came. */
  ghost predicate Draining(events: seq<Event>, name: string) {
    && 1 <= |events| <= 5
    && events[0].Counted? && events[0].node == name
    && (|events| > 1 ==> events[0].replicas > 0 && events[1].Allocation? && events[1].node == name && !events[1].enable)
    && (|events| > 2 ==> events[1].ok && FlushedAt(events, name, 2))
    && (|events| > 3 ==> events[3].Scaled? && events[3].node == name && events[3].replicas == 0)
    && (|events| > 4 ==> events[3].ok && events[4].Leave? && events[4].node == name)
  }

  lemma ScaleDownEvents(env: Env, n: NodeState, w: World) returns (events: seq<Event>)
    ensures var (scaled, n3, w3) := SetReplicas(env, n, Flush(env, w, n.name), 0);
            var (left, w4) := LeavePoll(env, w3, n3.name, n3.clusterSize);
            && |events| == (if scaled then 3 else 2) && FlushedAt(events, n.name, 0)
            && events[1].Scaled? && events[1].node == n.name && events[1].replicas == 0 && events[1].ok == scaled
            && (if scaled then w4 else w3).log == w.log + events
            && (scaled ==> events[1].left == 0 && events[2].Leave? && events[2].node == n.name
                           && n.name in w4.objects && w4.objects[n.name].replicas == 0)
  {
    var f := Flush(env, w, n.name);
    SetReplicasGrows(env, n, f, 0);
    hide SetReplicas, Grows, FirstBelow;
    var (scaled, n3, w3) := SetReplicas(env, n, f, 0);
    var (left, w4) := LeavePoll(env, w3, n3.name, n3.clusterSize);
    var down := w3.log[|f.log|];
    events := if scaled then [f.log[|w.log|], down, w4.log[|w3.log|]] else [f.log[|w.log|], down];
  }

  /** restart's first block: its events, and the replicas once the scale-down is acknowledged. */
  lemma DrainEvents(env: Env, s: Step) returns (events: seq<Event>)
    requires s.go && AtStart(s.u.phase)
    ensures var t, name := Drain(env, s), s.n.name;
            && t.w.log == s.w.log + events && Draining(events, name)
            && (|events| > 3 && events[3].ok ==> name in t.w.objects && t.w.objects[name].replicas == 0 == events[3].left)
            && (t.go ==> events[0].replicas <= 0 || |events| == 5)
  {
    hide SetReplicas, Flush, LeavePoll, Grows;
    var (_, replicas, w0) := ReplicaCount(env, s.n, s.w);
    var counted := Counted(s.n.name, replicas);
    var w1 := Note(w0, counted);
    if replicas <= 0 {
      events := [counted];
    } else {
      var (disabled, w2) := SetAllocation(env, w1, s.n.name, false);
      var disable := Allocation(s.n.name, false, disabled);
      events := [counted, disable];
      if disabled {
        var more := ScaleDownEvents(env, s.n, w2);
        events := events + more;
      }
    }
  }

  lemma DrainingParts(events: seq<Event>, name: string)
    requires Draining(events, name)
    ensures !ScaledUp(events, name)
    ensures ScaledDown(events, name) ==> |events| > 3 && events[3].ok
    ensures |events| == 5 && events[3].left == 0 ==> ScaledDown(events, name)
    ensures CountedSome(events, name) ==> events[0].replicas > 0
  {
  }

  /**
   * A restart that gets beyond NodeRestarting, from any phase before recovery, leaves the Deployment
   * with one replica; right before it has scaled up, seen the node back at the recorded size, and
   * enabled allocation.
   */
  lemma RestartLeavesOneReplica(env: Env, s: Step) returns (e: nat)
    requires s.go && s.u.phase != RecoveringData && Advances(s, Call(env, s, false))
    ensures var t := Call(env, s, false);
            && s.n.name in t.w.objects && t.w.objects[s.n.name].replicas == 1
            && |s.w.log| <= e - 2 && ScaledUpAt(t.w.log, s.n.name, e)
            && Observed(t.w.log[e - 1].seen) >= t.n.clusterSize
  {
    hide BeginCycle, Drain, Recycle, Call, Recover, NoWork, NoWorkButClear, NoClear, Grows, Advances, Clears;
    var a := BeginCycle(env, s, true);
    var b := Drain(env, a);
    var c := Recycle(env, b, false);
    BeginEffect(env, s, true);
    CallAdvances(env, s, false, a, b, c);
    BeforeRecovery(env, s, false, a, b, c);
    FirstBlockEffect(env, a, false);
    BlockNames(env, s, false, a, b, c);
    RecycleStatus(env, b, false);
    assert c.go && b.go && b.u.phase == NodeRestarting;
    NoWorkGrows(s.w.log, a.w.log);
    NoClearGrows(a.w.log, b.w.log, s.n.name);
    NoWorkGrows(c.w.log, Call(env, s, false).w.log);
    hide ScaledUpAt, SetReplicas, AtStart;
    ScaleUpEffect(env, b);
    SetReplicasGrows(env, b.n, b.w, 1);
    e := |c.w.log| - 1;
    ScaledUpExtends(c.w.log, Call(env, s, false).w.log, s.n.name, e);
  }

  lemma ScaledUpExtends(log: seq<Event>, log': seq<Event>, name: string, e: int)
    requires log <= log' && ScaledUpAt(log, name, e)
    ensures ScaledUpAt(log', name, e) && log'[e - 1] == log[e - 1]
  {
  }

  /** The attempt to scale up, and what it leaves. */
  ghost predicate ScalesUp(w: World, w': World, name: string, e: Event) {
    && NoWork(w.log + [e], w'.log)
    && e.Scaled? && e.node == name && e.replicas == 1
    && (e.left == if name in w'.objects then w'.objects[name].replicas else -1)
    && (name in w.objects ==>
          name in w'.objects && (w'.objects[name].replicas == 1 || w'.objects[name].replicas == w.objects[name].replicas))
  }

  lemma ScaleUpEvents(env: Env, s: Step) returns (e: Event)
    requires s.go && s.u.phase == NodeRestarting
    ensures ScalesUp(s.w, Recycle(env, s, false).w, s.n.name, e)
  {
    ScaleUpEffect(env, s);
    SetReplicasGrows(env, s.n, s.w, 1);
    hide SetReplicas, Recycle, Grows, ScaledUpAt, NoWork;
    var w1 := SetReplicas(env, s.n, s.w, 1).2;
    e := w1.log[|s.w.log|];
    assert w1.log == s.w.log + [e];
  }

  lemma NoWorkScalesNothing(log: seq<Event>, log': seq<Event>, name: string)
    requires NoWork(log, log') || NoWorkButClear(log, log')
    ensures var events := log'[|log|..];
            !ScaledDown(events, name) && !ScaledUp(events, name) && !CountedSome(events, name)
  {
  }

  lemma Suffixes(a: seq<Event>, b: seq<Event>, c: seq<Event>, name: string)
    requires a <= b <= c
    ensures c[|a|..] == b[|a|..] + c[|b|..]
    ensures ScaledDown(c[|a|..], name) <==> ScaledDown(b[|a|..], name) || ScaledDown(c[|b|..], name)
    ensures ScaledUp(c[|a|..], name) <==> ScaledUp(b[|a|..], name) || ScaledUp(c[|b|..], name)
    ensures CountedSome(c[|a|..], name) <==> CountedSome(b[|a|..], name) || CountedSome(c[|b|..], name)
  {
    assert c[|a|..] == b[|a|..] + c[|b|..];
  }

  /** The first two blocks of a restart, by their events. */
  lemma HoldsAfterRecycle(env: Env, a: Step, b: Step, c: Step)
    requires a.go && AtStart(a.u.phase) && b == Drain(env, a) && c == Recycle(env, b, false) && b.n.name == a.n.name
    ensures a.w.log <= c.w.log
    ensures var name, events := a.n.name, c.w.log[|a.w.log|..];
            && (ScaledDown(events, name) ==>
                  name in c.w.objects && c.w.objects[name].replicas == if ScaledUp(events, name) then 1 else 0)
            && (CountedSome(events, name) && b.go ==> ScaledDown(events, name))
  {
    var name := a.n.name;
    var events := DrainEvents(env, a);
    DrainingParts(events, name);
    FirstBlockEffect(env, a, false);
    assert b.w.log[|a.w.log|..] == events;
    hide Drain, Draining, NoClear;
    if b.go {
      var e := ScaleUpEvents(env, b);
      hide Recycle, NoWork, AtStart;
      var mid := b.w.log + [e];
      NoWorkGrows(mid, c.w.log);
      NoWorkScalesNothing(mid, c.w.log, name);
      Suffixes(b.w.log, mid, c.w.log, name);
      Suffixes(a.w.log, b.w.log, c.w.log, name);
      assert mid[|b.w.log|..] == [e];
    } else {
      assert c == b;
    }
  }

  /**
   * A restart from the start that acknowledges its scale-down leaves the Deployment without replicas,
   * unless its scale-up took effect, which leaves one; and it acknowledges the scale-down before it
   * gets to NodeRestarting, if it read a positive count of replicas.
   */
  lemma RestartHoldsAtZero(env: Env, s: Step)
    requires s.go && AtStart(s.u.phase)
    ensures s.w.log <= Call(env, s, false).w.log
    ensures var t, name := Call(env, s, false), s.n.name;
            var events := t.w.log[|s.w.log|..];
            && (ScaledDown(events, name) ==>
                  name in t.w.objects && t.w.objects[name].replicas == if ScaledUp(events, name) then 1 else 0)
            && (CountedSome(events, name) && (t.u.phase == NodeRestarting || Advances(s, t)) ==> ScaledDown(events, name))
  {
    var name := s.n.name;
    var a := BeginCycle(env, s, true);
    var b := Drain(env, a);
    var c := Recycle(env, b, false);
    var t := Call(env, s, false);
    BeginEffect(env, s, true);
    BlockNames(env, s, false, a, b, c);
    CallAdvances(env, s, false, a, b, c);
    BeforeRecovery(env, s, false, a, b, c);
    FirstBlockEffect(env, a, false);
    hide BeginCycle, Call, Recover, NoClear, NoWork, NoWorkButClear, ScaledDown, ScaledUp, CountedSome;
    NoWorkScalesNothing(s.w.log, a.w.log, name);
    NoWorkScalesNothing(c.w.log, t.w.log, name);
    if a.go {
      HoldsAfterRecycle(env, a, b, c);
    } else {
      assert c.w == a.w;
    }
    assert s.w.log <= a.w.log <= c.w.log <= t.w.log by {
      NoWorkGrows(s.w.log, a.w.log);
      NoWorkGrows(c.w.log, t.w.log);
    }
    Suffixes(s.w.log, a.w.log, c.w.log, name);
    Suffixes(s.w.log, c.w.log, t.w.log, name);
  }

  lemma NoWorkGrows(log: seq<Event>, log': seq<Event>)
    requires NoWork(log, log') || NoWorkButClear(log, log')
    ensures log <= log'
  {
  }

  // ----- update: the spec and the rollout -----

  /**
   * Writing the spec: when it reports success the server agrees with what node.self held exactly if
   * the check could read the workload, or there was nothing to write.
   */
  lemma ExecuteUpdateAgrees(env: Env, n: NodeState, w: World)
    requires n.name in w.objects && ExecuteUpdate(env, n, w).0
    ensures var w' := ExecuteUpdate(env, n, w).2;
            && n.name in w'.objects
            && (Agrees(w'.objects[n.name], n.self.spec) <==> env(w.pos).ok || Agrees(w.objects[n.name], n.self.spec))
            && w'.objects[n.name].paused == w.objects[n.name].paused
            && w'.objects[n.name].replicas == w.objects[n.name].replicas
  {
    var server := w.objects[n.name];
    PatchAgrees(server, n.self.spec);
    PatchKeepsTheRest(server, n.self.spec);
    hide Agrees, Patch, OutOfRange, Grows;
  }

  /** update's first block, when it ends well. */
  lemma ApplyEvents(env: Env, s: Step) returns (flushed: Event)
    requires s.go && AtStart(s.u.phase)
    ensures var t, name := Apply(env, s), s.n.name;
            && s.w.log <= t.w.log
            && (t.go ==>
                  && flushed.Flushed? && flushed.node == name && t.n.name == name && t.n.clusterSize == s.n.clusterSize
                  && t.w.log == s.w.log + [Allocation(name, false, true), flushed, Applied(name, t.n.revision, true)])
  {
    hide ExecuteUpdate, SetAllocation, Flush, Grows;
    flushed := Flushed(s.n.name, env(s.w.pos + 1).ok);
    DisableAndFlush(env, s.w, s.n.name);
    var f := Flush(env, SetAllocation(env, s.w, s.n.name, false).1, s.n.name);
    ExecuteUpdateGrows(env, s.n, f);
    ExecuteUpdateKeepsNode(env, s.n, f);
  }

  lemma DisableAndFlush(env: Env, w: World, name: string)
    ensures var (disabled, w1) := SetAllocation(env, w, name, false);
            var f := Flush(env, w1, name);
            && w.log <= w1.log && f.objects == w.objects && f.pos == w.pos + 2
            && f.log == w.log + [Allocation(name, false, disabled), Flushed(name, env(w.pos + 1).ok)]
  {
    hide Grows;
  }

  /** What it leaves on the server. */
  lemma ApplyWrites(env: Env, s: Step)
    requires s.go && AtStart(s.u.phase) && s.n.name in s.w.objects && Apply(env, s).go
    ensures var t, name := Apply(env, s), s.n.name;
            && name in t.w.objects && t.w.objects[name].replicas == s.w.objects[name].replicas
            && (Agrees(t.w.objects[name], s.n.self.spec) <==>
                  env(s.w.pos + 2).ok || Agrees(s.w.objects[name], s.n.self.spec))
  {
    hide ExecuteUpdate, Agrees, Grows;
    var (disabled, w1) := SetAllocation(env, s.w, s.n.name, false);
    var f := Flush(env, w1, s.n.name);
    if s.n.name in s.w.objects && ExecuteUpdate(env, s.n, f).0 {
      ExecuteUpdateAgrees(env, s.n, f);
    }
  }

  lemma ExecuteUpdateKeepsNode(env: Env, n: NodeState, w: World)
    ensures ExecuteUpdate(env, n, w).1 == n.(self := ExecuteUpdate(env, n, w).1.self)
  {
    hide Agrees, Patch, Grows;
  }

  lemma RollOutKeepsSpec(env: Env, s: Step)
    ensures var t, name := Recycle(env, s, true), s.n.name;
            name in s.w.objects ==> name in t.w.objects
                                    && t.w.objects[name] == s.w.objects[name].(paused := t.w.objects[name].paused)
  {
    RollOutOnlyPauses(env, s);
    hide RollOut, Grows;
  }

  lemma RollOutOnlyPauses(env: Env, s: Step)
    ensures var t, name := RollOut(env, s), s.n.name;
            name in s.w.objects ==> name in t.w.objects
                                    && t.w.objects[name] == s.w.objects[name].(paused := t.w.objects[name].paused)
  {
    hide SetPaused, RolloutPoll, RefreshHashes, Grows, FirstAtLeast;
    var (_, n1, w1) := SetPaused(env, s.n, s.w, false);
    SetPausedGrows(env, s.n, s.w, false);
    var (rolled, n2, w2) := RolloutPoll(env, n1, w1);
    RolloutPollGrows(env, n1, w1);
    if rolled {
      var (_, n3, w3) := SetPaused(env, n2, w2, true);
      SetPausedGrows(env, n2, w2, true);
      RefreshHashesGrows(env, n3, w3);
    }
  }

  /** The states between the blocks of an update, and what they share with its end. */
  lemma UpdateParts(env: Env, s: Step) returns (a: Step, b: Step, c: Step)
    requires s.go
    ensures a == BeginCycle(env, s, false) && b == Apply(env, a) && c == Recycle(env, b, true)
    ensures a.n.name == b.n.name == c.n.name == s.n.name && a.w.objects == s.w.objects && a.n.self == s.n.self
    ensures a.u.phase == s.u.phase && s.w.log <= a.w.log <= b.w.log && (c.go ==> b.go) && (b.go ==> a.go)
    ensures a.go ==> a.w.pos == s.w.pos + if s.u.under == IsTrue then 0 else 2
    ensures var t := Call(env, s, true);
            && t.n == c.n && t.w.objects == c.w.objects && c.w.log <= t.w.log
            && (s.u.phase != RecoveringData ==>
                  && (Advances(s, t) <==> c.go) && (c.go ==> b.u.phase == NodeRestarting)
                  && (AtStart(s.u.phase) && t.u.phase == NodeRestarting ==> b.go && b.u.phase == NodeRestarting))
  {
    a := BeginCycle(env, s, false);
    b := Apply(env, a);
    c := Recycle(env, b, true);
    hide BeginCycle, Apply, Recycle, Call, Recover, NoWork, NoClear, NoWorkButClear, Agrees, Grows, Advances;
    BeginEffect(env, s, false);
    CallAdvances(env, s, true, a, b, c);
    BeforeRecovery(env, s, true, a, b, c);
    FirstBlockEffect(env, a, true);
    RecycleStatus(env, b, true);
    BlockNames(env, s, true, a, b, c);
    assert s.w.log <= a.w.log <= b.w.log && c.w.log <= Call(env, s, true).w.log by {
      NoWorkGrows(s.w.log, a.w.log);
      NoWorkGrows(c.w.log, Call(env, s, true).w.log);
      NoClearGrows(a.w.log, b.w.log, s.n.name);
    }
    if c.go && b.u.phase != NodeRestarting {
      assert c == b;
    }
  }

  lemma NoClearGrows(log: seq<Event>, log': seq<Event>, name: string)
    requires NoClear(log, log', name)
    ensures log <= log'
  {
  }

  /**
   * An update from the start that gets to NodeRestarting or beyond leaves the server in agreement with
   * the desired spec exactly if the check could read the workload, or it agreed before; and the
   * replicas as they were.
   */
  lemma UpdateAgreesIffReadable(env: Env, s: Step)
    requires s.go && AtStart(s.u.phase) && s.n.name in s.w.objects
    requires var t := Call(env, s, true); t.u.phase == NodeRestarting || Advances(s, t)
    ensures var t, name := Call(env, s, true), s.n.name;
            var read := s.w.pos + if s.u.under == IsTrue then 2 else 4;
            && name in t.w.objects && t.w.objects[name].replicas == s.w.objects[name].replicas
            && (Agrees(t.w.objects[name], s.n.self.spec) <==>
                  env(read).ok || Agrees(s.w.objects[name], s.n.self.spec))
  {
    var a, b, c := UpdateParts(env, s);
    hide BeginCycle, Apply, Recycle, Call, Agrees, Advances;
    ApplyWrites(env, a);
    RollOutKeepsSpec(env, b);
    SameComparedAgrees(c.w.objects[s.n.name], b.w.objects[s.n.name], s.n.self.spec);
  }

  /**
   * An update that gets beyond NodeRestarting, from any phase before recovery, has unpaused the
   * Deployment, seen it roll out from the recorded revision to another, paused it, seen the node back
   * at the recorded size and enabled allocation, in this order; the Deployment is paused exactly if
   * the second pause took effect, as it did if it was acknowledged.
   */
  lemma UpdateRollsOutAndPauses(env: Env, s: Step) returns (e: nat)
    requires s.go && s.u.phase != RecoveringData && Advances(s, Call(env, s, true))
    ensures var t, name := Call(env, s, true), s.n.name;
            && |s.w.log| <= e - 4 && RolledOutAt(t.w.log, name, e)
            && t.w.log[e - 3].from == t.n.revision
            && Observed(t.w.log[e - 1].seen) >= t.n.clusterSize
            && name in t.w.objects && t.w.objects[name].paused == t.w.log[e - 2].now
            && (t.w.log[e - 2].ok ==> t.w.log[e - 2].now)
  {
    var a, b, c := UpdateParts(env, s);
    hide BeginCycle, Apply, Recycle, Call, Advances;
    hide Rollout, RolledOutAt;
    var events := RollOutEffect(env, b);
    e := RolloutEnds(b.w.log, events, Call(env, s, true).w.log, b.n);
  }

  /** A log in which these events are followed by an acknowledged enable. */
  lemma RolloutEnds(log: seq<Event>, events: seq<Event>, log': seq<Event>, n: NodeState) returns (e: nat)
    requires Rollout(events, n) && log + events + [Allocation(n.name, true, true)] <= log'
    ensures |events| == 4 && e == |log| + 4 && RolledOutAt(log', n.name, e)
    ensures log'[e - 3].from == n.revision && Observed(log'[e - 1].seen) >= n.clusterSize
    ensures log'[e - 2] == events[2] && events[2].Paused? && (events[2].ok ==> events[2].now)
  {
    e := |log| + 4;
    var whole := log + events + [Allocation(n.name, true, true)];
    assert log'[e] == whole[e] && log'[e - 1] == whole[e - 1] == events[3] && log'[e - 2] == whole[e - 2] == events[2];
    assert log'[e - 3] == whole[e - 3] == events[1] && log'[e - 4] == whole[e - 4] == events[0];
  }

  /** The log after both blocks of an update, put together. */
  lemma HeadThenTail(
    log: seq<Event>, flushed: Event, b: Step, events: seq<Event>, log': seq<Event>, rolledOut: bool) returns (f: nat)
    requires flushed.Flushed? && flushed.node == b.n.name
    requires b.w.log == log + [Allocation(b.n.name, false, true), flushed, Applied(b.n.name, b.n.revision, true)]
    requires b.w.log <= log'
    requires rolledOut ==> Rollout(events, b.n) && b.w.log + events + [Allocation(b.n.name, true, true)] <= log'
    ensures f == |log| + 2 && AppliedAt(log', b.n.name, f) && log'[f].revision == b.n.revision
    ensures rolledOut ==> RolledOutAt(log', b.n.name, f + 5)
  {
    hide Rollout, RolledOutAt, AppliedAt;
    f := ApplyEnds(log, flushed, log', b.n);
    if rolledOut {
      var e := RolloutEnds(b.w.log, events, log', b.n);
      assert |b.w.log| == |log| + 3;
    }
  }

  /** And from the start, right before that, it has disabled allocation, flushed and written the spec, and recorded the revision. */
  lemma UpdateAppliesFirst(env: Env, s: Step) returns (f: nat)
    requires s.go && AtStart(s.u.phase)
    requires var t := Call(env, s, true); t.u.phase == NodeRestarting || Advances(s, t)
    ensures var t := Call(env, s, true);
            |s.w.log| <= f - 2 && AppliedAt(t.w.log, s.n.name, f) && t.w.log[f].revision == t.n.revision
    ensures var t := Call(env, s, true); Advances(s, t) ==> RolledOutAt(t.w.log, s.n.name, f + 5)
  {
    var a, b, c := UpdateParts(env, s);
    hide BeginCycle, Apply, Recycle, Call, Advances, Rollout, RolledOutAt, AppliedAt, Agrees;
    var flushed := ApplyEvents(env, a);
    var events := RollOutEffect(env, b);
    var t := Call(env, s, true);
    Prefixes(b.w.log, c.w.log, t.w.log);
    f := HeadThenTail(a.w.log, flushed, b, events, t.w.log, c.go);
  }

  lemma Prefixes(a: seq<Event>, b: seq<Event>, c: seq<Event>)
    requires a <= b <= c
    ensures a <= c
  {
  }

  lemma ApplyEnds(log: seq<Event>, flushed: Event, log': seq<Event>, n: NodeState) returns (f: nat)
    requires flushed.Flushed? && flushed.node == n.name
    requires log + [Allocation(n.name, false, true), flushed, Applied(n.name, n.revision, true)] <= log'
    ensures f == |log| + 2 && AppliedAt(log', n.name, f) && log'[f].revision == n.revision
  {
    f := |log| + 2;
    var whole := log + [Allocation(n.name, false, true), flushed, Applied(n.name, n.revision, true)];
    assert log'[f] == whole[f] && log'[f - 1] == whole[f - 1] && log'[f - 2] == whole[f - 2];
  }

  // ----- the recorded size -----

  /** A call that begins a cycle records the size that it read, or 0; a call in a cycle keeps the record. */
  lemma CallRecordsSize(env: Env, s: Step, updating: bool)
    requires s.go
    ensures var t := Call(env, s, updating);
            && (s.u.under == IsTrue ==> t.n.clusterSize == s.n.clusterSize)
            && (s.u.under != IsTrue && (t.u.under == IsTrue || Clears(s, t)) ==>
                  t.n.clusterSize == if env(s.w.pos + 1).ok then env(s.w.pos + 1).size else 0)
  {
    var a := BeginCycle(env, s, !updating);
    var b := if updating then Apply(env, a) else Drain(env, a);
    var c := Recycle(env, b, updating);
    BeginEffect(env, s, !updating);
    CallAdvances(env, s, updating, a, b, c);
    BeforeRecovery(env, s, updating, a, b, c);
    FirstBlockEffect(env, a, updating);
    RecycleStatus(env, b, updating);
    hide BeginCycle, Call, Recover, NoWork, NoClear, NoWorkButClear, Advances;
    BlocksKeepSize(env, a, updating);
  }

  lemma BlocksKeepSize(env: Env, s: Step, updating: bool)
    ensures var b := if updating then Apply(env, s) else Drain(env, s);
            b.n.clusterSize == s.n.clusterSize && Recycle(env, b, updating).n.clusterSize == s.n.clusterSize
  {
    var b := if updating then Apply(env, s) else Drain(env, s);
    if updating {
      ApplyKeepsSize(env, s);
    } else {
      DrainKeepsSize(env, s);
    }
    hide Apply, Drain, Grows;
    if b.go && b.u.phase == NodeRestarting {
      if updating {
        var _ := RollOutEffect(env, b);
      } else {
        ScaleUpEffect(env, b);
        SetReplicasGrows(env, b.n, b.w, 1);
      }
    }
  }

  lemma ApplyKeepsSize(env: Env, s: Step)
    ensures Apply(env, s).n.clusterSize == s.n.clusterSize
  {
    var (_, w1) := SetAllocation(env, s.w, s.n.name, false);
    ExecuteUpdateKeepsNode(env, s.n, Flush(env, w1, s.n.name));
    hide ExecuteUpdate, Grows;
  }

  lemma DrainKeepsSize(env: Env, s: Step)
    ensures Drain(env, s).n.clusterSize == s.n.clusterSize
  {
    var (_, replicas, w0) := ReplicaCount(env, s.n, s.w);
    var (_, w2) := SetAllocation(env, Note(w0, Counted(s.n.name, replicas)), s.n.name, false);
    SetReplicasGrows(env, s.n, Flush(env, w2, s.n.name), 0);
    hide SetReplicas, Grows, FirstBelow;
  }

  // ----- what stops a call -----

  /** A step that failed and that stops a call; a flush, an unpausing or a pausing is not one. */
  predicate Stopping(e: Event) {
    || (e.HealthRead? && !e.green)
    || ((e.Allocation? || e.Scaled? || e.Leave? || e.Rejoin? || e.Applied? || e.RolledOut?) && !e.ok)
  }

  ghost predicate StoppedAt(log: seq<Event>, log': seq<Event>) {
    |log| < |log'| && Stopping(log'[|log'| - 1])
  }

  lemma BeginStops(env: Env, s: Step, sizeRequired: bool)
    requires s.go && !BeginCycle(env, s, sizeRequired).go
    ensures var t := BeginCycle(env, s, sizeRequired);
            || StoppedAt(s.w.log, t.w.log)
            || (sizeRequired && !env(s.w.pos + 1).ok && t.w.log == s.w.log + [HealthRead(s.n.name, true)])
  {
    hide Grows;
  }

  lemma DrainStops(env: Env, s: Step)
    requires s.go && !Drain(env, s).go
    ensures StoppedAt(s.w.log, Drain(env, s).w.log)
  {
    hide SetReplicas, Flush, LeavePoll, Grows;
    var (_, replicas, w0) := ReplicaCount(env, s.n, s.w);
    var w1 := Note(w0, Counted(s.n.name, replicas));
    var (disabled, w2) := SetAllocation(env, w1, s.n.name, false);
    if disabled {
      var more := ScaleDownEvents(env, s.n, w2);
      ScaleDownStops(env, s.n, w2);
    }
  }

  lemma ScaleDownStops(env: Env, n: NodeState, w: World)
    ensures var (scaled, n3, w3) := SetReplicas(env, n, Flush(env, w, n.name), 0);
            var (left, w4) := LeavePoll(env, w3, n3.name, n3.clusterSize);
            (!scaled ==> StoppedAt(w.log, w3.log)) && (scaled && !left ==> StoppedAt(w.log, w4.log))
  {
    var f := Flush(env, w, n.name);
    SetReplicasGrows(env, n, f, 0);
    hide SetReplicas, Grows, FirstBelow;
  }

  lemma ApplyStops(env: Env, s: Step)
    requires s.go && !Apply(env, s).go
    ensures StoppedAt(s.w.log, Apply(env, s).w.log)
  {
    hide ExecuteUpdate, Grows;
    var (disabled, w1) := SetAllocation(env, s.w, s.n.name, false);
    ExecuteUpdateGrows(env, s.n, Flush(env, w1, s.n.name));
  }

  lemma RollOutStops(env: Env, s: Step)
    requires s.go && !RollOut(env, s).go
    ensures StoppedAt(s.w.log, RollOut(env, s).w.log)
  {
    hide SetPaused, RolloutPoll, RefreshHashes, Grows, FirstAtLeast;
    var (_, n1, w1) := SetPaused(env, s.n, s.w, false);
    SetPausedGrows(env, s.n, s.w, false);
    var (rolled, n2, w2) := RolloutPoll(env, n1, w1);
    RolloutPollGrows(env, n1, w1);
    if rolled {
      var (_, n3, w3) := SetPaused(env, n2, w2, true);
      SetPausedGrows(env, n2, w2, true);
      RefreshHashesGrows(env, n3, w3);
    }
  }

  lemma ScaleUpStops(env: Env, s: Step)
    requires s.go && !ScaleUp(env, s).go
    ensures StoppedAt(s.w.log, ScaleUp(env, s).w.log)
  {
    hide SetReplicas, RefreshHashes, Grows, FirstAtLeast;
    SetReplicasGrows(env, s.n, s.w, 1);
    var (scaled, n1, w1) := SetReplicas(env, s.n, s.w, 1);
    if scaled {
      var (back, w2) := RejoinPoll(env, w1, n1.name, n1.clusterSize);
      RefreshHashesGrows(env, n1, w2);
    }
  }

  lemma RecycleStops(env: Env, s: Step, updating: bool)
    requires s.go && !Recycle(env, s, updating).go
    ensures StoppedAt(s.w.log, Recycle(env, s, updating).w.log)
  {
    hide RollOut, ScaleUp, Grows, NoClear, Tails;
    var t := if updating then RollOut(env, s) else ScaleUp(env, s);
    assert s.w.log <= t.w.log by {
      if updating {
        RollOutShape(env, s);
        NoClearGrows(s.w.log, t.w.log, s.n.name);
      } else {
        ScaleUpShape(env, s);
        NoClearGrows(s.w.log, t.w.log, s.n.name);
      }
    }
    if !t.go {
      if updating {
        RollOutStops(env, s);
      } else {
        ScaleUpStops(env, s);
      }
    }
  }

  /**
   * A call that does not run to its end was stopped by the step that it logged last: a red health read,
   * or a failed attempt to set allocation, scale or write, or a poll that timed out; or it was a restart
   * that could not read the cluster size.  A failed flush, unpausing or pausing stops nothing.
   */
  lemma OnlyFailureStops(env: Env, s: Step, updating: bool)
    requires s.go && !Call(env, s, updating).go
    ensures var t := Call(env, s, updating);
            || StoppedAt(s.w.log, t.w.log)
            || (!updating && s.u.under != IsTrue && !env(s.w.pos + 1).ok && t.w.log == s.w.log + [HealthRead(s.n.name, true)])
  {
    var a := BeginCycle(env, s, !updating);
    var b := if updating then Apply(env, a) else Drain(env, a);
    var c := Recycle(env, b, updating);
    hide BeginCycle, Apply, Drain, Recycle, Grows, NoClear, StoppedAt;
    BeforeRecovery(env, s, updating, a, b, c);
    FirstBlockEffect(env, a, updating);
    BeginEffect(env, s, !updating);
    NoWorkGrows(s.w.log, a.w.log);
    NoClearGrows(a.w.log, b.w.log, s.n.name);
    NoClearGrows(s.w.log, c.w.log, s.n.name);
    if !a.go {
      BeginStops(env, s, !updating);
      NotGoing(env, a, updating);
    } else if !b.go {
      if updating {
        ApplyStops(env, a);
      } else {
        DrainStops(env, a);
      }
      NotGoing(env, b, updating);
      StoppedEarlier(s.w.log, a.w.log, b.w.log);
    } else if !c.go {
      RecycleStops(env, b, updating);
      NotGoing(env, c, updating);
      StoppedEarlier(s.w.log, b.w.log, c.w.log);
    } else {
      RecoverStops(env, s.w.log, c);
    }
  }

  lemma StoppedEarlier(a: seq<Event>, b: seq<Event>, c: seq<Event>)
    requires a <= b && StoppedAt(b, c)
    ensures StoppedAt(a, c)
  {
  }

  lemma RecoverStops(env: Env, log: seq<Event>, s: Step)
    requires s.go && log <= s.w.log && !Recover(env, s).go
    ensures StoppedAt(log, Recover(env, s).w.log)
  {
    hide Grows;
  }

  lemma NotGoing(env: Env, s: Step, updating: bool)
    requires !s.go
    ensures Apply(env, s) == s && Drain(env, s) == s && Recycle(env, s, updating) == s && Recover(env, s) == s
  {
  }

  // ----- creating -----

  /** A new Deployment that is created successfully has been seen with a revision. */
  lemma CreateSeesRevision(env: Env, n: NodeState, w: World)
    requires n.self.unsaved && n.name !in w.objects && CreateNode(env, n, w).0
    ensures CreateNode(env, n, w).1.self.revision.Some?
  {
    hide Grows;
  }
}
