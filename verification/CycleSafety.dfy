/**
 * What every call of a Deployment's update or restart keeps, however earlier calls
 * were cut short and whichever of the two procedures made them.
 *
 *   CycleOk   ties a node's persisted upgrade status to the log: an open cycle began
 *             right after a green health read; a node that is restarting has had its first
 *             block run to the end; recovery means that after it a second block ran to the
 *             end, and allocation was not disabled since; and every closed cycle has the
 *             full shape.
 *   Blame     if allocation is off after a call, this node answers for it, or it was
 *             off before and this node did not answer for it.
 */
module CycleSafety {
  import opened Environment
  import opened Workload
  import opened DeploymentUpgrade

  ghost predicate IsDisable(e: Event, name: string) {
    e.Allocation? && e.node == name && !e.enable
  }

  ghost predicate StartsGreen(log: seq<Event>, name: string, b: int) {
    0 < b < |log| && log[b - 1] == HealthRead(name, true) && log[b] == Begin(name)
  }

  /** The cycle that began at b is still open. */
  ghost predicate OpenSince(log: seq<Event>, name: string, b: int) {
    StartsGreen(log, name, b) && forall i :: b < i < |log| ==> log[i] != Clear(name)
  }

  /** A poll for the node to be back that succeeded, at i. */
  ghost predicate BackAt(log: seq<Event>, name: string, i: int) {
    0 <= i < |log| && log[i].Rejoin? && log[i].node == name && log[i].ok
  }

  ghost predicate FlushedAt(log: seq<Event>, name: string, i: int) {
    0 <= i < |log| && log[i].Flushed? && log[i].node == name
  }

  /** restart's first block, up to f: replicas counted, allocation disabled, a flush, scaled down, and the node gone. */
  ghost predicate DrainedAt(log: seq<Event>, name: string, f: int) {
    && 4 <= f < |log|
    && log[f - 4].Counted? && log[f - 4].node == name && log[f - 4].replicas > 0
    && log[f - 3] == Allocation(name, false, true) && FlushedAt(log, name, f - 2)
    && log[f - 1] == Scaled(name, 0, 0, true) && log[f] == Leave(name, true)
  }

  /** The same without a replica to drain. */
  ghost predicate NothingToDrainAt(log: seq<Event>, name: string, f: int) {
    0 <= f < |log| && log[f].Counted? && log[f].node == name && log[f].replicas <= 0
  }

  /** update's first block, up to f: allocation disabled, a flush, and the spec written. */
  ghost predicate AppliedAt(log: seq<Event>, name: string, f: int) {
    && 2 <= f < |log|
    && log[f - 2] == Allocation(name, false, true) && FlushedAt(log, name, f - 1)
    && log[f].Applied? && log[f].node == name && log[f].ok
  }

  /** A whole first block after b and up to f. */
  ghost predicate HeadAt(log: seq<Event>, name: string, b: int, f: int) {
    || (0 <= b < f - 4 && DrainedAt(log, name, f))
    || (0 <= b < f && NothingToDrainAt(log, name, f))
    || (0 <= b < f - 2 && AppliedAt(log, name, f))
  }

  /** restart's second block, up to e: scaled up to 1, the node back, allocation enabled. */
  ghost predicate ScaledUpAt(log: seq<Event>, name: string, e: int) {
    && 2 <= e < |log|
    && log[e - 2] == Scaled(name, 1, 1, true) && BackAt(log, name, e - 1) && log[e] == Allocation(name, true, true)
  }

  /** update's second block, up to e: unpaused, a new revision seen, paused, the node back, allocation enabled. */
  ghost predicate RolledOutAt(log: seq<Event>, name: string, e: int) {
    && 4 <= e < |log|
    && log[e - 4].Paused? && log[e - 4].node == name && !log[e - 4].paused
    && log[e - 3].RolledOut? && log[e - 3].node == name && log[e - 3].ok && log[e - 3].to != log[e - 3].from
    && log[e - 2].Paused? && log[e - 2].node == name && log[e - 2].paused
    && BackAt(log, name, e - 1) && log[e] == Allocation(name, true, true)
  }

  /** A whole second block after f and up to e. */
  ghost predicate TailAt(log: seq<Event>, name: string, f: int, e: int) {
    (0 <= f < e - 2 && ScaledUpAt(log, name, e)) || (0 <= f < e - 4 && RolledOutAt(log, name, e))
  }

  /** A first block up to f and after it a second block up to e, and no attempt to disable since. */
  ghost predicate EnabledSince(log: seq<Event>, name: string, b: int, f: int, e: int) {
    && HeadAt(log, name, b, f) && TailAt(log, name, f, e)
    && forall i :: e < i < |log| ==> !IsDisable(log[i], name)
  }

  /** What the cycle that began at b has done when it is in a phase. */
  ghost predicate Reached(log: seq<Event>, name: string, b: int, phase: Phase) {
    match phase
    case NodeRestarting => exists f :: HeadAt(log, name, b, f)
    case RecoveringData => exists f, e :: EnabledSince(log, name, b, f, e)
    case _ => true
  }

  /** A closed cycle: green read, begin at b, a first block, a second block with no disable after it, green read, clear at k. */
  ghost predicate Complete(log: seq<Event>, name: string, b: int, f: int, e: int, k: int) {
    && 0 < b < f < e < k - 1 < |log| - 1
    && StartsGreen(log, name, b)
    && HeadAt(log, name, b, f) && TailAt(log, name, f, e)
    && (forall i :: e < i < k ==> !IsDisable(log[i], name))
    && log[k - 1] == HealthRead(name, true)
    && log[k] == Clear(name)
    && forall i :: b < i < k ==> log[i] != Clear(name)
  }

  ghost predicate GoodCycle(log: seq<Event>, name: string, k: int) {
    exists b, f, e :: Complete(log, name, b, f, e, k)
  }

  ghost predicate CycleOk(log: seq<Event>, name: string, u: Upgrade) {
    && (u.under != IsTrue ==> AtStart(u.phase))
    && (u.under == IsTrue ==> exists b :: OpenSince(log, name, b) && Reached(log, name, b, u.phase))
    && forall k :: 0 <= k < |log| && log[k] == Clear(name) ==> GoodCycle(log, name, k)
  }

  /** Events that close no cycle of this node. */
  ghost predicate NoClear(log: seq<Event>, log': seq<Event>, name: string) {
    log <= log' && forall i :: |log| <= i < |log'| ==> log'[i] != Clear(name)
  }

  ghost predicate NoDisable(log: seq<Event>, log': seq<Event>, name: string) {
    log <= log' && forall i :: |log| <= i < |log'| ==> !IsDisable(log'[i], name)
  }

  lemma ExtendOpen(log: seq<Event>, log': seq<Event>, name: string, b: int)
    requires OpenSince(log, name, b) && NoClear(log, log', name)
    ensures OpenSince(log', name, b)
  {
    assert forall i :: 0 <= i < |log| ==> log'[i] == log[i];
  }

  lemma ExtendHead(log: seq<Event>, log': seq<Event>, name: string, b: int, f: int)
    requires log <= log' && HeadAt(log, name, b, f)
    ensures HeadAt(log', name, b, f)
  {
  }

  lemma HeadEarlier(log: seq<Event>, name: string, b: int, b': int, f: int)
    requires HeadAt(log, name, b', f) && 0 <= b <= b'
    ensures HeadAt(log, name, b, f)
  {
  }

  lemma TailEarlier(log: seq<Event>, name: string, f: int, f': int, e: int)
    requires TailAt(log, name, f', e) && 0 <= f <= f'
    ensures TailAt(log, name, f, e)
  {
  }

  lemma ExtendTail(log: seq<Event>, log': seq<Event>, name: string, f: int, e: int)
    requires log <= log' && TailAt(log, name, f, e)
    ensures TailAt(log', name, f, e)
  {
  }

  lemma ExtendClosed(log: seq<Event>, log': seq<Event>, name: string, k: int)
    requires log <= log' && GoodCycle(log, name, k)
    ensures GoodCycle(log', name, k)
  {
    var b, f, e :| Complete(log, name, b, f, e, k);
    ExtendHead(log, log', name, b, f);
    ExtendTail(log, log', name, f, e);
    hide HeadAt, TailAt;
    assert forall i :: 0 <= i < |log| ==> log'[i] == log[i];
    assert Complete(log', name, b, f, e, k);
  }

  lemma ExtendReached(log: seq<Event>, log': seq<Event>, name: string, b: int, phase: Phase)
    requires log <= log' && Reached(log, name, b, phase)
    requires phase == RecoveringData ==> NoDisable(log, log', name)
    ensures Reached(log', name, b, phase)
  {
    hide HeadAt, TailAt;
    if phase == NodeRestarting {
      var f :| HeadAt(log, name, b, f);
      ExtendHead(log, log', name, b, f);
    } else if phase == RecoveringData {
      var f, e :| EnabledSince(log, name, b, f, e);
      ExtendHead(log, log', name, b, f);
      ExtendTail(log, log', name, f, e);
      TailInRange(log, name, f, e);
      assert forall i :: 0 <= i < |log| ==> log'[i] == log[i];
      assert EnabledSince(log', name, b, f, e);
    }
  }

  lemma ExtendClosedCycles(log: seq<Event>, log': seq<Event>, name: string)
    requires NoClear(log, log', name) && forall k :: 0 <= k < |log| && log[k] == Clear(name) ==> GoodCycle(log, name, k)
    ensures forall k :: 0 <= k < |log'| && log'[k] == Clear(name) ==> GoodCycle(log', name, k)
  {
    hide GoodCycle;
    forall k | 0 <= k < |log'| && log'[k] == Clear(name) ensures GoodCycle(log', name, k) {
      assert log[k] == Clear(name);
      ExtendClosed(log, log', name, k);
    }
  }

  /**
   * Appending events that neither close this node's cycle nor disable allocation for it
   * while it recovers.
   */
  lemma ExtendOk(log: seq<Event>, log': seq<Event>, name: string, u: Upgrade, u': Upgrade)
    requires CycleOk(log, name, u) && NoClear(log, log', name)
    requires u'.under == u.under && u'.phase == u.phase
    requires u.phase == RecoveringData ==> NoDisable(log, log', name)
    ensures CycleOk(log', name, u')
  {
    hide Reached, GoodCycle;
    if u.under == IsTrue {
      var b :| OpenSince(log, name, b) && Reached(log, name, b, u.phase);
      ExtendOpen(log, log', name, b);
      ExtendReached(log, log', name, b, u.phase);
    }
    ExtendClosedCycles(log, log', name);
  }

  /** Other nodes' work does not disturb a node's cycle. */
  lemma ForeignOk(w: World, w': World, worker: string, name: string, u: Upgrade)
    requires CycleOk(w.log, name, u) && Grows(w, w', worker) && worker != name
    ensures CycleOk(w'.log, name, u)
  {
    ExtendOk(w.log, w'.log, name, u, u);
  }

  ghost predicate Holding(u: Upgrade) {
    u.under == IsTrue && u.phase != RecoveringData
  }

  ghost predicate Blame(s: Step, t: Step) {
    !t.w.allocation ==> Holding(t.u) || (!s.w.allocation && !Holding(s.u))
  }

  // ----- each block -----

  /** Opening a cycle: the log gains a green read and the begin. */
  lemma OpenCycle(log: seq<Event>, name: string, u: Upgrade)
    requires CycleOk(log, name, u) && u.under != IsTrue
    ensures CycleOk(log + [HealthRead(name, true), Begin(name)], name, u.(under := IsTrue))
  {
    hide GoodCycle;
    var log' := log + [HealthRead(name, true), Begin(name)];
    ExtendClosedCycles(log, log', name);
    assert OpenSince(log', name, |log| + 1) && Reached(log', name, |log| + 1, u.phase);
  }

  lemma BeginKeeps(env: Env, s: Step, sizeRequired: bool)
    requires CycleOk(s.w.log, s.n.name, s.u)
    ensures var t := BeginCycle(env, s, sizeRequired);
            CycleOk(t.w.log, s.n.name, t.u) && (t.go ==> t.u.under == IsTrue)
  {
    if s.u.under != IsTrue {
      var (green, w1) := Health(env, s.w, s.n.name);
      var t := BeginCycle(env, s, sizeRequired);
      if t.u.under == IsTrue {
        OpenCycle(s.w.log, s.n.name, s.u);
        assert t.w.log == s.w.log + [HealthRead(s.n.name, true), Begin(s.n.name)];
      } else {
        assert t.w.log == w1.log;
        ExtendOk(s.w.log, w1.log, s.n.name, s.u, s.u);
      }
    }
  }

  /** The first blocks of restart and update: they run to the end and move on to restarting, or leave the phase as it is. */
  ghost predicate FirstBlock(s: Step, t: Step) {
    && NoClear(s.w.log, t.w.log, s.n.name)
    && t.u.under == s.u.under
    && (t == s || (s.go && AtStart(s.u.phase)))
    && (t.u.phase == s.u.phase || (t.u.phase == NodeRestarting && Heads(s.w.log, t.w.log, s.n.name)))
  }

  /** The new events end in a first block. */
  ghost predicate Heads(log: seq<Event>, log': seq<Event>, name: string) {
    log <= log' && (log != [] ==> HeadAt(log', name, |log| - 1, |log'| - 1))
  }

  lemma DrainShape(env: Env, s: Step)
    ensures FirstBlock(s, Drain(env, s))
  {
    hide SetReplicas, Flush, LeavePoll, Grows, Heads;
    if s.go && AtStart(s.u.phase) {
      var (_, replicas, w0) := ReplicaCount(env, s.n, s.w);
      var w1 := Note(w0, Counted(s.n.name, replicas));
      if replicas > 0 {
        var (disabled, w2) := SetAllocation(env, w1, s.n.name, false);
        ScaleDownShape(env, s.n, w2);
        var (scaled, n3, w3) := SetReplicas(env, s.n, Flush(env, w2, s.n.name), 0);
        var (left, w4) := LeavePoll(env, w3, n3.name, n3.clusterSize);
        if disabled && scaled && left {
          var flushed := Flushed(s.n.name, env(w2.pos).ok);
          DrainedHeads(s.w.log, s.n.name, replicas, flushed);
          assert w4.log == s.w.log + [Counted(s.n.name, replicas), Allocation(s.n.name, false, true), flushed,
                                      Scaled(s.n.name, 0, 0, true), Leave(s.n.name, true)];
        }
      } else {
        NothingHeads(s.w.log, s.n.name, replicas);
      }
    }
  }

  lemma ScaleDownShape(env: Env, n: NodeState, w: World)
    ensures var (scaled, n3, w3) := SetReplicas(env, n, Flush(env, w, n.name), 0);
            var (left, w4) := LeavePoll(env, w3, n3.name, n3.clusterSize);
            && NoClear(w.log, w3.log, n.name) && NoClear(w.log, w4.log, n.name)
            && (scaled && left ==>
                  w4.log == w.log + [Flushed(n.name, env(w.pos).ok), Scaled(n.name, 0, 0, true), Leave(n.name, true)])
  {
    SetReplicasGrows(env, n, Flush(env, w, n.name), 0);
    hide SetReplicas, Grows, FirstBelow;
  }

  lemma ApplyShape(env: Env, s: Step)
    ensures FirstBlock(s, Apply(env, s))
  {
    hide ExecuteUpdate, Grows, Heads;
    if s.go && AtStart(s.u.phase) {
      var (disabled, w1) := SetAllocation(env, s.w, s.n.name, false);
      var f := Flush(env, w1, s.n.name);
      ExecuteUpdateGrows(env, s.n, f);
      var flushed, applied := Flushed(s.n.name, env(w1.pos).ok), Applied(s.n.name, Revision(ExecuteUpdate(env, s.n, f).1), true);
      AppliedHeads(s.w.log, s.n.name, flushed, applied);
      if disabled && ExecuteUpdate(env, s.n, f).0 {
        assert Apply(env, s).w.log == s.w.log + [Allocation(s.n.name, false, true), flushed, applied];
      }
    }
  }

  lemma DrainedHeads(log: seq<Event>, name: string, replicas: int, flushed: Event)
    requires replicas > 0 && flushed.Flushed? && flushed.node == name
    ensures Heads(log, log + [Counted(name, replicas), Allocation(name, false, true), flushed,
                              Scaled(name, 0, 0, true), Leave(name, true)], name)
  {
  }

  lemma NothingHeads(log: seq<Event>, name: string, replicas: int)
    requires replicas <= 0
    ensures Heads(log, log + [Counted(name, replicas)], name)
  {
  }

  lemma AppliedHeads(log: seq<Event>, name: string, flushed: Event, applied: Event)
    requires flushed.Flushed? && flushed.node == name && applied.Applied? && applied.node == name && applied.ok
    ensures Heads(log, log + [Allocation(name, false, true), flushed, applied], name)
  {
  }

  lemma FirstBlockKeeps(s: Step, t: Step)
    requires CycleOk(s.w.log, s.n.name, s.u) && FirstBlock(s, t)
    requires t != s ==> s.u.under == IsTrue
    ensures CycleOk(t.w.log, s.n.name, t.u)
  {
    hide GoodCycle, HeadAt, TailAt;
    if t != s {
      var name := s.n.name;
      var b :| OpenSince(s.w.log, name, b) && Reached(s.w.log, name, b, s.u.phase);
      ExtendOpen(s.w.log, t.w.log, name, b);
      ExtendClosedCycles(s.w.log, t.w.log, name);
      if t.u.phase != s.u.phase {
        HeadEarlier(t.w.log, name, b, |s.w.log| - 1, |t.w.log| - 1);
      }
      assert Reached(t.w.log, name, b, t.u.phase);
    }
  }

  /** The second blocks up to enabling allocation: they leave allocation and the status alone. */
  ghost predicate SecondBlock(s: Step, t: Step) {
    && NoClear(s.w.log, t.w.log, s.n.name) && t.u == s.u && t.w.allocation == s.w.allocation && t.n.name == s.n.name
    && (t.go ==> Tails(s.w.log, t.w.log, s.n.name))
  }

  /** With an acknowledged enable, the new events end in a second block. */
  ghost predicate Tails(log: seq<Event>, log': seq<Event>, name: string) {
    && log <= log'
    && (log != [] ==> TailAt(log' + [Allocation(name, true, true)], name, |log| - 1, |log'|))
  }

  lemma ScaleUpShape(env: Env, s: Step)
    ensures SecondBlock(s, ScaleUp(env, s))
  {
    hide SetReplicas, Grows, FirstAtLeast;
    var (scaled, n1, w1) := SetReplicas(env, s.n, s.w, 1);
    SetReplicasGrows(env, s.n, s.w, 1);
    if scaled {
      var (back, w2) := RejoinPoll(env, w1, n1.name, n1.clusterSize);
      assert ScaleUp(env, s).w.log == w2.log;
      assert w2.log == s.w.log + [Scaled(s.n.name, 1, 1, true), w2.log[|w1.log|]];
    }
  }

  lemma RollOutShape(env: Env, s: Step)
    ensures SecondBlock(s, RollOut(env, s))
  {
    hide SetPaused, RolloutPoll, RefreshHashes, Grows, FirstAtLeast;
    var (_, n1, w1) := SetPaused(env, s.n, s.w, false);
    SetPausedGrows(env, s.n, s.w, false);
    var (rolled, n2, w2) := RolloutPoll(env, n1, w1);
    RolloutPollGrows(env, n1, w1);
    if rolled {
      var (_, n3, w3) := SetPaused(env, n2, w2, true);
      SetPausedGrows(env, n2, w2, true);
      var (n4, w4) := RefreshHashes(env, n3, w3);
      RefreshHashesGrows(env, n3, w3);
      var (back, w5) := RejoinPoll(env, w4, n4.name, n4.clusterSize);
      assert w5.log == s.w.log + [w1.log[|s.w.log|], w2.log[|w1.log|], w3.log[|w2.log|], w5.log[|w4.log|]];
    }
  }

  lemma ReenableKeeps(env: Env, s: Step, t: Step)
    requires CycleOk(s.w.log, s.n.name, s.u) && s.u.phase == NodeRestarting && s.u.under == IsTrue
    requires SecondBlock(s, t) && t.go
    ensures var r := Reenable(env, t); CycleOk(r.w.log, s.n.name, r.u)
  {
    hide HeadAt, TailAt, GoodCycle;
    var name := s.n.name;
    var r := Reenable(env, t);
    var b :| OpenSince(s.w.log, name, b) && Reached(s.w.log, name, b, NodeRestarting);
    assert NoClear(s.w.log, r.w.log, name);
    ExtendOpen(s.w.log, r.w.log, name, b);
    ExtendReached(s.w.log, r.w.log, name, b, NodeRestarting);
    ExtendClosedCycles(s.w.log, r.w.log, name);
    if r.u.phase == RecoveringData {
      var f :| HeadAt(s.w.log, name, b, f);
      assert 0 <= f < |s.w.log| by {
        HeadInRange(s.w.log, name, b, f);
      }
      assert r.w.log == t.w.log + [Allocation(name, true, true)];
      TailEarlier(r.w.log, name, f, |s.w.log| - 1, |t.w.log|);
      ExtendHead(s.w.log, r.w.log, name, b, f);
      assert EnabledSince(r.w.log, name, b, f, |t.w.log|);
    }
  }

  lemma HeadInRange(log: seq<Event>, name: string, b: int, f: int)
    requires HeadAt(log, name, b, f)
    ensures 0 <= b < f < |log|
  {
  }

  lemma TailInRange(log: seq<Event>, name: string, f: int, e: int)
    requires TailAt(log, name, f, e)
    ensures 0 <= f < e < |log|
  {
  }

  lemma RecycleKeeps(env: Env, s: Step, updating: bool)
    requires CycleOk(s.w.log, s.n.name, s.u)
    requires s.go ==> s.u.under == IsTrue
    ensures var t := Recycle(env, s, updating); CycleOk(t.w.log, s.n.name, t.u)
  {
    hide RollOut, ScaleUp, Reenable, NoClear, Tails, Reached, GoodCycle;
    if s.go && s.u.phase == NodeRestarting {
      var t := if updating then RollOut(env, s) else ScaleUp(env, s);
      if updating {
        RollOutShape(env, s);
      } else {
        ScaleUpShape(env, s);
      }
      if t.go {
        ReenableKeeps(env, s, t);
      } else {
        ExtendOk(s.w.log, t.w.log, s.n.name, s.u, s.u);
      }
    }
  }

  /** Closing a cycle: the log gains a green read and the clear. */
  lemma CloseCycle(log: seq<Event>, name: string, u: Upgrade)
    requires CycleOk(log, name, u) && u.under == IsTrue && u.phase == RecoveringData
    ensures CycleOk(log + [HealthRead(name, true), Clear(name)], name, u.(under := Blank, phase := ControllerUpdated))
  {
    var log' := log + [HealthRead(name, true), Clear(name)];
    var b :| OpenSince(log, name, b) && Reached(log, name, b, RecoveringData);
    var f, e :| EnabledSince(log, name, b, f, e);
    ExtendHead(log, log', name, b, f);
    ExtendTail(log, log', name, f, e);
    HeadInRange(log, name, b, f);
    TailInRange(log, name, f, e);
    ClosedComplete(log, name, b, f, e);
    assert GoodCycle(log', name, |log| + 1);
    hide HeadAt, TailAt, Complete, OpenSince, EnabledSince, GoodCycle;
    CloseOneMore(log, log', name);
  }

  lemma CloseOneMore(log: seq<Event>, log': seq<Event>, name: string)
    requires forall k :: 0 <= k < |log| && log[k] == Clear(name) ==> GoodCycle(log, name, k)
    requires log' == log + [HealthRead(name, true), Clear(name)] && GoodCycle(log', name, |log| + 1)
    ensures forall k :: 0 <= k < |log'| && log'[k] == Clear(name) ==> GoodCycle(log', name, k)
  {
    hide GoodCycle;
    forall k | 0 <= k < |log'| && log'[k] == Clear(name) ensures GoodCycle(log', name, k) {
      if k < |log| {
        ExtendClosed(log, log', name, k);
      }
    }
  }

  lemma ClosedComplete(log: seq<Event>, name: string, b: int, f: int, e: int)
    requires OpenSince(log, name, b) && EnabledSince(log, name, b, f, e)
    requires var log' := log + [HealthRead(name, true), Clear(name)]; HeadAt(log', name, b, f) && TailAt(log', name, f, e)
    ensures Complete(log + [HealthRead(name, true), Clear(name)], name, b, f, e, |log| + 1)
  {
    HeadInRange(log, name, b, f);
    TailInRange(log, name, f, e);
    hide HeadAt, TailAt;
  }

  lemma RecoverKeeps(env: Env, s: Step)
    requires CycleOk(s.w.log, s.n.name, s.u)
    ensures var t := Recover(env, s); CycleOk(t.w.log, s.n.name, t.u)
  {
    if s.go && s.u.phase == RecoveringData {
      var (green, w1) := Health(env, s.w, s.n.name);
      var t := Recover(env, s);
      if green {
        CloseCycle(s.w.log, s.n.name, s.u);
        assert t.w.log == s.w.log + [HealthRead(s.n.name, true), Clear(s.n.name)];
      } else {
        ExtendOk(s.w.log, w1.log, s.n.name, s.u, s.u);
      }
    }
  }

  // ----- who answers for disabled allocation -----

  /** The status of a node is well formed: it is at the start unless under upgrade. */
  predicate Regular(u: Upgrade) {
    u.under != IsTrue ==> AtStart(u.phase)
  }

  lemma BeginBlames(env: Env, s: Step, sizeRequired: bool)
    ensures var t := BeginCycle(env, s, sizeRequired);
            && t.w.allocation == s.w.allocation && t.u.phase == s.u.phase
            && (t.u.under == s.u.under || t.u.under == IsTrue) && (t.go ==> t.u.under == IsTrue)
  {
    hide Grows;
  }

  /** The second block ends in RecoveringData only with allocation enabled. */
  lemma RecycleBlames(env: Env, s: Step, updating: bool)
    ensures var t := Recycle(env, s, updating);
            && t.u.under == s.u.under
            && (t == s || (s.u.phase == NodeRestarting &&
                  (t.u.phase == NodeRestarting || (t.u.phase == RecoveringData && t.w.allocation))))
  {
    hide RollOut, ScaleUp, Grows, NoClear;
    if s.go && s.u.phase == NodeRestarting {
      if updating {
        RollOutShape(env, s);
      } else {
        ScaleUpShape(env, s);
      }
    }
  }

  /**
   * After one call of update or restart, cut short anywhere, disabled allocation is this node's to
   * answer for, unless it was disabled before and this node did not answer for it.  A node that was
   * under upgrade answers for it afterwards only if it did before.
   */
  lemma CallBlames(env: Env, s: Step, updating: bool)
    requires Regular(s.u)
    ensures var t := Call(env, s, updating);
            && Regular(t.u) && Blame(s, t)
            && (s.u.under == IsTrue && Holding(t.u) ==> Holding(s.u))
  {
    var t := BeginCycle(env, s, !updating);
    BeginBlames(env, s, !updating);
    var x := if updating then Apply(env, t) else Drain(env, t);
    if updating {
      ApplyShape(env, t);
    } else {
      DrainShape(env, t);
    }
    var y := Recycle(env, x, updating);
    RecycleBlames(env, x, updating);
    hide Grows, BeginCycle, Apply, Drain, Recycle, NoClear;
  }

  /** One call of update or restart, cut short anywhere, keeps the cycle shape and the blame. */
  lemma CallKeeps(env: Env, s: Step, updating: bool)
    requires CycleOk(s.w.log, s.n.name, s.u)
    ensures var t := Call(env, s, updating); CycleOk(t.w.log, s.n.name, t.u) && Blame(s, t)
  {
    CallBlames(env, s, updating);
    hide Grows, BeginCycle, Apply, Drain, Recycle, Recover, CycleOk;
    var t := BeginCycle(env, s, !updating);
    BeginKeeps(env, s, !updating);
    BeginFollows(env, s, !updating);
    var x := if updating then Apply(env, t) else Drain(env, t);
    if updating {
      ApplyShape(env, t);
      ApplyFollows(env, t);
    } else {
      DrainShape(env, t);
      DrainFollows(env, t);
    }
    FirstBlockKeeps(t, x);
    RecycleFollows(env, x, updating);
    RecycleKeeps(env, x, updating);
    RecoverKeeps(env, Recycle(env, x, updating));
  }
}
