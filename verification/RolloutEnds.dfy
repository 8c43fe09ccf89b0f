/**
 * How a StatefulSet's upgrade ends, in whole runs: with all nodes back, and when everything goes
 * well with a current hash, so that it is not scheduled for a redeploy again.
 */
module RolloutEnds {
  import opened Base
  import opened Environment
  import opened Workload
  import Sts = StatefulSetUpgrade
  import opened PartitionRollout
  import opened Reconcile
  import opened Footprint
  import opened StatusIndex
  import opened CleanCalls
  import opened NodeRollouts
  import opened OnePassRestart
  import opened StatefulSetEffects
  import Convergence
  import ConvergenceTheorem
  import DroppedNode

  /**
   * Over any passes that find the node under upgrade, until it is not: right before the upgrade was
   * cleared a poll saw the cluster back at the recorded size, and since then the node's partition
   * was left alone.
   */
  lemma RolloutsEndBack(
    env: Env, trace: seq<Cluster>, gens: seq<seq<NodeState>>, a: nat, b: nat, j: nat, name: string, size: int, mark: Mark)
    returns (r: nat)
    requires IsRun(env, trace, gens) && Ongoing(trace, gens, a, b, name) && Kept(trace[a], j, name, size, mark)
    requires mark.1 != RecoveringData && a < b && Marked(trace[b].stored, name).0 != IsTrue
    ensures var log := trace[b].w.log;
            && |trace[a].w.log| <= r && r + 1 < |log| && SeenBack(log[r], name, size) && log[r + 1] == Clear(name)
            && forall i :: r + 1 < i < |log| && log[i].node == name ==> Harmless(log[i])
  {
    hide Pass, IsRun, Sts.Call, Kept, Resumes, InCycle, NeverRecovering, EntryOf, DistinctNodes, FindNode;
    var k, starts, updating := RunIsCycle(env, trace, gens, a, b, j, name, size, mark);
    hide Ongoing;
    var t := LastCall(env, starts, updating);
    LastGoes(env, starts, updating);
    FinishedCycleSawAllBack(env, starts, updating);
    CycleLogs(env, starts, updating);
    hide EndsBack, Calm;
    r := |t.w.log| - 2;
    EndsBackCalmly(t.w, trace[b].w, name, size);
    CalmGrows(trace[a].w, starts[0].w, name);
  }

  lemma CalmGrows(w: World, w': World, name: string)
    requires Calm(w, w', name)
    ensures w.log <= w'.log
  {
  }

  lemma EndsBackCalmly(w: World, w': World, name: string, size: int)
    requires EndsBack(w.log, name, size) && Calm(w, w', name)
    ensures var r := |w.log| - 2;
            && 0 <= r && r + 1 < |w'.log| && SeenBack(w'.log[r], name, size) && w'.log[r + 1] == Clear(name)
            && forall i :: r + 1 < i < |w'.log| && w'.log[i].node == name ==> Harmless(w'.log[i])
  {
  }

  lemma LastGoes(env: Env, starts: seq<Step>, updating: seq<bool>)
    requires CycleOfCalls(env, starts, updating) && starts[0].go
    ensures starts[|starts| - 1].go
  {
    hide Sts.Call;
    if |starts| > 1 {
      assert Resumes(Sts.Call(env, starts[|starts| - 2], updating[|starts| - 2]), starts[|starts| - 1]);
    }
  }

  /** The log only grows from call to call. */
  lemma {:induction false} CycleLogs(env: Env, starts: seq<Step>, updating: seq<bool>)
    requires CycleOfCalls(env, starts, updating)
    ensures starts[0].w.log <= starts[|starts| - 1].w.log
    decreases |starts|
  {
    var last := |starts| - 1;
    if last > 0 {
      CycleLogs(env, starts[..last], updating[..last]);
      var t := Sts.Call(env, starts[last - 1], updating[last - 1]);
      assert Resumes(t, starts[last]);
      Sts.CallTame(env, starts[last - 1], updating[last - 1]);
      hide Sts.Call;
    }
  }

  // ----- no redeploy after a clean end -----

  ghost predicate NotRedeployed(entries: seq<Entry>, name: string) {
    FindEntry(entries, name) >= 0 && EntryOf(entries, name).upgrade.scheduledRedeploy == Blank
  }

  lemma VisitSelfRefreshes(
    env: Env, c: Cluster, updating: bool, k: nat, name: string, size: int, mark: Mark, hash: string)
    requires On(c, k, name, size, {mark}) && mark.1 != RecoveringData && FindEntry(c.mem, name) >= 0
    requires FixedSecret(env, hash) && Visit(env, c, k, updating).w.clean
    ensures NotRedeployed(Visit(env, c, k, updating).mem, name)
  {
    var e := EntryOf(c.mem, name);
    EntryNamed(c, name);
    FindEntryKey(c.mem, name);
    TreatFollows(env, c.nodes[k], e, c.w, updating);
    Convergence.VisitCleanTreat(env, c, k, updating);
    var s := CallStart(c, k);
    var t := Sts.Call(env, s, updating);
    StateGrows(env, t.n, t.w);
    assert t.w.clean;
    CleanCallRefreshes(env, s, updating, hash);
    var (n, e', w) := Treat(env, c.nodes[k], e, c.w, updating);
    assert e'.upgrade.scheduledRedeploy == Blank;
    hide Treat, State, Sts.Call, FindEntry, UniqueKeys, Store, FixedSecret;
    SameNamesSameKey(e, e');
    PutEntryLookup(c.mem, name, e', "");
    DroppedNode.CleanStore(env, c.(nodes := c.nodes[k := n], w := w), PutEntry(c.mem, FindEntry(c.mem, name), e'));
  }

  lemma VisitOtherKeeps(env: Env, c: Cluster, i: nat, updating: bool, name: string)
    requires Indexed(c) && i < |c.nodes| && c.nodes[i].name != name && name != "" && FindEntry(c.mem, c.nodes[i].name) >= 0
    requires NotRedeployed(c.mem, name)
    ensures NotRedeployed(Visit(env, c, i, updating).mem, name)
  {
    var other := c.nodes[i].name;
    var e := EntryOf(c.mem, other);
    EntryNamed(c, other);
    FindEntryKey(c.mem, other);
    TreatFollows(env, c.nodes[i], e, c.w, updating);
    hide Treat, FindEntry, UniqueKeys, Store;
    var (n, e', w) := Treat(env, c.nodes[i], e, c.w, updating);
    SameNamesSameKey(e, e');
    PutEntryLookup(c.mem, other, e', name);
    StoreShape(env, c.(nodes := c.nodes[i := n], w := w), PutEntry(c.mem, FindEntry(c.mem, other), e'));
  }

  lemma {:induction false} BatchKeepsRefreshed(
    env: Env, c: Cluster, todo: seq<nat>, updating: bool, k: nat, name: string, size: int, marks: set<Mark>)
    requires On(c, k, name, size, marks) && Positions(todo, |c.nodes|) && HaveEntries(c, todo) && k !in todo
    requires NotRedeployed(c.mem, name)
    ensures NotRedeployed(Batch(env, c, todo, updating).mem, name)
    decreases |todo|
  {
    if todo != [] {
      var c1 := Visit(env, c, todo[0], updating);
      OtherName(c, todo[0], k, name, size, marks);
      VisitOther(env, c, todo[0], updating, k, name, size, marks);
      VisitOtherKeeps(env, c, todo[0], updating, name);
      StillHaveEntries(env, c, todo, updating);
      hide Visit, On, HaveEntries, NotRedeployed;
      BatchKeepsRefreshed(env, c1, todo[1..], updating, k, name, size, marks);
    }
  }

  lemma OtherName(c: Cluster, i: nat, k: nat, name: string, size: int, marks: set<Mark>)
    requires On(c, k, name, size, marks) && i < |c.nodes| && i != k
    ensures Indexed(c) && c.nodes[i].name != name && name != ""
  {
  }

  lemma {:induction false} BatchRefreshes(
    env: Env, c: Cluster, todo: seq<nat>, updating: bool, k: nat, name: string, size: int, mark: Mark, hash: string)
    requires On(c, k, name, size, {mark}) && mark.1 != RecoveringData && FixedSecret(env, hash)
    requires Positions(todo, |c.nodes|) && HaveEntries(c, todo) && NoDuplicates(todo) && k in todo
    requires Batch(env, c, todo, updating).w.clean
    ensures NotRedeployed(Batch(env, c, todo, updating).mem, name)
    decreases |todo|
  {
    var c1, rest := Visit(env, c, todo[0], updating), todo[1..];
    StillHaveEntries(env, c, todo, updating);
    ListedHasEntry(c, todo, todo[0]);
    Convergence.BatchClean(env, c1, rest, updating);
    assert NoDuplicates(rest) && todo[0] !in rest;
    if todo[0] == k {
      VisitSelfRefreshes(env, c, updating, k, name, size, mark, hash);
      VisitSelf(env, c, updating, k, name, size, {mark});
      hide Visit, On, HaveEntries, NotRedeployed, NoDuplicates, Sts.Call;
      var t := Sts.Call(env, CallStart(c, k), updating);
      BatchKeepsRefreshed(env, c1, rest, updating, k, name, t.n.clusterSize, {mark} + {MarkOf(t.u)});
    } else {
      VisitOther(env, c, todo[0], updating, k, name, size, {mark});
      hide Visit, On, HaveEntries, NotRedeployed, NoDuplicates;
      BatchRefreshes(env, c1, rest, updating, k, name, size, mark, hash);
    }
  }

  /** Work that is not calm for the node, as it clears its upgrade, has visited it. */
  lemma WorkRefreshes(env: Env, c: Cluster, k: nat, name: string, size: int, mark: Mark, hash: string)
    requires On(c, k, name, size, {mark}) && mark.1 != RecoveringData && FixedSecret(env, hash)
    requires Work(env, c).1.w.clean && !Calm(c.w, Work(env, c).1.w, name)
    ensures Work(env, c).0 && NotRedeployed(Work(env, c).1.mem, name)
  {
    assert Indexed(c) && k < |c.nodes| && c.nodes[k].name == name;
    ModeFacts(c, k, name);
    hide ModeOf, Visit, Batch, MakeAll, Scheduled, FindEntry, EntryOf, Indexed, NoDuplicates, HaveEntries, On, Calm, NotRedeployed;
    match ModeOf(c) {
      case Continue(i, updating) =>
        if i == k {
          VisitSelfRefreshes(env, c, updating, k, name, size, mark, hash);
        } else {
          VisitOther(env, c, i, updating, k, name, size, {mark});
        }
      case Upgrades(todo) =>
        if k in todo {
          BatchRefreshes(env, c, todo, true, k, name, size, mark, hash);
        } else {
          BatchOthers(env, c, todo, true, k, name, size, {mark});
        }
      case Redeploys(todo) =>
        if k in todo {
          BatchRefreshes(env, c, todo, false, k, name, size, mark, hash);
        } else {
          BatchOthers(env, c, todo, false, k, name, size, {mark});
        }
      case Creates =>
        MakeAllOn(env, c, 0, k, name, size, {mark});
    }
  }

  /**
   * With the secret fixed, a pass in which everything goes well and which clears the node's upgrade,
   * from a phase before recovery, leaves it not scheduled for a redeploy.
   */
  lemma CleanEndNeedsNoRedeploy(
    env: Env, c: Cluster, gen: seq<NodeState>, j: nat, name: string, size: int, mark: Mark, hash: string)
    requires Kept(c, j, name, size, mark) && mark.1 != RecoveringData && FixedSecret(env, hash)
    requires DistinctNodes(gen) && FindNode(gen, name) >= 0
    requires Pass(env, c, gen).w.clean && Closes(c.w, Pass(env, c, gen).w, name)
    ensures EntryOf(Pass(env, c, gen).stored, name).upgrade.scheduledRedeploy == Blank
  {
    var r := Pass(env, c, gen);
    CalmClosesNothing(c.w, r.w, name);
    assert env(c.w.pos).ok;
    var k := PrepareOn(env, c, gen, j, name, size, mark);
    var p := Prepare(env, c, gen);
    var (ok, w) := Work(env, p);
    if ok {
      ConvergenceTheorem.CloseFlagClean(env, w);
    }
    hide Prepare, Work, Closes, On, Calm, NotRedeployed;
    assert Calm(w.w, r.w, name) by {
      CloseCalm(env, w, name);
      CalmReflexive(w.w, name);
    }
    if Calm(p.w, w.w, name) {
      CalmTransitive(c.w, p.w, w.w, name);
      CalmTransitive(c.w, w.w, r.w, name);
      assert false;
    }
    WorkRefreshes(env, p, k, name, size, mark, hash);
    CloseKeepsRefreshed(env, w, name);
  }

  lemma CloseCalm(env: Env, c: Cluster, name: string)
    ensures Calm(c.w, Close(env, c).w, name)
  {
  }

  lemma CloseKeepsRefreshed(env: Env, c: Cluster, name: string)
    requires NotRedeployed(c.mem, name) && Close(env, c).w.clean
    ensures EntryOf(Close(env, c).stored, name).upgrade.scheduledRedeploy == Blank
  {
    var entries := Rescheduled(c.mem, env(c.w.pos).unschedulable);
    assert Close(env, c).stored == entries;
    SameKeysFind(c.mem, entries, name);
  }
}
