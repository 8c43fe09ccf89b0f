/**
 * What a pass does for nodes whose pods cannot be scheduled, when everything goes well: the new spec
 * is written at once, without a cycle; a Deployment is rolled out and paused again, and of a
 * StatefulSet the pod at the partition is deleted.
 */
module HelpEffects {
  import opened Base
  import opened Drift
  import opened Environment
  import opened Workload
  import Dep = DeploymentUpgrade
  import Sts = StatefulSetUpgrade
  import opened CleanCalls
  import opened Reconcile
  import opened Footprint
  import opened StatusIndex
  import ConvergenceTheorem
  import CallEffects

  // ----- one node -----

  /** A check that finds drift, and then the write. */
  lemma CleanPatchAndWrite(env: Env, n: NodeState, w: World)
    requires IsChanged(env, n, w).0
    requires var (_, n1, w1) := IsChanged(env, n, w); ExecuteUpdate(env, n1, w1).2.clean
    ensures var (_, n1, w1) := IsChanged(env, n, w);
            var (ok, n2, w2) := ExecuteUpdate(env, n1, w1);
            && ok && n.name in w.objects && n2.name == n.name && n2.revision == n.revision && w2.log == w.log
            && n.name in w2.objects && Agrees(w2.objects[n.name], n.self.spec)
            && w2.objects[n.name].partition == w.objects[n.name].partition
  {
    var (changed, n1, w1) := IsChanged(env, n, w);
    var server, patched := w.objects[n.name], Patch(w.objects[n.name], n.self.spec);
    PatchAgrees(server, n.self.spec);
    PatchKeepsTheRest(server, n.self.spec);
    PatchStable(server, n.self.spec);
    hide Agrees, Patch, OutOfRange, Grows;
    assert n1.self.spec == patched && w1.objects == w.objects;
  }

  ghost predicate Drifted(n: NodeState, w: World) {
    n.name in w.objects && !Agrees(w.objects[n.name], n.self.spec)
  }

  /** The rest of the help for a Deployment, once the spec is written. */
  function Rollout(env: Env, n: NodeState, w: World): (NodeState, World) {
    var (unpaused, n3, w3) := SetPaused(env, n, w, false);
    if !unpaused then (n3, w3)
    else
      var (rolled, n4, w4) := RolloutPoll(env, n3, w3);
      var n5 := if rolled then n4.(revision := Revision(n4)) else n4;
      var (_, n6, w6) := SetPaused(env, n5, w4, true);
      (n6, w6)
  }

  lemma CleanRollout(env: Env, n: NodeState, w: World)
    requires Rollout(env, n, w).1.clean
    ensures var (n', w') := Rollout(env, n, w);
            && w.clean && n.name in w.objects && n.name in w'.objects && n'.revision != n.revision
            && w'.objects[n.name] == w.objects[n.name].(paused := true)
            && w'.log == w.log + [Paused(n.name, false, false, true), RolledOut(n.name, n.revision, n'.revision, true),
                                  Paused(n.name, true, true, true)]
  {
    hide SetPaused, RolloutPoll, Grows;
    var (unpaused, n3, w3) := SetPaused(env, n, w, false);
    SetPausedGrows(env, n, w, false);
    if !unpaused {
      CleanSetPaused(env, n, w, false);
    }
    assert unpaused;
    var (rolled, n4, w4) := RolloutPoll(env, n3, w3);
    RolloutPollGrows(env, n3, w3);
    var n5 := if rolled then n4.(revision := Revision(n4)) else n4;
    var (again, n6, w6) := SetPaused(env, n5, w4, true);
    SetPausedGrows(env, n5, w4, true);
    CleanMonotone(w4, w6, n.name);
    CleanMonotone(w3, w4, n.name);
    CleanMonotone(w, w3, n.name);
    CleanSetPaused(env, n, w, false);
    CleanSetPaused(env, n5, w4, true);
    assert rolled by {
      CleanRolloutPoll(env, n3, w3);
    }
    assert w6.log == w.log + [w3.log[|w.log|], w4.log[|w3.log|], w6.log[|w4.log|]];
  }

  lemma CleanRolloutPoll(env: Env, n: NodeState, w: World)
    ensures RolloutPoll(env, n, w).2.clean ==> RolloutPoll(env, n, w).0
  {
  }

  /**
   * A clean help for an unschedulable Deployment: without drift nothing happens; with drift the server
   * gets the desired compared fields, the Deployment is unpaused, seen to roll out from the recorded
   * revision to another, which is recorded, and paused again.
   */
  lemma CleanHelpDeployment(env: Env, n: NodeState, w: World)
    requires Dep.Progress(env, n, w).1.clean
    ensures var (n', w') := Dep.Progress(env, n, w);
            && n.name in w.objects && n.name in w'.objects && Agrees(w'.objects[n.name], n.self.spec)
            && (!Drifted(n, w) ==> w'.objects == w.objects && w'.log == w.log)
            && (Drifted(n, w) ==>
                  && w'.objects[n.name].paused && n'.revision != n.revision
                  && w'.log == w.log + [Paused(n.name, false, false, true), RolledOut(n.name, n.revision, n'.revision, true),
                                        Paused(n.name, true, true, true)])
  {
    var (changed, n1, w1) := IsChanged(env, n, w);
    IsChangedSees(env, n, w);
    if changed {
      var (ok, n2, w2) := ExecuteUpdate(env, n1, w1);
      hide IsChanged, ExecuteUpdate, SetPaused, RolloutPoll, Agrees;
      var (n', w') := Dep.Progress(env, n, w);
      assert (n', w') == if ok then Rollout(env, n2, w2) else (n2, w2);
      if ok {
        CleanRollout(env, n2, w2);
      }
      hide Dep.Progress, Rollout;
      CleanPatchAndWrite(env, n, w);
      SameComparedAgrees(w'.objects[n.name], w2.objects[n.name], n.self.spec);
    } else {
      CleanIsChanged(env, n, w);
    }
  }

  lemma IsChangedSees(env: Env, n: NodeState, w: World)
    ensures IsChanged(env, n, w).0 ==> Drifted(n, w)
  {
    hide Agrees, Patch, Grows;
  }

  /**
   * A clean help for an unschedulable StatefulSet: without drift nothing happens; with drift the server
   * gets the desired compared fields, and the pod at its partition is deleted.
   */
  lemma CleanHelpStatefulSet(env: Env, n: NodeState, w: World)
    requires Sts.Progress(env, n, w).1.clean
    ensures var (n', w') := Sts.Progress(env, n, w);
            && n.name in w.objects && n.name in w'.objects && Agrees(w'.objects[n.name], n.self.spec)
            && (!Drifted(n, w) ==> w'.objects == w.objects && w'.log == w.log)
            && (Drifted(n, w) ==> w'.log == w.log + [DeletePod(n.name, w.objects[n.name].partition, true)])
  {
    var (changed, n1, w1) := IsChanged(env, n, w);
    IsChangedSees(env, n, w);
    if changed {
      var (ok, n2, w2) := ExecuteUpdate(env, n1, w1);
      hide IsChanged, ExecuteUpdate, Agrees;
      assert ExecuteUpdate(env, n1, w1).2.clean;
      CleanPatchAndWrite(env, n, w);
    } else {
      CleanIsChanged(env, n, w);
    }
  }

  lemma HelpNode(env: Env, n: NodeState, w: World)
    requires ProgressNode(env, n, w).1.clean
    ensures var w' := ProgressNode(env, n, w).1; n.name in w'.objects && Agrees(w'.objects[n.name], n.self.spec)
  {
    hide Dep.Progress, Sts.Progress;
    if n.kind.Deployment? {
      CleanHelpDeployment(env, n, w);
    } else {
      CleanHelpStatefulSet(env, n, w);
    }
  }

  // ----- the pass -----

  ghost predicate Agreeing(c: Cluster, i: nat, desired: Spec)
    requires i < |c.nodes|
  {
    c.nodes[i].name in c.w.objects && Agrees(c.w.objects[c.nodes[i].name], desired)
  }

  /** Helping other nodes leaves a node and its workload as they are. */
  lemma {:induction false} ProgressAtOthers(env: Env, c: Cluster, todo: seq<nat>, i: nat)
    requires DistinctNodes(c.nodes) && Positions(todo, |c.nodes|) && i < |c.nodes| && i !in todo
    ensures var r, name := ProgressAt(env, c, todo), c.nodes[i].name;
            && DistinctNodes(r.nodes) && r.nodes[i] == c.nodes[i]
            && (name in c.w.objects ==> name in r.w.objects && r.w.objects[name] == c.w.objects[name])
            && (r.w.clean ==> c.w.clean)
    decreases |todo|
  {
    hide ProgressNode, DistinctNodes;
    if todo != [] {
      var k := todo[0];
      ProgressNodeQuiet(env, c.nodes[k], c.w);
      var (n, w) := ProgressNode(env, c.nodes[k], c.w);
      RenamedNodes(c.nodes, k, n);
      DistinctAt(c.nodes, i, k);
      OtherObject(c.w, w, c.nodes[k].name, c.nodes[i].name);
      ProgressAtOthers(env, c.(nodes := c.nodes[k := n], w := w), todo[1..], i);
    }
  }

  lemma DistinctAt(nodes: seq<NodeState>, i: nat, k: nat)
    requires DistinctNodes(nodes) && i < |nodes| && k < |nodes| && i != k
    ensures nodes[i].name != nodes[k].name
  {
  }

  /** Entries that do not name a node leave it alone. */
  lemma {:induction false} ProgressAllOthers(env: Env, c: Cluster, j: nat, i: nat)
    requires DistinctNodes(c.nodes) && j <= |c.mem| && i < |c.nodes|
    requires forall m :: j <= m < |c.mem| ==> !Names(c.mem[m], c.nodes[i].name)
    ensures var r, name := ProgressAll(env, c, j), c.nodes[i].name;
            && |r.nodes| == |c.nodes| && r.nodes[i] == c.nodes[i]
            && (name in c.w.objects ==> name in r.w.objects && r.w.objects[name] == c.w.objects[name])
    decreases |c.mem| - j
  {
    hide ProgressAt, DistinctNodes, Names;
    if j < |c.mem| {
      if c.mem[j].unschedulable {
        var todo := NodesOf(c.mem[j], c.nodes, 0);
        ProgressAtOthers(env, c, todo, i);
        ProgressAllOthers(env, ProgressAt(env, c, todo), j + 1, i);
      } else {
        ProgressAllOthers(env, c, j + 1, i);
      }
    }
  }

  lemma OneNamed(e: Entry, nodes: seq<NodeState>, i: nat)
    requires DistinctNodes(nodes) && i < |nodes| && Named(e) && Names(e, nodes[i].name)
    ensures NodesOf(e, nodes, 0) == [i]
  {
    ConvergenceTheorem.NodesOfUnique(e, nodes, 0);
    hide DistinctNodes, NodesOf;
    assert i in NodesOf(e, nodes, 0);
  }

  lemma ProgressAtOne(env: Env, c: Cluster, i: nat)
    requires i < |c.nodes|
    ensures var (n, w) := ProgressNode(env, c.nodes[i], c.w);
            ProgressAt(env, c, [i]) == c.(nodes := c.nodes[i := n], w := w)
  {
    hide ProgressNode;
    assert [i][1..] == [];
  }

  /** Help for the one node that an entry names. */
  lemma HelpNamed(env: Env, c: Cluster, e: Entry, i: nat)
    requires DistinctNodes(c.nodes) && i < |c.nodes| && Named(e) && Names(e, c.nodes[i].name)
    requires ProgressAt(env, c, NodesOf(e, c.nodes, 0)).w.clean
    ensures var r := ProgressAt(env, c, NodesOf(e, c.nodes, 0));
            && DistinctNodes(r.nodes) && r.nodes[i].name == c.nodes[i].name && Agreeing(r, i, c.nodes[i].self.spec)
  {
    OneNamed(e, c.nodes, i);
    ProgressAtOne(env, c, i);
    hide ProgressNode, ProgressAt, DistinctNodes, Agrees, NodesOf, Names, Named, Grows, HarmlessOnly;
    ProgressNodeQuiet(env, c.nodes[i], c.w);
    var (n, w) := ProgressNode(env, c.nodes[i], c.w);
    RenamedNodes(c.nodes, i, n);
    HelpNode(env, c.nodes[i], c.w);
  }

  /** The m-th entry is unschedulable and names the i-th node: the node is helped. */
  lemma {:induction false} ProgressAllHelps(env: Env, c: Cluster, j: nat, m: nat, i: nat)
    requires DistinctNodes(c.nodes) && UniqueKeys(c.mem) && j <= m < |c.mem| && i < |c.nodes|
    requires c.mem[m].unschedulable && Names(c.mem[m], c.nodes[i].name) && ProgressAll(env, c, j).w.clean
    ensures var r := ProgressAll(env, c, j); |r.nodes| == |c.nodes| && r.nodes[i].name == c.nodes[i].name
                                             && Agreeing(r, i, c.nodes[i].self.spec)
    decreases |c.mem| - j
  {
    var name := c.nodes[i].name;
    NameAt(c.nodes, i);
    forall l | 0 <= l < |c.mem| && l != m ensures !Names(c.mem[l], name) {
      OnlyOneNames(c.mem, l, m, name);
    }
    hide ProgressAt, DistinctNodes, UniqueKeys, Names, Agrees;
    var todo := NodesOf(c.mem[j], c.nodes, 0);
    if j == m {
      var c1 := ProgressAt(env, c, todo);
      ConvergenceTheorem.ProgressAllMonotone(env, c1, j + 1);
      assert Named(c.mem[m]) by {
        NamedAt(c.mem, m);
      }
      HelpNamed(env, c, c.mem[m], i);
      ProgressAllOthers(env, c1, j + 1, i);
    } else if c.mem[j].unschedulable {
      ProgressAtOthers(env, c, todo, i);
      ProgressAllHelps(env, ProgressAt(env, c, todo), j + 1, m, i);
    } else {
      ProgressAllHelps(env, c, j + 1, m, i);
    }
  }

  lemma NameAt(nodes: seq<NodeState>, i: nat)
    requires DistinctNodes(nodes) && i < |nodes|
    ensures nodes[i].name != ""
  {
  }

  lemma NamedAt(entries: seq<Entry>, m: nat)
    requires UniqueKeys(entries) && m < |entries|
    ensures Named(entries[m])
  {
  }

  lemma OnlyOneNames(entries: seq<Entry>, l: nat, m: nat, name: string)
    requires UniqueKeys(entries) && l < |entries| && m < |entries| && l != m && name != "" && Names(entries[m], name)
    ensures !Names(entries[l], name)
  {
    NamesIsKey(entries[l], name);
    NamesIsKey(entries[m], name);
  }

  /**
   * A pass that goes well as far as choosing its work has brought every generated node whose stored
   * entry says that its pod cannot be scheduled into agreement with the spec on the compared fields.
   */
  lemma UnschedulableHelped(env: Env, c: Cluster, gen: seq<NodeState>, e: Entry, i: nat)
    requires Indexed(c) && DistinctNodes(gen) && e in c.stored && e.unschedulable
    requires i < |gen| && Names(e, gen[i].name) && Prepare(env, c, gen).w.clean
    ensures var p, name := Prepare(env, c, gen), gen[i].name;
            name in p.w.objects && Agrees(p.w.objects[name], gen[i].self.spec)
  {
    var c0 := c.(mem := c.stored, w := Tick(c.w, true));
    NameAt(gen, i);
    NamesIsKey(e, gen[i].name);
    PurgeIndexed(env, c0, gen, 0, false);
    PurgeKeeps(env, c0, gen, 0, false, e, i);
    MergeDistinct(c0.nodes, gen);
    var g := GetNodes(env, c0, gen);
    hide Purge, ProgressAll, Agrees, Names, UniqueKeys, DistinctNodes;
    var m :| 0 <= m < |g.mem| && g.mem[m] == e;
    ProgressAllHelps(env, g, 0, m, i);
  }

  /** Refreshing the cache keeps the entries of generated nodes. */
  lemma {:induction false} PurgeKeeps(
    env: Env, c: Cluster, gen: seq<NodeState>, k: nat, reviewed: bool, e: Entry, i: nat)
    requires DistinctNodes(c.nodes) && UniqueKeys(c.mem) && k <= |c.nodes| && e in c.mem
    requires i < |gen| && Key(e) == gen[i].name
    ensures e in Purge(env, c, gen, k, reviewed).mem
    decreases |c.nodes| - k
  {
    if k < |c.nodes| {
      var name := c.nodes[k].name;
      if FindNode(gen, name) >= 0 {
        PurgeKeeps(env, c, gen, k + 1, reviewed, e, i);
      } else {
        var w1 := if reviewed then c.w else Note(c.w, MinMasters(""));
        DropEntryIndexed(c.mem, name);
        DropEntryElement(c.mem, name, e);
        hide DropEntry, UniqueKeys, DistinctNodes;
        PurgeKeeps(env, c.(mem := DropEntry(c.mem, name), w := Delete(env, w1, name)), gen, k + 1, true, e, i);
      }
    }
  }
}
