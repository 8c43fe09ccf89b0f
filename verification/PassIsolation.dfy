/**
 * How upgrades start: only on a green cluster, and only in passes that began with no node
 * under upgrade.  Nothing here assumes that any write succeeds.
 */
module PassIsolation {
  import opened Base
  import opened Environment
  import opened Drift
  import opened Workload
  import Dep = DeploymentUpgrade
  import Sts = StatefulSetUpgrade
  import opened CycleSafety
  import opened Reconcile
  import opened Footprint
  import opened StatusIndex
  import RunSafety

  // ----- the green gate -----

  ghost predicate GreenRead(log: seq<Event>, log': seq<Event>, name: string) {
    exists i :: |log| <= i < |log'| && log'[i] == HealthRead(name, true)
  }

  /** On a cluster that is not green a call that would start a cycle does nothing but read the health. */
  lemma NotGreenNoCall(env: Env, s: Step, updating: bool)
    requires s.u.under != IsTrue && env(s.w.pos).health != "green"
    ensures CallNode(env, s, updating).u == s.u
    ensures CallNode(env, s, updating).n == s.n
    ensures CallNode(env, s, updating).w.objects == s.w.objects
    ensures CallNode(env, s, updating).w.allocation == s.w.allocation
  {
    hide Grows;
    if s.n.kind.Deployment? {
      var a := Dep.BeginCycle(env, s, !updating);
      hide Dep.BeginCycle, Dep.RollOut, Dep.ScaleUp, Dep.Reenable;
      assert !a.go;
    } else {
      var a := Sts.BeginCycle(env, s, !updating);
      hide Sts.BeginCycle, Sts.Loop;
      assert !a.go;
    }
  }

  /**
   * Every call that changes the upgrade status of a node which is not under upgrade, in
   * particular every entry into UnderUpgrade, made a green health read in the same call.
   */
  lemma GreenGate(env: Env, s: Step, updating: bool)
    requires s.u.under != IsTrue && CallNode(env, s, updating).u != s.u
    ensures GreenRead(s.w.log, CallNode(env, s, updating).w.log, s.n.name)
  {
    hide Grows;
    if env(s.w.pos).health != "green" {
      NotGreenNoCall(env, s, updating);
    } else {
      var (green, w1) := Health(env, s.w, s.n.name);
      var t := CallNode(env, s, updating);
      if s.n.kind.Deployment? {
        DeploymentReadsFirst(env, s, updating);
      } else {
        StatefulSetReadsFirst(env, s, updating);
      }
      assert t.w.log[|s.w.log|] == w1.log[|s.w.log|];
    }
  }

  lemma DeploymentReadsFirst(env: Env, s: Step, updating: bool)
    requires s.u.under != IsTrue && env(s.w.pos).health == "green"
    ensures Health(env, s.w, s.n.name).1.log <= Dep.Call(env, s, updating).w.log
  {
    hide Dep.Apply, Dep.Drain, Dep.Recycle, Dep.Recover;
    var a := Dep.BeginCycle(env, s, !updating);
    var b := if updating then Dep.Apply(env, a) else Dep.Drain(env, a);
    Dep.ApplyFollows(env, a);
    Dep.DrainFollows(env, a);
    Dep.RecycleFollows(env, b, updating);
    Dep.RecoverFollows(env, Dep.Recycle(env, b, updating));
    assert Health(env, s.w, s.n.name).1.log <= a.w.log;
  }

  lemma StatefulSetReadsFirst(env: Env, s: Step, updating: bool)
    requires s.u.under != IsTrue && env(s.w.pos).health == "green"
    ensures Health(env, s.w, s.n.name).1.log <= Sts.Call(env, s, updating).w.log
  {
    hide Sts.SetPartition, Sts.FirstBlock, Sts.Roll, Sts.Finish;
    var (green, w1) := Health(env, s.w, s.n.name);
    var (ok, size, w2) := NodeCount(env, w1);
    var n2 := s.n.(clusterSize := size);
    var (counted, replicas, w3) := ReplicaCount(env, n2, w2);
    Sts.SetPartitionGrows(env, n2, w3, replicas);
    var a := Sts.BeginCycle(env, s, !updating);
    assert w1.log <= a.w.log;
    var b := Sts.FirstBlock(env, a, updating);
    Sts.FirstBlockTame(env, a, updating);
    Sts.RollTame(env, b, updating);
    Sts.FinishTame(Sts.Roll(env, b, updating));
  }

  // ----- one node at a time -----

  /** Every entry but the worker's has the upgrade status it had. */
  ghost predicate OthersKept(before: seq<Entry>, after: seq<Entry>, worker: string) {
    forall e' :: e' in after && Key(e') != worker ==>
      exists e :: e in before && Key(e) == Key(e') && e.upgrade == e'.upgrade
  }

  ghost predicate Busy(e: Entry) {
    e.upgrade.under == IsTrue
  }

  lemma OthersKeptRescheduled(before: seq<Entry>, after: seq<Entry>, flags: seq<bool>, worker: string)
    requires OthersKept(before, after, worker)
    ensures OthersKept(before, Rescheduled(after, flags), worker)
  {
    var r := Rescheduled(after, flags);
    forall e' | e' in r && Key(e') != worker
      ensures exists e :: e in before && Key(e) == Key(e') && e.upgrade == e'.upgrade
    {
      var i :| 0 <= i < |r| && r[i] == e';
      assert after[i] in after && Key(after[i]) == Key(e');
    }
  }

  lemma OthersKeptWithin(before: seq<Entry>, mem: seq<Entry>, k: nat, e': Entry, worker: string)
    requires RunSafety.Within(mem, before) && k < |mem| && Key(e') == worker
    ensures OthersKept(before, mem, worker) && OthersKept(before, mem[k := e'], worker)
  {
    forall x | x in mem[k := e'] && Key(x) != worker
      ensures exists e :: e in before && Key(e) == Key(x) && e.upgrade == x.upgrade
    {
      var j :| 0 <= j < |mem| && mem[k := e'][j] == x;
      assert x in mem;
    }
  }

  /** Preparing a pass drops entries of nodes that are no longer generated, and nothing else. */
  lemma {:induction false} PurgeWithin(env: Env, c: Cluster, gen: seq<NodeState>, i: nat, reviewed: bool)
    requires UniqueKeys(c.mem) && DistinctNodes(c.nodes) && i <= |c.nodes|
    ensures var r := Purge(env, c, gen, i, reviewed);
            && RunSafety.Within(r.mem, c.mem)
            && forall e :: e in c.mem && FindNode(gen, Key(e)) >= 0 ==> e in r.mem
    decreases |c.nodes| - i
  {
    hide DropEntry, UniqueKeys, FindNode;
    if i < |c.nodes| {
      var name := c.nodes[i].name;
      if FindNode(gen, name) >= 0 {
        PurgeWithin(env, c, gen, i + 1, reviewed);
      } else {
        var w1 := if reviewed then c.w else Note(c.w, MinMasters(""));
        var c1 := c.(mem := DropEntry(c.mem, name), w := Delete(env, w1, name));
        DropEntryIndexed(c.mem, name);
        PurgeWithin(env, c1, gen, i + 1, true);
        forall e ensures e in c1.mem <==> e in c.mem && Key(e) != name {
          DropEntryElement(c.mem, name, e);
        }
      }
    }
  }

  lemma PrepareWithin(env: Env, c: Cluster, gen: seq<NodeState>)
    requires Indexed(c) && DistinctNodes(gen)
    ensures var r := Prepare(env, c, gen);
            && RunSafety.Within(r.mem, c.stored)
            && forall e :: e in c.stored && FindNode(gen, Key(e)) >= 0 ==> e in r.mem
  {
    hide Purge, Merge, ProgressAll, FindNode;
    var c0 := c.(mem := c.stored, w := Tick(c.w, true));
    PurgeWithin(env, c0, gen, 0, false);
    PurgeIndexed(env, c0, gen, 0, false);
    MergeDistinct(c0.nodes, gen);
    ProgressAllNodes(env, GetNodes(env, c0, gen), 0);
  }

  /** With a busy entry that names a node, the pass continues a busy node. */
  lemma BusyContinues(c: Cluster, e: Entry)
    requires Indexed(c) && e in c.mem && Busy(e) && FindNode(c.nodes, Key(e)) >= 0
    ensures ModeOf(c).Continue?
    ensures var i := ModeOf(c).i;
            FindEntry(c.mem, c.nodes[i].name) >= 0 && Busy(c.mem[FindEntry(c.mem, c.nodes[i].name)])
  {
    hide Scheduled, FindEntry;
    var j :| 0 <= j < |c.mem| && c.mem[j] == e;
    var k := FindNode(c.nodes, Key(e));
    NamesIsKey(e, c.nodes[k].name);
    var p := InProgress(c.mem, c.nodes);
    assert p.Some?;
    var m :| 0 <= m < |c.mem| && c.mem[m].upgrade.under == IsTrue && Names(c.mem[m], c.nodes[p.value].name);
    NamesIsKey(c.mem[m], c.nodes[p.value].name);
    FindEntryByKey(c.mem, c.nodes[p.value].name, m);
  }

  lemma VisitOthers(env: Env, c: Cluster, before: seq<Entry>, i: nat, updating: bool)
    requires Indexed(c) && i < |c.nodes| && FindEntry(c.mem, c.nodes[i].name) >= 0
    requires RunSafety.Within(c.mem, before) && c.stored == before
    ensures var r := Visit(env, c, i, updating); var worker := c.nodes[i].name;
            OthersKept(before, r.mem, worker) && OthersKept(before, r.stored, worker)
  {
    hide Treat, Store, UniqueKeys, OthersKept, FindEntry, Grows;
    var name := c.nodes[i].name;
    var k := FindEntry(c.mem, name);
    FindEntryFacts(c, name);
    var e := EntryOf(c.mem, name);
    TreatFollows(env, c.nodes[i], e, c.w, updating);
    var (n, e', w) := Treat(env, c.nodes[i], e, c.w, updating);
    OthersKeptWithin(before, c.mem, k, e', name);
    OthersKeptWithin(before, before, FindInBefore(before, e), e, name);
    StoreShape(env, c.(nodes := c.nodes[i := n], w := w), PutEntry(c.mem, k, e'));
  }

  ghost function FindInBefore(before: seq<Entry>, e: Entry): nat
    requires e in before
    ensures FindInBefore(before, e) < |before|
  {
    var j :| 0 <= j < |before| && before[j] == e; j
  }

  lemma FindEntryFacts(c: Cluster, name: string)
    requires Indexed(c) && name != "" && FindEntry(c.mem, name) >= 0
    ensures var k := FindEntry(c.mem, name);
            0 <= k < |c.mem| && EntryOf(c.mem, name) == c.mem[k] && Key(c.mem[k]) == name && c.mem[k] in c.mem
  {
    FindEntryKey(c.mem, name);
  }

  lemma CloseOthers(env: Env, c: Cluster, before: seq<Entry>, worker: string)
    requires OthersKept(before, c.mem, worker) && OthersKept(before, c.stored, worker)
    ensures OthersKept(before, Close(env, c).stored, worker)
  {
    OthersKeptRescheduled(before, c.mem, env(c.w.pos).unschedulable, worker);
  }

  /**
   * A pass that begins with a node under upgrade changes no other node's upgrade status; so the
   * set of nodes under upgrade grows only in passes that began with none.
   */
  lemma BusyPassWorksOnOneBusyNode(env: Env, c: Cluster, gen: seq<NodeState>, busy: Entry)
    returns (worker: string)
    requires Indexed(c) && DistinctNodes(gen)
    requires busy in c.stored && Busy(busy) && FindNode(gen, Key(busy)) >= 0
    ensures OthersKept(c.stored, Pass(env, c, gen).stored, worker)
    ensures exists e :: e in c.stored && Busy(e) && Key(e) == worker
    ensures forall e' :: e' in Pass(env, c, gen).stored && Busy(e') ==>
              exists e :: e in c.stored && Busy(e) && Key(e) == Key(e')
  {
    hide Prepare, Work, Close, ModeOf, OthersKept, Indexed, FindNode, FindEntry;
    var r := Pass(env, c, gen);
    if !env(c.w.pos).ok {
      worker := Key(busy);
      OthersKeptSame(c.stored, worker);
    } else {
      var p := Prepare(env, c, gen);
      PrepareIndexed(env, c, gen);
      PrepareWithin(env, c, gen);
      FindNodeSameNames(gen, p.nodes, Key(busy));
      BusyContinues(p, busy);
      var i := ModeOf(p).i;
      worker := p.nodes[i].name;
      PreparedName(p, i);
      FindEntryFacts(p, worker);
      var e := p.mem[FindEntry(p.mem, worker)];
      assert e in c.stored && Busy(e) && Key(e) == worker;
      ContinueOthers(env, p, c.stored, i);
      CloseOthers(env, Work(env, p).1, c.stored, worker);
    }
    GrowthBounded(c.stored, r.stored, worker);
  }

  lemma PreparedName(p: Cluster, i: nat)
    requires Indexed(p) && i < |p.nodes|
    ensures p.nodes[i].name != ""
  {
  }

  lemma ContinueOthers(env: Env, p: Cluster, before: seq<Entry>, i: nat)
    requires Indexed(p) && ModeOf(p).Continue? && ModeOf(p).i == i && FindEntry(p.mem, p.nodes[i].name) >= 0
    requires RunSafety.Within(p.mem, before) && p.stored == before
    ensures var (ok, r) := Work(env, p);
            ok && OthersKept(before, r.mem, p.nodes[i].name) && OthersKept(before, r.stored, p.nodes[i].name)
  {
    hide ModeOf, Visit, Indexed, OthersKept, FindEntry;
    VisitOthers(env, p, before, i, ModeOf(p).updating);
  }

  lemma OthersKeptSame(entries: seq<Entry>, worker: string)
    ensures OthersKept(entries, entries, worker)
  {
  }

  lemma GrowthBounded(before: seq<Entry>, after: seq<Entry>, worker: string)
    requires OthersKept(before, after, worker) && exists e :: e in before && Busy(e) && Key(e) == worker
    ensures forall e' :: e' in after && Busy(e') ==> exists e :: e in before && Busy(e) && Key(e) == Key(e')
  {
  }
}
