/**
 * Drift of StatefulSets.  Creating, scaling and setting the partition replace the desired spec
 * in memory by the server's before it is compared.  So drift is noticed only when a read fails, and
 * a run in which everything goes well never repairs it.
 */
module StatefulSetDrift {
  import opened Base
  import opened Drift
  import opened Environment
  import opened Workload
  import Sts = StatefulSetUpgrade
  import opened Reconcile
  import opened Footprint
  import opened StatusIndex
  import opened CachePurge
  import opened NodeRollouts
  import opened Convergence
  import opened ConvergenceTheorem
  import opened DroppedNode
  import opened PartitionRollout
  import opened StatefulSetEffects

  /** A spec without what scaling, pausing and the rollout change. */
  function Core(s: Spec): Spec {
    s.(replicas := 0, paused := false, partition := 0)
  }

  /** Every comparison sees only the core. */
  lemma AgreesByCore(a: Spec, b: Spec, desired: Spec)
    requires Core(a) == Core(b)
    ensures Agrees(a, desired) <==> Agrees(b, desired)
    ensures Agrees(desired, a) <==> Agrees(desired, b)
  {
  }

  ghost predicate Frozen(w: World, w': World, name: string) {
    name in w.objects ==> name in w'.objects && Core(w'.objects[name]) == Core(w.objects[name])
  }

  // ----- when drift is noticed -----

  /**
   * Creating an existing StatefulSet and evaluating what it needs: an update is scheduled exactly
   * if there is drift, creating could not read the workload, and evaluating could.
   */
  lemma DriftSeenIffReadFails(env: Env, n: NodeState, e: Entry, isNew: bool, w: World)
    requires n.kind.StatefulSet? && n.self.unsaved && n.name in w.objects && env(w.pos).ok
    ensures var (ok, _, e', _) := Raise(env, n, e, isNew, w);
            && ok
            && (e'.upgrade.scheduledUpgrade == IsTrue <==>
                  !Agrees(w.objects[n.name], n.self.spec) && !env(w.pos + 1).ok && env(w.pos + 2).ok)
  {
    var w1 := Create(env, w, n.name, n.self.spec).1;
    ScaleReads(env, n, w1);
    hide Grows, Agrees, Core, State, Sts.Scale;
    var (n2, w2) := Sts.Scale(env, n, w1);
    assert w1.objects == w.objects;
    StateSees(env, n2, w2);
    AgreesReflexive(w2.objects[n.name]);
    if env(w.pos + 1).ok {
      AgreesByCore(n2.self.spec, w2.objects[n.name], w2.objects[n.name]);
    }
  }

  lemma StateSees(env: Env, n: NodeState, w: World)
    requires n.name in w.objects
    ensures State(env, n, w).0 == IsTrue <==> env(w.pos).ok && !Agrees(w.objects[n.name], n.self.spec)
  {
    hide Grows, Agrees, Patch;
  }

  lemma SetReplicasKeepsCore(env: Env, n: NodeState, w: World, replicas: int)
    requires n.name in w.objects && Core(n.self.spec) == Core(w.objects[n.name])
    ensures var (ok, n2, w2) := SetReplicas(env, n, w, replicas);
            && n2.name == n.name && n.name in w2.objects
            && Core(n2.self.spec) == Core(w2.objects[n.name]) == Core(w.objects[n.name])
  {
    hide Grows;
  }

  /** After a scale that could read, the copy in memory differs from the server's in no compared field. */
  lemma ScaleReads(env: Env, n: NodeState, w: World)
    requires n.name in w.objects
    ensures var (n2, w2) := Sts.Scale(env, n, w);
            && n2.name == n.name && n.name in w2.objects
            && if env(w.pos).ok then Core(n2.self.spec) == Core(w2.objects[n.name])
               else n2 == n && w2.objects == w.objects && w2.pos == w.pos + 1
  {
    hide Grows, SetReplicas, Core;
    var desired := n.self.spec.replicas;
    var (ok, n1, w1) := Reload(env, n, w);
    if ok {
      SetReplicasKeepsCore(env, n1, w1, desired);
    }
  }

  // ----- one call -----

  lemma SetPartitionFrozen(env: Env, n: NodeState, w: World, partition: int)
    requires n.name in w.objects
    ensures var (ok, n', w') := Sts.SetPartition(env, n, w, partition);
            && Frozen(w, w', n.name) && n'.name == n.name
            && (env(w.pos).ok ==> Core(n'.self.spec) == Core(w'.objects[n.name]))
            && (w'.clean ==> w.clean && env(w.pos).ok)
  {
    hide Grows;
  }

  lemma BeginFrozen(env: Env, s: Step, sizeRequired: bool)
    requires s.go && s.u.under != IsTrue && s.n.name in s.w.objects && Sts.BeginCycle(env, s, sizeRequired).w.clean
    ensures var t := Sts.BeginCycle(env, s, sizeRequired);
            && t.go && t.n.name == s.n.name && t.u.phase == s.u.phase && Frozen(s.w, t.w, s.n.name)
            && Core(t.n.self.spec) == Core(t.w.objects[s.n.name])
  {
    hide Sts.SetPartition, Grows;
    var (green, w1) := Health(env, s.w, s.n.name);
    var (ok, size, w2) := NodeCount(env, w1);
    var n2 := s.n.(clusterSize := size);
    var (counted, replicas, w3) := ReplicaCount(env, n2, w2);
    SetPartitionFrozen(env, n2, w3, replicas);
  }

  lemma FirstBlockFrozen(env: Env, s: Step, updating: bool)
    requires s.go && s.n.name in s.w.objects && Core(s.n.self.spec) == Core(s.w.objects[s.n.name])
    ensures var t := Sts.FirstBlock(env, s, updating);
            t.go && t.n.name == s.n.name && t.w.objects == s.w.objects && !AtStart(t.u.phase)
  {
    var server := s.w.objects[s.n.name];
    AgreesReflexive(server);
    AgreesByCore(s.n.self.spec, server, server);
    hide Grows, Agrees;
  }

  lemma OneFrozen(env: Env, s: Step, index: int, updating: bool)
    requires s.go && s.n.name in s.w.objects
    ensures var t := Sts.One(env, s, index, updating);
            && t.n.name == s.n.name && Frozen(s.w, t.w, s.n.name) && (t.w.clean ==> t.go && s.w.clean) && t.u == s.u
  {
    hide Sts.SetPartition, Grows, FirstAtLeast, FirstBelow;
    var (back, w1) := RejoinPoll(env, s.w, s.n.name, s.n.clusterSize);
    SetPartitionFrozen(env, s.n, w1, index - 1);
    var (deleted, w2) := DeletePodCall(env, w1, s.n.name, index - 1);
    var (left, w3) := LeavePoll(env, w2, s.n.name, s.n.clusterSize);
    SetPartitionFrozen(env, s.n, w3, index - 1);
    assert w3.objects == s.w.objects;
  }

  lemma {:induction false} LoopFrozen(env: Env, s: Step, index: int, updating: bool)
    requires s.go && s.n.name in s.w.objects
    ensures var t := Sts.Loop(env, s, index, updating);
            && t.n.name == s.n.name && Frozen(s.w, t.w, s.n.name) && (t.w.clean ==> t.go && s.w.clean) && t.u == s.u
    decreases index
  {
    hide Sts.One;
    if index > 0 {
      OneFrozen(env, s, index, updating);
      var t := Sts.One(env, s, index, updating);
      if t.go {
        LoopFrozen(env, t, index - 1, updating);
      }
    }
  }

  /** A clean call that begins a cycle also ends it, and changes no compared field, whatever was desired. */
  lemma CleanCallFreezes(env: Env, s: Step, updating: bool)
    requires s.go && s.u.under != IsTrue && s.n.name in s.w.objects && Sts.Call(env, s, updating).w.clean
    ensures var t := Sts.Call(env, s, updating); Frozen(s.w, t.w, s.n.name) && t.u.under != IsTrue
  {
    var a := Sts.BeginCycle(env, s, !updating);
    var b := Sts.FirstBlock(env, a, updating);
    var c := Sts.Roll(env, b, updating);
    Sts.BeginTame(env, s, !updating);
    Sts.FirstBlockTame(env, a, updating);
    Sts.RollTame(env, b, updating);
    assert a.w.clean && b.w.clean && c.w.clean;
    BeginFrozen(env, s, !updating);
    FirstBlockFrozen(env, a, updating);
    RollFrozen(env, b, updating);
  }

  lemma RollFrozen(env: Env, s: Step, updating: bool)
    requires s.go && s.n.name in s.w.objects && !AtStart(s.u.phase) && Sts.Roll(env, s, updating).w.clean
    ensures var t := Sts.Roll(env, s, updating);
            t.go && Frozen(s.w, t.w, s.n.name) && t.u.phase == RecoveringData
  {
    hide Sts.Loop, Grows, FirstAtLeast;
    var (ok, ordinal, w1) := Sts.ReadPartition(env, s.n, s.w);
    LoopFrozen(env, s.(w := w1), ordinal, updating);
  }

  // ----- one pass -----

  ghost predicate Idles(marks: set<Mark>) {
    forall m :: m in marks ==> m.0 != IsTrue
  }

  /** The StatefulSet is the k-th cached node, and no copy of the status shows it under upgrade. */
  ghost predicate At(c: Cluster, k: nat, name: string) {
    exists size, marks :: On(c, k, name, size, marks) && Idles(marks)
  }

  lemma AtIntro(c: Cluster, k: nat, name: string, size: int, marks: set<Mark>)
    requires On(c, k, name, size, marks) && Idles(marks)
    ensures At(c, k, name)
  {
  }

  lemma AtName(c: Cluster, k: nat, name: string)
    requires At(c, k, name)
    ensures Indexed(c) && k < |c.nodes| && c.nodes[k].name == name && c.nodes[k].kind.StatefulSet? && name in c.w.objects
    ensures Marked(c.mem, name).0 != IsTrue && Marked(c.stored, name).0 != IsTrue && name != ""
  {
  }

  lemma FrozenTransitive(a: World, b: World, c: World, name: string)
    requires Frozen(a, b, name) && Frozen(b, c, name)
    ensures Frozen(a, c, name)
  {
  }

  lemma VisitFreezes(env: Env, c: Cluster, i: nat, updating: bool, k: nat, name: string)
    requires At(c, k, name) && i < |c.nodes| && FindEntry(c.mem, c.nodes[i].name) >= 0
    requires Visit(env, c, i, updating).w.clean
    ensures var r := Visit(env, c, i, updating); At(r, k, name) && Frozen(c.w, r.w, name)
  {
    var size, marks :| On(c, k, name, size, marks) && Idles(marks);
    AtName(c, k, name);
    VisitCleanTreat(env, c, i, updating);
    VisitObjects(env, c, i, updating);
    var e := EntryOf(c.mem, c.nodes[i].name);
    hide Treat, Visit, Store, On, Sts.Call, FindEntry, Grows, Indexed;
    var r := Visit(env, c, i, updating);
    var w := Treat(env, c.nodes[i], e, c.w, updating).2;
    if i == k {
      SelfFreezes(env, c, updating, k, name, size, marks);
    } else {
      VisitOther(env, c, i, updating, k, name, size, marks);
      AtIntro(r, k, name, size, marks);
      assert c.nodes[i].name != name by {
        IndexedNames(c, i, k);
      }
      OtherObject(c.w, w, c.nodes[i].name, name);
    }
  }

  lemma SelfFreezes(env: Env, c: Cluster, updating: bool, k: nat, name: string, size: int, marks: set<Mark>)
    requires At(c, k, name) && On(c, k, name, size, marks) && Idles(marks) && FindEntry(c.mem, name) >= 0
    requires var w := Treat(env, c.nodes[k], EntryOf(c.mem, name), c.w, updating).2;
             w.clean && Visit(env, c, k, updating).w.objects == w.objects
    ensures var r := Visit(env, c, k, updating); At(r, k, name) && Frozen(c.w, r.w, name)
  {
    AtName(c, k, name);
    hide At, Treat, Visit, On, Sts.Call, FindEntry, EntryOf, Marked;
    var s := CallStart(c, k);
    var t := Sts.Call(env, s, updating);
    VisitSelf(env, c, updating, k, name, size, marks);
    SelfWork(env, c.nodes[k], EntryOf(c.mem, name), c.w, updating);
    CleanCallFreezes(env, s, updating);
    AtIntro(Visit(env, c, k, updating), k, name, t.n.clusterSize, marks + {MarkOf(t.u)});
  }

  lemma IndexedNames(c: Cluster, i: nat, k: nat)
    requires Indexed(c) && i < |c.nodes| && k < |c.nodes| && i != k
    ensures c.nodes[i].name != c.nodes[k].name
  {
  }

  lemma VisitObjects(env: Env, c: Cluster, i: nat, updating: bool)
    requires i < |c.nodes|
    ensures var w := Treat(env, c.nodes[i], EntryOf(c.mem, c.nodes[i].name), c.w, updating).2;
            Grows(c.w, w, c.nodes[i].name) && Visit(env, c, i, updating).w.objects == w.objects
  {
    var name := c.nodes[i].name;
    var e := EntryOf(c.mem, name);
    TreatFollows(env, c.nodes[i], e, c.w, updating);
    hide Treat, Grows, EntryOf;
    var (n, e', w) := Treat(env, c.nodes[i], e, c.w, updating);
    StoreShape(env, c.(nodes := c.nodes[i := n], w := w), PutEntry(c.mem, FindEntry(c.mem, name), e'));
  }

  lemma SelfWork(env: Env, n: NodeState, e: Entry, w: World, updating: bool)
    requires n.kind.StatefulSet? && Treat(env, n, e, w, updating).2.clean
    ensures var t := Sts.Call(env, Step(n, e.upgrade, w, true), updating);
            t.w.clean && Treat(env, n, e, w, updating).2.objects == t.w.objects
  {
    var t := Sts.Call(env, Step(n, e.upgrade, w, true), updating);
    StateGrows(env, t.n, t.w);
    hide State, Sts.Call;
  }

  lemma {:induction false} BatchFreezes(env: Env, c: Cluster, todo: seq<nat>, updating: bool, k: nat, name: string)
    requires At(c, k, name) && Positions(todo, |c.nodes|) && HaveEntries(c, todo)
    requires Batch(env, c, todo, updating).w.clean
    ensures var r := Batch(env, c, todo, updating); At(r, k, name) && Frozen(c.w, r.w, name)
    decreases |todo|
  {
    if todo != [] {
      AtName(c, k, name);
      StillHaveEntries(env, c, todo, updating);
      hide Visit, At, Frozen, HaveEntries, Indexed;
      var c1 := Visit(env, c, todo[0], updating);
      ListedHasEntry(c, todo, todo[0]);
      BatchClean(env, c1, todo[1..], updating);
      VisitFreezes(env, c, todo[0], updating, k, name);
      BatchFreezes(env, c1, todo[1..], updating, k, name);
      FrozenTransitive(c.w, c1.w, Batch(env, c, todo, updating).w, name);
    }
  }

  lemma ScaleFrozen(env: Env, n: NodeState, w: World)
    requires n.name in w.objects
    ensures Frozen(w, Sts.Scale(env, n, w).1, n.name)
  {
    hide Grows;
  }

  lemma RaiseFrozen(env: Env, n: NodeState, e: Entry, isNew: bool, w: World)
    requires n.kind.StatefulSet? && n.name in w.objects
    ensures Frozen(w, Raise(env, n, e, isNew, w).3, n.name)
  {
    var w1 := Create(env, w, n.name, n.self.spec).1;
    ScaleFrozen(env, n, w1);
    ScaleFrozen(env, n, w);
    var (ok, n1, w2) := CreateNode(env, n, w);
    StateGrows(env, n1, w2);
    hide Sts.Scale, State;
  }

  lemma MakeFreezes(env: Env, c: Cluster, i: nat, k: nat, name: string)
    requires At(c, k, name) && i < |c.nodes|
    ensures var r := Make(env, c, i).1; At(r, k, name) && Frozen(c.w, r.w, name)
  {
    var size, marks :| On(c, k, name, size, marks) && Idles(marks);
    AtName(c, k, name);
    MakeOn(env, c, i, k, name, size, marks);
    AtIntro(Make(env, c, i).1, k, name, size, marks);
    var a := env(c.w.pos);
    if a.ok {
      var c1 := c.(mem := c.stored, w := Tick(c.w, true));
      var other := c.nodes[i].name;
      var e, isNew := EntryOf(c.mem, other), FindEntry(c.mem, other) < 0;
      RaiseFollows(env, c.nodes[i], e, isNew, c1.w);
      if i == k {
        RaiseFrozen(env, c.nodes[i], e, isNew, c1.w);
      }
      hide Raise, EntryOf, FindEntry, Store, Indexed, On;
      var (ok, n, e', w) := Raise(env, c.nodes[i], e, isNew, c1.w);
      if i != k {
        OtherObject(c1.w, w, other, name);
      }
      if ok {
        StoreShape(env, c1.(nodes := c.nodes[i := n], w := w), PutEntry(c.mem, FindEntry(c.mem, other), e'));
      }
    }
  }

  lemma {:induction false} MakeAllFreezes(env: Env, c: Cluster, i: nat, k: nat, name: string)
    requires At(c, k, name) && i <= |c.nodes|
    ensures var r := MakeAll(env, c, i).1; At(r, k, name) && Frozen(c.w, r.w, name)
    decreases |c.nodes| - i
  {
    hide Make, At, Frozen;
    FrozenReflexive(c.w, name);
    if i < |c.nodes| {
      MakeFreezes(env, c, i, k, name);
      MakeLength(env, c, i);
      var (ok, c1) := Make(env, c, i);
      if ok {
        MakeAllFreezes(env, c1, i + 1, k, name);
        FrozenTransitive(c.w, c1.w, MakeAll(env, c, i).1.w, name);
      }
    }
  }

  lemma FrozenReflexive(w: World, name: string)
    ensures Frozen(w, w, name)
  {
  }

  lemma WorkFreezes(env: Env, c: Cluster, k: nat, name: string)
    requires At(c, k, name) && Work(env, c).1.w.clean
    ensures var r := Work(env, c).1; At(r, k, name) && Frozen(c.w, r.w, name)
  {
    AtName(c, k, name);
    ModeFacts(c, k, name);
    hide ModeOf, Visit, Batch, MakeAll, At, Frozen, HaveEntries, NoDuplicates, Indexed, FindEntry, EntryOf;
    match ModeOf(c) {
      case Continue(i, updating) => VisitFreezes(env, c, i, updating, k, name);
      case Upgrades(todo) => BatchFreezes(env, c, todo, true, k, name);
      case Redeploys(todo) => BatchFreezes(env, c, todo, false, k, name);
      case Creates => MakeAllFreezes(env, c, 0, k, name);
    }
  }

  ghost predicate NoneUnschedulable(entries: seq<Entry>) {
    forall e :: e in entries ==> !e.unschedulable
  }

  lemma PrepareFreezes(env: Env, c: Cluster, gen: seq<NodeState>, j: nat, name: string, size: int, mark: Mark) returns (k: nat)
    requires Kept(c, j, name, size, mark) && mark.0 != IsTrue && NoneUnschedulable(c.stored)
    requires DistinctNodes(gen) && FindNode(gen, name) >= 0
    ensures var p := Prepare(env, c, gen); At(p, k, name) && Frozen(c.w, p.w, name)
  {
    k := PrepareOn(env, c, gen, j, name, size, mark);
    AtIntro(Prepare(env, c, gen), k, name, size, {mark});
    var c0 := c.(mem := c.stored, w := Tick(c.w, true));
    RefreshIsExact(env, c0, gen);
    var g := GetNodes(env, c0, gen);
    var gone := Gone(c0.nodes, gen, 0);
    WithoutOnlyKeeps(c0.mem, gone);
    var l := FindNode(gen, name);
    assert HasName(gen, name) && name !in gone;
    hide Purge, Merge, Gone, Without, FindNode, On, ProgressAll, HasName;
    assert forall i :: 0 <= i < |g.mem| ==> g.mem[i] in g.mem;
    ProgressNothing(env, g, 0);
  }

  lemma CloseFreezes(env: Env, c: Cluster, k: nat, name: string)
    requires At(c, k, name)
    ensures At(Close(env, c), k, name) && Frozen(c.w, Close(env, c).w, name)
  {
    var size, marks :| On(c, k, name, size, marks) && Idles(marks);
    CloseOn(env, c, k, name, size, marks);
    AtIntro(Close(env, c), k, name, size, marks);
  }

  /** A clean pass keeps the compared fields of a StatefulSet that is not under upgrade, and leaves it so. */
  lemma CleanPassFreezes(env: Env, c: Cluster, gen: seq<NodeState>, j: nat, name: string, size: int, mark: Mark)
    returns (k: nat)
    requires Kept(c, j, name, size, mark) && mark.0 != IsTrue && NoneUnschedulable(c.stored)
    requires DistinctNodes(gen) && FindNode(gen, name) >= 0 && Pass(env, c, gen).w.clean
    ensures var r := Pass(env, c, gen); At(r, k, name) && Frozen(c.w, r.w, name)
  {
    assert env(c.w.pos).ok;
    k := PrepareFreezes(env, c, gen, j, name, size, mark);
    var p := Prepare(env, c, gen);
    var (ok, r) := Work(env, p);
    if ok {
      CloseFlagClean(env, r);
    }
    hide Prepare, Work, At, Frozen, Kept, DistinctNodes, Close;
    WorkFreezes(env, p, k, name);
    FrozenTransitive(c.w, p.w, r.w, name);
    if ok {
      CloseFreezes(env, r, k, name);
      FrozenTransitive(c.w, r.w, Close(env, r).w, name);
    }
  }

  // ----- whole runs -----

  lemma AtIsKept(c: Cluster, k: nat, name: string) returns (size: int, mark: Mark)
    requires At(c, k, name)
    ensures Kept(c, k, name, size, mark) && mark == Marked(c.stored, name) && mark.0 != IsTrue
  {
    var marks;
    size, marks :| On(c, k, name, size, marks) && Idles(marks);
    mark := Marked(c.stored, name);
  }

  /** Every pass of the run generates the node and begins with no unschedulable pod in the status. */
  ghost predicate Undisturbed(trace: seq<Cluster>, gens: seq<seq<NodeState>>, name: string)
    requires |trace| == |gens| + 1
  {
    forall i {:trigger gens[i]} :: 0 <= i < |gens| ==>
      DistinctNodes(gens[i]) && FindNode(gens[i], name) >= 0 && NoneUnschedulable(trace[i].stored)
  }

  lemma {:induction false} RunFreezes(env: Env, trace: seq<Cluster>, gens: seq<seq<NodeState>>, k: nat, j: nat, name: string)
    returns (l: nat)
    requires IsRun(env, trace, gens) && Undisturbed(trace, gens, name) && At(trace[0], j, name)
    requires k < |trace| && trace[k].w.clean
    ensures At(trace[k], l, name) && Frozen(trace[0].w, trace[k].w, name)
  {
    hide Pass, At, Frozen, Kept, NoneUnschedulable, DistinctNodes, FindNode;
    if k == 0 {
      l := j;
      FrozenReflexive(trace[0].w, name);
    } else {
      var c, gen := trace[k - 1], gens[k - 1];
      assert trace[k] == Pass(env, c, gen);
      PassMonotone(env, c, gen);
      l := RunFreezes(env, trace, gens, k - 1, j, name);
      var size, mark := AtIsKept(c, l, name);
      l := CleanPassFreezes(env, c, gen, l, name, size, mark);
      FrozenTransitive(trace[0].w, c.w, trace[k].w, name);
    }
  }

  /**
   * A StatefulSet's drift is never repaired while everything goes well: after any number of clean
   * passes, from whatever specs, its workload agrees with a desired spec on the compared fields if and
   * only if it did before.  It starts, and stays, not under upgrade.
   */
  lemma StatefulSetDriftStays(
    env: Env, trace: seq<Cluster>, gens: seq<seq<NodeState>>, k: nat, j: nat, name: string, desired: Spec)
    requires IsRun(env, trace, gens) && Undisturbed(trace, gens, name) && At(trace[0], j, name)
    requires k < |trace| && trace[k].w.clean
    ensures name in trace[0].w.objects && name in trace[k].w.objects
    ensures Agrees(trace[k].w.objects[name], desired) <==> Agrees(trace[0].w.objects[name], desired)
    ensures Marked(trace[k].stored, name).0 != IsTrue
  {
    hide Pass, At, Agrees;
    var l := RunFreezes(env, trace, gens, k, j, name);
    AtName(trace[0], j, name);
    AtName(trace[k], l, name);
    AgreesByCore(trace[k].w.objects[name], trace[0].w.objects[name], desired);
  }

  // ----- an example -----

  const OLD := BLANK_SPEC.(containers := [Container("old", map[], map[], "")])
  const NEW := BLANK_SPEC.(containers := [Container("new", map[], map[], "")])

  /** One StatefulSet whose image has changed in the spec. */
  function OneStatefulSet(): Cluster {
    Cluster([NodeState(StatefulSet, "es", Object(true, None, NEW), "", "", "", 0)], [], [],
            World(map["es" := OLD], true, [], 0, true, true, true, true))
  }

  lemma PrepareOne()
    ensures var c := OneStatefulSet();
            Prepare(ALL_GOOD, c, c.nodes) == c.(w := Tick(c.w, true)) && ModeOf(c.(w := Tick(c.w, true))).Creates?
  {
    var c := OneStatefulSet();
    assert FindNode(c.nodes, "es") == 0;
    assert Merge(c.nodes, c.nodes) == c.nodes;
  }

  lemma CreatesOne()
    ensures var c := OneStatefulSet();
            var (ok, r) := Work(ALL_GOOD, c.(w := Tick(c.w, true))); ok && r.w.clean
  {
    hide Agrees, Patch, NewlyUnder, Grows;
    PrepareOne();
    var c := OneStatefulSet();
    var p := c.(w := Tick(c.w, true));
    var (created, n, w) := CreateNode(ALL_GOOD, p.nodes[0], Tick(p.w, true));
    assert created && w.clean && n.name == "es" && "es" in w.objects;
    var r := Raise(ALL_GOOD, p.nodes[0], NEW_ENTRY, true, Tick(p.w, true));
    assert r.0 && r.3.clean;
    assert Make(ALL_GOOD, p, 0).0 && Make(ALL_GOOD, p, 0).1.w.clean;
    MakeAllOfOne(p);
  }

  /** After a pass in which everything succeeds the server still has the old image. */
  lemma DriftUnrepaired()
    ensures var c := OneStatefulSet();
            var r := Pass(ALL_GOOD, c, c.nodes);
            r.w.clean && "es" in r.w.objects && !Agrees(r.w.objects["es"], NEW)
  {
    var c := OneStatefulSet();
    PrepareOne();
    CreatesOne();
    hide Work, Prepare;
    var r := Pass(ALL_GOOD, c, c.nodes);
    assert r.w.clean;
    assert At(c, 0, "es") by {
      AtIntro(c, 0, "es", 0, {(Blank, NoPhase)});
    }
    assert FindNode(c.nodes, "es") == 0;
    hide Pass;
    StatefulSetDriftStays(ALL_GOOD, [c, r], [c.nodes], 1, 0, "es", NEW);
    assert !ContainerAgrees(OLD.containers[0], NEW.containers[0]);
  }

  // ----- when an update writes -----

  /** A beginning update, with what setting the partition has put into node.self. */
  lemma BeginReads(env: Env, s: Step)
    requires s.go && s.u.under != IsTrue && s.n.name in s.w.objects && Sts.BeginCycle(env, s, false).go
    ensures var t := Sts.BeginCycle(env, s, false);
            && t.n.name == s.n.name && s.n.name in t.w.objects && Core(t.w.objects[s.n.name]) == Core(s.w.objects[s.n.name])
            && if env(s.w.pos + 3).ok then Core(t.n.self.spec) == Core(s.w.objects[s.n.name])
               else t.n.self == s.n.self && t.w.pos == s.w.pos + 4
  {
    hide Sts.SetPartition, Grows;
    var (green, w1) := Health(env, s.w, s.n.name);
    var (ok, size, w2) := NodeCount(env, w1);
    var n2 := s.n.(clusterSize := size);
    var (counted, replicas, w3) := ReplicaCount(env, n2, w2);
    SetPartitionFrozen(env, n2, w3, replicas);
    SetPartitionUnread(env, n2, w3, replicas);
  }

  lemma SetPartitionUnread(env: Env, n: NodeState, w: World, partition: int)
    ensures var (_, n', w') := Sts.SetPartition(env, n, w, partition);
            !env(w.pos).ok ==> n' == n && w'.pos == w.pos + 1
  {
  }

  /**
   * An update that begins a cycle and passes its first block leaves the server in agreement with the
   * desired spec exactly if it agreed before, or setting the partition could not read the workload and
   * the check right after could.
   */
  lemma UpdateWritesIffPartitionUnread(env: Env, s: Step)
    requires s.go && s.u.under != IsTrue && AtStart(s.u.phase) && s.n.name in s.w.objects
    requires Sts.BeginCycle(env, s, false).go
    requires var t := Sts.Call(env, s, true); t.u.phase == NodeRestarting || t.go
    ensures var t, name, desired := Sts.Call(env, s, true), s.n.name, s.n.self.spec;
            && name in t.w.objects
            && (Agrees(t.w.objects[name], desired) <==>
                  Agrees(s.w.objects[name], desired) || (!env(s.w.pos + 3).ok && env(s.w.pos + 4).ok))
  {
    var name, desired := s.n.name, s.n.self.spec;
    var b, t := Sts.BeginCycle(env, s, false), Sts.Call(env, s, true);
    BeginReads(env, s);
    CycleBegins(env, s, true);
    AgreesByCore(b.w.objects[name], s.w.objects[name], desired);
    if env(s.w.pos + 3).ok {
      FirstBlockFrozen(env, b, true);
      hide Sts.BeginCycle, Sts.Call, Agrees, Core, Sts.FirstBlock;
      SameAfterRoll(env, b, desired);
    } else {
      hide Sts.BeginCycle, Sts.Call, Agrees, Core;
      UpdateAgreesIffReadable(env, b);
    }
  }

  lemma SameAfterRoll(env: Env, s: Step, desired: Spec)
    requires InCycle(s) && s.n.name in s.w.objects
    requires var b := Sts.FirstBlock(env, s, true); b.n.name == s.n.name && b.w.objects == s.w.objects
    ensures var t := Sts.Call(env, s, true);
            && s.n.name in t.w.objects
            && (Agrees(t.w.objects[s.n.name], desired) <==> Agrees(s.w.objects[s.n.name], desired))
  {
    hide Sts.FirstBlock, Sts.Roll, Agrees, Sts.Finish;
    RollFreezesSpec(env, Sts.FirstBlock(env, s, true), desired);
    assert Sts.BeginCycle(env, s, false) == s;
  }
}
