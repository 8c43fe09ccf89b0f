/**
 * Why a node under upgrade has to stay in the spec: lowering the count of a data node can drop
 * the node that answers for disabled allocation, and then a pass in which everything goes well
 * leaves allocation disabled with nothing in the status to show it.
 */
module DroppedNode {
  import opened Base
  import opened Drift
  import opened Environment
  import opened Workload
  import opened CycleSafety
  import opened Reconcile
  import opened Footprint
  import opened StatusIndex
  import opened AllocationSafety
  import opened CachePurge
  import opened NodeNames
  import opened NodeFactory
  import opened LostStatus
  import opened RunSafety
  import opened ObjectRuns
  import ConvergenceTheorem

  /** A replica above the count is not generated, although its UUID is still in the spec. */
  lemma LoweredCountDropsReplica(cluster: string, spec: seq<SpecNode>, q: nat, r: Roles, replica: nat, k: nat)
    requires GoodUUIDs(spec) && q < |spec| && replica > spec[q].count && k < |GenerateAll(cluster, spec)|
    ensures GenerateAll(cluster, spec)[k].name != NodeName(cluster, spec[q].uuid.value, r, Some(replica))
    ensures InSpec(spec[q].uuid.value, spec)
  {
    hide NodeName, GenerateAll;
    var i, other := GeneratedFrom(cluster, spec, k);
    if GenerateAll(cluster, spec)[k].name == NodeName(cluster, spec[q].uuid.value, r, Some(replica)) {
      NameInjective(cluster, spec[i].uuid.value, RoleMap(spec[i].roles), other, spec[q].uuid.value, r, Some(replica));
      assert false;
    }
    assert spec[q].uuid == Some(spec[q].uuid.value);
  }

  ghost predicate Idle(entries: seq<Entry>) {
    forall e :: e in entries ==> e.upgrade.under != IsTrue
  }

  /** Every entry under upgrade is about a cached node that is no longer generated; nothing else is scheduled. */
  ghost predicate OnlyDroppedBusy(c: Cluster, gen: seq<NodeState>) {
    && (forall e :: e in c.stored && e.upgrade.under == IsTrue ==> HasName(c.nodes, Key(e)) && !HasName(gen, Key(e)))
    && forall e :: e in c.stored && HasName(gen, Key(e)) ==> !Flagged(e, false) && !Flagged(e, true)
  }

  lemma PurgeAllocation(env: Env, c: Cluster, gen: seq<NodeState>, i: nat, reviewed: bool)
    requires i <= |c.nodes|
    ensures Purge(env, c, gen, i, reviewed).w.allocation == c.w.allocation
    decreases |c.nodes| - i
  {
  }

  lemma {:induction false} ProgressAtAllocation(env: Env, c: Cluster, todo: seq<nat>)
    requires Positions(todo, |c.nodes|)
    ensures ProgressAt(env, c, todo).w.allocation == c.w.allocation
    decreases |todo|
  {
    hide ProgressNode;
    if todo != [] {
      ProgressNodeQuiet(env, c.nodes[todo[0]], c.w);
      var (n, w) := ProgressNode(env, c.nodes[todo[0]], c.w);
      ProgressAtAllocation(env, c.(nodes := c.nodes[todo[0] := n], w := w), todo[1..]);
    }
  }

  lemma {:induction false} ProgressAllAllocation(env: Env, c: Cluster, j: nat)
    requires j <= |c.mem|
    ensures ProgressAll(env, c, j).w.allocation == c.w.allocation
    decreases |c.mem| - j
  {
    hide ProgressAt;
    if j < |c.mem| {
      var c1 := if c.mem[j].unschedulable then ProgressAt(env, c, NodesOf(c.mem[j], c.nodes, 0)) else c;
      ProgressAtAllocation(env, c, NodesOf(c.mem[j], c.nodes, 0));
      ProgressAllAllocation(env, c1, j + 1);
    }
  }

  lemma PrepareDrops(env: Env, c: Cluster, gen: seq<NodeState>)
    requires Indexed(c) && DistinctNodes(gen)
    ensures var p := Prepare(env, c, gen);
            && Indexed(p) && p.w.allocation == c.w.allocation
            && (forall n :: HasName(p.nodes, n) <==> HasName(gen, n))
            && forall e :: e in p.mem ==> e in c.stored && !(HasName(c.nodes, Key(e)) && !HasName(gen, Key(e)))
  {
    var c0 := c.(mem := c.stored, w := Tick(c.w, true));
    PrepareIndexed(env, c, gen);
    RefreshIsExact(env, c0, gen);
    WithoutOnlyKeeps(c0.mem, Gone(c0.nodes, gen, 0));
    PurgeAllocation(env, c0, gen, 0, false);
    PurgeIndexed(env, c0, gen, 0, false);
    var g := GetNodes(env, c0, gen);
    MergeDistinct(c0.nodes, gen);
    ProgressAllNodes(env, g, 0);
    ProgressAllAllocation(env, g, 0);
    hide Purge, Merge, ProgressAll, Gone, Without, UniqueKeys, DistinctNodes, Deletions, ObjectsKept;
    SameNames(Prepare(env, c, gen).nodes, gen);
  }

  lemma SameNames(a: seq<NodeState>, b: seq<NodeState>)
    requires |a| == |b| && forall i :: 0 <= i < |a| ==> a[i].name == b[i].name
    ensures forall n :: HasName(a, n) <==> HasName(b, n)
  {
  }

  /** The refreshed status has no node under upgrade. */
  lemma PrepareIdles(env: Env, c: Cluster, gen: seq<NodeState>)
    requires Indexed(c) && DistinctNodes(gen) && OnlyDroppedBusy(c, gen)
    ensures var p := Prepare(env, c, gen);
            Indexed(p) && Idle(p.mem) && p.w.allocation == c.w.allocation && ModeOf(p).Creates?
  {
    hide Prepare, ModeOf, HasName, Flagged, Indexed;
    PrepareDrops(env, c, gen);
    IdleCreates(Prepare(env, c, gen));
  }

  lemma ListedSome(todo: seq<nat>, n: nat)
    requires Positions(todo, n)
    ensures todo == [] || exists k: nat :: k < n && k in todo
  {
    if todo != [] {
      assert todo[0] in todo;
    }
  }

  lemma IdleCreates(p: Cluster)
    requires Indexed(p) && Idle(p.mem)
    requires forall e :: e in p.mem && HasName(p.nodes, Key(e)) ==> !Flagged(e, false) && !Flagged(e, true)
    ensures ModeOf(p).Creates?
  {
    forall k: nat, redeploy: bool | k < |p.nodes| ensures k !in Scheduled(p.mem, p.nodes, redeploy) {
      ScheduledAre(p.mem, p.nodes, redeploy, k);
      forall e | e in p.mem && Names(e, p.nodes[k].name) ensures !Flagged(e, redeploy) {
        NamesIsKey(e, p.nodes[k].name);
      }
    }
    forall redeploy: bool ensures Scheduled(p.mem, p.nodes, redeploy) == [] {
      var todo := Scheduled(p.mem, p.nodes, redeploy);
      ListedSome(todo, |p.nodes|);
    }
    hide Scheduled;
    assert forall j :: 0 <= j < |p.mem| ==> p.mem[j] in p.mem;
  }

  lemma PutIdle(entries: seq<Entry>, k: int, e: Entry, e': Entry)
    requires Idle(entries) && k < |entries| && (k >= 0 ==> entries[k] == e) && (k < 0 ==> e == NEW_ENTRY)
    requires e'.upgrade.under == e.upgrade.under
    ensures Idle(PutEntry(entries, k, e'))
  {
    assert k >= 0 ==> e in entries;
    forall x | x in PutEntry(entries, k, e') ensures x.upgrade.under != IsTrue {
      assert x == e' || x in entries;
    }
  }

  lemma CleanStore(env: Env, c: Cluster, entries: seq<Entry>)
    requires Store(env, c, entries).w.clean
    ensures Store(env, c, entries).mem == entries
  {
    hide NewlyUnder;
  }

  lemma MakeIdles(env: Env, c: Cluster, i: nat)
    requires i < |c.nodes| && Idle(c.mem) && Make(env, c, i).0 && Make(env, c, i).1.w.clean
    ensures var r := Make(env, c, i).1; Idle(r.mem) && r.w.allocation == c.w.allocation && |r.nodes| == |c.nodes|
  {
    var c1 := c.(mem := c.stored, w := Tick(c.w, true));
    var name := c.nodes[i].name;
    var k, e := FindEntry(c.mem, name), EntryOf(c.mem, name);
    RaiseFollows(env, c.nodes[i], e, k < 0, c1.w);
    hide Raise, FindEntry, NewlyUnder, Idle, Store;
    var (ok, n, e', w) := Raise(env, c.nodes[i], e, k < 0, c1.w);
    var c2 := c1.(nodes := c.nodes[i := n], w := w);
    var entries := PutEntry(c.mem, k, e');
    PutIdle(c.mem, k, e, e');
    var c3 := Store(env, c2, entries);
    assert Make(env, c, i).1 == c3.(w := Note(c3.w, MinMasters("")));
    StoreShape(env, c2, entries);
    CleanStore(env, c2, entries);
  }

  lemma {:induction false} MakeAllIdles(env: Env, c: Cluster, i: nat)
    requires i <= |c.nodes| && Idle(c.mem) && MakeAll(env, c, i).0 && MakeAll(env, c, i).1.w.clean
    ensures var r := MakeAll(env, c, i).1; Idle(r.mem) && r.w.allocation == c.w.allocation
    decreases |c.nodes| - i
  {
    hide Make, Idle;
    if i < |c.nodes| {
      var (ok, c1) := Make(env, c, i);
      ConvergenceTheorem.MakeLength(env, c, i);
      ConvergenceTheorem.MakeAllClean(env, c1, i + 1);
      MakeIdles(env, c, i);
      MakeAllIdles(env, c1, i + 1);
    }
  }

  /**
   * A pass through which everything goes well, with allocation disabled and the nodes that answer
   * for it no longer generated, leaves allocation disabled and nobody to answer for it.
   */
  lemma DroppedNodeStrandsAllocation(env: Env, c: Cluster, gen: seq<NodeState>)
    requires Indexed(c) && DistinctNodes(gen) && OnlyDroppedBusy(c, gen) && !c.w.allocation
    requires env(c.w.pos).ok && Work(env, Prepare(env, c, gen)).0 && Pass(env, c, gen).w.clean
    ensures var r := Pass(env, c, gen); !r.w.allocation && Idle(r.stored) && !SomeHolder(r.stored)
  {
    PrepareIdles(env, c, gen);
    var p := Prepare(env, c, gen);
    var (ok, w) := Work(env, p);
    hide Prepare, MakeAll, ModeOf, Indexed, OnlyDroppedBusy;
    assert w == MakeAll(env, p, 0).1;
    assert w.w.clean;
    MakeAllIdles(env, p, 0);
    var r := Close(env, w);
    assert r == Pass(env, c, gen);
    forall e | e in r.stored ensures e.upgrade.under != IsTrue {
      var i :| 0 <= i < |r.stored| && r.stored[i] == e;
      assert w.mem[i] in w.mem;
    }
  }

  // ----- an example -----

  const WORKLOAD := BLANK_SPEC.(paused := true)

  const ALL_GOOD: Env := _ => GOOD

  function DataNode(name: string): NodeState {
    NodeState(Deployment, name, Object(true, None, WORKLOAD), "", "", "", 2)
  }

  function DataEntry(name: string, under: bool): Entry {
    Entry(name, "", if under then NEW_UPGRADE.(under := IsTrue, phase := NodeRestarting) else NEW_UPGRADE, false)
  }

  /** Two data nodes; the second is under upgrade and has disabled allocation. */
  function TwoNodes(a: string, b: string): Cluster {
    var entries := [DataEntry(a, false), DataEntry(b, true)];
    Cluster([DataNode(a), DataNode(b)], entries, entries,
            World(map[a := WORKLOAD, b := WORKLOAD], false, [], 0, true, true, true, true))
  }

  lemma TwoNodesIndexed(a: string, b: string)
    requires a != b && a != "" && b != ""
    ensures Indexed(TwoNodes(a, b)) && DistinctNodes([DataNode(a)]) && OnlyDroppedBusy(TwoNodes(a, b), [DataNode(a)])
    ensures SomeHolder(TwoNodes(a, b).stored)
  {
    var c := TwoNodes(a, b);
    assert [DataNode(a)][0].name == a;
    assert c.nodes[1].name == b;
    assert c.stored[1] in c.stored && Holder(c.stored[1]);
  }

  lemma TwoNodesGuarded(kindOf: KindOf, a: string, b: string)
    requires a != b && a != "" && b != "" && kindOf(a) == kindOf(b) == Deployment
    ensures Guarded(kindOf, TwoNodes(a, b))
  {
    TwoNodesIndexed(a, b);
    var c := TwoNodes(a, b);
    assert c.mem == [DataEntry(a, false), DataEntry(b, true)];
  }

  lemma PrepareTwoNodes(a: string, b: string)
    requires a != b && a != "" && b != ""
    ensures var p := Prepare(ALL_GOOD, TwoNodes(a, b), [DataNode(a)]);
            p.nodes == [DataNode(a)] && p.mem == [DataEntry(a, false)] && p.w.clean && p.w.begun && a in p.w.objects
  {
    var c, gen := TwoNodes(a, b), [DataNode(a)];
    var c0 := c.(mem := c.stored, w := Tick(c.w, true));
    assert Names(c0.mem[1], b);
    assert FindEntry(c0.mem, b) == 1;
    assert c0.mem[..1] + c0.mem[2..] == [DataEntry(a, false)];
    assert c0.nodes[0].name == gen[0].name == a && c0.nodes[1].name == b;
    assert FindNode(gen, a) == 0 && FindNode(gen, b) == -1 && FindNode(c0.nodes, a) == 0;
    var c1 := c0.(mem := DropEntry(c0.mem, b), w := Delete(ALL_GOOD, Note(c0.w, MinMasters("")), b));
    assert Purge(ALL_GOOD, c0, gen, 0, false) == Purge(ALL_GOOD, c0, gen, 1, false);
    assert Purge(ALL_GOOD, c0, gen, 1, false) == Purge(ALL_GOOD, c1, gen, 2, true);
    hide Purge, ProgressAll;
    assert Merge(c0.nodes, gen) == [DataNode(a)];
    ConvergenceTheorem.ProgressNothing(ALL_GOOD, GetNodes(ALL_GOOD, c0, gen), 0);
  }

  /** Making one existing node in which nothing goes wrong. */
  lemma MakeOne(p: Cluster, a: string)
    requires p.nodes == [DataNode(a)] && p.mem == [DataEntry(a, false)] && a != ""
    requires p.w.clean && p.w.begun && a in p.w.objects
    ensures var (ok, r) := Make(ALL_GOOD, p, 0); ok && r.w.clean && r.w.begun && |r.nodes| == 1
  {
    hide Agrees, Patch, NewlyUnder;
    var c1 := p.(mem := p.stored, w := Tick(p.w, true));
    var e := EntryOf(p.mem, a);
    var (ok, n, w) := CreateNode(ALL_GOOD, p.nodes[0], c1.w);
    assert ok && w.clean && n.name == a && a in w.objects;
    var r := Raise(ALL_GOOD, p.nodes[0], e, FindEntry(p.mem, a) < 0, c1.w);
    assert r.0 && r.3.clean;
  }

  lemma MakeAllOfOne(p: Cluster)
    requires |p.nodes| == 1 && Make(ALL_GOOD, p, 0).0 && |Make(ALL_GOOD, p, 0).1.nodes| == 1
    ensures MakeAll(ALL_GOOD, p, 0) == (true, Make(ALL_GOOD, p, 0).1)
  {
    hide Make;
    assert MakeAll(ALL_GOOD, Make(ALL_GOOD, p, 0).1, 1) == (true, Make(ALL_GOOD, p, 0).1);
  }

  lemma WorkOfOne(a: string, b: string)
    requires a != b && a != "" && b != ""
    ensures var (ok, r) := Work(ALL_GOOD, Prepare(ALL_GOOD, TwoNodes(a, b), [DataNode(a)])); ok && r.w.clean && r.w.begun
  {
    hide Prepare, MakeAll, Make, TwoNodes, OnlyDroppedBusy, Indexed, DistinctNodes, SomeHolder, ModeOf, Idle;
    var c, gen := TwoNodes(a, b), [DataNode(a)];
    TwoNodesIndexed(a, b);
    PrepareTwoNodes(a, b);
    PrepareIdles(ALL_GOOD, c, gen);
    var p := Prepare(ALL_GOOD, c, gen);
    MakeOne(p, a);
    MakeAllOfOne(p);
  }

  lemma OneNodePass(a: string, b: string)
    requires a != b && a != "" && b != ""
    ensures var r := Pass(ALL_GOOD, TwoNodes(a, b), [DataNode(a)]);
            r.w.clean && r.w.begun && !r.w.allocation && !SomeHolder(r.stored)
  {
    TwoNodesIndexed(a, b);
    WorkOfOne(a, b);
    hide Prepare, Work, OnlyDroppedBusy, Indexed, SomeHolder;
    DroppedNodeStrandsAllocation(ALL_GOOD, TwoNodes(a, b), [DataNode(a)]);
  }

  /** A spec with one data node of the given count. */
  function OneDataNode(count: int): (r: seq<SpecNode>)
    ensures GoodUUIDs(r)
  {
    [SpecNode([Data], count, Some("u"))]
  }

  lemma TwoReplicas(cluster: string) returns (a: string, b: string)
    ensures var before, after := OneDataNode(2), OneDataNode(1);
            && |GenerateAll(cluster, before)| == 2 && |GenerateAll(cluster, after)| == 1
            && GenerateAll(cluster, before)[0].name == a && GenerateAll(cluster, before)[1].name == b
            && GenerateAll(cluster, after)[0].name == a
    ensures a == NodeName(cluster, "u", RoleMap([Data]), Some(1)) && b == NodeName(cluster, "u", RoleMap([Data]), Some(2))
    ensures a != b && a != "" && b != "" && KindOfName(cluster, a) == KindOfName(cluster, b) == Deployment
  {
    hide NodeName;
    assert OneDataNode(2)[..0] == [] == OneDataNode(1)[..0];
    a, b := Replica(cluster, "u", OneDataNode(2)[0], 1).name, Replica(cluster, "u", OneDataNode(2)[0], 2).name;
    GeneratedDistinct(cluster, OneDataNode(2), 0, 1);
    GeneratedKind(cluster, OneDataNode(2), 0);
    GeneratedKind(cluster, OneDataNode(2), 1);
  }

  /**
   * Such a case: two data nodes, and the count lowered to one while the second node is under
   * upgrade.  The UUID check accepts the spec, the pass goes well, and allocation stays off.
   */
  lemma LoweredCountStrandsAllocation(cluster: string) returns (a: string, b: string)
    ensures |GenerateAll(cluster, OneDataNode(2))| == 2 && |GenerateAll(cluster, OneDataNode(1))| == 1
    ensures GenerateAll(cluster, OneDataNode(2))[0].name == a == GenerateAll(cluster, OneDataNode(1))[0].name
    ensures GenerateAll(cluster, OneDataNode(2))[1].name == b
    ensures Guarded(Kinds(cluster), TwoNodes(a, b)) && TwoNodes(a, b).w.begun
    ensures forall e :: e in TwoNodes(a, b).stored ==> UUIDKept(cluster, NamesOfEntry(e), OneDataNode(1))
    ensures var r := Pass(ALL_GOOD, TwoNodes(a, b), [DataNode(a)]);
            r.w.clean && r.w.begun && !r.w.allocation && !SomeHolder(r.stored)
  {
    hide NodeName, UUIDKept, Pass, GenerateAll, Guarded, SomeHolder, KindOfName;
    a, b := TwoReplicas(cluster);
    var c := TwoNodes(a, b);
    TwoNodesGuarded(Kinds(cluster), a, b);
    PrintedNameKept(cluster, NamesOfEntry(c.stored[0]), OneDataNode(1), "u", RoleMap([Data]), Some(1));
    PrintedNameKept(cluster, NamesOfEntry(c.stored[1]), OneDataNode(1), "u", RoleMap([Data]), Some(2));
    assert OneDataNode(1)[0].uuid == Some("u");
    OneNodePass(a, b);
  }
}
