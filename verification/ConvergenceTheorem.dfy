/** The passes of a converging run, ranked; the setting and the single visits are in Convergence. */
module ConvergenceTheorem {
  import opened Base
  import opened Comparison
  import opened Drift
  import opened Environment
  import opened Workload
  import Dep = DeploymentUpgrade
  import opened Reconcile
  import opened Footprint
  import opened StatusIndex
  import opened CleanCalls
  import opened Convergence

  // ----- creating -----

  /** The i-th entry after create mode: its flags say exactly what the node needs. */
  ghost predicate Raised(c: Cluster, c': Cluster, gen: seq<NodeState>, i: nat, hash: string)
    requires i < |c.nodes| == |c'.nodes| == |gen|
  {
    var name := gen[i].name;
    var u := EntryOf(c'.mem, name).upgrade;
    && HasEntry(c', name) && name in c'.w.objects
    && u.under == EntryOf(c.mem, name).upgrade.under
    && u.scheduledUpgrade == (if ObjectAgrees(c', gen[i]) then Blank else IsTrue)
    && u.scheduledRedeploy == (if c'.nodes[i].secretHash == hash then Blank else IsTrue)
    && (ObjectAgrees(c, gen[i]) ==> ObjectAgrees(c', gen[i]))
    && ObjectPaused(c', gen[i])
    && (c.nodes[i].secretHash == hash ==> c'.nodes[i].secretHash == hash)
  }

  lemma CleanRaise(env: Env, n: NodeState, e: Entry, isNew: bool, w: World, desired: Spec, hash: string)
    requires FixedSecret(env, hash) && n.kind.Deployment? && n.self.spec == desired && n.name != ""
    requires Raise(env, n, e, isNew, w).3.clean
    ensures var (ok, n', e', w') := Raise(env, n, e, isNew, w);
            && ok && n.name in w'.objects && w'.objects[n.name].paused
            && e'.upgrade.under == e.upgrade.under && e'.upgrade.phase == e.upgrade.phase
            && e'.upgrade.scheduledUpgrade == (if Agrees(w'.objects[n.name], desired) then Blank else IsTrue)
            && e'.upgrade.scheduledRedeploy == (if n'.secretHash == hash then Blank else IsTrue)
            && (n.name in w.objects && Agrees(w.objects[n.name], desired) ==> Agrees(w'.objects[n.name], desired))
            && (n.secretHash == hash ==> n'.secretHash == hash)
  {
    hide Dep.CreateNode, State, Agrees, Grows;
    var (ok, n1, w1) := Dep.CreateNode(env, n, w);
    StateGrows(env, n1, w1);
    if ok {
      CleanMonotone(w1, State(env, n1, w1).3, n1.name);
    }
    CleanCreate(env, n, w, hash);
    CleanState(env, n1, w1, hash);
    SameComparedAgrees(n1.self.spec, desired, w1.objects[n.name]);
    if n.name in w.objects {
      SameComparedAgrees(w1.objects[n.name], w.objects[n.name], desired);
    }
  }

  lemma MakeRaises(env: Env, c: Cluster, gen: seq<NodeState>, i: nat, hash: string)
    requires FixedSecret(env, hash) && Aligned(c, gen) && i < |c.nodes| && Desired(c, gen, i)
    requires Make(env, c, i).1.w.clean
    ensures var (ok, r) := Make(env, c, i);
            ok && Aligned(r, gen) && OthersUntouched(c, r, i) && Raised(c, r, gen, i, hash)
  {
    hide Raise, Store, FindEntry, EntryOf, PutEntry, Agrees, Grows, Named, Key, CalmEntry, UniqueKeys;
    var name := c.nodes[i].name;
    AlignedName(c, gen, i);
    assert env(c.w.pos).ok;
    var c1 := c.(w := Tick(c.w, true));
    assert c1 == c.(mem := c.stored, w := Tick(c.w, true));
    var isNew := FindEntry(c.mem, name) < 0;
    var e := EntryOf(c.mem, name);
    var (ok, n', e', w') := Raise(env, c.nodes[i], e, isNew, c1.w);
    RaiseFollows(env, c.nodes[i], e, isNew, c1.w);
    var c2 := c1.(nodes := c.nodes[i := n'], w := w');
    var entries := PutEntry(c.mem, FindEntry(c.mem, name), e');
    if ok {
      CleanStore(env, c2, entries);
    }
    CleanRaise(env, c.nodes[i], e, isNew, c1.w, gen[i].self.spec, hash);
    RaisedCalm(c.mem, gen, i, name, e, isNew, c.nodes[i], e');
    CalmUnique(c.mem, gen);
    CalmPut(c.mem, gen, name, e');
    RenamedNodes(c.nodes, i, n');
    PutEntryLookup(c.mem, name, e', "");
    var r := Make(env, c, i).1;
    assert r.mem == entries && r.stored == entries && r.w.objects == w'.objects && r.nodes == c.nodes[i := n'];
    forall j | 0 <= j < |c.nodes| && j != i ensures Untouched(c, r, j) {
      AlignedName(c, gen, j);
      PutEntryLookup(c.mem, name, e', c.nodes[j].name);
      OtherObject(c1.w, w', name, c.nodes[j].name);
    }
  }

  lemma CalmUnique(entries: seq<Entry>, gen: seq<NodeState>)
    requires CalmEntries(entries, gen)
    ensures UniqueKeys(entries)
  {
  }

  lemma RaisedCalm(entries: seq<Entry>, gen: seq<NodeState>, i: nat, name: string, e: Entry, isNew: bool, n: NodeState, e': Entry)
    requires CalmEntries(entries, gen) && name != "" && i < |gen| && gen[i].name == name == n.name
    requires isNew == (FindEntry(entries, name) < 0) && e == EntryOf(entries, name)
    requires e'.upgrade.under == e.upgrade.under && e'.upgrade.phase == e.upgrade.phase && n.kind.Deployment?
    requires !isNew ==> e'.deploymentName == e.deploymentName && e'.statefulSetName == e.statefulSetName
    requires isNew ==> e'.deploymentName == if n.kind.Deployment? then n.name else ""
    requires isNew ==> e'.statefulSetName == if n.kind.Deployment? then "" else n.name
    requires e'.unschedulable == e.unschedulable
    ensures CalmEntry(e', gen) && Named(e') && Key(e') == name
  {
    assert FindNode(gen, name) >= 0;
    if !isNew {
      CalmEntryOf(entries, gen, name);
    }
  }

  lemma {:induction false} MakeAllClean(env: Env, c: Cluster, i: nat)
    requires i <= |c.nodes| && MakeAll(env, c, i).1.w.clean
    ensures c.w.clean
    decreases |c.nodes| - i
  {
    hide Make;
    if i < |c.nodes| {
      var (ok, c1) := Make(env, c, i);
      if ok {
        MakeLength(env, c, i);
        MakeAllClean(env, c1, i + 1);
      }
      MakeClean(env, c, i);
    }
  }

  lemma MakeLength(env: Env, c: Cluster, i: nat)
    requires i < |c.nodes|
    ensures |Make(env, c, i).1.nodes| == |c.nodes|
  {
  }

  lemma MakeClean(env: Env, c: Cluster, i: nat)
    requires i < |c.nodes| && Make(env, c, i).1.w.clean
    ensures c.w.clean
  {
    var a := env(c.w.pos);
    var w1 := Tick(c.w, a.ok);
    RaiseFollows(env, c.nodes[i], EntryOf(c.mem, c.nodes[i].name), FindEntry(c.mem, c.nodes[i].name) < 0, w1);
    hide Raise;
  }

  ghost predicate AllDesired(c: Cluster, gen: seq<NodeState>, from: nat)
    requires |c.nodes| == |gen|
  {
    forall j: nat :: from <= j < |gen| ==> Desired(c, gen, j)
  }

  ghost predicate AllRaised(c: Cluster, c': Cluster, gen: seq<NodeState>, from: nat, hash: string)
    requires |c.nodes| == |c'.nodes| == |gen|
  {
    forall j: nat :: from <= j < |gen| ==> Raised(c, c', gen, j, hash)
  }

  lemma {:induction false} MakeAllRaises(env: Env, c: Cluster, gen: seq<NodeState>, i: nat, hash: string)
    requires FixedSecret(env, hash) && Aligned(c, gen) && i <= |c.nodes| && AllDesired(c, gen, i)
    requires MakeAll(env, c, i).1.w.clean
    ensures var (ok, r) := MakeAll(env, c, i);
            && ok && Aligned(r, gen) && AllRaised(c, r, gen, i, hash)
            && forall j: nat :: j < i ==> Untouched(c, r, j)
    decreases |c.nodes| - i
  {
    hide Make, Raised, Untouched, CalmEntries, DistinctNodes;
    if i == |c.nodes| {
      forall j: nat | j < i ensures Untouched(c, c, j) {
        UntouchedReflexive(c, j);
      }
    } else {
      var (ok, c1) := Make(env, c, i);
      MakeLength(env, c, i);
      if ok {
        MakeAllClean(env, c1, i + 1);
      }
      MakeRaises(env, c, gen, i, hash);
      forall j: nat | i + 1 <= j < |gen| ensures Desired(c1, gen, j) {
        DesiredUntouched(c, c1, gen, j);
      }
      MakeAllRaises(env, c1, gen, i + 1, hash);
      var r := MakeAll(env, c1, i + 1).1;
      forall j: nat | j < i ensures Untouched(c, r, j) {
        UntouchedTransitive(c, c1, r, j);
      }
      forall j: nat | i <= j < |gen| ensures Raised(c, r, gen, j, hash) {
        if j == i {
          assert Untouched(c1, r, i);
          RaisedThenUntouched(c, c1, r, gen, i, hash);
        } else {
          UntouchedThenRaised(c, c1, r, gen, j, hash);
        }
      }
    }
  }

  lemma DesiredUntouched(c: Cluster, c': Cluster, gen: seq<NodeState>, i: nat)
    requires i < |gen| == |c.nodes| && Untouched(c, c', i) && Desired(c, gen, i)
    ensures Desired(c', gen, i)
  {
  }

  lemma RaisedThenUntouched(c: Cluster, c1: Cluster, c2: Cluster, gen: seq<NodeState>, i: nat, hash: string)
    requires Aligned(c, gen) && Aligned(c1, gen) && Aligned(c2, gen) && i < |gen|
    requires Raised(c, c1, gen, i, hash) && Untouched(c1, c2, i)
    ensures Raised(c, c2, gen, i, hash)
  {
    hide Agrees, FindEntry, EntryOf, CalmEntries, DistinctNodes;
  }

  lemma UntouchedThenRaised(c: Cluster, c1: Cluster, c2: Cluster, gen: seq<NodeState>, i: nat, hash: string)
    requires Aligned(c, gen) && Aligned(c1, gen) && Aligned(c2, gen) && i < |gen|
    requires Untouched(c, c1, i) && Raised(c1, c2, gen, i, hash)
    ensures Raised(c, c2, gen, i, hash)
  {
    hide Agrees, FindEntry, EntryOf, CalmEntries, DistinctNodes;
  }

  // ----- ranking a cluster -----

  function CountBusy(entries: seq<Entry>): nat {
    if entries == [] then 0
    else (if entries[0].upgrade.under == IsTrue then 1 else 0) + CountBusy(entries[1..])
  }

  ghost predicate NoneBusy(entries: seq<Entry>) {
    forall i :: 0 <= i < |entries| ==> entries[i].upgrade.under != IsTrue
  }

  ghost predicate NoneFlagged(entries: seq<Entry>, redeploy: bool) {
    forall i :: 0 <= i < |entries| ==> !Flagged(entries[i], redeploy)
  }

  /** The flags of the i-th entry do not miss anything the node needs, and its Deployment is paused. */
  ghost predicate NodeAccurate(c: Cluster, gen: seq<NodeState>, i: nat, hash: string)
    requires i < |c.nodes| == |gen|
  {
    var u := EntryOf(c.mem, gen[i].name).upgrade;
    && HasEntry(c, gen[i].name) && ObjectPaused(c, gen[i])
    && (u.scheduledUpgrade == IsTrue || u.scheduledUpgrade == Blank)
    && (!ObjectAgrees(c, gen[i]) ==> u.scheduledUpgrade == IsTrue)
    && (c.nodes[i].secretHash != hash ==> u.scheduledRedeploy == IsTrue)
  }

  ghost predicate Accurate(c: Cluster, gen: seq<NodeState>, hash: string)
    requires |c.nodes| == |gen|
  {
    forall i: nat :: i < |gen| ==> NodeAccurate(c, gen, i, hash)
  }

  /** An upper bound on the passes still needed. */
  ghost function Rank(c: Cluster, gen: seq<NodeState>, hash: string): nat
    requires |c.nodes| == |gen|
  {
    if CountBusy(c.mem) > 0 then 5 + CountBusy(c.mem)
    else if Accurate(c, gen, hash) then
      if !NoneFlagged(c.mem, false) then 2 else if !NoneFlagged(c.mem, true) then 1 else 0
    else
      if !NoneFlagged(c.mem, false) then 5 else if !NoneFlagged(c.mem, true) then 4 else 3
  }

  lemma {:induction false} CountBusyZero(entries: seq<Entry>)
    ensures CountBusy(entries) == 0 <==> NoneBusy(entries)
  {
    if entries != [] {
      CountBusyZero(entries[1..]);
      if NoneBusy(entries[1..]) && entries[0].upgrade.under != IsTrue {
        forall i | 0 <= i < |entries| ensures entries[i].upgrade.under != IsTrue {
          if i > 0 {
            assert entries[1..][i - 1] == entries[i];
          }
        }
      }
      if NoneBusy(entries) {
        assert forall i :: 0 <= i < |entries| - 1 ==> entries[1..][i] == entries[i + 1];
      }
    }
  }

  lemma {:induction false} CountBusyUpdate(entries: seq<Entry>, k: nat, e: Entry)
    requires k < |entries| && entries[k].upgrade.under == IsTrue && e.upgrade.under != IsTrue
    ensures CountBusy(entries[k := e]) == CountBusy(entries) - 1
  {
    if k == 0 {
      assert entries[k := e][1..] == entries[1..];
    } else {
      CountBusyUpdate(entries[1..], k - 1, e);
      assert entries[k := e][1..] == entries[1..][k - 1 := e];
    }
  }

  /** Each entry is the entry of the generated node it names. */
  lemma EntryIndex(c: Cluster, gen: seq<NodeState>, m: nat)
    requires Aligned(c, gen) && m < |c.mem|
    ensures var i := FindNode(gen, Key(c.mem[m]));
            0 <= i < |gen| && gen[i].name == Key(c.mem[m]) && EntryOf(c.mem, gen[i].name) == c.mem[m] && HasEntry(c, gen[i].name)
  {
    assert CalmEntry(c.mem[m], gen);
    var i := FindNode(gen, Key(c.mem[m]));
    AlignedName(c, gen, i);
    FindEntryByKey(c.mem, gen[i].name, m);
  }

  // ----- which nodes a batch treats -----

  lemma {:induction false} NodesOfUnique(e: Entry, nodes: seq<NodeState>, i: nat)
    requires Named(e) && DistinctNodes(nodes) && i <= |nodes|
    ensures |NodesOf(e, nodes, i)| <= 1
    decreases |nodes| - i
  {
    if i < |nodes| {
      NodesOfUnique(e, nodes, i + 1);
      if Names(e, nodes[i].name) {
        NamesIsKey(e, nodes[i].name);
        var rest := NodesOf(e, nodes, i + 1);
        if rest != [] {
          assert rest[0] in rest;
          NamesIsKey(e, nodes[rest[0]].name);
        }
      }
    }
  }

  /** A node named by the first entry is not scheduled again by the others. */
  lemma NotScheduledAgain(entries: seq<Entry>, nodes: seq<NodeState>, redeploy: bool, k: nat)
    requires UniqueKeys(entries) && entries != [] && DistinctNodes(nodes) && k < |nodes|
    requires Names(entries[0], nodes[k].name)
    ensures k !in Scheduled(entries[1..], nodes, redeploy)
  {
    hide Scheduled;
    var tail, name := entries[1..], nodes[k].name;
    NamesIsKey(entries[0], name);
    forall m | 0 <= m < |tail| ensures !Names(tail[m], name) {
      NamesIsKey(entries[m + 1], name);
    }
    ScheduledAre(tail, nodes, redeploy, k);
  }

  /** The first entry contributes at most one node. */
  lemma ScheduledHead(entries: seq<Entry>, nodes: seq<NodeState>, redeploy: bool)
    requires entries != [] && Named(entries[0]) && DistinctNodes(nodes)
    ensures var here, rest := NodesOf(entries[0], nodes, 0), Scheduled(entries[1..], nodes, redeploy);
            Scheduled(entries, nodes, redeploy) == if Flagged(entries[0], redeploy) && here != [] then [here[0]] + rest else rest
  {
    hide NodesOf, Flagged, DistinctNodes, Named;
    NodesOfUnique(entries[0], nodes, 0);
    var here, rest := NodesOf(entries[0], nodes, 0), Scheduled(entries[1..], nodes, redeploy);
    assert here == [] || here == [here[0]];
    assert [] + rest == rest;
  }

  lemma PrependNoDuplicates(k: nat, rest: seq<nat>)
    requires NoDuplicates(rest) && k !in rest
    ensures NoDuplicates([k] + rest)
  {
  }

  lemma {:induction false} ScheduledNoDuplicates(entries: seq<Entry>, nodes: seq<NodeState>, redeploy: bool)
    requires UniqueKeys(entries) && DistinctNodes(nodes)
    ensures NoDuplicates(Scheduled(entries, nodes, redeploy))
  {
    if entries != [] {
      var tail := entries[1..];
      assert UniqueKeys(tail) && Named(entries[0]);
      hide UniqueKeys, Scheduled, DistinctNodes, NodesOf, Flagged, Named, NoDuplicates;
      ScheduledNoDuplicates(tail, nodes, redeploy);
      ScheduledHead(entries, nodes, redeploy);
      var here := NodesOf(entries[0], nodes, 0);
      if here != [] {
        assert here[0] in here;
        NotScheduledAgain(entries, nodes, redeploy, here[0]);
        PrependNoDuplicates(here[0], Scheduled(tail, nodes, redeploy));
      }
    }
  }

  /** In an aligned cluster a node is scheduled exactly when its entry is flagged. */
  lemma ScheduledIffFlagged(c: Cluster, gen: seq<NodeState>, redeploy: bool, i: nat)
    requires Aligned(c, gen) && i < |gen|
    ensures i in Scheduled(c.mem, c.nodes, redeploy) <==> HasEntry(c, gen[i].name) && Flagged(EntryOf(c.mem, gen[i].name), redeploy)
  {
    hide Scheduled;
    var name := gen[i].name;
    AlignedName(c, gen, i);
    ScheduledAre(c.mem, c.nodes, redeploy, i);
    if i in Scheduled(c.mem, c.nodes, redeploy) {
      var e :| e in c.mem && Flagged(e, redeploy) && Names(e, c.nodes[i].name);
      var m :| 0 <= m < |c.mem| && c.mem[m] == e;
      NamesIsKey(c.mem[m], name);
      FindEntryByKey(c.mem, name, m);
    }
    if HasEntry(c, name) && Flagged(EntryOf(c.mem, name), redeploy) {
      var k := FindEntry(c.mem, name);
      assert c.mem[k] in c.mem;
    }
  }

  lemma NothingScheduled(c: Cluster, gen: seq<NodeState>, redeploy: bool)
    requires Aligned(c, gen)
    ensures Scheduled(c.mem, c.nodes, redeploy) == [] <==> NoneFlagged(c.mem, redeploy)
  {
    hide Scheduled;
    var todo := Scheduled(c.mem, c.nodes, redeploy);
    if todo != [] {
      assert todo[0] in todo;
      ScheduledIffFlagged(c, gen, redeploy, todo[0]);
      var k := FindEntry(c.mem, gen[todo[0]].name);
      assert Flagged(c.mem[k], redeploy);
    }
    if todo == [] {
      forall m | 0 <= m < |c.mem| ensures !Flagged(c.mem[m], redeploy) {
        EntryIndex(c, gen, m);
        ScheduledIffFlagged(c, gen, redeploy, FindNode(gen, Key(c.mem[m])));
      }
    }
  }

  lemma BusyIffContinue(c: Cluster, gen: seq<NodeState>)
    requires Aligned(c, gen)
    ensures InProgress(c.mem, c.nodes).None? <==> NoneBusy(c.mem)
  {
    hide InProgress;
    if InProgress(c.mem, c.nodes).None? {
      forall m | 0 <= m < |c.mem| ensures c.mem[m].upgrade.under != IsTrue {
        EntryIndex(c, gen, m);
        var i := FindNode(gen, Key(c.mem[m]));
        AlignedName(c, gen, i);
        NamesIsKey(c.mem[m], c.nodes[i].name);
      }
    }
  }

  lemma EntryOfNotBusy(c: Cluster, name: string)
    requires NoneBusy(c.mem)
    ensures EntryOf(c.mem, name).upgrade.under != IsTrue
  {
  }

  // ----- what each kind of work does to the rank -----

  lemma ContinueRank(env: Env, c: Cluster, gen: seq<NodeState>, hash: string, i: nat, updating: bool)
    requires FixedSecret(env, hash) && Aligned(c, gen) && ModeOf(c) == Continue(i, updating)
    requires Visit(env, c, i, updating).w.clean
    ensures var r := Visit(env, c, i, updating);
            Aligned(r, gen) && CountBusy(c.mem) > 0 && CountBusy(r.mem) == CountBusy(c.mem) - 1
  {
    hide Visit, Treat, Scheduled, CalmEntries;
    var name := c.nodes[i].name;
    AlignedName(c, gen, i);
    var m :| 0 <= m < |c.mem| && c.mem[m].upgrade.under == IsTrue && Names(c.mem[m], name);
    assert CalmEntry(c.mem[m], gen) && Named(c.mem[m]) && UniqueKeys(c.mem) by {
      CalmAt(c.mem, gen, m);
    }
    NamesIsKey(c.mem[m], name);
    FindEntryByKey(c.mem, name, m);
    VisitCleanTreat(env, c, i, updating);
    var e' := Treat(env, c.nodes[i], EntryOf(c.mem, name), c.w, updating).1;
    CleanTreatFinishes(env, c.nodes[i], EntryOf(c.mem, name), c.w, updating, hash);
    VisitFrame(env, c, gen, i, updating);
    CountBusyUpdate(c.mem, m, e');
    CountBusyZero(c.mem);
  }

  lemma CalmAt(entries: seq<Entry>, gen: seq<NodeState>, m: nat)
    requires CalmEntries(entries, gen) && m < |entries|
    ensures CalmEntry(entries[m], gen) && Named(entries[m]) && UniqueKeys(entries)
  {
  }

  /** After a batch over an aligned cluster with no busy node, looked at entry by entry. */
  lemma BatchEntries(env: Env, c: Cluster, gen: seq<NodeState>, hash: string, updating: bool)
    requires FixedSecret(env, hash) && Aligned(c, gen) && NoneBusy(c.mem) && AllDesired(c, gen, 0)
    requires Batch(env, c, Scheduled(c.mem, c.nodes, !updating), updating).w.clean
    ensures var todo := Scheduled(c.mem, c.nodes, !updating); var r := Batch(env, c, todo, updating);
            && Aligned(r, gen) && AllSettled(c, r, gen, todo, updating, hash) && RestUntouched(c, r, todo)
            && NoneBusy(r.mem) && NoneFlagged(r.mem, !updating)
            && (!updating && NoneFlagged(c.mem, false) ==> NoneFlagged(r.mem, false))
  {
    hide Batch, Scheduled, Settled, Untouched, ObjectAgrees, ObjectPaused, CalmEntries, DistinctNodes;
    var todo := Scheduled(c.mem, c.nodes, !updating);
    AlignedParts(c, gen);
    ScheduledNoDuplicates(c.mem, c.nodes, !updating);
    forall t | 0 <= t < |todo| ensures Waiting(c, gen, todo[t]) {
      assert todo[t] in todo;
      ScheduledIffFlagged(c, gen, !updating, todo[t]);
      EntryOfNotBusy(c, gen[todo[t]].name);
      assert Desired(c, gen, todo[t]);
    }
    BatchSettles(env, c, gen, todo, updating, hash);
    var r := Batch(env, c, todo, updating);
    forall m | 0 <= m < |r.mem|
      ensures r.mem[m].upgrade.under != IsTrue && !Flagged(r.mem[m], !updating)
      ensures !updating && NoneFlagged(c.mem, false) ==> !Flagged(r.mem[m], false)
    {
      BatchEntry(c, r, gen, hash, updating, m);
    }
  }

  lemma AlignedParts(c: Cluster, gen: seq<NodeState>)
    requires Aligned(c, gen)
    ensures UniqueKeys(c.mem) && DistinctNodes(c.nodes)
  {
  }

  lemma BatchEntry(c: Cluster, r: Cluster, gen: seq<NodeState>, hash: string, updating: bool, m: nat)
    requires Aligned(c, gen) && Aligned(r, gen) && NoneBusy(c.mem) && m < |r.mem|
    requires var todo := Scheduled(c.mem, c.nodes, !updating);
             AllSettled(c, r, gen, todo, updating, hash) && RestUntouched(c, r, todo)
    ensures r.mem[m].upgrade.under != IsTrue && !Flagged(r.mem[m], !updating)
    ensures !updating && NoneFlagged(c.mem, false) ==> !Flagged(r.mem[m], false)
  {
    hide Scheduled, ObjectAgrees, ObjectPaused, CalmEntries, DistinctNodes, FindNode;
    var todo := Scheduled(c.mem, c.nodes, !updating);
    EntryIndex(r, gen, m);
    var i: nat := FindNode(gen, Key(r.mem[m]));
    if i in todo {
      var t :| 0 <= t < |todo| && todo[t] == i;
      assert Settled(r, gen, todo[t], hash);
    } else {
      assert Untouched(c, r, i);
      ScheduledIffFlagged(c, gen, !updating, i);
      EntryOfNotBusy(c, gen[i].name);
      assert HasEntry(c, gen[i].name);
      assert EntryOf(c.mem, gen[i].name) == c.mem[FindEntry(c.mem, gen[i].name)];
    }
  }

  lemma UnflaggedAgrees(c: Cluster, gen: seq<NodeState>, i: nat, hash: string)
    requires i < |c.nodes| == |gen| && NodeAccurate(c, gen, i, hash) && NoneFlagged(c.mem, false)
    ensures ObjectAgrees(c, gen[i])
  {
    hide ObjectAgrees, ObjectPaused;
    assert !Flagged(c.mem[FindEntry(c.mem, gen[i].name)], false);
  }

  lemma BatchAccurate(c: Cluster, r: Cluster, gen: seq<NodeState>, hash: string, updating: bool)
    requires Aligned(c, gen) && Aligned(r, gen) && Accurate(c, gen, hash)
    requires !updating ==> NoneFlagged(c.mem, false)
    requires var todo := Scheduled(c.mem, c.nodes, !updating);
             AllSettled(c, r, gen, todo, updating, hash) && RestUntouched(c, r, todo)
    ensures Accurate(r, gen, hash)
  {
    hide Scheduled, ObjectAgrees, ObjectPaused, CalmEntries, DistinctNodes;
    var todo := Scheduled(c.mem, c.nodes, !updating);
    forall i: nat | i < |gen| ensures NodeAccurate(r, gen, i, hash) {
      assert NodeAccurate(c, gen, i, hash);
      if i in todo {
        var t :| 0 <= t < |todo| && todo[t] == i;
        assert Settled(r, gen, todo[t], hash);
        if !updating {
          UnflaggedAgrees(c, gen, i, hash);
        }
      } else {
        assert Untouched(c, r, i);
        SettledUntouchedObject(c, r, gen, i);
      }
    }
  }

  lemma UpgradesRank(env: Env, c: Cluster, gen: seq<NodeState>, hash: string)
    requires FixedSecret(env, hash) && Aligned(c, gen) && NoneBusy(c.mem) && AllDesired(c, gen, 0)
    requires !NoneFlagged(c.mem, false) && Batch(env, c, Scheduled(c.mem, c.nodes, false), true).w.clean
    ensures var r := Batch(env, c, Scheduled(c.mem, c.nodes, false), true);
            Aligned(r, gen) && Rank(r, gen, hash) < Rank(c, gen, hash)
  {
    hide Batch, Scheduled, AllSettled, RestUntouched, NodeAccurate, CalmEntries, DistinctNodes, CountBusy;
    BatchEntries(env, c, gen, hash, true);
    var r := Batch(env, c, Scheduled(c.mem, c.nodes, false), true);
    if Accurate(c, gen, hash) {
      BatchAccurate(c, r, gen, hash, true);
    }
    CountBusyZero(c.mem);
    CountBusyZero(r.mem);
  }

  lemma RedeploysRank(env: Env, c: Cluster, gen: seq<NodeState>, hash: string)
    requires FixedSecret(env, hash) && Aligned(c, gen) && NoneBusy(c.mem) && AllDesired(c, gen, 0)
    requires NoneFlagged(c.mem, false) && !NoneFlagged(c.mem, true)
    requires Batch(env, c, Scheduled(c.mem, c.nodes, true), false).w.clean
    ensures var r := Batch(env, c, Scheduled(c.mem, c.nodes, true), false);
            Aligned(r, gen) && Rank(r, gen, hash) < Rank(c, gen, hash)
  {
    hide Batch, Scheduled, AllSettled, RestUntouched, NodeAccurate, CalmEntries, DistinctNodes, CountBusy;
    BatchEntries(env, c, gen, hash, false);
    var r := Batch(env, c, Scheduled(c.mem, c.nodes, true), false);
    if Accurate(c, gen, hash) {
      BatchAccurate(c, r, gen, hash, false);
    }
    CountBusyZero(c.mem);
    CountBusyZero(r.mem);
  }

  /** With accurate flags and none set, nothing is missing. */
  lemma NothingMissing(c: Cluster, gen: seq<NodeState>, hash: string, i: nat)
    requires Aligned(c, gen) && Accurate(c, gen, hash) && i < |gen|
    requires NoneFlagged(c.mem, false) && NoneFlagged(c.mem, true)
    ensures HasEntry(c, gen[i].name) && ObjectAgrees(c, gen[i]) && ObjectPaused(c, gen[i])
    ensures c.nodes[i].secretHash == hash
    ensures EntryOf(c.mem, gen[i].name).upgrade.scheduledUpgrade == Blank
    ensures EntryOf(c.mem, gen[i].name).upgrade.scheduledRedeploy != IsTrue
  {
    hide ObjectAgrees, ObjectPaused, CalmEntries, DistinctNodes;
    assert NodeAccurate(c, gen, i, hash);
    var e := c.mem[FindEntry(c.mem, gen[i].name)];
    assert !Flagged(e, false) && !Flagged(e, true);
  }

  lemma CreatesRank(env: Env, c: Cluster, gen: seq<NodeState>, hash: string)
    requires FixedSecret(env, hash) && Aligned(c, gen) && NoneBusy(c.mem) && AllDesired(c, gen, 0)
    requires NoneFlagged(c.mem, false) && NoneFlagged(c.mem, true) && MakeAll(env, c, 0).1.w.clean
    ensures var (ok, r) := MakeAll(env, c, 0);
            && ok && Aligned(r, gen)
            && (Rank(r, gen, hash) < Rank(c, gen, hash) || Rank(r, gen, hash) == 0)
  {
    hide MakeAll, Raised, NodeAccurate, CalmEntries, DistinctNodes, CountBusy;
    MakeAllRaises(env, c, gen, 0, hash);
    var r := MakeAll(env, c, 0).1;
    forall i: nat | i < |gen| ensures NodeAccurate(r, gen, i, hash) {
      RaisedAccurate(c, r, gen, i, hash);
    }
    forall m | 0 <= m < |r.mem|
      ensures r.mem[m].upgrade.under != IsTrue
      ensures Accurate(c, gen, hash) ==> !Flagged(r.mem[m], false) && !Flagged(r.mem[m], true)
    {
      RaisedEntry(c, r, gen, hash, m);
    }
    assert NoneBusy(r.mem);
    CountBusyZero(c.mem);
    CountBusyZero(r.mem);
  }

  lemma RaisedAccurate(c: Cluster, r: Cluster, gen: seq<NodeState>, i: nat, hash: string)
    requires Aligned(c, gen) && Aligned(r, gen) && i < |gen| && Raised(c, r, gen, i, hash)
    ensures NodeAccurate(r, gen, i, hash)
  {
    hide ObjectAgrees, ObjectPaused, FindEntry, EntryOf;
  }

  lemma RaisedEntry(c: Cluster, r: Cluster, gen: seq<NodeState>, hash: string, m: nat)
    requires Aligned(c, gen) && Aligned(r, gen) && NoneBusy(c.mem) && m < |r.mem|
    requires NoneFlagged(c.mem, false) && NoneFlagged(c.mem, true) && AllRaised(c, r, gen, 0, hash)
    ensures r.mem[m].upgrade.under != IsTrue
    ensures Accurate(c, gen, hash) ==> !Flagged(r.mem[m], false) && !Flagged(r.mem[m], true)
  {
    hide ObjectAgrees, ObjectPaused, CalmEntries, DistinctNodes, FindNode;
    EntryIndex(r, gen, m);
    var i: nat := FindNode(gen, Key(r.mem[m]));
    assert Raised(c, r, gen, i, hash);
    EntryOfNotBusy(c, gen[i].name);
    if Accurate(c, gen, hash) {
      NothingMissing(c, gen, hash, i);
    }
  }

  /** A pass's work, on a prepared cluster. */
  lemma WorkRank(env: Env, c: Cluster, gen: seq<NodeState>, hash: string)
    requires FixedSecret(env, hash) && Aligned(c, gen) && AllDesired(c, gen, 0) && Work(env, c).1.w.clean
    ensures var (ok, r) := Work(env, c);
            && ok && Aligned(r, gen)
            && (Rank(r, gen, hash) < Rank(c, gen, hash) || Rank(r, gen, hash) == 0)
  {
    hide Visit, Batch, MakeAll, Scheduled, Accurate, CalmEntries, DistinctNodes, CountBusy;
    BusyIffContinue(c, gen);
    NothingScheduled(c, gen, false);
    NothingScheduled(c, gen, true);
    CountBusyZero(c.mem);
    match ModeOf(c) {
      case Continue(i, updating) =>
        ContinueRank(env, c, gen, hash, i, updating);
      case Upgrades(todo) =>
        UpgradesRank(env, c, gen, hash);
      case Redeploys(todo) =>
        RedeploysRank(env, c, gen, hash);
      case Creates =>
        CreatesRank(env, c, gen, hash);
    }
  }

  // ----- preparing and closing -----

  /** Purging deletes nothing that is generated, and drops no entry that names a generated node. */
  lemma {:induction false} PurgeKeepsGenerated(env: Env, c: Cluster, gen: seq<NodeState>, i: nat, reviewed: bool)
    requires CalmEntries(c.mem, gen) && DistinctNodes(c.nodes) && i <= |c.nodes|
    ensures var r := Purge(env, c, gen, i, reviewed);
            && r.mem == c.mem && r.stored == c.stored && r.nodes == c.nodes
            && (forall j :: 0 <= j < |gen| ==> (gen[j].name in r.w.objects <==> gen[j].name in c.w.objects))
            && (forall j :: 0 <= j < |gen| && gen[j].name in c.w.objects ==> r.w.objects[gen[j].name] == c.w.objects[gen[j].name])
            && (r.w.clean ==> c.w.clean)
    decreases |c.nodes| - i
  {
    hide DropEntry, CalmEntries;
    if i < |c.nodes| {
      var name := c.nodes[i].name;
      if FindNode(gen, name) >= 0 {
        PurgeKeepsGenerated(env, c, gen, i + 1, reviewed);
      } else {
        var w1 := if reviewed then c.w else Note(c.w, MinMasters(""));
        var w2 := Delete(env, w1, name);
        DropNothing(c.mem, gen, name);
        PurgeKeepsGenerated(env, c.(mem := DropEntry(c.mem, name), w := w2), gen, i + 1, true);
      }
    }
  }

  lemma DropNothing(entries: seq<Entry>, gen: seq<NodeState>, name: string)
    requires CalmEntries(entries, gen) && name != "" && FindNode(gen, name) < 0
    ensures DropEntry(entries, name) == entries
  {
    FindEntryKey(entries, name);
    forall i | 0 <= i < |entries| ensures Key(entries[i]) != name {
      assert CalmEntry(entries[i], gen);
    }
  }

  lemma {:induction false} ProgressNothing(env: Env, c: Cluster, j: nat)
    requires j <= |c.mem| && forall i :: 0 <= i < |c.mem| ==> !c.mem[i].unschedulable
    ensures ProgressAll(env, c, j) == c
    decreases |c.mem| - j
  {
    hide ProgressAt;
    if j < |c.mem| {
      ProgressNothing(env, c, j + 1);
    }
  }

  /** The cached value of a generated node. */
  ghost function CachedHash(c: Cluster, n: NodeState): string {
    var j := FindNode(c.nodes, n.name);
    if j < 0 then n.secretHash else c.nodes[j].secretHash
  }

  lemma PrepareAligns(env: Env, c: Cluster, gen: seq<NodeState>)
    requires Ready(c, gen) && DeploymentsOnly(gen)
    ensures var p := Prepare(env, c, gen);
            && |p.nodes| == |gen| && Aligned(p, gen) && AllDesired(p, gen, 0) && p.mem == c.stored && p.stored == c.stored
            && (forall j :: 0 <= j < |gen| ==> p.nodes[j].secretHash == CachedHash(c, gen[j]))
            && (forall j :: 0 <= j < |gen| ==> (gen[j].name in p.w.objects <==> gen[j].name in c.w.objects))
            && (forall j :: 0 <= j < |gen| && gen[j].name in c.w.objects ==> p.w.objects[gen[j].name] == c.w.objects[gen[j].name])
            && (p.w.clean ==> c.w.clean)
  {
    hide Purge, ProgressAll;
    var c0 := c.(mem := c.stored, w := Tick(c.w, true));
    PurgeKeepsGenerated(env, c0, gen, 0, false);
    var g := GetNodes(env, c0, gen);
    assert forall i :: 0 <= i < |c.stored| ==> CalmEntry(c.stored[i], gen);
    ProgressNothing(env, g, 0);
    MergeDistinct(c.nodes, gen);
    forall i | 0 <= i < |gen|
      ensures g.nodes[i].kind.Deployment? && g.nodes[i].self.spec == gen[i].self.spec
      ensures g.nodes[i].secretHash == CachedHash(c, gen[i])
    {
      FindNodeOfNode(gen, i);
      var j := FindNode(c.nodes, gen[i].name);
      if j >= 0 {
        assert c.nodes[j].kind.Deployment?;
      }
    }
  }

  /** Preparing does not change the rank of an aligned cluster. */
  lemma PrepareRank(env: Env, c: Cluster, gen: seq<NodeState>, hash: string)
    requires Aligned(c, gen) && DeploymentsOnly(gen)
    ensures Ready(c, gen)
    ensures var p := Prepare(env, c, gen); |p.nodes| == |gen| && Rank(p, gen, hash) == Rank(c, gen, hash)
  {
    hide Prepare, Agrees, CalmEntries;
    PrepareAligns(env, c, gen);
    var p := Prepare(env, c, gen);
    forall i: nat | i < |gen| ensures NodeAccurate(p, gen, i, hash) <==> NodeAccurate(c, gen, i, hash) {
      AlignedName(c, gen, i);
      FindNodeOfNode(c.nodes, i);
    }
  }

  lemma CloseClean(env: Env, c: Cluster, gen: seq<NodeState>, hash: string)
    requires Aligned(c, gen) && Close(env, c).w.clean
    ensures var r := Close(env, c);
            Aligned(r, gen) && Rank(r, gen, hash) == Rank(c, gen, hash) && c.w.clean
  {
    var r := Close(env, c);
    forall i | 0 <= i < |c.mem| ensures Rescheduled(c.mem, env(c.w.pos).unschedulable)[i] == c.mem[i] {
      assert CalmEntry(c.mem[i], gen);
    }
    assert Rescheduled(c.mem, env(c.w.pos).unschedulable) == c.mem;
    assert r.mem == c.mem && r.stored == c.stored && r.nodes == c.nodes && r.w.objects == c.w.objects;
    SameRank(c, r, gen, hash);
  }

  lemma SameRank(c: Cluster, r: Cluster, gen: seq<NodeState>, hash: string)
    requires |c.nodes| == |gen| && r.mem == c.mem && r.nodes == c.nodes && r.w.objects == c.w.objects
    ensures Rank(r, gen, hash) == Rank(c, gen, hash)
  {
    hide Agrees, FindEntry;
    forall i: nat | i < |gen| ensures NodeAccurate(r, gen, i, hash) <==> NodeAccurate(c, gen, i, hash) {
    }
  }

  /** A clean pass from a ready cluster lowers the rank, down to 0. */
  lemma PassRank(env: Env, c: Cluster, gen: seq<NodeState>, hash: string)
    requires FixedSecret(env, hash) && DeploymentsOnly(gen) && Ready(c, gen) && Pass(env, c, gen).w.clean
    ensures var p, r := Prepare(env, c, gen), Pass(env, c, gen);
            && |p.nodes| == |gen| && Aligned(r, gen) && Ready(r, gen)
            && (Rank(r, gen, hash) < Rank(p, gen, hash) || Rank(r, gen, hash) == 0)
  {
    hide Prepare, Work, Close, Rank, Aligned, Ready;
    PrepareAligns(env, c, gen);
    var p := Prepare(env, c, gen);
    var (ok, r) := Work(env, p);
    if ok {
      CloseFlagClean(env, r);
    }
    WorkRank(env, p, gen, hash);
    CloseClean(env, r, gen, hash);
    AlignedReady(Close(env, r), gen);
  }

  lemma CloseFlagClean(env: Env, c: Cluster)
    requires Close(env, c).w.clean
    ensures c.w.clean
  {
  }

  lemma AlignedReady(c: Cluster, gen: seq<NodeState>)
    requires Aligned(c, gen)
    ensures Ready(c, gen)
  {
  }

  // ----- runs -----

  /** m passes, each with the same generated nodes. */
  function Passes(env: Env, c: Cluster, gen: seq<NodeState>, m: nat): Cluster {
    if m == 0 then c else Pass(env, Passes(env, c, gen, m - 1), gen)
  }

  /** Every Deployment exists, agrees with the spec, is paused and has a current hash; and no entry is busy or flagged. */
  ghost predicate Converged(c: Cluster, gen: seq<NodeState>, hash: string) {
    && |c.nodes| == |gen| && c.mem == c.stored
    && (forall e :: e in c.stored ==>
          e.upgrade.under != IsTrue && e.upgrade.scheduledUpgrade != IsTrue && e.upgrade.scheduledRedeploy != IsTrue)
    && forall i :: 0 <= i < |gen| ==>
         && c.nodes[i].name == gen[i].name && c.nodes[i].secretHash == hash
         && HasEntry(c, gen[i].name) && ObjectAgrees(c, gen[i]) && ObjectPaused(c, gen[i])
  }

  lemma RankZeroConverged(c: Cluster, gen: seq<NodeState>, hash: string)
    requires Aligned(c, gen) && Rank(c, gen, hash) == 0
    ensures Converged(c, gen, hash)
  {
    hide ObjectAgrees, ObjectPaused, CalmEntries, CountBusy, FindNode;
    CountBusyZero(c.mem);
    forall i | 0 <= i < |gen|
      ensures c.nodes[i].secretHash == hash && HasEntry(c, gen[i].name)
      ensures ObjectAgrees(c, gen[i]) && ObjectPaused(c, gen[i])
    {
      NothingMissing(c, gen, hash, i);
    }
    forall e | e in c.mem
      ensures e.upgrade.under != IsTrue && e.upgrade.scheduledUpgrade != IsTrue && e.upgrade.scheduledRedeploy != IsTrue
    {
      var m :| 0 <= m < |c.mem| && c.mem[m] == e;
      EntryIndex(c, gen, m);
      NothingMissing(c, gen, hash, FindNode(gen, Key(e)));
    }
  }

  lemma RankBound(c: Cluster, gen: seq<NodeState>, hash: string)
    requires |c.nodes| == |gen|
    ensures Rank(c, gen, hash) <= 5 + CountBusy(c.mem)
  {
  }

  lemma {:induction false} PassesRank(env: Env, c: Cluster, gen: seq<NodeState>, hash: string, m: nat)
    requires FixedSecret(env, hash) && DeploymentsOnly(gen) && Ready(c, gen)
    requires m > 0 && Passes(env, c, gen, m).w.clean
    ensures var r := Passes(env, c, gen, m);
            && Aligned(r, gen) && Ready(r, gen)
            && (Rank(r, gen, hash) + m <= 5 + CountBusy(c.stored) || Rank(r, gen, hash) == 0)
  {
    hide Pass, Rank, Ready, Aligned, Prepare;
    var before := Passes(env, c, gen, m - 1);
    if m == 1 {
      PassRank(env, c, gen, hash);
      PrepareAligns(env, c, gen);
      RankBound(Prepare(env, c, gen), gen, hash);
    } else {
      PassClean(env, c, gen, m);
      PassesRank(env, c, gen, hash, m - 1);
      PassRank(env, before, gen, hash);
      PrepareRank(env, before, gen, hash);
    }
  }

  /** Failures are never forgotten. */
  lemma PassClean(env: Env, c: Cluster, gen: seq<NodeState>, m: nat)
    requires m > 0 && Passes(env, c, gen, m).w.clean
    ensures Passes(env, c, gen, m - 1).w.clean
  {
    var b := Passes(env, c, gen, m - 1);
    PassMonotone(env, b, gen);
    hide Pass;
  }

  lemma PassMonotone(env: Env, c: Cluster, gen: seq<NodeState>)
    ensures Pass(env, c, gen).w.clean ==> c.w.clean
  {
    hide Prepare, Work, Close;
    if env(c.w.pos).ok && Pass(env, c, gen).w.clean {
      var p := Prepare(env, c, gen);
      var (ok, r) := Work(env, p);
      if ok {
        CloseFlagClean(env, r);
      }
      WorkMonotone(env, p);
      PrepareMonotone(env, c, gen);
    }
  }

  lemma WorkMonotone(env: Env, c: Cluster)
    ensures Work(env, c).1.w.clean ==> c.w.clean
  {
    hide Visit, Batch, MakeAll, Scheduled, InProgress;
    if Work(env, c).1.w.clean {
      match ModeOf(c) {
        case Continue(i, updating) => VisitCleanTreat(env, c, i, updating);
        case Upgrades(todo) => BatchClean(env, c, todo, true);
        case Redeploys(todo) => BatchClean(env, c, todo, false);
        case Creates => MakeAllClean(env, c, 0);
      }
    }
  }

  lemma PrepareMonotone(env: Env, c: Cluster, gen: seq<NodeState>)
    ensures Prepare(env, c, gen).w.clean ==> c.w.clean
  {
    hide Purge, Merge, ProgressAll;
    var c0 := c.(mem := c.stored, w := Tick(c.w, true));
    PurgeMonotone(env, c0, gen, 0, false);
    ProgressAllMonotone(env, GetNodes(env, c0, gen), 0);
  }

  lemma {:induction false} PurgeMonotone(env: Env, c: Cluster, gen: seq<NodeState>, i: nat, reviewed: bool)
    requires i <= |c.nodes|
    ensures Purge(env, c, gen, i, reviewed).w.clean ==> c.w.clean
    decreases |c.nodes| - i
  {
    hide DropEntry;
    if i < |c.nodes| {
      if FindNode(gen, c.nodes[i].name) >= 0 {
        PurgeMonotone(env, c, gen, i + 1, reviewed);
      } else {
        var w1 := if reviewed then c.w else Note(c.w, MinMasters(""));
        PurgeMonotone(env, c.(mem := DropEntry(c.mem, c.nodes[i].name), w := Delete(env, w1, c.nodes[i].name)), gen, i + 1, true);
      }
    }
  }

  lemma {:induction false} ProgressAllMonotone(env: Env, c: Cluster, j: nat)
    requires j <= |c.mem|
    ensures ProgressAll(env, c, j).w.clean ==> c.w.clean
    decreases |c.mem| - j
  {
    hide ProgressAt;
    if j < |c.mem| {
      if c.mem[j].unschedulable {
        ProgressAtMonotone(env, c, NodesOf(c.mem[j], c.nodes, 0));
        ProgressAllMonotone(env, ProgressAt(env, c, NodesOf(c.mem[j], c.nodes, 0)), j + 1);
      } else {
        ProgressAllMonotone(env, c, j + 1);
      }
    }
  }

  lemma {:induction false} ProgressAtMonotone(env: Env, c: Cluster, todo: seq<nat>)
    requires Positions(todo, |c.nodes|)
    ensures ProgressAt(env, c, todo).w.clean ==> c.w.clean
    decreases |todo|
  {
    hide ProgressNode;
    if todo != [] {
      ProgressNodeQuiet(env, c.nodes[todo[0]], c.w);
      var (n, w) := ProgressNode(env, c.nodes[todo[0]], c.w);
      ProgressAtMonotone(env, c.(nodes := c.nodes[todo[0] := n], w := w), todo[1..]);
    }
  }

  lemma {:induction false} TraceIsPasses(
    env: Env, trace: seq<Cluster>, gens: seq<seq<NodeState>>, gen: seq<NodeState>, m: nat)
    requires IsRun(env, trace, gens) && m < |trace|
    requires forall i {:trigger gens[i]} :: 0 <= i < |gens| ==> gens[i] == gen
    ensures trace[m] == Passes(env, trace[0], gen, m)
  {
    hide Pass;
    if m > 0 {
      TraceIsPasses(env, trace, gens, gen, m - 1);
      assert gens[m - 1] == gen;
    }
  }

  /**
   * Convergence: in a run with the spec fixed that starts with k entries under upgrade, every state
   * after k + 5 or more passes has converged, as long as everything went well until then.
   */
  lemma DeploymentsConverge(
    env: Env, trace: seq<Cluster>, gens: seq<seq<NodeState>>, gen: seq<NodeState>, hash: string, m: nat)
    requires IsRun(env, trace, gens) && forall i {:trigger gens[i]} :: 0 <= i < |gens| ==> gens[i] == gen
    requires FixedSecret(env, hash) && DeploymentsOnly(gen) && Ready(trace[0], gen)
    requires CountBusy(trace[0].stored) + 5 <= m < |trace| && trace[m].w.clean
    ensures Converged(trace[m], gen, hash)
  {
    hide Pass, Rank, Ready, Aligned, Converged, DeploymentsOnly, FixedSecret;
    TraceIsPasses(env, trace, gens, gen, m);
    PassesRank(env, trace[0], gen, hash, m);
    RankZeroConverged(trace[m], gen, hash);
  }
}
