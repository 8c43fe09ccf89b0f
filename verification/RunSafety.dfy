/**
 * The shape of upgrade cycles over whole runs of the operator, mixing Deployments and
 * StatefulSets, with update and restart mixed on any node and any external call failing.  The
 * standing assumptions are that status writes persist (the flag kept), that a name always has
 * the same kind, which NodeFactory derives from the spec, and that no pass which goes ahead stops
 * generating a node under upgrade, which ObjectRuns derives from the UUID check.
 */
module RunSafety {
  import opened Base
  import opened Environment
  import opened Workload
  import Dep = DeploymentUpgrade
  import Sts = StatefulSetUpgrade
  import opened CycleSafety
  import opened Reconcile
  import opened Footprint
  import opened StatusIndex

  type KindOf = string -> Kind

  ghost predicate NodeKinds(kindOf: KindOf, nodes: seq<NodeState>) {
    forall i :: 0 <= i < |nodes| ==> kindOf(nodes[i].name) == nodes[i].kind
  }

  /** A status entry agrees with the log. */
  ghost predicate EntrySafe(kindOf: KindOf, log: seq<Event>, e: Entry) {
    && Named(e)
    && kindOf(Key(e)) == (if e.deploymentName != "" then Deployment else StatefulSet)
    && (e.upgrade.under != IsTrue ==> AtStart(e.upgrade.phase))
    && (e.deploymentName != "" ==> CycleOk(log, e.deploymentName, e.upgrade))
  }

  ghost predicate EntriesSafe(kindOf: KindOf, log: seq<Event>, entries: seq<Entry>) {
    forall e :: e in entries ==> EntrySafe(kindOf, log, e)
  }

  /** Every closed Deployment cycle in the log has the full shape. */
  ghost predicate LogSafe(kindOf: KindOf, log: seq<Event>) {
    forall k :: 0 <= k < |log| && log[k].Clear? && kindOf(log[k].node).Deployment? ==> GoodCycle(log, log[k].node, k)
  }

  ghost predicate Within(a: seq<Entry>, b: seq<Entry>) {
    forall e :: e in a ==> e in b
  }

  ghost predicate Safe(kindOf: KindOf, c: Cluster) {
    && Indexed(c) && NodeKinds(kindOf, c.nodes)
    && Within(c.mem, c.stored)
    && EntriesSafe(kindOf, c.w.log, c.stored)
    && LogSafe(kindOf, c.w.log)
  }

  // ----- extending the log -----

  lemma LogSafeExtends(kindOf: KindOf, log: seq<Event>, log': seq<Event>)
    requires LogSafe(kindOf, log) && log <= log'
    requires forall k :: |log| <= k < |log'| && log'[k].Clear? && kindOf(log'[k].node).Deployment? ==>
               GoodCycle(log', log'[k].node, k)
    ensures LogSafe(kindOf, log')
  {
    forall k | 0 <= k < |log'| && log'[k].Clear? && kindOf(log'[k].node).Deployment?
      ensures GoodCycle(log', log'[k].node, k)
    {
      if k < |log| {
        assert log'[k] == log[k];
        ExtendClosed(log, log', log[k].node, k);
      }
    }
  }

  lemma EntriesSafeExtend(kindOf: KindOf, log: seq<Event>, log': seq<Event>, entries: seq<Entry>)
    requires EntriesSafe(kindOf, log, entries) && QuietSince(log, log')
    ensures EntriesSafe(kindOf, log', entries)
  {
    forall e | e in entries ensures EntrySafe(kindOf, log', e) {
      assert EntrySafe(kindOf, log, e);
      if e.deploymentName != "" {
        ExtendOk(log, log', e.deploymentName, e.upgrade, e.upgrade);
      }
    }
  }

  lemma QuietKeepsSafe(kindOf: KindOf, c: Cluster, c': Cluster)
    requires Safe(kindOf, c) && QuietSince(c.w.log, c'.w.log)
    requires c'.mem == c.mem && c'.stored == c.stored && DistinctNodes(c'.nodes) && NodeKinds(kindOf, c'.nodes)
    ensures Safe(kindOf, c')
  {
    EntriesSafeExtend(kindOf, c.w.log, c'.w.log, c.stored);
    LogSafeExtends(kindOf, c.w.log, c'.w.log);
  }

  // ----- treating one node -----

  /** A StatefulSet's call also leaves a node that is not under upgrade at the start. */
  lemma StatefulSetPhase(env: Env, s: Step, updating: bool)
    requires s.u.under != IsTrue ==> AtStart(s.u.phase)
    ensures var t := Sts.Call(env, s, updating); t.u.under != IsTrue ==> AtStart(t.u.phase)
  {
    var a := Sts.BeginCycle(env, s, !updating);
    assert a.u.under != IsTrue ==> AtStart(a.u.phase) && !a.go by {
      hide Sts.SetPartition;
    }
    hide Sts.BeginCycle, ExecuteUpdate;
    var b := Sts.FirstBlock(env, a, updating);
    assert b.u.under != IsTrue ==> AtStart(b.u.phase) && !b.go;
    hide Sts.FirstBlock;
    var c := Sts.Roll(env, b, updating);
    Sts.RollTame(env, b, updating);
    assert c.u.under != IsTrue ==> c == b;
  }

  lemma TreatSafe(kindOf: KindOf, env: Env, n: NodeState, e: Entry, w: World, updating: bool)
    requires EntrySafe(kindOf, w.log, e) && Key(e) == n.name && kindOf(n.name) == n.kind
    ensures var (n', e', w') := Treat(env, n, e, w, updating);
            EntrySafe(kindOf, w'.log, e')
  {
    hide Treat, Dep.Call, Sts.Call, State, Grows;
    TreatFollows(env, n, e, w, updating);
    var (n', e', w') := Treat(env, n, e, w, updating);
    var s := Step(n, e.upgrade, w, true);
    if n.kind.Deployment? {
      CallKeeps(env, s, updating);
      assert CycleOk(w'.log, n.name, Dep.Call(env, s, updating).u);
      SameCycle(w'.log, n.name, Dep.Call(env, s, updating).u, e'.upgrade);
    } else {
      StatefulSetPhase(env, s, updating);
      CallNodeFollows(env, s, updating);
    }
  }

  lemma SameCycle(log: seq<Event>, name: string, u: Upgrade, u': Upgrade)
    requires CycleOk(log, name, u) && u'.under == u.under && u'.phase == u.phase
    ensures CycleOk(log, name, u')
  {
  }

  /** The other entries are not disturbed by work on one node. */
  lemma EntriesAfterWork(kindOf: KindOf, entries: seq<Entry>, k: nat, e': Entry, w: World, w': World, name: string)
    requires UniqueKeys(entries) && EntriesSafe(kindOf, w.log, entries) && Grows(w, w', name)
    requires k < |entries| && Key(entries[k]) == name && EntrySafe(kindOf, w'.log, e')
    ensures EntriesSafe(kindOf, w'.log, entries[k := e'])
  {
    forall j | 0 <= j < |entries| && j != k ensures EntrySafe(kindOf, w'.log, entries[j]) {
      var e := entries[j];
      assert e in entries && EntrySafe(kindOf, w.log, e);
      if e.deploymentName != "" {
        assert Key(entries[j]) != Key(entries[k]);
        ForeignOk(w, w', name, e.deploymentName, e.upgrade);
      }
    }
    forall e | e in entries[k := e'] ensures EntrySafe(kindOf, w'.log, e) {
      var j :| 0 <= j < |entries| && entries[k := e'][j] == e;
    }
  }

  lemma LogAfterWork(kindOf: KindOf, w: World, w': World, name: string, e': Entry)
    requires LogSafe(kindOf, w.log) && Grows(w, w', name)
    requires EntrySafe(kindOf, w'.log, e') && Key(e') == name
    ensures LogSafe(kindOf, w'.log)
  {
    forall k | |w.log| <= k < |w'.log| && w'.log[k].Clear? && kindOf(w'.log[k].node).Deployment?
      ensures GoodCycle(w'.log, w'.log[k].node, k)
    {
      assert w'.log[k] == Clear(name);
    }
    LogSafeExtends(kindOf, w.log, w'.log);
  }

  // ----- the steps of a pass -----

  lemma VisitSafe(kindOf: KindOf, env: Env, c: Cluster, i: nat, updating: bool)
    requires Safe(kindOf, c) && i < |c.nodes| && FindEntry(c.mem, c.nodes[i].name) >= 0
    requires Visit(env, c, i, updating).w.kept
    ensures Safe(kindOf, Visit(env, c, i, updating)) && c.w.kept
  {
    hide Treat, EntrySafe, Grows, LogSafe, UniqueKeys;
    var name := c.nodes[i].name;
    var k := FindEntry(c.mem, name);
    var e := c.mem[k];
    assert e in c.mem && e in c.stored;
    FindEntryKey(c.mem, name);
    VisitIndexed(env, c, i, updating);
    TreatFollows(env, c.nodes[i], e, c.w, updating);
    TreatSafe(kindOf, env, c.nodes[i], e, c.w, updating);
    var (n, e', w) := Treat(env, c.nodes[i], e, c.w, updating);
    var entries := c.mem[k := e'];
    assert EntriesSafe(kindOf, c.w.log, c.mem);
    EntriesAfterWork(kindOf, c.mem, k, e', c.w, w, name);
    LogAfterWork(kindOf, c.w, w, name, e');
    var c1 := c.(nodes := c.nodes[i := n], w := w);
    StoreShape(env, c1, entries);
    var r := Store(env, c1, entries);
    assert r == Visit(env, c, i, updating);
    assert NodeKinds(kindOf, r.nodes);
    GrowsKept(c.w, w, name);
    if r.stored == c.stored && entries == c.mem {
      StoredAfterIdleWork(kindOf, c.stored, e, c.w, w, name, e');
    }
  }

  lemma GrowsKept(w: World, w': World, name: string)
    requires Grows(w, w', name)
    ensures w'.kept == w.kept
  {
  }

  /** When the treated entry does not change, nothing is written and the stored entries stay safe. */
  lemma StoredAfterIdleWork(kindOf: KindOf, stored: seq<Entry>, e: Entry, w: World, w': World, name: string, e': Entry)
    requires UniqueKeys(stored) && EntriesSafe(kindOf, w.log, stored) && Grows(w, w', name)
    requires e in stored && Key(e) == name && EntrySafe(kindOf, w'.log, e') && e' == e
    ensures EntriesSafe(kindOf, w'.log, stored)
  {
    var k :| 0 <= k < |stored| && stored[k] == e;
    EntriesAfterWork(kindOf, stored, k, e', w, w', name);
    assert stored[k := e'] == stored;
  }

  lemma {:induction false} BatchSafe(kindOf: KindOf, env: Env, c: Cluster, todo: seq<nat>, updating: bool)
    requires Safe(kindOf, c) && Positions(todo, |c.nodes|) && HaveEntries(c, todo)
    requires Batch(env, c, todo, updating).w.kept
    ensures Safe(kindOf, Batch(env, c, todo, updating)) && c.w.kept
    decreases |todo|
  {
    hide Visit, Safe, FindEntry, Indexed;
    if todo != [] {
      SafeIndexed(kindOf, c);
      var c1 := Visit(env, c, todo[0], updating);
      VisitIndexed(env, c, todo[0], updating);
      forall j | 0 <= j < |todo[1..]| ensures FindEntry(c1.mem, c1.nodes[todo[1..][j]].name) >= 0 {
        SameKeysFind(c.mem, c1.mem, c.nodes[todo[j + 1]].name);
      }
      BatchKept(env, c1, todo[1..], updating);
      VisitSafe(kindOf, env, c, todo[0], updating);
      BatchSafe(kindOf, env, c1, todo[1..], updating);
    }
  }

  lemma SafeIndexed(kindOf: KindOf, c: Cluster)
    requires Safe(kindOf, c)
    ensures Indexed(c)
  {
  }

  lemma VisitKept(env: Env, c: Cluster, i: nat, updating: bool)
    requires i < |c.nodes|
    ensures Visit(env, c, i, updating).w.kept ==> c.w.kept
  {
    var e := EntryOf(c.mem, c.nodes[i].name);
    TreatFollows(env, c.nodes[i], e, c.w, updating);
    hide Treat;
  }

  lemma {:induction false} BatchKept(env: Env, c: Cluster, todo: seq<nat>, updating: bool)
    requires Positions(todo, |c.nodes|)
    ensures Batch(env, c, todo, updating).w.kept ==> c.w.kept
    decreases |todo|
  {
    hide Visit;
    if todo != [] {
      VisitKept(env, c, todo[0], updating);
      BatchKept(env, Visit(env, c, todo[0], updating), todo[1..], updating);
    }
  }

  // ----- create mode -----

  lemma PutEntrySafe(kindOf: KindOf, log: seq<Event>, entries: seq<Entry>, k: int, e: Entry)
    requires k < |entries| && EntriesSafe(kindOf, log, entries) && EntrySafe(kindOf, log, e)
    ensures EntriesSafe(kindOf, log, PutEntry(entries, k, e))
  {
    var r := PutEntry(entries, k, e);
    forall x | x in r ensures EntrySafe(kindOf, log, x) {
      var j :| 0 <= j < |r| && r[j] == x;
      assert x == e || x in entries;
    }
  }

  /** The entry of a created node, old or new, is safe. */
  lemma RaisedEntrySafe(kindOf: KindOf, log: seq<Event>, n: NodeState, e: Entry, isNew: bool, e': Entry)
    requires kindOf(n.name) == n.kind && n.name != "" && LogSafe(kindOf, log)
    requires if isNew then e == NEW_ENTRY else EntrySafe(kindOf, log, e) && Key(e) == n.name
    requires e'.upgrade.under == e.upgrade.under && e'.upgrade.phase == e.upgrade.phase
    requires !isNew ==> e'.deploymentName == e.deploymentName && e'.statefulSetName == e.statefulSetName
    requires isNew ==> e'.deploymentName == if n.kind.Deployment? then n.name else ""
    requires isNew ==> e'.statefulSetName == if n.kind.Deployment? then "" else n.name
    ensures EntrySafe(kindOf, log, e') && Key(e') == n.name
  {
    hide GoodCycle;
  }

  lemma MakeSafe(kindOf: KindOf, env: Env, c: Cluster, i: nat)
    requires Safe(kindOf, c) && i < |c.nodes| && Make(env, c, i).1.w.kept
    ensures Safe(kindOf, Make(env, c, i).1) && c.w.kept
  {
    hide Raise, Store, EntrySafe, LogSafe, UniqueKeys, Grows, FindEntry;
    MakeIndexed(env, c, i);
    var a := env(c.w.pos);
    var c1 := c.(mem := if a.ok || a.loaded then c.stored else c.mem, w := Tick(c.w, a.ok));
    assert Safe(kindOf, c1);
    if a.ok {
      var name := c.nodes[i].name;
      var k := FindEntry(c.mem, name);
      var e := EntryOf(c.mem, name);
      FindEntryFacts(c, name);
      RaiseFollows(env, c.nodes[i], e, k < 0, c1.w);
      var (ok, n, e', w) := Raise(env, c.nodes[i], e, k < 0, c1.w);
      GrowsKept(c1.w, w, name);
      var c2 := c1.(nodes := c.nodes[i := n], w := w);
      RenamedNodes(c.nodes, i, n);
      QuietKeepsSafe(kindOf, c1, c2);
      if ok {
        if k >= 0 {
          assert e in c.stored;
        }
        RaisedEntrySafe(kindOf, w.log, c.nodes[i], e, k < 0, e');
        assert EntriesSafe(kindOf, w.log, c.mem);
        var entries := PutEntry(c.mem, k, e');
        PutEntrySafe(kindOf, w.log, c.mem, k, e');
        StoreShape(env, c2, entries);
        var c3 := Store(env, c2, entries);
        assert c3.w.kept;
        assert c3.stored == entries;
        FinishMake(kindOf, env, c, i, c3);
      }
    }
  }

  lemma FindEntryFacts(c: Cluster, name: string)
    requires Indexed(c) && name != ""
    ensures var k := FindEntry(c.mem, name);
            && -1 <= k < |c.mem|
            && (k >= 0 ==> EntryOf(c.mem, name) == c.mem[k] && Key(c.mem[k]) == name && c.mem[k] in c.mem)
            && (k < 0 ==> EntryOf(c.mem, name) == NEW_ENTRY)
  {
    FindEntryKey(c.mem, name);
  }

  lemma FinishMake(kindOf: KindOf, env: Env, c: Cluster, i: nat, c3: Cluster)
    requires Safe(kindOf, c) && i < |c.nodes| && Indexed(Make(env, c, i).1)
    requires Make(env, c, i).1 == c3.(w := Note(c3.w, MinMasters("")))
    requires c3.mem == c3.stored && NodeKinds(kindOf, c3.nodes)
    requires EntriesSafe(kindOf, c3.w.log, c3.stored) && LogSafe(kindOf, c3.w.log)
    ensures Safe(kindOf, Make(env, c, i).1)
  {
    hide Make, EntrySafe, LogSafe, UniqueKeys;
    assert Safe(kindOf, c3);
    QuietKeepsSafe(kindOf, c3, c3.(w := Note(c3.w, MinMasters(""))));
  }

  lemma MakeKept(env: Env, c: Cluster, i: nat)
    requires i < |c.nodes|
    ensures Make(env, c, i).1.w.kept ==> c.w.kept
    ensures |Make(env, c, i).1.nodes| == |c.nodes|
  {
    var a := env(c.w.pos);
    var c1 := c.(mem := if a.ok || a.loaded then c.stored else c.mem, w := Tick(c.w, a.ok));
    if a.ok {
      var name := c.nodes[i].name;
      RaiseFollows(env, c.nodes[i], EntryOf(c.mem, name), FindEntry(c.mem, name) < 0, c1.w);
      hide Raise;
    }
  }

  lemma {:induction false} MakeAllKept(env: Env, c: Cluster, i: nat)
    requires i <= |c.nodes|
    ensures MakeAll(env, c, i).1.w.kept ==> c.w.kept
    decreases |c.nodes| - i
  {
    hide Make;
    if i < |c.nodes| {
      MakeKept(env, c, i);
      var (ok, c1) := Make(env, c, i);
      if ok {
        MakeAllKept(env, c1, i + 1);
      }
    }
  }

  lemma {:induction false} MakeAllSafe(kindOf: KindOf, env: Env, c: Cluster, i: nat)
    requires Safe(kindOf, c) && i <= |c.nodes| && MakeAll(env, c, i).1.w.kept
    ensures Safe(kindOf, MakeAll(env, c, i).1)
    decreases |c.nodes| - i
  {
    hide Make, Safe;
    if i < |c.nodes| {
      MakeKept(env, c, i);
      var (ok, c1) := Make(env, c, i);
      if ok {
        MakeAllKept(env, c1, i + 1);
      }
      MakeSafe(kindOf, env, c, i);
      if ok {
        MakeAllSafe(kindOf, env, c1, i + 1);
      }
    }
  }

  lemma WorkSafe(kindOf: KindOf, env: Env, c: Cluster)
    requires Safe(kindOf, c) && Work(env, c).1.w.kept
    ensures Safe(kindOf, Work(env, c).1)
  {
    hide Visit, Batch, MakeAll, Scheduled, Safe, FindEntry;
    SafeIndexed(kindOf, c);
    match ModeOf(c) {
      case Continue(i, updating) =>
        assert FindEntry(c.mem, c.nodes[i].name) >= 0;
        VisitSafe(kindOf, env, c, i, updating);
      case Upgrades(todo) =>
        ScheduledHasEntry(c, false);
        BatchSafe(kindOf, env, c, todo, true);
      case Redeploys(todo) =>
        ScheduledHasEntry(c, true);
        BatchSafe(kindOf, env, c, todo, false);
      case Creates =>
        MakeAllSafe(kindOf, env, c, 0);
    }
  }

  lemma WorkKept(env: Env, c: Cluster)
    ensures Work(env, c).1.w.kept ==> c.w.kept
  {
    hide Visit, Batch, MakeAll, Scheduled, FindEntry;
    match ModeOf(c) {
      case Continue(i, updating) => VisitKept(env, c, i, updating);
      case Upgrades(todo) => BatchKept(env, c, todo, true);
      case Redeploys(todo) => BatchKept(env, c, todo, false);
      case Creates => MakeAllKept(env, c, 0);
    }
  }

  // ----- preparing and closing a pass -----

  /** The generated nodes include every node whose entry is under upgrade. */
  ghost predicate KeepsBusy(entries: seq<Entry>, gen: seq<NodeState>) {
    forall e :: e in entries && e.upgrade.under == IsTrue ==> FindNode(gen, Key(e)) >= 0
  }

  lemma DropSafe(kindOf: KindOf, c: Cluster, gen: seq<NodeState>, name: string, w': World)
    requires Safe(kindOf, c) && KeepsBusy(c.mem, gen) && name != "" && FindNode(gen, name) < 0
    requires QuietSince(c.w.log, w'.log)
    ensures var c' := c.(mem := DropEntry(c.mem, name), w := w'); Safe(kindOf, c') && KeepsBusy(c'.mem, gen)
  {
    hide EntrySafe, LogSafe, UniqueKeys, DropEntry;
    QuietKeepsSafe(kindOf, c, c.(w := w'));
    DropEntryIndexed(c.mem, name);
    var mem := DropEntry(c.mem, name);
    forall e | e in mem ensures e in c.mem {
      DropEntryElement(c.mem, name, e);
    }
  }

  lemma {:induction false} PurgeSafe(kindOf: KindOf, env: Env, c: Cluster, gen: seq<NodeState>, i: nat, reviewed: bool)
    requires Safe(kindOf, c) && KeepsBusy(c.mem, gen) && i <= |c.nodes|
    ensures var r := Purge(env, c, gen, i, reviewed); Safe(kindOf, r) && r.w.kept == c.w.kept
    decreases |c.nodes| - i
  {
    hide DropEntry, KeepsBusy, Safe;
    if i < |c.nodes| {
      var name := c.nodes[i].name;
      if FindNode(gen, name) >= 0 {
        PurgeSafe(kindOf, env, c, gen, i + 1, reviewed);
      } else {
        var w1 := if reviewed then c.w else Note(c.w, MinMasters(""));
        var w2 := Delete(env, w1, name);
        assert QuietSince(c.w.log, w2.log) && w2.kept == c.w.kept;
        SafeNames(kindOf, c, i);
        DropSafe(kindOf, c, gen, name, w2);
        PurgeSafe(kindOf, env, c.(mem := DropEntry(c.mem, name), w := w2), gen, i + 1, true);
      }
    }
  }

  lemma SafeNames(kindOf: KindOf, c: Cluster, i: nat)
    requires Safe(kindOf, c) && i < |c.nodes|
    ensures c.nodes[i].name != ""
  {
  }

  lemma {:induction false} ProgressAtSafe(kindOf: KindOf, env: Env, c: Cluster, todo: seq<nat>)
    requires Safe(kindOf, c) && Positions(todo, |c.nodes|)
    ensures var r := ProgressAt(env, c, todo); Safe(kindOf, r) && r.w.kept == c.w.kept
    decreases |todo|
  {
    hide Safe, ProgressNode, Grows;
    if todo != [] {
      var i := todo[0];
      var (n, w) := ProgressNode(env, c.nodes[i], c.w);
      ProgressNodeQuiet(env, c.nodes[i], c.w);
      GrowsKept(c.w, w, c.nodes[i].name);
      var c1 := c.(nodes := c.nodes[i := n], w := w);
      ReplaceNodeSafe(kindOf, c, i, n, w);
      ProgressAtSafe(kindOf, env, c1, todo[1..]);
    }
  }

  lemma ReplaceNodeSafe(kindOf: KindOf, c: Cluster, i: nat, n: NodeState, w: World)
    requires Safe(kindOf, c) && i < |c.nodes| && Quiet(c.nodes[i], c.w, n, w)
    ensures Safe(kindOf, c.(nodes := c.nodes[i := n], w := w))
  {
    RenamedNodes(c.nodes, i, n);
    QuietKeepsSafe(kindOf, c, c.(nodes := c.nodes[i := n], w := w));
  }

  lemma {:induction false} ProgressAllSafe(kindOf: KindOf, env: Env, c: Cluster, j: nat)
    requires Safe(kindOf, c) && j <= |c.mem|
    ensures var r := ProgressAll(env, c, j); Safe(kindOf, r) && r.w.kept == c.w.kept
    decreases |c.mem| - j
  {
    hide Safe, ProgressAt;
    if j < |c.mem| {
      if c.mem[j].unschedulable {
        ProgressAtSafe(kindOf, env, c, NodesOf(c.mem[j], c.nodes, 0));
        ProgressAllSafe(kindOf, env, ProgressAt(env, c, NodesOf(c.mem[j], c.nodes, 0)), j + 1);
      } else {
        ProgressAllSafe(kindOf, env, c, j + 1);
      }
    }
  }

  lemma MergeSafe(kindOf: KindOf, c: Cluster, cache: seq<NodeState>, gen: seq<NodeState>)
    requires Safe(kindOf, c) && NodeKinds(kindOf, cache) && NodeKinds(kindOf, gen) && DistinctNodes(gen)
    ensures Safe(kindOf, c.(nodes := Merge(cache, gen)))
  {
    MergeDistinct(cache, gen);
    forall i | 0 <= i < |gen| ensures kindOf(Merge(cache, gen)[i].name) == Merge(cache, gen)[i].kind {
      assert NodeKinds(kindOf, cache) && NodeKinds(kindOf, gen);
    }
  }

  lemma PrepareSafe(kindOf: KindOf, env: Env, c: Cluster, gen: seq<NodeState>)
    requires Safe(kindOf, c) && DistinctNodes(gen) && NodeKinds(kindOf, gen) && KeepsBusy(c.stored, gen)
    ensures var r := Prepare(env, c, gen); Safe(kindOf, r) && r.w.kept == c.w.kept
  {
    var c0 := c.(mem := c.stored, w := Tick(c.w, true));
    assert Safe(kindOf, c0);
    hide Purge, Merge, ProgressAll, EntriesSafe, LogSafe, UniqueKeys;
    PurgeSafe(kindOf, env, c0, gen, 0, false);
    MergeSafe(kindOf, Purge(env, c0, gen, 0, false), c0.nodes, gen);
    ProgressAllSafe(kindOf, env, GetNodes(env, c0, gen), 0);
  }

  lemma RescheduledSafe(kindOf: KindOf, log: seq<Event>, entries: seq<Entry>, flags: seq<bool>)
    requires EntriesSafe(kindOf, log, entries)
    ensures EntriesSafe(kindOf, log, Rescheduled(entries, flags))
  {
    hide CycleOk;
    var r := Rescheduled(entries, flags);
    forall e | e in r ensures EntrySafe(kindOf, log, e) {
      var i :| 0 <= i < |r| && r[i] == e;
      assert entries[i] in entries && EntrySafe(kindOf, log, entries[i]);
    }
  }

  lemma CloseSafe(kindOf: KindOf, env: Env, c: Cluster)
    requires Safe(kindOf, c) && Close(env, c).w.kept
    ensures Safe(kindOf, Close(env, c)) && c.w.kept
  {
    hide UniqueKeys, LogSafe, EntrySafe, Rescheduled;
    var flags := env(c.w.pos).unschedulable;
    CloseIndexed(env, c);
    assert EntriesSafe(kindOf, c.w.log, c.mem);
    RescheduledSafe(kindOf, c.w.log, c.mem, flags);
  }

  /** A pass refused by the configuration check only reloads the status. */
  lemma RefusedSafe(kindOf: KindOf, c: Cluster)
    requires Safe(kindOf, c)
    ensures Safe(kindOf, c.(mem := c.stored, w := Tick(c.w, false)))
  {
  }

  lemma PassSafe(kindOf: KindOf, env: Env, c: Cluster, gen: seq<NodeState>)
    requires Safe(kindOf, c) && DistinctNodes(gen) && NodeKinds(kindOf, gen) && FairPass(env, c, gen)
    requires Pass(env, c, gen).w.kept
    ensures Safe(kindOf, Pass(env, c, gen)) && c.w.kept
  {
    hide Prepare, Work, Safe, Close;
    if !env(c.w.pos).ok {
      RefusedSafe(kindOf, c);
    } else {
      PrepareSafe(kindOf, env, c, gen);
      var p := Prepare(env, c, gen);
      var (ok, c1) := Work(env, p);
      WorkKept(env, p);
      CloseKept(env, c1);
      WorkSafe(kindOf, env, p);
      if ok {
        CloseSafe(kindOf, env, c1);
      }
    }
  }

  lemma CloseKept(env: Env, c: Cluster)
    ensures Close(env, c).w.kept ==> c.w.kept
  {
  }

  // ----- runs -----

  /** If the configuration check lets a pass through, the generated nodes cover the busy ones. */
  ghost predicate FairPass(env: Env, c: Cluster, gen: seq<NodeState>) {
    env(c.w.pos).ok ==> KeepsBusy(c.stored, gen)
  }

  /** What a run is given: each pass's generated nodes, with consistent kinds, covering the busy nodes. */
  ghost predicate FairRun(kindOf: KindOf, env: Env, c: Cluster, gens: seq<seq<NodeState>>) {
    && (forall i :: 0 <= i < |gens| ==> DistinctNodes(gens[i]) && NodeKinds(kindOf, gens[i]))
    && forall i :: 0 <= i < |gens| ==> FairPass(env, Run(env, c, gens[..i]), gens[i])
  }

  ghost predicate Initial(kindOf: KindOf, c: Cluster) {
    && c.mem == [] && c.stored == [] && c.w.log == [] && c.w.allocation
    && DistinctNodes(c.nodes) && NodeKinds(kindOf, c.nodes)
  }

  lemma {:induction false} RunSafe(kindOf: KindOf, env: Env, c: Cluster, gens: seq<seq<NodeState>>)
    requires Initial(kindOf, c) && FairRun(kindOf, env, c, gens) && Run(env, c, gens).w.kept
    ensures Safe(kindOf, Run(env, c, gens))
    decreases |gens|
  {
    hide Pass, DistinctNodes, NodeKinds, FairPass;
    if gens == [] {
      assert Safe(kindOf, c);
    } else {
      var last := |gens| - 1;
      var before := Run(env, c, gens[..last]);
      forall i | 0 <= i < last ensures FairPass(env, Run(env, c, gens[..last][..i]), gens[..last][i]) {
        assert gens[..last][..i] == gens[..i];
        assert gens[..last][i] == gens[i];
      }
      PassKept(env, before, gens[last]);
      RunSafe(kindOf, env, c, gens[..last]);
      hide Safe;
      PassSafe(kindOf, env, before, gens[last]);
    }
  }

  lemma PassKept(env: Env, c: Cluster, gen: seq<NodeState>)
    ensures Pass(env, c, gen).w.kept ==> c.w.kept
  {
    hide Prepare, Work, Close;
    if env(c.w.pos).ok {
      var p := Prepare(env, c, gen);
      PrepareKept(env, c, gen);
      WorkKept(env, p);
      CloseKept(env, Work(env, p).1);
    }
  }

  lemma PrepareKept(env: Env, c: Cluster, gen: seq<NodeState>)
    ensures Prepare(env, c, gen).w.kept == c.w.kept
  {
    hide Purge, Merge, ProgressAll;
    var c0 := c.(mem := c.stored, w := Tick(c.w, true));
    PurgeKept(env, c0, gen, 0, false);
    ProgressAllKept(env, GetNodes(env, c0, gen), 0);
  }

  lemma {:induction false} PurgeKept(env: Env, c: Cluster, gen: seq<NodeState>, i: nat, reviewed: bool)
    requires i <= |c.nodes|
    ensures Purge(env, c, gen, i, reviewed).w.kept == c.w.kept
    decreases |c.nodes| - i
  {
    hide DropEntry;
    if i < |c.nodes| {
      if FindNode(gen, c.nodes[i].name) >= 0 {
        PurgeKept(env, c, gen, i + 1, reviewed);
      } else {
        var w1 := if reviewed then c.w else Note(c.w, MinMasters(""));
        var c1 := c.(mem := DropEntry(c.mem, c.nodes[i].name), w := Delete(env, w1, c.nodes[i].name));
        PurgeKept(env, c1, gen, i + 1, true);
      }
    }
  }

  lemma {:induction false} ProgressAllKept(env: Env, c: Cluster, j: nat)
    requires j <= |c.mem|
    ensures ProgressAll(env, c, j).w.kept == c.w.kept
    decreases |c.mem| - j
  {
    hide ProgressAt;
    if j < |c.mem| {
      if c.mem[j].unschedulable {
        ProgressAtKept(env, c, NodesOf(c.mem[j], c.nodes, 0));
        ProgressAllKept(env, ProgressAt(env, c, NodesOf(c.mem[j], c.nodes, 0)), j + 1);
      } else {
        ProgressAllKept(env, c, j + 1);
      }
    }
  }

  lemma {:induction false} ProgressAtKept(env: Env, c: Cluster, todo: seq<nat>)
    requires Positions(todo, |c.nodes|)
    ensures ProgressAt(env, c, todo).w.kept == c.w.kept
    decreases |todo|
  {
    hide ProgressNode;
    if todo != [] {
      ProgressNodeQuiet(env, c.nodes[todo[0]], c.w);
      var (n, w) := ProgressNode(env, c.nodes[todo[0]], c.w);
      ProgressAtKept(env, c.(nodes := c.nodes[todo[0] := n], w := w), todo[1..]);
    }
  }

  /** The same over the states of a run: the generated nodes are consistent and cover the busy nodes. */
  ghost predicate FairTrace(kindOf: KindOf, env: Env, trace: seq<Cluster>, gens: seq<seq<NodeState>>)
    requires |trace| == |gens| + 1
  {
    forall i {:trigger gens[i]} :: 0 <= i < |gens| ==>
      DistinctNodes(gens[i]) && NodeKinds(kindOf, gens[i]) && FairPass(env, trace[i], gens[i])
  }

  lemma TraceSafe(kindOf: KindOf, env: Env, trace: seq<Cluster>, gens: seq<seq<NodeState>>, k: nat)
    requires IsRun(env, trace, gens) && Initial(kindOf, trace[0]) && FairTrace(kindOf, env, trace, gens)
    requires k < |trace| && trace[k].w.kept
    ensures Safe(kindOf, trace[k])
  {
    hide Pass, Run, DistinctNodes, NodeKinds, FairPass, Initial, Safe;
    var prefix := gens[..k];
    TraceIsRun(env, trace, gens, k);
    forall i | 0 <= i < k
      ensures DistinctNodes(prefix[i]) && NodeKinds(kindOf, prefix[i])
      ensures FairPass(env, Run(env, trace[0], prefix[..i]), prefix[i])
    {
      TraceIsRun(env, trace, gens, i);
      assert prefix[..i] == gens[..i] && prefix[i] == gens[i];
    }
    RunSafe(kindOf, env, trace[0], prefix);
  }

  /**
   * The shape of every upgrade cycle: in every state of every run each closed cycle of a
   * Deployment node began right after a green health read and contains, after the node's last
   * attempt to disable allocation, an acknowledged enable and then a green read, right before
   * UnderUpgrade is cleared.  And a node that is not under upgrade is at the start.
   */
  lemma EveryCycleHasItsShape(
    kindOf: KindOf, env: Env, trace: seq<Cluster>, gens: seq<seq<NodeState>>, k: nat)
    requires IsRun(env, trace, gens) && Initial(kindOf, trace[0]) && FairTrace(kindOf, env, trace, gens)
    requires k < |trace| && trace[k].w.kept
    ensures var r := trace[k];
            && (forall j :: 0 <= j < |r.w.log| && r.w.log[j].Clear? && kindOf(r.w.log[j].node).Deployment? ==>
                  GoodCycle(r.w.log, r.w.log[j].node, j))
            && forall e :: e in r.stored && e.upgrade.under != IsTrue ==> AtStart(e.upgrade.phase)
  {
    hide Pass, Initial, FairTrace;
    TraceSafe(kindOf, env, trace, gens, k);
    var r := trace[k];
    forall e | e in r.stored && e.upgrade.under != IsTrue ensures AtStart(e.upgrade.phase) {
      assert EntrySafe(kindOf, r.w.log, e);
    }
  }
}
