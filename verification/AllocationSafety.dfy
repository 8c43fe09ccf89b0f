/**
 * Shard allocation is never stranded: whenever it is disabled, some Deployment's stored entry shows
 * that its node is under upgrade and has yet to enable it again.  Any call may fail, and status
 * writes may be lost, except those that are to record a Deployment as newly under upgrade (the
 * flag begun); LostStatus shows that these may not.
 */
module AllocationSafety {
  import opened Base
  import opened Environment
  import opened Workload
  import Dep = DeploymentUpgrade
  import Sts = StatefulSetUpgrade
  import opened CycleSafety
  import opened Reconcile
  import opened Footprint
  import opened StatusIndex
  import opened RunSafety

  /** A Deployment node under upgrade in a phase other than RecoveringData. */
  ghost predicate Holder(e: Entry) {
    e.deploymentName != "" && Holding(e.upgrade)
  }

  ghost predicate SomeHolder(entries: seq<Entry>) {
    exists e :: e in entries && Holder(e)
  }

  /** An entry of the kind its name has, at the start unless under upgrade. */
  ghost predicate Plain(kindOf: KindOf, e: Entry) {
    && Named(e) && Regular(e.upgrade)
    && kindOf(Key(e)) == (if e.deploymentName != "" then Deployment else StatefulSet)
  }

  ghost predicate AllPlain(kindOf: KindOf, entries: seq<Entry>) {
    forall e :: e in entries ==> Plain(kindOf, e)
  }

  /** Disabled allocation is answered for in memory, and what is answered for in memory is so in the stored status. */
  ghost predicate Answered(c: Cluster) {
    && (!c.w.allocation ==> SomeHolder(c.mem))
    && (SomeHolder(c.mem) ==> SomeHolder(c.stored))
  }

  ghost predicate Guarded(kindOf: KindOf, c: Cluster) {
    && Indexed(c) && NodeKinds(kindOf, c.nodes)
    && AllPlain(kindOf, c.mem) && AllPlain(kindOf, c.stored)
    && (c.w.begun ==> Answered(c))
  }

  // ----- entries -----

  lemma PutPlain(kindOf: KindOf, entries: seq<Entry>, k: int, e: Entry)
    requires k < |entries| && AllPlain(kindOf, entries) && Plain(kindOf, e)
    ensures AllPlain(kindOf, PutEntry(entries, k, e))
  {
    hide Plain;
    var r := PutEntry(entries, k, e);
    forall x | x in r ensures Plain(kindOf, x) {
      var j :| 0 <= j < |r| && r[j] == x;
      assert x == e || x in entries;
    }
  }

  /** Putting a holder makes one; putting over an entry that is none keeps one. */
  lemma PutHolder(entries: seq<Entry>, k: int, e: Entry)
    requires k < |entries|
    requires Holder(e) || (SomeHolder(entries) && (k >= 0 ==> !Holder(entries[k])))
    ensures SomeHolder(PutEntry(entries, k, e))
  {
    hide Holder;
    var r := PutEntry(entries, k, e);
    if Holder(e) {
      assert r[if k < 0 then |entries| else k] == e;
    } else {
      var h :| h in entries && Holder(h);
      var j :| 0 <= j < |entries| && entries[j] == h;
      assert r[j] == h;
    }
  }

  /** A holder after putting an entry was there before, if the entry was one before. */
  lemma HolderBeforePut(entries: seq<Entry>, k: int, e: Entry)
    requires k < |entries| && SomeHolder(PutEntry(entries, k, e))
    requires Holder(e) ==> k >= 0 && Holder(entries[k])
    ensures SomeHolder(entries)
  {
    hide Holder;
    var r := PutEntry(entries, k, e);
    var h :| h in r && Holder(h);
    if h == e {
      assert entries[k] in entries;
    } else {
      assert h in entries;
    }
  }

  // ----- treating one node -----

  /** Work on a node keeps its entry plain, and who answers for disabled allocation. */
  lemma TreatBlames(kindOf: KindOf, env: Env, n: NodeState, e: Entry, w: World, updating: bool)
    requires Plain(kindOf, e) && Key(e) == n.name && kindOf(n.name) == n.kind
    ensures var (n', e', w') := Treat(env, n, e, w, updating);
            && Plain(kindOf, e') && Key(e') == n.name
            && (!w'.allocation ==> Holder(e') || (!w.allocation && !Holder(e)))
            && (e.upgrade.under == IsTrue && Holder(e') ==> Holder(e))
  {
    TreatFollows(env, n, e, w, updating);
    var s := Step(n, e.upgrade, w, true);
    hide Treat, Dep.Call, Sts.Call, Grows;
    if n.kind.Deployment? {
      CallBlames(env, s, updating);
    } else {
      StatefulSetPhase(env, s, updating);
      CallNodeFollows(env, s, updating);
    }
  }

  /** A Deployment's entry that newly shows it under upgrade is what the write is checked for. */
  lemma NewlyUnderIfBegins(entries: seq<Entry>, k: nat, e': Entry)
    requires UniqueKeys(entries) && k < |entries| && e'.deploymentName != "" && e'.upgrade.under == IsTrue
    requires entries[k].deploymentName == e'.deploymentName && entries[k].upgrade.under != IsTrue
    ensures NewlyUnder(entries, entries[k := e'])
  {
    FindEntryByKey(entries, e'.deploymentName, k);
    assert EntryOf(entries, e'.deploymentName) == entries[k];
    assert entries[k := e'][k] == e';
  }

  /** What a status write does to the question who answers. */
  lemma StoreAnswers(env: Env, c: Cluster, k: nat, e': Entry, allocationBefore: bool)
    requires UniqueKeys(c.mem) && k < |c.mem|
    requires e'.deploymentName == c.mem[k].deploymentName
    requires SomeHolder(c.mem) ==> SomeHolder(c.stored)
    requires !allocationBefore ==> SomeHolder(c.mem)
    requires !c.w.allocation ==> Holder(e') || (!allocationBefore && !Holder(c.mem[k]))
    requires c.mem[k].upgrade.under == IsTrue && Holder(e') ==> Holder(c.mem[k])
    requires Store(env, c, c.mem[k := e']).w.begun
    ensures Answered(Store(env, c, c.mem[k := e']))
  {
    var entries := c.mem[k := e'];
    if !c.w.allocation {
      PutHolder(c.mem, k, e');
    }
    var r := Store(env, c, entries);
    if Holder(e') && !Holder(c.mem[k]) {
      NewlyUnderIfBegins(c.mem, k, e');
      assert r.stored == entries && r.mem == entries;
    } else {
      hide NewlyUnder;
      if SomeHolder(entries) {
        HolderBeforePut(c.mem, k, e');
      }
      if Holder(c.mem[k]) {
        assert SomeHolder(c.mem);
      }
    }
  }

  /** The facts about a visit that do not depend on what becomes of its write. */
  lemma VisitPlain(kindOf: KindOf, env: Env, c: Cluster, i: nat, updating: bool)
    requires Guarded(kindOf, c) && i < |c.nodes| && FindEntry(c.mem, c.nodes[i].name) >= 0
    ensures var k := FindEntry(c.mem, c.nodes[i].name);
            var (n, e', w) := Treat(env, c.nodes[i], c.mem[k], c.w, updating);
            && n.name == c.nodes[i].name && n.kind == c.nodes[i].kind && w.begun == c.w.begun
            && AllPlain(kindOf, c.mem[k := e']) && e'.deploymentName == c.mem[k].deploymentName
            && (!w.allocation ==> Holder(e') || (!c.w.allocation && !Holder(c.mem[k])))
            && (c.mem[k].upgrade.under == IsTrue && Holder(e') ==> Holder(c.mem[k]))
  {
    var name := c.nodes[i].name;
    var k := FindEntry(c.mem, name);
    var e := c.mem[k];
    assert e in c.mem;
    FindEntryKey(c.mem, name);
    TreatFollows(env, c.nodes[i], e, c.w, updating);
    TreatBlames(kindOf, env, c.nodes[i], e, c.w, updating);
    hide Treat, Plain, Holder, SomeHolder, Indexed, FindEntry, Grows;
    GrowsBegun(c.w, Treat(env, c.nodes[i], e, c.w, updating).2, name);
    PutPlain(kindOf, c.mem, k, Treat(env, c.nodes[i], e, c.w, updating).1);
  }

  lemma VisitGuarded(kindOf: KindOf, env: Env, c: Cluster, i: nat, updating: bool)
    requires Guarded(kindOf, c) && i < |c.nodes| && FindEntry(c.mem, c.nodes[i].name) >= 0
    ensures Guarded(kindOf, Visit(env, c, i, updating))
  {
    var k := FindEntry(c.mem, c.nodes[i].name);
    VisitIndexed(env, c, i, updating);
    VisitPlain(kindOf, env, c, i, updating);
    hide Treat, Plain, Holder, SomeHolder, UniqueKeys, DistinctNodes, FindEntry, NewlyUnder, Store;
    var (n, e', w) := Treat(env, c.nodes[i], c.mem[k], c.w, updating);
    var c1 := c.(nodes := c.nodes[i := n], w := w);
    var r := Store(env, c1, c.mem[k := e']);
    StoreShape(env, c1, c.mem[k := e']);
    if r.w.begun {
      StoreAnswers(env, c1, k, e', c.w.allocation);
    }
    assert r == Visit(env, c, i, updating);
    assert NodeKinds(kindOf, r.nodes);
  }

  lemma GrowsBegun(w: World, w': World, name: string)
    requires Grows(w, w', name)
    ensures w'.begun == w.begun
  {
  }

  lemma {:induction false} BatchGuarded(kindOf: KindOf, env: Env, c: Cluster, todo: seq<nat>, updating: bool)
    requires Guarded(kindOf, c) && Positions(todo, |c.nodes|) && HaveEntries(c, todo)
    ensures Guarded(kindOf, Batch(env, c, todo, updating))
    decreases |todo|
  {
    if todo != [] {
      VisitGuarded(kindOf, env, c, todo[0], updating);
      StillHaveEntries(env, c, todo, updating);
      hide Visit, Guarded, HaveEntries;
      BatchGuarded(kindOf, env, Visit(env, c, todo[0], updating), todo[1..], updating);
    }
  }

  // ----- create mode -----

  /** Quiet work on other things. */
  lemma QuietKeepsGuarded(kindOf: KindOf, c: Cluster, c': Cluster)
    requires Guarded(kindOf, c) && c'.w.allocation == c.w.allocation && c'.w.begun == c.w.begun
    requires c'.mem == c.mem && c'.stored == c.stored && DistinctNodes(c'.nodes) && NodeKinds(kindOf, c'.nodes)
    ensures Guarded(kindOf, c')
  {
    hide DistinctNodes, UniqueKeys, Plain, SomeHolder;
  }

  /** Reading the stored status again. */
  lemma ReloadGuarded(kindOf: KindOf, c: Cluster, w: World)
    requires Guarded(kindOf, c) && w.allocation == c.w.allocation && w.begun == c.w.begun
    ensures Guarded(kindOf, c.(mem := c.stored, w := w))
  {
    hide DistinctNodes, UniqueKeys, Plain, SomeHolder;
  }

  lemma RaisedPlain(kindOf: KindOf, n: NodeState, e: Entry, isNew: bool, e': Entry)
    requires kindOf(n.name) == n.kind && n.name != ""
    requires if isNew then e == NEW_ENTRY else Plain(kindOf, e) && Key(e) == n.name
    requires e'.upgrade.under == e.upgrade.under && e'.upgrade.phase == e.upgrade.phase
    requires !isNew ==> e'.deploymentName == e.deploymentName && e'.statefulSetName == e.statefulSetName
    requires isNew ==> e'.deploymentName == if n.kind.Deployment? then n.name else ""
    requires isNew ==> e'.statefulSetName == if n.kind.Deployment? then "" else n.name
    ensures Plain(kindOf, e') && (Holder(e') <==> !isNew && Holder(e))
  {
  }

  lemma MakeGuarded(kindOf: KindOf, env: Env, c: Cluster, i: nat)
    requires Guarded(kindOf, c) && i < |c.nodes|
    ensures Guarded(kindOf, Make(env, c, i).1) && |Make(env, c, i).1.nodes| == |c.nodes|
  {
    MakeIndexed(env, c, i);
    var a := env(c.w.pos);
    var c1 := c.(mem := if a.ok || a.loaded then c.stored else c.mem, w := Tick(c.w, a.ok));
    if a.ok || a.loaded {
      ReloadGuarded(kindOf, c, c1.w);
    } else {
      QuietKeepsGuarded(kindOf, c, c1);
    }
    if a.ok {
      var name := c.nodes[i].name;
      var k := FindEntry(c.mem, name);
      var e := EntryOf(c.mem, name);
      FindEntryFacts(c, name);
      RaiseFollows(env, c.nodes[i], e, k < 0, c1.w);
      hide Raise, Plain, Holder, SomeHolder, UniqueKeys, DistinctNodes, FindEntry, Grows, NewlyUnder, Store;
      var (ok, n, e', w) := Raise(env, c.nodes[i], e, k < 0, c1.w);
      GrowsBegun(c1.w, w, name);
      var c2 := c1.(nodes := c.nodes[i := n], w := w);
      RenamedNodes(c.nodes, i, n);
      QuietKeepsGuarded(kindOf, c1, c2);
      if ok {
        RaisedPlain(kindOf, c.nodes[i], e, k < 0, e');
        var entries := PutEntry(c.mem, k, e');
        PutPlain(kindOf, c.mem, k, e');
        MakeStores(kindOf, env, c, c2, k, e, e');
        var c3 := Store(env, c2, entries);
        StoreShape(env, c2, entries);
        assert Make(env, c, i).1 == c3.(w := Note(c3.w, MinMasters("")));
      }
    }
  }

  lemma MakeStores(kindOf: KindOf, env: Env, c: Cluster, c2: Cluster, k: int, e: Entry, e': Entry)
    requires Guarded(kindOf, c) && k < |c.mem| && (k >= 0 ==> c.mem[k] == e) && (k < 0 ==> !Holder(e))
    requires c2.mem == c2.stored == c.stored && c2.w.allocation == c.w.allocation && c2.w.begun == c.w.begun
    requires Holder(e') <==> Holder(e)
    ensures var r := Store(env, c2, PutEntry(c.mem, k, e')); r.w.begun ==> Answered(r)
  {
    hide NewlyUnder, Holder, SomeHolder, Indexed, AllPlain;
    var entries := PutEntry(c.mem, k, e');
    if c.w.begun {
      if SomeHolder(entries) {
        HolderBeforePut(c.mem, k, e');
      }
      if SomeHolder(c.mem) {
        PutHolder(c.mem, k, e');
      }
    }
  }

  lemma {:induction false} MakeAllGuarded(kindOf: KindOf, env: Env, c: Cluster, i: nat)
    requires Guarded(kindOf, c) && i <= |c.nodes|
    ensures Guarded(kindOf, MakeAll(env, c, i).1)
    decreases |c.nodes| - i
  {
    hide Make, Guarded;
    if i < |c.nodes| {
      MakeGuarded(kindOf, env, c, i);
      var (ok, c1) := Make(env, c, i);
      if ok {
        MakeAllGuarded(kindOf, env, c1, i + 1);
      }
    }
  }

  lemma WorkGuarded(kindOf: KindOf, env: Env, c: Cluster)
    requires Guarded(kindOf, c)
    ensures Guarded(kindOf, Work(env, c).1)
  {
    hide Visit, Batch, MakeAll, Scheduled, Guarded, FindEntry;
    match ModeOf(c) {
      case Continue(i, updating) =>
        assert FindEntry(c.mem, c.nodes[i].name) >= 0;
        VisitGuarded(kindOf, env, c, i, updating);
      case Upgrades(todo) =>
        ScheduledHasEntry(c, false);
        BatchGuarded(kindOf, env, c, todo, true);
      case Redeploys(todo) =>
        ScheduledHasEntry(c, true);
        BatchGuarded(kindOf, env, c, todo, false);
      case Creates =>
        MakeAllGuarded(kindOf, env, c, 0);
    }
  }

  // ----- preparing and closing a pass -----

  lemma DropGuarded(kindOf: KindOf, c: Cluster, gen: seq<NodeState>, name: string, w: World)
    requires Guarded(kindOf, c) && KeepsBusy(c.mem, gen) && name != "" && FindNode(gen, name) < 0
    requires w.allocation == c.w.allocation && w.begun == c.w.begun
    ensures var c' := c.(mem := DropEntry(c.mem, name), w := w); Guarded(kindOf, c') && KeepsBusy(c'.mem, gen)
  {
    DropEntryIndexed(c.mem, name);
    var mem := DropEntry(c.mem, name);
    hide DropEntry, UniqueKeys, DistinctNodes, Plain, FindNode;
    forall e ensures e in mem <==> e in c.mem && Key(e) != name {
      DropEntryElement(c.mem, name, e);
    }
    if SomeHolder(c.mem) {
      var h :| h in c.mem && Holder(h);
      assert h in mem;
    }
  }

  lemma {:induction false} PurgeGuarded(
    kindOf: KindOf, env: Env, c: Cluster, gen: seq<NodeState>, i: nat, reviewed: bool)
    requires Guarded(kindOf, c) && KeepsBusy(c.mem, gen) && i <= |c.nodes|
    ensures Guarded(kindOf, Purge(env, c, gen, i, reviewed))
    decreases |c.nodes| - i
  {
    assert i < |c.nodes| ==> c.nodes[i].name != "";
    hide DropEntry, KeepsBusy, Guarded, Indexed, FindNode;
    if i < |c.nodes| {
      var name := c.nodes[i].name;
      if FindNode(gen, name) >= 0 {
        PurgeGuarded(kindOf, env, c, gen, i + 1, reviewed);
      } else {
        var w1 := if reviewed then c.w else Note(c.w, MinMasters(""));
        var w2 := Delete(env, w1, name);
        DropGuarded(kindOf, c, gen, name, w2);
        PurgeGuarded(kindOf, env, c.(mem := DropEntry(c.mem, name), w := w2), gen, i + 1, true);
      }
    }
  }

  lemma {:induction false} ProgressAtGuarded(kindOf: KindOf, env: Env, c: Cluster, todo: seq<nat>)
    requires Guarded(kindOf, c) && Positions(todo, |c.nodes|)
    ensures Guarded(kindOf, ProgressAt(env, c, todo))
    decreases |todo|
  {
    if todo != [] {
      var i := todo[0];
      ProgressNodeQuiet(env, c.nodes[i], c.w);
      hide ProgressNode, Grows;
      var (n, w) := ProgressNode(env, c.nodes[i], c.w);
      GrowsBegun(c.w, w, c.nodes[i].name);
      RenamedNodes(c.nodes, i, n);
      var c1 := c.(nodes := c.nodes[i := n], w := w);
      QuietKeepsGuarded(kindOf, c, c1);
      hide Guarded;
      ProgressAtGuarded(kindOf, env, c1, todo[1..]);
    }
  }

  lemma {:induction false} ProgressAllGuarded(kindOf: KindOf, env: Env, c: Cluster, j: nat)
    requires Guarded(kindOf, c) && j <= |c.mem|
    ensures Guarded(kindOf, ProgressAll(env, c, j))
    decreases |c.mem| - j
  {
    hide Guarded, ProgressAt;
    if j < |c.mem| {
      if c.mem[j].unschedulable {
        ProgressAtGuarded(kindOf, env, c, NodesOf(c.mem[j], c.nodes, 0));
        ProgressAllGuarded(kindOf, env, ProgressAt(env, c, NodesOf(c.mem[j], c.nodes, 0)), j + 1);
      } else {
        ProgressAllGuarded(kindOf, env, c, j + 1);
      }
    }
  }

  lemma PrepareGuarded(kindOf: KindOf, env: Env, c: Cluster, gen: seq<NodeState>)
    requires Guarded(kindOf, c) && DistinctNodes(gen) && NodeKinds(kindOf, gen) && KeepsBusy(c.stored, gen)
    ensures Guarded(kindOf, Prepare(env, c, gen))
  {
    var c0 := c.(mem := c.stored, w := Tick(c.w, true));
    ReloadGuarded(kindOf, c, c0.w);
    PurgeGuarded(kindOf, env, c0, gen, 0, false);
    MergeDistinct(c0.nodes, gen);
    var d := Purge(env, c0, gen, 0, false);
    hide Purge, ProgressAll, KeepsBusy, DistinctNodes, UniqueKeys, Plain, SomeHolder;
    forall i | 0 <= i < |gen| ensures kindOf(Merge(c0.nodes, gen)[i].name) == Merge(c0.nodes, gen)[i].kind {
      assert NodeKinds(kindOf, c0.nodes) && NodeKinds(kindOf, gen);
    }
    QuietKeepsGuarded(kindOf, d, d.(nodes := Merge(c0.nodes, gen)));
    ProgressAllGuarded(kindOf, env, GetNodes(env, c0, gen), 0);
  }

  lemma RescheduledEntries(kindOf: KindOf, entries: seq<Entry>, flags: seq<bool>)
    requires AllPlain(kindOf, entries)
    ensures AllPlain(kindOf, Rescheduled(entries, flags))
    ensures SomeHolder(entries) <==> SomeHolder(Rescheduled(entries, flags))
  {
    var r := Rescheduled(entries, flags);
    forall e | e in r ensures Plain(kindOf, e) {
      var i :| 0 <= i < |r| && r[i] == e;
      assert entries[i] in entries && Plain(kindOf, entries[i]);
    }
    if SomeHolder(entries) {
      var h :| h in entries && Holder(h);
      var i :| 0 <= i < |entries| && entries[i] == h;
      assert r[i] in r && Holder(r[i]);
    }
    if SomeHolder(r) {
      var h :| h in r && Holder(h);
      var i :| 0 <= i < |r| && r[i] == h;
      assert entries[i] in entries && Holder(entries[i]);
    }
  }

  lemma CloseGuarded(kindOf: KindOf, env: Env, c: Cluster)
    requires Guarded(kindOf, c)
    ensures Guarded(kindOf, Close(env, c))
  {
    CloseIndexed(env, c);
    RescheduledEntries(kindOf, c.mem, env(c.w.pos).unschedulable);
    hide UniqueKeys, DistinctNodes, Plain, SomeHolder, Rescheduled;
  }

  lemma PassGuarded(kindOf: KindOf, env: Env, c: Cluster, gen: seq<NodeState>)
    requires Guarded(kindOf, c) && DistinctNodes(gen) && NodeKinds(kindOf, gen) && FairPass(env, c, gen)
    ensures Guarded(kindOf, Pass(env, c, gen))
  {
    hide Prepare, Work, Guarded, Close;
    if !env(c.w.pos).ok {
      ReloadGuarded(kindOf, c, Tick(c.w, false));
    } else {
      PrepareGuarded(kindOf, env, c, gen);
      var p := Prepare(env, c, gen);
      WorkGuarded(kindOf, env, p);
      var (ok, c1) := Work(env, p);
      if ok {
        CloseGuarded(kindOf, env, c1);
      }
    }
  }

  // ----- runs -----

  lemma InitialGuarded(kindOf: KindOf, c: Cluster)
    requires Initial(kindOf, c)
    ensures Guarded(kindOf, c)
  {
    assert !SomeHolder([]);
  }

  lemma {:induction false} TraceGuarded(
    kindOf: KindOf, env: Env, trace: seq<Cluster>, gens: seq<seq<NodeState>>, k: nat)
    requires IsRun(env, trace, gens) && Initial(kindOf, trace[0]) && FairTrace(kindOf, env, trace, gens) && k < |trace|
    ensures Guarded(kindOf, trace[k])
  {
    if k == 0 {
      InitialGuarded(kindOf, trace[0]);
    } else {
      hide Pass, Initial, FairPass, NodeKinds, DistinctNodes, Guarded;
      TraceGuarded(kindOf, env, trace, gens, k - 1);
      assert trace[k] == Pass(env, trace[k - 1], gens[k - 1]);
      PassGuarded(kindOf, env, trace[k - 1], gens[k - 1]);
    }
  }

  /**
   * Shard allocation is never stranded: in every state between the passes of every run in which the
   * writes that first record a Deployment as under upgrade took effect, if allocation is disabled
   * then the stored status shows a Deployment node under upgrade in a phase other than
   * RecoveringData, so a later pass will enable it again.
   */
  lemma AllocationNeverStranded(
    kindOf: KindOf, env: Env, trace: seq<Cluster>, gens: seq<seq<NodeState>>, k: nat)
    requires IsRun(env, trace, gens) && Initial(kindOf, trace[0]) && FairTrace(kindOf, env, trace, gens)
    requires k < |trace| && trace[k].w.begun
    ensures !trace[k].w.allocation ==> SomeHolder(trace[k].stored)
  {
    TraceGuarded(kindOf, env, trace, gens, k);
  }
}
