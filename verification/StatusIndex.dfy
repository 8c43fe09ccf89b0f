/**
 * The status list as an index by node name: at most one entry per name and no nameless
 * entry, in memory and stored, over every run and whatever fails.
 */
module StatusIndex {
  import opened Base
  import opened Environment
  import opened Workload
  import opened Reconcile
  import opened Footprint

  /** The node an entry is about. */
  function Key(e: Entry): string {
    if e.deploymentName != "" then e.deploymentName else e.statefulSetName
  }

  /** Exactly one of the two names is set. */
  predicate Named(e: Entry) {
    (e.deploymentName == "") != (e.statefulSetName == "")
  }

  ghost predicate UniqueKeys(entries: seq<Entry>) {
    && (forall i :: 0 <= i < |entries| ==> Named(entries[i]))
    && forall i, j :: 0 <= i < j < |entries| ==> Key(entries[i]) != Key(entries[j])
  }

  ghost predicate DistinctNodes(nodes: seq<NodeState>) {
    && (forall i :: 0 <= i < |nodes| ==> nodes[i].name != "")
    && forall i, j :: 0 <= i < j < |nodes| ==> nodes[i].name != nodes[j].name
  }

  ghost predicate Indexed(c: Cluster) {
    DistinctNodes(c.nodes) && UniqueKeys(c.mem) && UniqueKeys(c.stored)
  }

  /** The same names in the same places. */
  ghost predicate SameKeys(a: seq<Entry>, b: seq<Entry>) {
    && |a| == |b|
    && forall i :: 0 <= i < |a| ==>
         a[i].deploymentName == b[i].deploymentName && a[i].statefulSetName == b[i].statefulSetName
  }

  lemma NamesIsKey(e: Entry, name: string)
    requires Named(e) && name != ""
    ensures Names(e, name) <==> Key(e) == name
  {
  }

  /** Under the index, looking a name up finds its entry if there is one. */
  lemma FindEntryByKey(entries: seq<Entry>, name: string, k: nat)
    requires UniqueKeys(entries) && name != "" && k < |entries| && Key(entries[k]) == name
    ensures FindEntry(entries, name) == k
  {
    NamesIsKey(entries[k], name);
    var j := FindEntry(entries, name);
    if j >= 0 {
      NamesIsKey(entries[j], name);
    }
  }

  lemma FindEntryKey(entries: seq<Entry>, name: string)
    requires UniqueKeys(entries) && name != ""
    ensures FindEntry(entries, name) >= 0 ==> Key(entries[FindEntry(entries, name)]) == name
    ensures FindEntry(entries, name) < 0 ==> forall i :: 0 <= i < |entries| ==> Key(entries[i]) != name
  {
    var k := FindEntry(entries, name);
    if k >= 0 {
      NamesIsKey(entries[k], name);
    } else {
      forall i | 0 <= i < |entries| ensures Key(entries[i]) != name {
        NamesIsKey(entries[i], name);
      }
    }
  }

  lemma SameKeysFind(a: seq<Entry>, b: seq<Entry>, name: string)
    requires SameKeys(a, b)
    ensures FindEntry(a, name) == FindEntry(b, name)
  {
    var i, j := FindEntry(a, name), FindEntry(b, name);
    assert forall m :: 0 <= m < |a| ==> (Names(a[m], name) <==> Names(b[m], name));
  }

  lemma SameKeysUnique(a: seq<Entry>, b: seq<Entry>)
    requires SameKeys(a, b) && UniqueKeys(a)
    ensures UniqueKeys(b)
  {
    forall i | 0 <= i < |b| ensures Named(b[i]) && Key(b[i]) == Key(a[i]) {
      assert Named(a[i]);
    }
  }

  /** Putting an entry changes what is found under its name, and nothing else. */
  lemma PutEntryLookup(entries: seq<Entry>, name: string, e: Entry, other: string)
    requires UniqueKeys(entries) && name != "" && Named(e) && Key(e) == name
    ensures var r := PutEntry(entries, FindEntry(entries, name), e);
            && UniqueKeys(r)
            && FindEntry(r, name) >= 0 && EntryOf(r, name) == e
            && (other != name && other != "" ==>
                  (FindEntry(r, other) >= 0 <==> FindEntry(entries, other) >= 0) && EntryOf(r, other) == EntryOf(entries, other))
  {
    var k := FindEntry(entries, name);
    var r := PutEntry(entries, k, e);
    FindEntryKey(entries, name);
    assert UniqueKeys(r);
    FindEntryByKey(r, name, if k < 0 then |entries| else k);
    if other != name && other != "" {
      var j := FindEntry(entries, other);
      FindEntryKey(entries, other);
      if j >= 0 {
        assert r[j] == entries[j];
        FindEntryByKey(r, other, j);
      } else {
        FindEntryKey(r, other);
      }
    }
  }

  lemma FindNodeOfNode(gen: seq<NodeState>, i: nat)
    requires DistinctNodes(gen) && i < |gen|
    ensures FindNode(gen, gen[i].name) == i
  {
  }

  lemma SameNamesSameKey(e: Entry, e': Entry)
    requires e'.deploymentName == e.deploymentName && e'.statefulSetName == e.statefulSetName
    ensures Key(e') == Key(e) && Named(e') == Named(e)
  {
  }

  lemma OtherObject(w: World, w': World, name: string, other: string)
    requires Grows(w, w', name) && other != name
    ensures other in w.objects <==> other in w'.objects
    ensures other in w.objects ==> w'.objects[other] == w.objects[other]
  {
  }

  // ----- storing -----

  lemma StoreShape(env: Env, c: Cluster, entries: seq<Entry>)
    ensures var r := Store(env, c, entries);
            && (r.mem == c.mem || r.mem == entries)
            && (r.stored == c.stored || r.stored == entries)
            && r.nodes == c.nodes
            && (r.w.kept ==> c.w.kept && r.mem == entries && (r.stored == entries || (entries == c.mem && r.stored == c.stored)))
            && (r.w.clean ==> c.w.clean) && r.w.alive == c.w.alive
            && (r.w.clean && c.w.kept ==> r.w.kept) && (r.w.begun ==> c.w.begun)
            && r.w.log == c.w.log && r.w.objects == c.w.objects && r.w.allocation == c.w.allocation
  {
    hide NewlyUnder;
  }

  /** Replacing an entry without renaming it keeps the index; appending under a new name does too. */
  lemma PutEntryIndexed(entries: seq<Entry>, name: string, e: Entry)
    requires UniqueKeys(entries) && name != ""
    requires FindEntry(entries, name) >= 0 ==>
               && e.deploymentName == EntryOf(entries, name).deploymentName
               && e.statefulSetName == EntryOf(entries, name).statefulSetName
    requires FindEntry(entries, name) < 0 ==> Named(e) && Key(e) == name
    ensures UniqueKeys(PutEntry(entries, FindEntry(entries, name), e))
    ensures FindEntry(entries, name) >= 0 ==> SameKeys(entries, PutEntry(entries, FindEntry(entries, name), e))
  {
    FindEntryKey(entries, name);
    if FindEntry(entries, name) >= 0 {
      SameKeysUnique(entries, PutEntry(entries, FindEntry(entries, name), e));
    }
  }

  // ----- the steps of a pass -----

  lemma RenamedNodes(nodes: seq<NodeState>, i: nat, n: NodeState)
    requires DistinctNodes(nodes) && i < |nodes| && n.name == nodes[i].name
    ensures DistinctNodes(nodes[i := n])
    ensures forall j :: 0 <= j < |nodes| ==> nodes[i := n][j].name == nodes[j].name
  {
  }

  lemma VisitIndexed(env: Env, c: Cluster, i: nat, updating: bool)
    requires Indexed(c) && i < |c.nodes| && FindEntry(c.mem, c.nodes[i].name) >= 0
    ensures var r := Visit(env, c, i, updating);
            && Indexed(r) && SameKeys(c.mem, r.mem) && |r.nodes| == |c.nodes|
            && forall j :: 0 <= j < |c.nodes| ==> r.nodes[j].name == c.nodes[j].name
  {
    var name := c.nodes[i].name;
    var e := EntryOf(c.mem, name);
    TreatFollows(env, c.nodes[i], e, c.w, updating);
    hide Treat;
    var (n, e', w) := Treat(env, c.nodes[i], e, c.w, updating);
    RenamedNodes(c.nodes, i, n);
    PutEntryIndexed(c.mem, name, e');
    StoreShape(env, c.(nodes := c.nodes[i := n], w := w), PutEntry(c.mem, FindEntry(c.mem, name), e'));
    hide Store;
  }

  ghost predicate HaveEntries(c: Cluster, todo: seq<nat>)
    requires Positions(todo, |c.nodes|)
  {
    forall j :: 0 <= j < |todo| ==> FindEntry(c.mem, c.nodes[todo[j]].name) >= 0
  }

  lemma {:induction false} BatchIndexed(env: Env, c: Cluster, todo: seq<nat>, updating: bool)
    requires Indexed(c) && Positions(todo, |c.nodes|)
    requires HaveEntries(c, todo)
    ensures var r := Batch(env, c, todo, updating); Indexed(r) && SameKeys(c.mem, r.mem)
    decreases |todo|
  {
    hide Visit, Indexed, FindEntry;
    if todo != [] {
      assert DistinctNodes(c.nodes) by { IndexedIs(c); }
      var c1 := Visit(env, c, todo[0], updating);
      VisitIndexed(env, c, todo[0], updating);
      forall j | 0 <= j < |todo[1..]| ensures FindEntry(c1.mem, c1.nodes[todo[1..][j]].name) >= 0 {
        SameKeysFind(c.mem, c1.mem, c.nodes[todo[j + 1]].name);
      }
      BatchIndexed(env, c1, todo[1..], updating);
    }
  }

  lemma StillHaveEntries(env: Env, c: Cluster, todo: seq<nat>, updating: bool)
    requires Indexed(c) && Positions(todo, |c.nodes|) && todo != [] && HaveEntries(c, todo)
    ensures var c1 := Visit(env, c, todo[0], updating);
            Positions(todo[1..], |c1.nodes|) && HaveEntries(c1, todo[1..])
  {
    var c1 := Visit(env, c, todo[0], updating);
    VisitIndexed(env, c, todo[0], updating);
    hide Visit, FindEntry, Indexed;
    forall j | 0 <= j < |todo[1..]| ensures FindEntry(c1.mem, c1.nodes[todo[1..][j]].name) >= 0 {
      SameKeysFind(c.mem, c1.mem, c.nodes[todo[j + 1]].name);
    }
  }

  lemma IndexedIs(c: Cluster)
    requires Indexed(c)
    ensures DistinctNodes(c.nodes) && UniqueKeys(c.mem) && UniqueKeys(c.stored)
  {
  }

  lemma MakeIndexed(env: Env, c: Cluster, i: nat)
    requires Indexed(c) && i < |c.nodes|
    ensures var (ok, r) := Make(env, c, i); Indexed(r) && |r.nodes| == |c.nodes|
  {
    var valid := env(c.w.pos).ok;
    if valid {
      var name := c.nodes[i].name;
      var c1 := c.(mem := c.stored, w := Tick(c.w, valid));
      var e := EntryOf(c.mem, name);
      var isNew := FindEntry(c.mem, name) < 0;
      RaiseFollows(env, c.nodes[i], e, isNew, c1.w);
      hide Raise;
      var (ok, n, e', w) := Raise(env, c.nodes[i], e, isNew, c1.w);
      RenamedNodes(c.nodes, i, n);
      if ok {
        PutEntryIndexed(c.mem, name, e');
        StoreShape(env, c1.(nodes := c.nodes[i := n], w := w), PutEntry(c.mem, FindEntry(c.mem, name), e'));
        hide Store;
      }
    }
  }

  lemma {:induction false} MakeAllIndexed(env: Env, c: Cluster, i: nat)
    requires Indexed(c) && i <= |c.nodes|
    ensures Indexed(MakeAll(env, c, i).1)
    decreases |c.nodes| - i
  {
    hide Make, Indexed;
    if i < |c.nodes| {
      MakeIndexed(env, c, i);
      var (ok, c1) := Make(env, c, i);
      if ok {
        MakeAllIndexed(env, c1, i + 1);
      }
    }
  }

  /** Dropping keeps the other entries, in order. */
  lemma DropEntryIndexed(entries: seq<Entry>, name: string)
    requires UniqueKeys(entries)
    ensures UniqueKeys(DropEntry(entries, name))
  {
    var k := FindEntry(entries, name);
    if k >= 0 {
      var r := entries[..k] + entries[k + 1..];
      forall i, j | 0 <= i < j < |r| ensures Key(r[i]) != Key(r[j]) {
        assert r[i] == entries[if i < k then i else i + 1];
        assert r[j] == entries[if j < k then j else j + 1];
      }
    }
  }

  /** Exactly the entry with that name goes. */
  lemma DropEntryElement(entries: seq<Entry>, name: string, e: Entry)
    requires UniqueKeys(entries) && name != ""
    ensures e in DropEntry(entries, name) <==> e in entries && Key(e) != name
  {
    var k := FindEntry(entries, name);
    FindEntryKey(entries, name);
    if k >= 0 {
      var before, after := entries[..k], entries[k + 1..];
      assert forall i :: 0 <= i < |before| ==> before[i] == entries[i];
      assert forall i :: 0 <= i < |after| ==> after[i] == entries[k + 1 + i];
      hide Key, Names, FindEntry;
      assert entries == before + [entries[k]] + after;
    }
  }

  lemma {:induction false} PurgeIndexed(env: Env, c: Cluster, gen: seq<NodeState>, i: nat, reviewed: bool)
    requires UniqueKeys(c.mem) && i <= |c.nodes|
    ensures var r := Purge(env, c, gen, i, reviewed);
            UniqueKeys(r.mem) && r.stored == c.stored && r.nodes == c.nodes
    decreases |c.nodes| - i
  {
    hide UniqueKeys, DropEntry;
    if i < |c.nodes| {
      if FindNode(gen, c.nodes[i].name) >= 0 {
        PurgeIndexed(env, c, gen, i + 1, reviewed);
      } else {
        var w1 := if reviewed then c.w else Note(c.w, MinMasters(""));
        var c1 := c.(mem := DropEntry(c.mem, c.nodes[i].name), w := Delete(env, w1, c.nodes[i].name));
        DropEntryIndexed(c.mem, c.nodes[i].name);
        PurgeIndexed(env, c1, gen, i + 1, true);
      }
    }
  }

  lemma MergeDistinct(cache: seq<NodeState>, gen: seq<NodeState>)
    requires DistinctNodes(gen)
    ensures DistinctNodes(Merge(cache, gen))
    ensures forall i :: 0 <= i < |gen| ==> Merge(cache, gen)[i].name == gen[i].name
  {
    forall i | 0 <= i < |gen| ensures Merge(cache, gen)[i].name == gen[i].name {
    }
  }

  lemma {:induction false} ProgressAtNodes(env: Env, c: Cluster, todo: seq<nat>)
    requires DistinctNodes(c.nodes) && Positions(todo, |c.nodes|)
    ensures var r := ProgressAt(env, c, todo);
            DistinctNodes(r.nodes) && forall j :: 0 <= j < |c.nodes| ==> r.nodes[j].name == c.nodes[j].name
    decreases |todo|
  {
    if todo != [] {
      ProgressNodeQuiet(env, c.nodes[todo[0]], c.w);
      hide ProgressNode;
      var (n, w) := ProgressNode(env, c.nodes[todo[0]], c.w);
      RenamedNodes(c.nodes, todo[0], n);
      ProgressAtNodes(env, c.(nodes := c.nodes[todo[0] := n], w := w), todo[1..]);
    }
  }

  lemma {:induction false} ProgressAllNodes(env: Env, c: Cluster, j: nat)
    requires DistinctNodes(c.nodes) && j <= |c.mem|
    ensures var r := ProgressAll(env, c, j);
            && r.mem == c.mem && r.stored == c.stored && |r.nodes| == |c.nodes|
            && DistinctNodes(r.nodes) && forall j :: 0 <= j < |c.nodes| ==> r.nodes[j].name == c.nodes[j].name
    decreases |c.mem| - j
  {
    hide ProgressAt, DistinctNodes;
    if j < |c.mem| {
      if c.mem[j].unschedulable {
        ProgressAtNodes(env, c, NodesOf(c.mem[j], c.nodes, 0));
        ProgressAllNodes(env, ProgressAt(env, c, NodesOf(c.mem[j], c.nodes, 0)), j + 1);
      } else {
        ProgressAllNodes(env, c, j + 1);
      }
    }
  }

  lemma PrepareIndexed(env: Env, c: Cluster, gen: seq<NodeState>)
    requires Indexed(c) && DistinctNodes(gen)
    ensures var r := Prepare(env, c, gen);
            && Indexed(r) && r.stored == c.stored && |r.nodes| == |gen|
            && forall i :: 0 <= i < |gen| ==> r.nodes[i].name == gen[i].name
  {
    hide Purge, Merge, ProgressAll;
    var c0 := c.(mem := c.stored, w := Tick(c.w, true));
    PurgeIndexed(env, c0, gen, 0, false);
    MergeDistinct(c0.nodes, gen);
    ProgressAllNodes(env, GetNodes(env, c0, gen), 0);
  }

  /** A node that the pass continues, upgrades or redeploys has a status entry. */
  lemma ScheduledHasEntry(c: Cluster, redeploy: bool)
    ensures HaveEntries(c, Scheduled(c.mem, c.nodes, redeploy))
  {
    var todo := Scheduled(c.mem, c.nodes, redeploy);
    forall j | 0 <= j < |todo| ensures FindEntry(c.mem, c.nodes[todo[j]].name) >= 0 {
      assert todo[j] in todo;
      ScheduledAre(c.mem, c.nodes, redeploy, todo[j]);
    }
  }

  lemma WorkIndexed(env: Env, c: Cluster)
    requires Indexed(c)
    ensures Indexed(Work(env, c).1)
    ensures !ModeOf(c).Creates? ==> SameKeys(c.mem, Work(env, c).1.mem)
  {
    hide Visit, Batch, MakeAll, Scheduled, Indexed, FindEntry;
    match ModeOf(c) {
      case Continue(i, updating) =>
        assert FindEntry(c.mem, c.nodes[i].name) >= 0;
        VisitIndexed(env, c, i, updating);
      case Upgrades(todo) =>
        ScheduledHasEntry(c, false);
        BatchIndexed(env, c, todo, true);
      case Redeploys(todo) =>
        ScheduledHasEntry(c, true);
        BatchIndexed(env, c, todo, false);
      case Creates =>
        MakeAllIndexed(env, c, 0);
    }
  }

  lemma CloseIndexed(env: Env, c: Cluster)
    requires Indexed(c)
    ensures Indexed(Close(env, c))
  {
    SameKeysUnique(c.mem, Rescheduled(c.mem, env(c.w.pos).unschedulable));
  }

  lemma PassIndexed(env: Env, c: Cluster, gen: seq<NodeState>)
    requires Indexed(c) && DistinctNodes(gen)
    ensures Indexed(Pass(env, c, gen))
  {
    if env(c.w.pos).ok {
      PrepareIndexed(env, c, gen);
      WorkIndexed(env, Prepare(env, c, gen));
      var (ok, c1) := Work(env, Prepare(env, c, gen));
      hide Work, Prepare, Close, Indexed;
      if ok {
        CloseIndexed(env, c1);
      }
    }
  }

  /**
   * From an empty status, over every run and with anything failing, the stored status keeps at
   * most one entry per node and no nameless one.
   */
  lemma {:induction false} RunIndexed(env: Env, c: Cluster, gens: seq<seq<NodeState>>)
    requires c.mem == [] && c.stored == [] && DistinctNodes(c.nodes)
    requires forall i :: 0 <= i < |gens| ==> DistinctNodes(gens[i])
    ensures Indexed(Run(env, c, gens))
    decreases |gens|
  {
    hide Pass, DistinctNodes;
    if gens == [] {
      assert Indexed(c);
    } else {
      RunIndexed(env, c, gens[..|gens| - 1]);
      hide Indexed;
      PassIndexed(env, Run(env, c, gens[..|gens| - 1]), gens[|gens| - 1]);
    }
  }

  /**
   * Hence the appends for a missing entry are never reached when continuing, upgrading or
   * redeploying: in every pass of such a run these kinds of work leave the names as they are.
   */
  lemma NoAppendOutsideCreate(env: Env, c: Cluster, gens: seq<seq<NodeState>>, gen: seq<NodeState>)
    requires c.mem == [] && c.stored == [] && DistinctNodes(c.nodes) && DistinctNodes(gen)
    requires forall i :: 0 <= i < |gens| ==> DistinctNodes(gens[i])
    ensures var p := Prepare(env, Run(env, c, gens), gen);
            !ModeOf(p).Creates? ==> SameKeys(p.mem, Work(env, p).1.mem)
  {
    RunIndexed(env, c, gens);
    hide Run, Prepare, Work;
    PrepareIndexed(env, Run(env, c, gens), gen);
    WorkIndexed(env, Prepare(env, Run(env, c, gens), gen));
  }
}
