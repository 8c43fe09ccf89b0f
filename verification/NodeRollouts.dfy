/**
 * StatefulSet upgrade cycles inside whole runs: a pass makes at most one call on a node, and
 * everything else it does is calm for that node.  So the calls that the passes of a run make on a
 * StatefulSet form a cycle of calls in the sense of PartitionRollout, and its theorems hold of runs.
 */
module NodeRollouts {
  import opened Base
  import opened Drift
  import opened Environment
  import opened Workload
  import Sts = StatefulSetUpgrade
  import opened PartitionRollout
  import opened Reconcile
  import opened Footprint
  import opened StatusIndex
  import ConvergenceTheorem

  // ----- one node, followed through a pass -----

  /** The position of a node in its cycle. */
  type Mark = (Condition, Phase)

  function MarkOf(u: Upgrade): Mark {
    (u.under, u.phase)
  }

  function Marked(entries: seq<Entry>, name: string): Mark {
    MarkOf(EntryOf(entries, name).upgrade)
  }

  /**
   * The k-th cached node is the StatefulSet with this name and recorded cluster size, its workload
   * exists, and both copies of the status show one of these marks for it.
   */
  ghost predicate On(c: Cluster, k: nat, name: string, size: int, marks: set<Mark>) {
    && Indexed(c)
    && k < |c.nodes| && c.nodes[k].name == name && name != ""
    && c.nodes[k].kind.StatefulSet? && c.nodes[k].clusterSize == size
    && name in c.w.objects
    && Marked(c.mem, name) in marks && Marked(c.stored, name) in marks
  }

  lemma CalmTransitive(a: World, b: World, c: World, name: string)
    requires Calm(a, b, name) && Calm(b, c, name)
    ensures Calm(a, c, name)
  {
    forall i | |a.log| <= i < |c.log| && c.log[i].node == name ensures Harmless(c.log[i]) {
      if i < |b.log| {
        assert c.log[i] == b.log[i];
      }
    }
  }

  lemma CalmReflexive(w: World, name: string)
    ensures Calm(w, w, name)
  {
  }

  /** Work on another node is calm, and so is quiet work on the node itself. */
  lemma OthersWorkIsCalm(w: World, w': World, other: string, name: string)
    requires Grows(w, w', other) && other != name
    ensures Calm(w, w', name)
  {
  }

  lemma QuietIsCalm(n: NodeState, w: World, n': NodeState, w': World, name: string)
    requires Quiet(n, w, n', w')
    ensures Calm(w, w', name)
  {
    if n.name != name {
      OthersWorkIsCalm(w, w', n.name, name);
    }
  }

  /** A write of the status is calm, whatever becomes of it. */
  lemma StoreOn(env: Env, c: Cluster, entries: seq<Entry>, k: nat, name: string, size: int, marks: set<Mark>)
    requires On(c, k, name, size, marks) && UniqueKeys(entries) && Marked(entries, name) in marks
    ensures On(Store(env, c, entries), k, name, size, marks) && Calm(c.w, Store(env, c, entries).w, name)
  {
    StoreShape(env, c, entries);
    hide Marked, UniqueKeys, DistinctNodes;
  }

  // ----- treating a node -----

  lemma VisitOther(env: Env, c: Cluster, i: nat, updating: bool, k: nat, name: string, size: int, marks: set<Mark>)
    requires On(c, k, name, size, marks) && i < |c.nodes| && i != k && FindEntry(c.mem, c.nodes[i].name) >= 0
    ensures On(Visit(env, c, i, updating), k, name, size, marks) && Calm(c.w, Visit(env, c, i, updating).w, name)
  {
    var other := c.nodes[i].name;
    assert other != name && other != "";
    var e := EntryOf(c.mem, other);
    FindEntryKey(c.mem, other);
    TreatFollows(env, c.nodes[i], e, c.w, updating);
    hide Treat, FindEntry, UniqueKeys, Store;
    var (n, e', w) := Treat(env, c.nodes[i], e, c.w, updating);
    SameNamesSameKey(e, e');
    assert Named(e') by {
      EntryNamed(c, other);
    }
    PutEntryLookup(c.mem, other, e', name);
    RenamedNodes(c.nodes, i, n);
    OthersWorkIsCalm(c.w, w, other, name);
    var c1 := c.(nodes := c.nodes[i := n], w := w);
    assert On(c1, k, name, size, marks);
    StoreOn(env, c1, PutEntry(c.mem, FindEntry(c.mem, other), e'), k, name, size, marks);
    CalmTransitive(c.w, w, Visit(env, c, i, updating).w, name);
  }

  lemma EntryNamed(c: Cluster, name: string)
    requires Indexed(c) && FindEntry(c.mem, name) >= 0
    ensures Named(EntryOf(c.mem, name))
  {
  }

  /** The state in which a visit calls the node's procedure. */
  function CallStart(c: Cluster, k: nat): Step
    requires k < |c.nodes|
  {
    Step(c.nodes[k], EntryOf(c.mem, c.nodes[k].name).upgrade, c.w, true)
  }

  lemma VisitSelf(env: Env, c: Cluster, updating: bool, k: nat, name: string, size: int, marks: set<Mark>)
    requires On(c, k, name, size, marks) && FindEntry(c.mem, name) >= 0
    ensures var s, r := CallStart(c, k), Visit(env, c, k, updating);
            var t := Sts.Call(env, s, updating);
            && t.n.name == name && MarkOf(s.u) in marks
            && On(r, k, name, t.n.clusterSize, marks + {MarkOf(t.u)}) && Calm(t.w, r.w, name)
  {
    var e := EntryOf(c.mem, name);
    FindEntryKey(c.mem, name);
    var s := CallStart(c, k);
    TreatFollows(env, c.nodes[k], e, c.w, updating);
    var t := Sts.Call(env, s, updating);
    Sts.CallTame(env, s, updating);
    hide Sts.Call;
    StateQuiet(env, t.n, t.w);
    var (up, redo, n, w) := State(env, t.n, t.w);
    hide State;
    assert (n, w) == (Treat(env, c.nodes[k], e, c.w, updating).0, Treat(env, c.nodes[k], e, c.w, updating).2);
    var e' := Treat(env, c.nodes[k], e, c.w, updating).1;
    hide FindEntry, UniqueKeys, Store, Treat;
    QuietIsCalm(t.n, t.w, n, w, name);
    SameNamesSameKey(e, e');
    EntryNamed(c, name);
    PutEntryLookup(c.mem, name, e', "");
    RenamedNodes(c.nodes, k, n);
    assert name in w.objects by {
      GrownObject(s, t, w, name);
    }
    var marks' := marks + {MarkOf(t.u)};
    var c1 := c.(nodes := c.nodes[k := n], w := w);
    assert On(c1, k, name, t.n.clusterSize, marks');
    StoreOn(env, c1, PutEntry(c.mem, FindEntry(c.mem, name), e'), k, name, t.n.clusterSize, marks');
    CalmTransitive(t.w, w, Visit(env, c, k, updating).w, name);
  }

  lemma GrownObject(s: Step, t: Step, w: World, name: string)
    requires Follows(s, t) && s.n.name == name && name in s.w.objects && SamePartition(t.w, w, name)
    ensures name in w.objects
  {
  }

  // ----- batches -----

  lemma {:induction false} BatchOthers(
    env: Env, c: Cluster, todo: seq<nat>, updating: bool, k: nat, name: string, size: int, marks: set<Mark>)
    requires On(c, k, name, size, marks) && Positions(todo, |c.nodes|) && HaveEntries(c, todo) && k !in todo
    ensures var r := Batch(env, c, todo, updating); On(r, k, name, size, marks) && Calm(c.w, r.w, name)
    decreases |todo|
  {
    CalmReflexive(c.w, name);
    if todo != [] {
      var c1 := Visit(env, c, todo[0], updating);
      VisitOther(env, c, todo[0], updating, k, name, size, marks);
      StillHaveEntries(env, c, todo, updating);
      hide Visit, On, Calm, HaveEntries;
      BatchOthers(env, c1, todo[1..], updating, k, name, size, marks);
      CalmTransitive(c.w, c1.w, Batch(env, c, todo, updating).w, name);
    }
  }

  /** What a stretch of work did for the node: it was calm, or it made one call and was calm before and after. */
  ghost predicate AtMostOneCall(
    env: Env, c: Cluster, r: Cluster, k: nat, name: string, size: int, mark: Mark, call: Option<Step>, updating: bool)
  {
    match call
    case None => On(r, k, name, size, {mark}) && Calm(c.w, r.w, name)
    case Some(s) =>
      var t := Sts.Call(env, s, updating);
      && s.n.name == name && s.n.clusterSize == size && s.go && MarkOf(s.u) == mark && name in s.w.objects
      && t.n.name == name && Calm(c.w, s.w, name)
      && On(r, k, name, t.n.clusterSize, {mark, MarkOf(t.u)}) && Calm(t.w, r.w, name)
  }

  lemma VisitAtMostOneCall(env: Env, c: Cluster, i: nat, updating: bool, k: nat, name: string, size: int, mark: Mark)
    returns (call: Option<Step>)
    requires On(c, k, name, size, {mark}) && i < |c.nodes| && FindEntry(c.mem, c.nodes[i].name) >= 0
    ensures AtMostOneCall(env, c, Visit(env, c, i, updating), k, name, size, mark, call, updating)
    ensures call.Some? <==> i == k
  {
    CalmReflexive(c.w, name);
    if i == k {
      VisitSelf(env, c, updating, k, name, size, {mark});
      assert {mark} + {MarkOf(Sts.Call(env, CallStart(c, k), updating).u)}
          == {mark, MarkOf(Sts.Call(env, CallStart(c, k), updating).u)};
      call := Some(CallStart(c, k));
    } else {
      VisitOther(env, c, i, updating, k, name, size, {mark});
      call := None;
    }
  }

  /** Calm work before and after keeps this. */
  lemma CalmAround(
    env: Env, a: Cluster, b: Cluster, c: Cluster, d: Cluster, k: nat, name: string, size: int, mark: Mark,
    call: Option<Step>, updating: bool)
    requires Calm(a.w, b.w, name) && AtMostOneCall(env, b, c, k, name, size, mark, call, updating) && Calm(c.w, d.w, name)
    requires forall size', marks :: On(c, k, name, size', marks) ==> On(d, k, name, size', marks)
    ensures AtMostOneCall(env, a, d, k, name, size, mark, call, updating)
  {
    hide Sts.Call, On, Calm;
    match call {
      case None =>
        CalmTransitive(a.w, b.w, c.w, name);
        CalmTransitive(a.w, c.w, d.w, name);
      case Some(s) =>
        CalmTransitive(a.w, b.w, s.w, name);
        CalmTransitive(Sts.Call(env, s, updating).w, c.w, d.w, name);
    }
  }

  lemma {:induction false} BatchAtMostOneCall(
    env: Env, c: Cluster, todo: seq<nat>, updating: bool, k: nat, name: string, size: int, mark: Mark)
    returns (call: Option<Step>)
    requires On(c, k, name, size, {mark}) && Positions(todo, |c.nodes|) && HaveEntries(c, todo) && NoDuplicates(todo)
    ensures AtMostOneCall(env, c, Batch(env, c, todo, updating), k, name, size, mark, call, updating)
    ensures call.Some? <==> k in todo
    decreases |todo|
  {
    CalmReflexive(c.w, name);
    if todo == [] {
      call := None;
    } else {
      var c1, rest := Visit(env, c, todo[0], updating), todo[1..];
      StillHaveEntries(env, c, todo, updating);
      call := VisitAtMostOneCall(env, c, todo[0], updating, k, name, size, mark);
      assert NoDuplicates(rest) && todo[0] !in rest;
      hide Visit, HaveEntries, NoDuplicates, Calm, On, Sts.Call;
      var r := Batch(env, c1, rest, updating);
      if call.Some? {
        var t := Sts.Call(env, call.value, updating);
        BatchOthers(env, c1, rest, updating, k, name, t.n.clusterSize, {mark, MarkOf(t.u)});
        CalmTransitive(t.w, c1.w, r.w, name);
      } else {
        call := BatchAtMostOneCall(env, c1, rest, updating, k, name, size, mark);
        if call.Some? {
          CalmTransitive(c.w, c1.w, call.value.w, name);
        } else {
          CalmTransitive(c.w, c1.w, r.w, name);
        }
      }
    }
  }

  // ----- create mode -----

  lemma MakeOn(env: Env, c: Cluster, i: nat, k: nat, name: string, size: int, marks: set<Mark>)
    requires On(c, k, name, size, marks) && i < |c.nodes|
    ensures var r := Make(env, c, i).1; On(r, k, name, size, marks) && Calm(c.w, r.w, name)
  {
    var a := env(c.w.pos);
    var c1 := c.(mem := if a.ok || a.loaded then c.stored else c.mem, w := Tick(c.w, a.ok));
    CalmReflexive(c.w, name);
    assert On(c1, k, name, size, marks) && Calm(c.w, c1.w, name);
    if a.ok {
      var other := c.nodes[i].name;
      var e := EntryOf(c.mem, other);
      var isNew := FindEntry(c.mem, other) < 0;
      FindEntryKey(c.mem, other);
      if !isNew {
        EntryNamed(c, other);
      }
      RaiseFollows(env, c.nodes[i], e, isNew, c1.w);
      hide Raise, FindEntry, UniqueKeys, Store, Quiet;
      var (ok, n, e', w) := Raise(env, c.nodes[i], e, isNew, c1.w);
      QuietIsCalm(c.nodes[i], c1.w, n, w, name);
      RaisedNode(c.nodes[i], c1.w, n, w);
      RenamedNodes(c.nodes, i, n);
      var c2 := c1.(nodes := c.nodes[i := n], w := w);
      assert On(c2, k, name, size, marks);
      CalmTransitive(c.w, c1.w, w, name);
      if ok {
        assert Named(e') && Key(e') == other;
        PutEntryLookup(c.mem, other, e', name);
        var entries := PutEntry(c.mem, FindEntry(c.mem, other), e');
        assert Marked(entries, name) in marks;
        StoreOn(env, c2, entries, k, name, size, marks);
        var c3 := Store(env, c2, entries);
        CalmTransitive(c.w, w, c3.w, name);
        NoteCalm(c3.w, name);
        CalmTransitive(c.w, c3.w, Note(c3.w, MinMasters("")), name);
      }
    }
  }

  lemma RaisedNode(n: NodeState, w: World, n': NodeState, w': World)
    requires Quiet(n, w, n', w')
    ensures n'.name == n.name && n'.kind == n.kind && n'.clusterSize == n.clusterSize
  {
  }

  lemma NoteCalm(w: World, name: string)
    requires name != ""
    ensures Calm(w, Note(w, MinMasters("")), name)
  {
  }

  lemma {:induction false} MakeAllOn(env: Env, c: Cluster, i: nat, k: nat, name: string, size: int, marks: set<Mark>)
    requires On(c, k, name, size, marks) && i <= |c.nodes|
    ensures var r := MakeAll(env, c, i).1; On(r, k, name, size, marks) && Calm(c.w, r.w, name)
    decreases |c.nodes| - i
  {
    CalmReflexive(c.w, name);
    if i < |c.nodes| {
      MakeOn(env, c, i, k, name, size, marks);
      MakeIndexed(env, c, i);
      hide Make, On, Calm, Indexed;
      var (ok, c1) := Make(env, c, i);
      if ok {
        MakeAllOn(env, c1, i + 1, k, name, size, marks);
        CalmTransitive(c.w, c1.w, MakeAll(env, c, i).1.w, name);
      }
    }
  }

  // ----- before and after the work -----

  /** Dropping another node's entry leaves this node's. */
  lemma DropEntryLookup(entries: seq<Entry>, other: string, name: string)
    requires UniqueKeys(entries) && other != "" && name != "" && other != name
    ensures UniqueKeys(DropEntry(entries, other)) && EntryOf(DropEntry(entries, other), name) == EntryOf(entries, name)
  {
    var r, j := DropEntry(entries, other), FindEntry(entries, name);
    DropEntryIndexed(entries, other);
    FindEntryKey(entries, name);
    if j >= 0 {
      DropEntryElement(entries, other, entries[j]);
      var i :| 0 <= i < |r| && r[i] == entries[j];
      FindEntryByKey(r, name, i);
    } else if FindEntry(r, name) >= 0 {
      FindEntryKey(r, name);
      DropEntryElement(entries, other, r[FindEntry(r, name)]);
    }
  }

  lemma DeleteCalm(env: Env, w: World, other: string, reviewed: bool, name: string)
    requires other != name && name != ""
    ensures Calm(w, Delete(env, if reviewed then w else Note(w, MinMasters("")), other), name)
  {
  }

  lemma DeleteOn(
    env: Env, c: Cluster, other: string, reviewed: bool, k: nat, name: string, size: int, marks: set<Mark>)
    requires On(c, k, name, size, marks) && other != name && other != ""
    ensures var w1 := if reviewed then c.w else Note(c.w, MinMasters(""));
            var c1 := c.(mem := DropEntry(c.mem, other), w := Delete(env, w1, other));
            On(c1, k, name, size, marks) && Calm(c.w, c1.w, name)
  {
    DropEntryLookup(c.mem, other, name);
    DeleteCalm(env, c.w, other, reviewed, name);
    hide DropEntry, UniqueKeys, EntryOf, DistinctNodes, Calm;
  }

  lemma {:induction false} PurgeOn(
    env: Env, c: Cluster, gen: seq<NodeState>, i: nat, reviewed: bool, k: nat, name: string, size: int, marks: set<Mark>)
    requires On(c, k, name, size, marks) && i <= |c.nodes| && FindNode(gen, name) >= 0
    ensures var r := Purge(env, c, gen, i, reviewed); On(r, k, name, size, marks) && Calm(c.w, r.w, name)
    decreases |c.nodes| - i
  {
    CalmReflexive(c.w, name);
    if i < |c.nodes| {
      var other := c.nodes[i].name;
      if FindNode(gen, other) >= 0 {
        PurgeOn(env, c, gen, i + 1, reviewed, k, name, size, marks);
      } else {
        var w1 := if reviewed then c.w else Note(c.w, MinMasters(""));
        var c1 := c.(mem := DropEntry(c.mem, other), w := Delete(env, w1, other));
        DeleteOn(env, c, other, reviewed, k, name, size, marks);
        hide DropEntry, Indexed, FindEntry, On, Calm, Delete;
        PurgeOn(env, c1, gen, i + 1, true, k, name, size, marks);
        hide Purge;
        CalmTransitive(c.w, c1.w, Purge(env, c1, gen, i + 1, true).w, name);
      }
    }
  }

  lemma {:induction false} ProgressAtOn(
    env: Env, c: Cluster, todo: seq<nat>, k: nat, name: string, size: int, marks: set<Mark>)
    requires On(c, k, name, size, marks) && Positions(todo, |c.nodes|)
    ensures var r := ProgressAt(env, c, todo); On(r, k, name, size, marks) && Calm(c.w, r.w, name)
    decreases |todo|
  {
    CalmReflexive(c.w, name);
    if todo != [] {
      var i := todo[0];
      ProgressNodeQuiet(env, c.nodes[i], c.w);
      hide ProgressNode, Quiet;
      var (n, w) := ProgressNode(env, c.nodes[i], c.w);
      RaisedNode(c.nodes[i], c.w, n, w);
      QuietIsCalm(c.nodes[i], c.w, n, w, name);
      RenamedNodes(c.nodes, i, n);
      var c1 := c.(nodes := c.nodes[i := n], w := w);
      assert On(c1, k, name, size, marks);
      ProgressAtOn(env, c1, todo[1..], k, name, size, marks);
      CalmTransitive(c.w, w, ProgressAt(env, c, todo).w, name);
    }
  }

  lemma {:induction false} ProgressAllOn(env: Env, c: Cluster, j: nat, k: nat, name: string, size: int, marks: set<Mark>)
    requires On(c, k, name, size, marks) && j <= |c.mem|
    ensures var r := ProgressAll(env, c, j); On(r, k, name, size, marks) && Calm(c.w, r.w, name) && r.mem == c.mem
    decreases |c.mem| - j
  {
    CalmReflexive(c.w, name);
    if j < |c.mem| {
      if c.mem[j].unschedulable {
        var c1 := ProgressAt(env, c, NodesOf(c.mem[j], c.nodes, 0));
        ProgressAtOn(env, c, NodesOf(c.mem[j], c.nodes, 0), k, name, size, marks);
        hide On, Calm, ProgressAt;
        ProgressAllOn(env, c1, j + 1, k, name, size, marks);
        CalmTransitive(c.w, c1.w, ProgressAll(env, c, j).w, name);
      } else {
        hide On, Calm;
        ProgressAllOn(env, c, j + 1, k, name, size, marks);
      }
    }
  }

  /** Where a node is, its workload and its stored status, between two passes. */
  ghost predicate Kept(c: Cluster, j: nat, name: string, size: int, mark: Mark) {
    On(c.(mem := c.stored), j, name, size, {mark})
  }

  lemma PrepareOn(env: Env, c: Cluster, gen: seq<NodeState>, j: nat, name: string, size: int, mark: Mark) returns (k: nat)
    requires Kept(c, j, name, size, mark) && DistinctNodes(gen) && FindNode(gen, name) >= 0
    ensures var p := Prepare(env, c, gen);
            && On(p, k, name, size, {mark}) && Calm(c.w, p.w, name)
            && EntryOf(p.mem, name) == EntryOf(c.stored, name)
            && (FindEntry(p.mem, name) >= 0 <==> FindEntry(c.stored, name) >= 0)
  {
    var c0 := c.(mem := c.stored, w := Tick(c.w, true));
    var d := Purge(env, c0, gen, 0, false);
    k := FindNode(gen, name);
    CalmReflexive(c.w, name);
    assert On(c0, j, name, size, {mark}) && Calm(c.w, c0.w, name);
    PurgeOn(env, c0, gen, 0, false, j, name, size, {mark});
    PurgeIndexed(env, c0, gen, 0, false);
    PurgeKeepsEntry(env, c0, gen, 0, false, name);
    MergeDistinct(c0.nodes, gen);
    FindNodeOfNode(c0.nodes, j);
    hide Purge, ProgressAll, FindEntry, UniqueKeys;
    var g := GetNodes(env, c0, gen);
    assert g.nodes[k] == c0.nodes[j].(self := gen[k].self);
    assert On(g, k, name, size, {mark});
    ProgressAllOn(env, g, 0, k, name, size, {mark});
    CalmTransitive(c.w, c0.w, d.w, name);
    CalmTransitive(c.w, d.w, ProgressAll(env, g, 0).w, name);
  }

  lemma {:induction false} PurgeKeepsEntry(
    env: Env, c: Cluster, gen: seq<NodeState>, i: nat, reviewed: bool, name: string)
    requires UniqueKeys(c.mem) && DistinctNodes(c.nodes) && i <= |c.nodes| && name != "" && FindNode(gen, name) >= 0
    ensures var r := Purge(env, c, gen, i, reviewed);
            && EntryOf(r.mem, name) == EntryOf(c.mem, name)
            && (FindEntry(r.mem, name) >= 0 <==> FindEntry(c.mem, name) >= 0)
    decreases |c.nodes| - i
  {
    if i < |c.nodes| {
      var other := c.nodes[i].name;
      if FindNode(gen, other) >= 0 {
        PurgeKeepsEntry(env, c, gen, i + 1, reviewed, name);
      } else {
        var w1 := if reviewed then c.w else Note(c.w, MinMasters(""));
        var c1 := c.(mem := DropEntry(c.mem, other), w := Delete(env, w1, other));
        DropEntryLookup(c.mem, other, name);
        DropEntryFound(c.mem, other, name);
        hide DropEntry, UniqueKeys, FindEntry, EntryOf;
        PurgeKeepsEntry(env, c1, gen, i + 1, true, name);
      }
    }
  }

  lemma DropEntryFound(entries: seq<Entry>, other: string, name: string)
    requires UniqueKeys(entries) && other != "" && name != "" && other != name
    ensures FindEntry(DropEntry(entries, other), name) >= 0 <==> FindEntry(entries, name) >= 0
  {
    DropEntryIndexed(entries, other);
    FoundIffThere(entries, name);
    FoundIffThere(DropEntry(entries, other), name);
    hide FindEntry, DropEntry, UniqueKeys;
    forall e ensures e in DropEntry(entries, other) <==> e in entries && Key(e) != other {
      DropEntryElement(entries, other, e);
    }
  }

  lemma FoundIffThere(entries: seq<Entry>, name: string)
    requires UniqueKeys(entries) && name != ""
    ensures FindEntry(entries, name) >= 0 <==> exists e :: e in entries && Key(e) == name
  {
    FindEntryKey(entries, name);
  }

  lemma CloseOn(env: Env, c: Cluster, k: nat, name: string, size: int, marks: set<Mark>)
    requires On(c, k, name, size, marks)
    ensures On(Close(env, c), k, name, size, marks) && Calm(c.w, Close(env, c).w, name)
  {
    var entries := Rescheduled(c.mem, env(c.w.pos).unschedulable);
    SameKeysFind(c.mem, entries, name);
    CloseIndexed(env, c);
    hide FindEntry, UniqueKeys, DistinctNodes;
  }

  // ----- the pass -----

  /** The procedure that a pass runs on a node is update exactly if its entry is scheduled for one. */
  lemma FlaggedDecides(c: Cluster, k: nat, name: string, redeploy: bool)
    requires Indexed(c) && k < |c.nodes| && c.nodes[k].name == name && FindEntry(c.mem, name) >= 0
    ensures k in Scheduled(c.mem, c.nodes, redeploy) <==> Flagged(EntryOf(c.mem, name), redeploy)
  {
    ScheduledAre(c.mem, c.nodes, redeploy, k);
    hide Scheduled;
    var e := EntryOf(c.mem, name);
    FindEntryKey(c.mem, name);
    NamesIsKey(e, name);
    forall e' | e' in c.mem && Names(e', name) ensures e' == e {
      NamesIsKey(e', name);
      var m :| 0 <= m < |c.mem| && c.mem[m] == e';
      FindEntryByKey(c.mem, name, m);
    }
  }

  lemma ContinueFacts(c: Cluster)
    requires Indexed(c) && ModeOf(c).Continue?
    ensures var i := ModeOf(c).i;
            && FindEntry(c.mem, c.nodes[i].name) >= 0
            && (ModeOf(c).updating <==> i in Scheduled(c.mem, c.nodes, false))
  {
    hide Scheduled;
    var i, upgrades := ModeOf(c).i, Scheduled(c.mem, c.nodes, false);
    var chosen := Chosen(c.nodes, upgrades);
    var m := FindNode(chosen, c.nodes[i].name);
    if m >= 0 {
      assert upgrades[m] == i;
    } else if i in upgrades {
      var l :| 0 <= l < |upgrades| && upgrades[l] == i;
      assert chosen[l].name == c.nodes[i].name;
    }
  }

  lemma ListedHasEntry(c: Cluster, todo: seq<nat>, k: nat)
    requires Positions(todo, |c.nodes|) && HaveEntries(c, todo) && k in todo
    ensures k < |c.nodes| && FindEntry(c.mem, c.nodes[k].name) >= 0
  {
  }

  /** What each mode says about the node. */
  lemma ModeFacts(c: Cluster, k: nat, name: string)
    requires Indexed(c) && k < |c.nodes| && c.nodes[k].name == name
    ensures match ModeOf(c)
      case Continue(i, u) =>
        && FindEntry(c.mem, c.nodes[i].name) >= 0 && (i == k ==> (u <==> UpgradeScheduled(EntryOf(c.mem, name))))
      case Upgrades(todo) =>
        && HaveEntries(c, todo) && NoDuplicates(todo)
        && (k in todo ==> FindEntry(c.mem, name) >= 0 && UpgradeScheduled(EntryOf(c.mem, name)))
      case Redeploys(todo) =>
        && HaveEntries(c, todo) && NoDuplicates(todo)
        && (k in todo ==> FindEntry(c.mem, name) >= 0 && !UpgradeScheduled(EntryOf(c.mem, name)))
      case Creates => true
  {
    if FindEntry(c.mem, name) >= 0 {
      FlaggedDecides(c, k, name, false);
      FlaggedDecides(c, k, name, true);
    }
    var upgrades, redeploys := Scheduled(c.mem, c.nodes, false), Scheduled(c.mem, c.nodes, true);
    ScheduledHasEntry(c, false);
    ScheduledHasEntry(c, true);
    ConvergenceTheorem.ScheduledNoDuplicates(c.mem, c.nodes, false);
    ConvergenceTheorem.ScheduledNoDuplicates(c.mem, c.nodes, true);
    if k in upgrades {
      ListedHasEntry(c, upgrades, k);
    }
    if k in redeploys {
      ListedHasEntry(c, redeploys, k);
    }
    if ModeOf(c).Continue? {
      ContinueFacts(c);
    }
    hide Scheduled, FindEntry, EntryOf, Indexed, NoDuplicates, HaveEntries, InProgress;
  }

  /** The mode of the pass calls for work on the k-th node. */
  predicate Due(c: Cluster, k: nat) {
    match ModeOf(c)
    case Continue(i, _) => i == k
    case Upgrades(todo) => k in todo
    case Redeploys(todo) => k in todo
    case Creates => false
  }

  /**
   * Which nodes are due: with a node in progress only that one; else all that are scheduled for an
   * upgrade; and only if there are none, all that are scheduled for a redeploy alone.
   */
  lemma DueIff(c: Cluster, k: nat)
    requires Indexed(c) && k < |c.nodes|
    ensures var current, entry := InProgress(c.mem, c.nodes), EntryOf(c.mem, c.nodes[k].name);
            var listed := FindEntry(c.mem, c.nodes[k].name) >= 0;
            Due(c, k) <==>
              if current.Some? then k == current.value
              else if exists i :: 0 <= i < |c.nodes| && ScheduledFor(c, i, false) then listed && UpgradeScheduled(entry)
              else listed && RedeployOnly(entry)
  {
    hide Scheduled, InProgress, Indexed, FindEntry, EntryOf, FindNode;
    SomeScheduled(c, false);
    ScheduledForIff(c, k, false);
    ScheduledForIff(c, k, true);
    assert Scheduled(c.mem, c.nodes, true) == [] ==> k !in Scheduled(c.mem, c.nodes, true);
  }

  lemma SomeScheduled(c: Cluster, redeploy: bool)
    requires Indexed(c)
    ensures Scheduled(c.mem, c.nodes, redeploy) != [] <==> exists i :: 0 <= i < |c.nodes| && ScheduledFor(c, i, redeploy)
  {
    var list := Scheduled(c.mem, c.nodes, redeploy);
    forall i: nat | i < |c.nodes| ensures i in list <==> ScheduledFor(c, i, redeploy) {
      ScheduledForIff(c, i, redeploy);
    }
    hide Scheduled, Indexed, ScheduledFor;
    if list != [] {
      assert list[0] in list;
    }
  }

  ghost predicate ScheduledFor(c: Cluster, i: nat, redeploy: bool)
    requires i < |c.nodes|
  {
    FindEntry(c.mem, c.nodes[i].name) >= 0 && Flagged(EntryOf(c.mem, c.nodes[i].name), redeploy)
  }

  lemma ScheduledForIff(c: Cluster, i: nat, redeploy: bool)
    requires Indexed(c) && i < |c.nodes|
    ensures i in Scheduled(c.mem, c.nodes, redeploy) <==> ScheduledFor(c, i, redeploy)
  {
    if FindEntry(c.mem, c.nodes[i].name) >= 0 {
      FlaggedDecides(c, i, c.nodes[i].name, redeploy);
    } else {
      ScheduledAre(c.mem, c.nodes, redeploy, i);
      hide Scheduled;
    }
  }

  /** The procedure that runs on a node is update exactly if its entry is scheduled for one. */
  lemma WorkAtMostOneCall(env: Env, c: Cluster, k: nat, name: string, size: int, mark: Mark)
    returns (call: Option<Step>, updating: bool)
    requires On(c, k, name, size, {mark})
    ensures AtMostOneCall(env, c, Work(env, c).1, k, name, size, mark, call, updating)
    ensures call.Some? ==> FindEntry(c.mem, name) >= 0 && (updating <==> UpgradeScheduled(EntryOf(c.mem, name)))
    ensures call.Some? <==> Due(c, k)
  {
    assert Indexed(c) && k < |c.nodes| && c.nodes[k].name == name;
    ModeFacts(c, k, name);
    hide ModeOf;
    hide Visit, Batch, MakeAll, Scheduled, FindEntry, EntryOf, Indexed, NoDuplicates, HaveEntries, InProgress, On, Calm, Sts.Call;
    match ModeOf(c) {
      case Continue(i, u) =>
        updating := u;
        call := VisitAtMostOneCall(env, c, i, u, k, name, size, mark);
      case Upgrades(todo) =>
        updating := true;
        call := BatchAtMostOneCall(env, c, todo, true, k, name, size, mark);
      case Redeploys(todo) =>
        updating := false;
        call := BatchAtMostOneCall(env, c, todo, false, k, name, size, mark);
      case Creates =>
        updating, call := false, None;
        MakeAllOn(env, c, 0, k, name, size, {mark});
    }
  }

  /**
   * A pass makes at most one call on a node, and does make it if the node is due, whatever became of
   * other nodes; it is an update exactly if the stored entry is scheduled for one; and before and after
   * it the pass is calm for the node.
   */
  lemma PassAtMostOneCall(env: Env, c: Cluster, gen: seq<NodeState>, j: nat, name: string, size: int, mark: Mark)
    returns (k: nat, call: Option<Step>, updating: bool)
    requires Kept(c, j, name, size, mark) && DistinctNodes(gen) && FindNode(gen, name) >= 0
    ensures AtMostOneCall(env, c, Pass(env, c, gen), k, name, size, mark, call, updating)
    ensures call.Some? ==> (updating <==> UpgradeScheduled(EntryOf(c.stored, name)))
    ensures call.Some? <==> env(c.w.pos).ok && Due(Prepare(env, c, gen), k)
  {
    CalmReflexive(c.w, name);
    if !env(c.w.pos).ok {
      k, call, updating := j, None, false;
      assert On(Pass(env, c, gen), k, name, size, {mark});
    } else {
      var p := Prepare(env, c, gen);
      k := PrepareOn(env, c, gen, j, name, size, mark);
      call, updating := WorkAtMostOneCall(env, p, k, name, size, mark);
      var (ok, w) := Work(env, p);
      hide Prepare, Work, Close, On, Calm, Sts.Call, EntryOf, FindEntry;
      if ok {
        forall size', marks | On(w, k, name, size', marks)
          ensures On(Close(env, w), k, name, size', marks) && Calm(w.w, Close(env, w).w, name)
        {
          CloseOn(env, w, k, name, size', marks);
        }
        if call.Some? {
          var t := Sts.Call(env, call.value, updating);
          CloseOn(env, w, k, name, t.n.clusterSize, {mark, MarkOf(t.u)});
        } else {
          CloseOn(env, w, k, name, size, {mark});
        }
        CalmAround(env, c, p, w, Close(env, w), k, name, size, mark, call, updating);
      } else {
        CalmReflexive(w.w, name);
        CalmAround(env, c, p, w, w, k, name, size, mark, call, updating);
      }
    }
  }

  // ----- whole runs -----

  /** In the passes from a on and before b the node is generated and, as a pass begins, under upgrade. */
  ghost predicate Ongoing(trace: seq<Cluster>, gens: seq<seq<NodeState>>, a: nat, b: nat, name: string)
    requires |trace| == |gens| + 1
  {
    && a <= b < |trace|
    && forall i {:trigger gens[i]} :: a <= i < b ==>
         DistinctNodes(gens[i]) && FindNode(gens[i], name) >= 0 && Marked(trace[i].stored, name).0 == IsTrue
  }

  /** No pass of the stretch finds the node scheduled for an update, so all its calls are restarts. */
  ghost predicate OnlyRestarts(trace: seq<Cluster>, gens: seq<seq<NodeState>>, a: nat, b: nat, name: string)
    requires |trace| == |gens| + 1 && b < |trace|
  {
    forall i {:trigger gens[i]} :: a <= i < b ==> !UpgradeScheduled(EntryOf(trace[i].stored, name))
  }

  ghost predicate AllRestarts(updating: seq<bool>) {
    forall i :: 0 <= i < |updating| ==> !updating[i]
  }

  /** The calls of a stretch form a cycle, with calm work before, between and after them. */
  ghost predicate CycleBetween(env: Env, w: World, w': World, name: string, size: int, starts: seq<Step>, updating: seq<bool>) {
    && |starts| == |updating|
    && if starts == [] then Calm(w, w', name)
       else
         && CycleOfCalls(env, starts, updating)
         && starts[0].go && starts[0].n.name == name && starts[0].n.clusterSize == size
         && Calm(w, starts[0].w, name)
         && LastCall(env, starts, updating).n.name == name && LastCall(env, starts, updating).n.clusterSize == size
         && Calm(LastCall(env, starts, updating).w, w', name)
  }

  function LastCall(env: Env, starts: seq<Step>, updating: seq<bool>): Step
    requires |starts| == |updating| > 0
  {
    Sts.Call(env, starts[|starts| - 1], updating[|updating| - 1])
  }

  lemma ChainAppends(env: Env, starts: seq<Step>, updating: seq<bool>, s: Step, u: bool)
    requires CycleOfCalls(env, starts, updating) && Resumes(LastCall(env, starts, updating), s)
    ensures CycleOfCalls(env, starts + [s], updating + [u])
  {
    hide Sts.Call, Resumes, InCycle;
    var ss, us := starts + [s], updating + [u];
    forall i | 0 <= i < |ss| - 1 ensures Resumes(Sts.Call(env, ss[i], us[i]), ss[i + 1]) {
      if i < |starts| - 1 {
        assert Resumes(Sts.Call(env, starts[i], updating[i]), starts[i + 1]);
      }
    }
  }

  lemma CycleStarts(env: Env, w: World, v: World, w': World, name: string, size: int, s: Step, u: bool)
    requires Calm(w, v, name) && Calm(v, s.w, name) && InCycle(s) && s.go && s.n.name == name && s.n.clusterSize == size
    requires var t := Sts.Call(env, s, u); t.n.name == name && t.n.clusterSize == size && Calm(t.w, w', name)
    ensures CycleBetween(env, w, w', name, size, [s], [u])
  {
    hide Sts.Call, Calm;
    CalmTransitive(w, v, s.w, name);
  }

  lemma CycleAppends(
    env: Env, w: World, v: World, w': World, name: string, size: int, starts: seq<Step>, updating: seq<bool>, s: Step, u: bool)
    requires CycleBetween(env, w, v, name, size, starts, updating)
    requires Calm(v, s.w, name) && InCycle(s) && s.go && s.n.name == name && s.n.clusterSize == size
    requires var t := Sts.Call(env, s, u); t.n.name == name && Calm(t.w, w', name)
    ensures CycleBetween(env, w, w', name, size, starts + [s], updating + [u])
  {
    CallKeepsSize(env, s, u);
    hide Sts.Call, Calm, CycleOfCalls, Grows;
    if starts == [] {
      CycleStarts(env, w, v, w', name, size, s, u);
      assert starts + [s] == [s] && updating + [u] == [u];
    } else {
      var before := LastCall(env, starts, updating);
      assert name in before.w.objects by {
        LastCallExists(env, starts, updating);
      }
      CalmTransitive(before.w, v, s.w, name);
      assert Resumes(before, s);
      ChainAppends(env, starts, updating, s, u);
    }
  }

  lemma LastCallExists(env: Env, starts: seq<Step>, updating: seq<bool>)
    requires CycleOfCalls(env, starts, updating)
    ensures starts[0].n.name in LastCall(env, starts, updating).w.objects
  {
    hide Sts.Call, Spaced;
    PartitionLowersOneRejoinAtATime(env, starts, updating);
  }

  lemma CalmAppends(env: Env, w: World, v: World, w': World, name: string, size: int, starts: seq<Step>, updating: seq<bool>)
    requires CycleBetween(env, w, v, name, size, starts, updating) && Calm(v, w', name)
    ensures CycleBetween(env, w, w', name, size, starts, updating)
  {
    hide Sts.Call, Calm, CycleOfCalls;
    CalmTransitive(if starts == [] then w else LastCall(env, starts, updating).w, v, w', name);
  }

  /**
   * The calls that the passes of a run make on a node under upgrade form a cycle of calls; the
   * recorded cluster size stays, and the node leaves the upgrade only through such a call.
   */
  lemma {:induction false} RunIsCycle(
    env: Env, trace: seq<Cluster>, gens: seq<seq<NodeState>>, a: nat, b: nat, j: nat, name: string, size: int, mark: Mark)
    returns (k: nat, starts: seq<Step>, updating: seq<bool>)
    requires IsRun(env, trace, gens) && Ongoing(trace, gens, a, b, name) && Kept(trace[a], j, name, size, mark)
    ensures Kept(trace[b], k, name, size, Marked(trace[b].stored, name))
    ensures CycleBetween(env, trace[a].w, trace[b].w, name, size, starts, updating)
    ensures mark.1 != RecoveringData ==> NeverRecovering(starts) && Marked(trace[b].stored, name).1 != RecoveringData
    ensures OnlyRestarts(trace, gens, a, b, name) ==> AllRestarts(updating)
    ensures a < b && Marked(trace[b].stored, name).0 != IsTrue ==>
              starts != [] && LastCall(env, starts, updating).u.under != IsTrue
    decreases b
  {
    hide Pass, Sts.Call, Calm, CycleBetween, DistinctNodes, EntryOf, FindNode;
    if a == b {
      k, starts, updating := j, [], [];
      CalmReflexive(trace[a].w, name);
      assert CycleBetween(env, trace[a].w, trace[b].w, name, size, [], []) by {
        NoCalls(env, trace[a].w, trace[b].w, name, size);
      }
    } else {
      var m := b - 1;
      OngoingBefore(trace, gens, a, m, b, name);
      k, starts, updating := RunIsCycle(env, trace, gens, a, m, j, name, size, mark);
      var now := Marked(trace[m].stored, name);
      var call, u;
      k, call, u := PassAtMostOneCall(env, trace[m], gens[m], k, name, size, now);
      assert trace[b] == Pass(env, trace[m], gens[m]);
      if call.None? {
        CalmAppends(env, trace[a].w, trace[m].w, trace[b].w, name, size, starts, updating);
      } else {
        var s := call.value;
        assert InCycle(s);
        CycleAppends(env, trace[a].w, trace[m].w, trace[b].w, name, size, starts, updating, s, u);
        CallKeepsSize(env, s, u);
        if mark.1 != RecoveringData {
          NeverStopsRecovering(env, s, u);
        }
        starts, updating := starts + [s], updating + [u];
      }
    }
  }

  lemma OngoingBefore(trace: seq<Cluster>, gens: seq<seq<NodeState>>, a: nat, m: nat, b: nat, name: string)
    requires |trace| == |gens| + 1 && Ongoing(trace, gens, a, b, name) && a <= m < b
    ensures Ongoing(trace, gens, a, m, name)
    ensures DistinctNodes(gens[m]) && FindNode(gens[m], name) >= 0 && Marked(trace[m].stored, name).0 == IsTrue
    ensures OnlyRestarts(trace, gens, a, b, name) ==>
              OnlyRestarts(trace, gens, a, m, name) && !UpgradeScheduled(EntryOf(trace[m].stored, name))
  {
    hide DistinctNodes, FindNode, EntryOf, UpgradeScheduled;
    forall i | a <= i < m
      ensures DistinctNodes(gens[i]) && FindNode(gens[i], name) >= 0 && Marked(trace[i].stored, name).0 == IsTrue
    {
    }
    assert gens[m] in gens;
  }

  lemma OngoingAtFirst(trace: seq<Cluster>, gens: seq<seq<NodeState>>, a: nat, b: nat, name: string)
    requires |trace| == |gens| + 1 && Ongoing(trace, gens, a, b, name) && a < b
    ensures Marked(trace[a].stored, name).0 == IsTrue
  {
    assert gens[a] in gens;
  }

  lemma NoCalls(env: Env, w: World, w': World, name: string, size: int)
    requires Calm(w, w', name)
    ensures CycleBetween(env, w, w', name, size, [], [])
  {
  }

  lemma CallKeepsSize(env: Env, s: Step, u: bool)
    requires InCycle(s)
    ensures Sts.Call(env, s, u).n.clusterSize == s.n.clusterSize
  {
    SpacedStart(s.w.log, s.n.name, s.n.clusterSize);
    CallSpaced(env, s, u, |s.w.log|);
  }

  // ----- the theorems, for runs -----

  lemma SpacedAround(w: World, w1: World, w2: World, w3: World, name: string, size: int)
    requires Calm(w, w1, name) && w1.log <= w2.log && Spaced(w2.log, |w1.log|, name, size) && Calm(w2, w3, name)
    ensures Spaced(w3.log, |w.log|, name, size)
  {
    var log := w3.log;
    forall i | |w.log| <= i < |w1.log| ensures !(log[i].Partition? && log[i].node == name) {
      assert log[i] == w2.log[i] == w1.log[i];
    }
    forall i | |w1.log| <= i < |w2.log| ensures log[i] == w2.log[i] {
    }
    forall i, l | |w.log| <= i < l < |log| && Lowering(log[i], name) && Lowering(log[l], name)
      ensures exists k :: i < k < l && SeenBack(log[k], name, size)
    {
      var k :| i < k < l && SeenBack(w2.log[k], name, size);
      assert log[k] == w2.log[k];
    }
  }

  /**
   * One-step rollout, in runs: over any passes that find the node under upgrade, its partition never
   * rises, and between two lowerings a poll saw the cluster back at the recorded size, really so if
   * a size is recorded.
   */
  lemma RolloutsInRuns(
    env: Env, trace: seq<Cluster>, gens: seq<seq<NodeState>>, a: nat, b: nat, j: nat, name: string, size: int, mark: Mark)
    requires IsRun(env, trace, gens) && Ongoing(trace, gens, a, b, name) && Kept(trace[a], j, name, size, mark)
    ensures name in trace[b].w.objects && trace[b].w.objects[name].partition <= trace[a].w.objects[name].partition
    ensures Spaced(trace[b].w.log, |trace[a].w.log|, name, size)
    ensures size > 0 ==> ReallySpaced(trace[b].w.log, |trace[a].w.log|, name, size)
  {
    var k, starts, updating := RunIsCycle(env, trace, gens, a, b, j, name, size, mark);
    hide Pass, Sts.Call, Spaced, ReallySpaced;
    var w, w' := trace[a].w, trace[b].w;
    if starts == [] {
      CalmReflexive(w, name);
      SpacedStart(w.log, name, size);
      SpacedAround(w, w, w, w', name, size);
    } else {
      PartitionLowersOneRejoinAtATime(env, starts, updating);
      var t := LastCall(env, starts, updating);
      assert starts[0].w.log <= t.w.log by {
        CycleGrows(env, starts, updating);
      }
      SpacedAround(w, starts[0].w, t.w, w', name, size);
    }
    if size > 0 {
      SpacedByReadings(w'.log, |w.log|, name, size);
    }
  }

  lemma {:induction false} CycleGrows(env: Env, starts: seq<Step>, updating: seq<bool>)
    requires CycleOfCalls(env, starts, updating)
    ensures starts[0].w.log <= LastCall(env, starts, updating).w.log
    decreases |starts|
  {
    hide Sts.Call, Resumes;
    var last := |starts| - 1;
    CallGrowsLog(env, starts[last], updating[last]);
    if last > 0 {
      CycleGrows(env, starts[..last], updating[..last]);
      ResumeGrowsLog(Sts.Call(env, starts[last - 1], updating[last - 1]), starts[last]);
    }
  }

  lemma CallGrowsLog(env: Env, s: Step, u: bool)
    ensures s.w.log <= Sts.Call(env, s, u).w.log
  {
    Sts.CallTame(env, s, u);
    hide Sts.Call;
  }

  lemma ResumeGrowsLog(t: Step, s: Step)
    requires Resumes(t, s)
    ensures t.w.log <= s.w.log
  {
  }

  lemma AllCycledWeakens(log: seq<Event>, from: nat, from': nat, name: string, low: int, high: int, high': int)
    requires AllCycled(log, from, name, low, high) && from' <= from && high' <= high
    ensures AllCycled(log, from', name, low, high')
  {
    forall o | low <= o < high' ensures Cycled(log, from', name, o) {
      assert Cycled(log, from, name, o);
    }
  }

  /** Calm work cycles nothing. */
  lemma CalmCyclesNothing(w: World, w': World, from: nat, name: string, low: int, high: int)
    requires Calm(w, w', name)
    ensures AllCycled(w'.log, from, name, low, high) <==> AllCycled(w.log, from, name, low, high)
  {
    if AllCycled(w.log, from, name, low, high) {
      AllCycledExtends(w.log, w'.log, from, name, low, high);
    }
    if AllCycled(w'.log, from, name, low, high) {
      forall o | low <= o < high ensures Cycled(w.log, from, name, o) {
        assert Cycled(w'.log, from, name, o);
        var i :| from <= i && CycledAt(w'.log, name, o, i);
        assert CycledAt(w.log, name, o, i);
      }
    }
  }

  /**
   * Restart completeness, in runs: over any passes that find the node under upgrade and not
   * scheduled for an update, every ordinal from the server's partition up to P, its partition at
   * first, is deleted and seen to leave; and once the node is no longer under upgrade, all
   * ordinals below R are if and only if R was at most P.
   */
  lemma RestartsInRuns(
    env: Env, trace: seq<Cluster>, gens: seq<seq<NodeState>>, a: nat, b: nat, j: nat, name: string, size: int, mark: Mark, R: nat)
    requires IsRun(env, trace, gens) && Ongoing(trace, gens, a, b, name) && Kept(trace[a], j, name, size, mark)
    requires OnlyRestarts(trace, gens, a, b, name) && mark.1 != RecoveringData
    requires trace[a].w.objects[name].partition >= 0
    ensures var P, log, from := trace[a].w.objects[name].partition, trace[b].w.log, |trace[a].w.log|;
            && name in trace[b].w.objects
            && AllCycled(log, from, name, Max0(trace[b].w.objects[name].partition), P)
            && (a < b && Marked(trace[b].stored, name).0 != IsTrue ==> (AllCycled(log, from, name, 0, R) <==> R <= P))
  {
    var k, starts, updating := RunIsCycle(env, trace, gens, a, b, j, name, size, mark);
    hide Pass, Sts.Call, AllCycled, Cycled, CycledAt, Reaches;
    var w, w' := trace[a].w, trace[b].w;
    var P, p, from := w.objects[name].partition, w'.objects[name].partition, |w.log|;
    if starts == [] {
      assert AllCycled(w'.log, from, name, Max0(p), P) by {
        EmptyRange(w'.log, from, name, P);
      }
    } else {
      var first, t := starts[0], LastCall(env, starts, updating);
      RestartDeletesEveryOrdinal(env, starts, updating, P);
      var low := Max0(p);
      AllCycledExtends(t.w.log, w'.log, |first.w.log|, name, low, P);
      AllCycledWeakens(w'.log, |first.w.log|, from, name, low, P, P);
      if t.u.under != IsTrue {
        if R <= P {
          AllCycledExtends(t.w.log, w'.log, |first.w.log|, name, 0, P);
          AllCycledWeakens(w'.log, |first.w.log|, from, name, 0, P, R);
        } else {
          CalmReaches(w, first.w, name, P);
          CycleReaches(env, starts, updating);
          ReachesTransitive(w.log, first.w.log, t.w.log, name, P);
          CalmReaches(t.w, w', name, P);
          ReachesTransitive(w.log, t.w.log, w'.log, name, P);
          BeyondReach(w.log, w'.log, name, P, R);
        }
      }
    }
  }

  function Max0(x: int): int {
    if x > 0 then x else 0
  }

  lemma EmptyRange(log: seq<Event>, from: nat, name: string, P: int)
    ensures AllCycled(log, from, name, P, P)
  {
  }

  lemma BeyondReach(log: seq<Event>, log': seq<Event>, name: string, P: int, R: nat)
    requires Reaches(log, log', name, P) && P < R && 0 < R
    ensures !AllCycled(log', |log|, name, 0, R)
  {
    assert !Cycled(log', |log|, name, R - 1);
  }

  /** A call that leaves the node under upgrade has begun the cycle, if it was not under upgrade before. */
  lemma BeginsIfUnder(env: Env, s: Step, u: bool)
    requires s.go && s.u.under != IsTrue && s.n.name in s.w.objects && Sts.Call(env, s, u).u.under == IsTrue
    ensures Sts.BeginCycle(env, s, !u).go
  {
    hide ExecuteUpdate, Sts.SetPartition, Sts.Loop, Grows;
  }

  lemma OnKept(c: Cluster, k: nat, name: string, size: int, marks: set<Mark>)
    requires On(c, k, name, size, marks)
    ensures Kept(c, k, name, size, Marked(c.stored, name)) && Marked(c.stored, name) in marks
  {
  }

  /** The pass that begins a restart: calm work up to s, the call made there, and calm work after it. */
  lemma RestartBeginsInPass(env: Env, c: Cluster, gen: seq<NodeState>, j: nat, name: string, size: int, mark: Mark)
    returns (k: nat, s: Step)
    requires Kept(c, j, name, size, mark) && mark.0 != IsTrue && DistinctNodes(gen) && FindNode(gen, name) >= 0
    requires !UpgradeScheduled(EntryOf(c.stored, name)) && Marked(Pass(env, c, gen).stored, name).0 == IsTrue
    ensures s.go && s.n.name == name && MarkOf(s.u) == mark && Calm(c.w, s.w, name) && name in s.w.objects
    ensures Sts.BeginCycle(env, s, true).go
    ensures var begun, r := Sts.BeginCycle(env, s, true), Pass(env, c, gen);
            var t := Sts.Call(env, begun, false);
            && InCycle(begun) && begun.n.name == name && begun.u.phase == mark.1
            && t.n.name == name && Calm(t.w, r.w, name)
            && t.n.clusterSize == begun.n.clusterSize
            && Kept(r, k, name, begun.n.clusterSize, Marked(r.stored, name))
            && (mark.1 != RecoveringData ==> Marked(r.stored, name).1 != RecoveringData)
  {
    var call, u;
    k, call, u := PassAtMostOneCall(env, c, gen, j, name, size, mark);
    hide Pass, EntryOf, FindNode, DistinctNodes, Sts.Call, Sts.BeginCycle, Calm, On, Kept;
    var r := Pass(env, c, gen);
    if call.None? {
      OnKept(r, k, name, size, {mark});
    }
    s := call.value;
    var t := Sts.Call(env, s, false);
    OnKept(r, k, name, t.n.clusterSize, {mark, MarkOf(t.u)});
    BeginsIfUnder(env, s, false);
    CycleBegins(env, s, false);
    CallKeepsSize(env, Sts.BeginCycle(env, s, true), false);
    if mark.1 != RecoveringData {
      NeverStopsRecovering(env, Sts.BeginCycle(env, s, true), false);
    }
  }

  /**
   * What the unchecked write of the initial partition is worth, in runs.  The a-th pass begins a
   * restart of the node; every later pass before b finds it under upgrade and not scheduled for an
   * update; and at b it is done.  Then all R pods, for the replica count R read as it began, have been
   * restarted if and only if that write took effect, or the partition was already at least R.
   */
  lemma UncheckedWriteInRuns(
    env: Env, trace: seq<Cluster>, gens: seq<seq<NodeState>>, a: nat, b: nat, j: nat, name: string, size: int, mark: Mark)
    returns (s: Step)
    requires IsRun(env, trace, gens) && a + 1 < b < |trace|
    requires Kept(trace[a], j, name, size, mark) && mark.0 != IsTrue && mark.1 != RecoveringData
    requires DistinctNodes(gens[a]) && FindNode(gens[a], name) >= 0
    requires Ongoing(trace, gens, a + 1, b, name) && Marked(trace[b].stored, name).0 != IsTrue
    requires OnlyRestarts(trace, gens, a, b, name)
    ensures s.n.name == name && Calm(trace[a].w, s.w, name) && s.u.under != IsTrue && Sts.BeginCycle(env, s, true).go
    ensures var R := env(s.w.pos + 2).replicas;
            AllCycled(trace[b].w.log, |Sts.BeginCycle(env, s, true).w.log|, name, 0, R) <==>
              InitialWriteTakesEffect(env, s.w) || R <= trace[a].w.objects[name].partition || R <= 0
  {
    hide Pass, EntryOf, FindNode, DistinctNodes, Sts.Call, Sts.BeginCycle, Calm, Kept, Ongoing, OnlyRestarts, Marked, Grows,
      AllCycled, InitialWriteTakesEffect, UpgradeScheduled, InCycle;
    assert Marked(trace[a + 1].stored, name).0 == IsTrue by {
      OngoingAtFirst(trace, gens, a + 1, b, name);
    }
    FirstRestart(trace, gens, a, b, name);
    assert trace[a + 1] == Pass(env, trace[a], gens[a]);
    var k;
    k, s := RestartBeginsInPass(env, trace[a], gens[a], j, name, size, mark);
    FinishesFromBegun(env, trace, gens, a + 1, b, k, name, s);
    assert name in trace[a].w.objects by {
      KeptExists(trace[a], j, name, size, mark);
    }
    CalmPartitionKept(trace[a].w, s.w, name);
  }

  /** The rest of such a restart, once it has begun. */
  lemma FinishesFromBegun(
    env: Env, trace: seq<Cluster>, gens: seq<seq<NodeState>>, a: nat, b: nat, k: nat, name: string, s: Step)
    requires IsRun(env, trace, gens) && a < b && Ongoing(trace, gens, a, b, name) && OnlyRestarts(trace, gens, a, b, name)
    requires Marked(trace[b].stored, name).0 != IsTrue
    requires s.go && s.u.under != IsTrue && s.n.name == name && name in s.w.objects && Sts.BeginCycle(env, s, true).go
    requires var begun := Sts.BeginCycle(env, s, true);
             var t := Sts.Call(env, begun, false);
             && InCycle(begun) && begun.n.name == name && begun.u.phase != RecoveringData
             && t.n.name == name && t.n.clusterSize == begun.n.clusterSize && Calm(t.w, trace[a].w, name)
             && Kept(trace[a], k, name, begun.n.clusterSize, Marked(trace[a].stored, name))
             && Marked(trace[a].stored, name).1 != RecoveringData
    ensures var R := env(s.w.pos + 2).replicas;
            AllCycled(trace[b].w.log, |Sts.BeginCycle(env, s, true).w.log|, name, 0, R) <==>
              InitialWriteTakesEffect(env, s.w) || R <= s.w.objects[name].partition || R <= 0
  {
    assert b < |trace|;
    hide Pass, AllCycled, EntryOf, FindNode, DistinctNodes, Sts.Call, Sts.BeginCycle, Calm, Kept, Ongoing, OnlyRestarts,
      CycleBetween, Resumes, Marked, Grows, NeverRecovering, InitialWriteTakesEffect;
    var begun := Sts.BeginCycle(env, s, true);
    assert begun.go;
    var now := Marked(trace[a].stored, name);
    var _, rest, updating := RunIsCycle(env, trace, gens, a, b, k, name, begun.n.clusterSize, now);
    var starts, us := PrependCall(env, begun, trace[a].w, trace[b].w, name, rest, updating);
    UncheckedPartitionDecides(env, s, starts, us);
    CalmCyclesNothing(LastCall(env, starts, us).w, trace[b].w, |begun.w.log|, name, 0, env(s.w.pos + 2).replicas);
  }

  lemma FirstRestart(trace: seq<Cluster>, gens: seq<seq<NodeState>>, a: nat, b: nat, name: string)
    requires |trace| == |gens| + 1 && a < b < |trace| && OnlyRestarts(trace, gens, a, b, name)
    ensures OnlyRestarts(trace, gens, a + 1, b, name) && !UpgradeScheduled(EntryOf(trace[a].stored, name))
  {
    hide EntryOf, UpgradeScheduled;
    assert gens[a] in gens;
    forall i | a + 1 <= i < b ensures !UpgradeScheduled(EntryOf(trace[i].stored, name)) {
      assert gens[i] in gens;
    }
  }

  lemma KeptExists(c: Cluster, j: nat, name: string, size: int, mark: Mark)
    requires Kept(c, j, name, size, mark)
    ensures name in c.w.objects
  {
  }

  lemma CalmPartitionKept(w: World, w': World, name: string)
    requires Calm(w, w', name) && name in w.objects
    ensures name in w'.objects && w'.objects[name].partition == w.objects[name].partition
  {
  }

  /** A restart call, then a cycle of restarts. */
  lemma PrependCall(env: Env, s: Step, w: World, w': World, name: string, rest: seq<Step>, updating: seq<bool>)
    returns (starts: seq<Step>, us: seq<bool>)
    requires InCycle(s) && s.go && s.n.name == name && s.u.phase != RecoveringData
    requires var t := Sts.Call(env, s, false); t.n.name == name && Calm(t.w, w, name) && t.n.clusterSize == s.n.clusterSize
    requires CycleBetween(env, w, w', name, s.n.clusterSize, rest, updating) && NeverRecovering(rest)
    requires rest != [] && AllRestarts(updating)
    ensures CycleOfCalls(env, starts, us) && starts[0] == s && NeverRecovering(starts) && AllRestarts(us)
    ensures LastCall(env, starts, us) == LastCall(env, rest, updating) && Calm(LastCall(env, starts, us).w, w', name)
  {
    var t := Sts.Call(env, s, false);
    assert name in t.w.objects by {
      LastCallExists(env, [s], [false]);
    }
    hide Sts.Call, Calm, Grows;
    CalmTransitive(t.w, w, rest[0].w, name);
    starts, us := [s] + rest, [false] + updating;
    assert Resumes(t, rest[0]);
    ChainPrepends(env, s, rest, updating);
  }

  lemma ChainPrepends(env: Env, s: Step, rest: seq<Step>, updating: seq<bool>)
    requires CycleOfCalls(env, rest, updating) && InCycle(s) && Resumes(Sts.Call(env, s, false), rest[0])
    ensures CycleOfCalls(env, [s] + rest, [false] + updating)
  {
    hide Sts.Call, Resumes, InCycle;
    var starts, us := [s] + rest, [false] + updating;
    forall i | 0 <= i < |starts| - 1 ensures Resumes(Sts.Call(env, starts[i], us[i]), starts[i + 1]) {
      if i > 0 {
        assert Resumes(Sts.Call(env, rest[i - 1], updating[i - 1]), rest[i]);
      }
    }
  }
}
