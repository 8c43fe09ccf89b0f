/** Where status entries come from: every stored entry is about a node that some pass generated. */
module Provenance {
  import opened Base
  import opened Environment
  import opened Workload
  import opened Reconcile
  import opened Footprint
  import opened StatusIndex

  ghost predicate Known(entries: seq<Entry>, names: set<string>) {
    forall e :: e in entries ==> Key(e) in names
  }

  ghost predicate BothKnown(c: Cluster, names: set<string>) {
    Known(c.mem, names) && Known(c.stored, names)
  }

  lemma PutKnown(entries: seq<Entry>, k: int, e: Entry, names: set<string>)
    requires k < |entries| && Known(entries, names) && Key(e) in names
    ensures Known(PutEntry(entries, k, e), names)
  {
    hide Key;
    forall x | x in PutEntry(entries, k, e) ensures Key(x) in names {
      assert x == e || x in entries;
    }
  }

  lemma StoreKnown(env: Env, c: Cluster, entries: seq<Entry>, names: set<string>)
    requires BothKnown(c, names) && Known(entries, names)
    ensures BothKnown(Store(env, c, entries), names) && Store(env, c, entries).nodes == c.nodes
  {
    StoreShape(env, c, entries);
    hide Store, Known;
  }

  lemma VisitKnown(env: Env, c: Cluster, i: nat, updating: bool, names: set<string>)
    requires BothKnown(c, names) && i < |c.nodes| && FindEntry(c.mem, c.nodes[i].name) >= 0
    ensures BothKnown(Visit(env, c, i, updating), names)
  {
    var k := FindEntry(c.mem, c.nodes[i].name);
    var e := c.mem[k];
    assert e in c.mem;
    TreatFollows(env, c.nodes[i], e, c.w, updating);
    hide Treat, FindEntry, Known;
    var (n, e', w) := Treat(env, c.nodes[i], e, c.w, updating);
    assert Key(e') in names by {
      KnownEntry(c.mem, e, names);
    }
    PutKnown(c.mem, k, e', names);
    StoreKnown(env, c.(nodes := c.nodes[i := n], w := w), c.mem[k := e'], names);
  }

  lemma KnownEntry(entries: seq<Entry>, e: Entry, names: set<string>)
    requires Known(entries, names) && e in entries
    ensures Key(e) in names
  {
  }

  lemma {:induction false} BatchKnown(env: Env, c: Cluster, todo: seq<nat>, updating: bool, names: set<string>)
    requires Indexed(c) && BothKnown(c, names) && Positions(todo, |c.nodes|) && HaveEntries(c, todo)
    ensures BothKnown(Batch(env, c, todo, updating), names)
    decreases |todo|
  {
    if todo != [] {
      VisitKnown(env, c, todo[0], updating, names);
      VisitIndexed(env, c, todo[0], updating);
      StillHaveEntries(env, c, todo, updating);
      hide Visit, BothKnown, HaveEntries, Indexed;
      BatchKnown(env, Visit(env, c, todo[0], updating), todo[1..], updating, names);
    }
  }

  lemma MakeKnown(env: Env, c: Cluster, i: nat, names: set<string>)
    requires BothKnown(c, names) && i < |c.nodes| && c.nodes[i].name in names
    ensures BothKnown(Make(env, c, i).1, names)
    ensures |Make(env, c, i).1.nodes| == |c.nodes|
    ensures forall j :: 0 <= j < |c.nodes| ==> Make(env, c, i).1.nodes[j].name == c.nodes[j].name
  {
    var a := env(c.w.pos);
    var c1 := c.(mem := if a.ok || a.loaded then c.stored else c.mem, w := Tick(c.w, a.ok));
    if a.ok {
      var name := c.nodes[i].name;
      var k := FindEntry(c.mem, name);
      var e := EntryOf(c.mem, name);
      RaiseFollows(env, c.nodes[i], e, k < 0, c1.w);
      assert k >= 0 ==> Key(e) in names by {
        if k >= 0 {
          assert e in c.mem;
          KnownEntry(c.mem, e, names);
        }
      }
      hide Raise, Known, FindEntry;
      var (ok, n, e', w) := Raise(env, c.nodes[i], e, k < 0, c1.w);
      if ok {
        PutKnown(c.mem, k, e', names);
        StoreKnown(env, c1.(nodes := c.nodes[i := n], w := w), PutEntry(c.mem, k, e'), names);
      }
    }
  }

  lemma {:induction false} MakeAllKnown(env: Env, c: Cluster, i: nat, names: set<string>)
    requires BothKnown(c, names) && i <= |c.nodes| && forall j :: 0 <= j < |c.nodes| ==> c.nodes[j].name in names
    ensures BothKnown(MakeAll(env, c, i).1, names)
    decreases |c.nodes| - i
  {
    if i < |c.nodes| {
      MakeKnown(env, c, i, names);
      hide Make, BothKnown;
      var (ok, c1) := Make(env, c, i);
      if ok {
        MakeAllKnown(env, c1, i + 1, names);
      }
    }
  }

  lemma WorkKnown(env: Env, c: Cluster, names: set<string>)
    requires Indexed(c) && BothKnown(c, names) && forall j :: 0 <= j < |c.nodes| ==> c.nodes[j].name in names
    ensures BothKnown(Work(env, c).1, names)
  {
    hide Visit, Batch, MakeAll, Scheduled, Indexed, BothKnown, FindEntry;
    match ModeOf(c) {
      case Continue(i, updating) =>
        assert FindEntry(c.mem, c.nodes[i].name) >= 0;
        VisitKnown(env, c, i, updating, names);
      case Upgrades(todo) =>
        ScheduledHasEntry(c, false);
        BatchKnown(env, c, todo, true, names);
      case Redeploys(todo) =>
        ScheduledHasEntry(c, true);
        BatchKnown(env, c, todo, false, names);
      case Creates =>
        MakeAllKnown(env, c, 0, names);
    }
  }

  lemma {:induction false} PurgeKnown(
    env: Env, c: Cluster, gen: seq<NodeState>, i: nat, reviewed: bool, names: set<string>)
    requires UniqueKeys(c.mem) && DistinctNodes(c.nodes) && i <= |c.nodes| && Known(c.mem, names)
    ensures Known(Purge(env, c, gen, i, reviewed).mem, names)
    decreases |c.nodes| - i
  {
    if i < |c.nodes| {
      var name := c.nodes[i].name;
      if FindNode(gen, name) >= 0 {
        PurgeKnown(env, c, gen, i + 1, reviewed, names);
      } else {
        var w1 := if reviewed then c.w else Note(c.w, MinMasters(""));
        var c1 := c.(mem := DropEntry(c.mem, name), w := Delete(env, w1, name));
        DropEntryIndexed(c.mem, name);
        hide DropEntry, UniqueKeys, DistinctNodes, FindNode;
        forall e | e in c1.mem ensures Key(e) in names {
          DropEntryElement(c.mem, name, e);
        }
        PurgeKnown(env, c1, gen, i + 1, true, names);
      }
    }
  }

  /** A pass adds no entry but for nodes that it generates. */
  lemma PassKnown(env: Env, c: Cluster, gen: seq<NodeState>, names: set<string>)
    requires Indexed(c) && DistinctNodes(gen) && Known(c.stored, names)
    requires forall i :: 0 <= i < |gen| ==> gen[i].name in names
    ensures Known(Pass(env, c, gen).stored, names)
  {
    if env(c.w.pos).ok {
      var c0 := c.(mem := c.stored, w := Tick(c.w, true));
      PurgeKnown(env, c0, gen, 0, false, names);
      PurgeIndexed(env, c0, gen, 0, false);
      MergeDistinct(c0.nodes, gen);
      ProgressAllNodes(env, GetNodes(env, c0, gen), 0);
      PrepareIndexed(env, c, gen);
      var p := Prepare(env, c, gen);
      assert BothKnown(p, names);
      WorkKnown(env, p, names);
      var (ok, c1) := Work(env, p);
      hide Prepare, Work;
      var entries := Rescheduled(c1.mem, env(c1.w.pos).unschedulable);
      forall e | e in entries ensures Key(e) in names {
        var i :| 0 <= i < |entries| && entries[i] == e;
        KnownEntry(c1.mem, c1.mem[i], names);
      }
    }
  }
}
