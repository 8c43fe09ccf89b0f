/**
 * Convergence of a cluster of Deployment nodes: with the spec and the secret fixed, every
 * external call succeeding and no pod unschedulable, a run that starts with k nodes under
 * upgrade is settled after k + 5 passes and stays so.
 */
module Convergence {
  import opened Base
  import opened Comparison
  import opened Drift
  import opened Environment
  import opened Workload
  import Dep = DeploymentUpgrade
  import opened Reconcile
  import opened Footprint
  import opened StatusIndex
  import opened CleanCalls

  // ----- the setting -----

  ghost predicate DeploymentsOnly(gen: seq<NodeState>) {
    DistinctNodes(gen) && forall i :: 0 <= i < |gen| ==> gen[i].kind.Deployment?
  }

  ghost predicate CalmEntry(e: Entry, gen: seq<NodeState>) {
    && FindNode(gen, Key(e)) >= 0 && !e.unschedulable
    && (e.upgrade.under != IsTrue ==> AtStart(e.upgrade.phase))
  }

  ghost predicate CalmEntries(entries: seq<Entry>, gen: seq<NodeState>) {
    UniqueKeys(entries) && forall i :: 0 <= i < |entries| ==> CalmEntry(entries[i], gen)
  }

  /**
   * Where a run may start: indexed status entries that name generated nodes, none
   * unschedulable; and a cache in which generated names are Deployments.
   */
  ghost predicate Ready(c: Cluster, gen: seq<NodeState>) {
    && DistinctNodes(c.nodes) && CalmEntries(c.stored, gen)
    && forall i :: 0 <= i < |c.nodes| && FindNode(gen, c.nodes[i].name) >= 0 ==> c.nodes[i].kind.Deployment?
  }

  /** The cache lists the generated nodes in order, and the status is stored. */
  ghost predicate Aligned(c: Cluster, gen: seq<NodeState>) {
    && |c.nodes| == |gen| && DistinctNodes(c.nodes)
    && (forall i :: 0 <= i < |gen| ==> c.nodes[i].name == gen[i].name && c.nodes[i].kind.Deployment?)
    && c.mem == c.stored && CalmEntries(c.mem, gen)
  }

  /** node.self holds the generated spec, as it does right after the cache was refreshed. */
  ghost predicate Desired(c: Cluster, gen: seq<NodeState>, i: nat)
    requires i < |c.nodes| && i < |gen|
  {
    c.nodes[i].self.spec == gen[i].self.spec
  }

  ghost predicate HasEntry(c: Cluster, name: string) {
    FindEntry(c.mem, name) >= 0
  }

  ghost predicate ObjectAgrees(c: Cluster, n: NodeState) {
    n.name in c.w.objects && Agrees(c.w.objects[n.name], n.self.spec)
  }

  ghost predicate ObjectPaused(c: Cluster, n: NodeState) {
    n.name in c.w.objects && c.w.objects[n.name].paused
  }

  /** Nothing about the i-th node changed. */
  ghost predicate Untouched(c: Cluster, c': Cluster, i: nat) {
    && i < |c.nodes| == |c'.nodes| && c'.nodes[i] == c.nodes[i]
    && (HasEntry(c, c.nodes[i].name) <==> HasEntry(c', c.nodes[i].name))
    && EntryOf(c'.mem, c.nodes[i].name) == EntryOf(c.mem, c.nodes[i].name)
    && (c.nodes[i].name in c.w.objects <==> c.nodes[i].name in c'.w.objects)
    && (c.nodes[i].name in c.w.objects ==> c'.w.objects[c.nodes[i].name] == c.w.objects[c.nodes[i].name])
  }

  ghost predicate OthersUntouched(c: Cluster, c': Cluster, i: nat) {
    forall j :: 0 <= j < |c.nodes| && j != i ==> Untouched(c, c', j)
  }

  // ----- entries -----

  lemma CalmPut(entries: seq<Entry>, gen: seq<NodeState>, name: string, e: Entry)
    requires CalmEntries(entries, gen) && name != "" && Named(e) && Key(e) == name && CalmEntry(e, gen)
    ensures CalmEntries(PutEntry(entries, FindEntry(entries, name), e), gen)
  {
    PutEntryLookup(entries, name, e, "");
  }

  lemma CalmEntryOf(entries: seq<Entry>, gen: seq<NodeState>, name: string)
    requires CalmEntries(entries, gen) && name != "" && FindEntry(entries, name) >= 0
    ensures var e := EntryOf(entries, name); CalmEntry(e, gen) && Named(e) && Key(e) == name && e in entries
  {
    FindEntryKey(entries, name);
  }

  /** A clean write of the status stores exactly the new entries. */
  lemma CleanStore(env: Env, c: Cluster, entries: seq<Entry>)
    requires c.mem == c.stored && Store(env, c, entries).w.clean
    ensures var r := Store(env, c, entries);
            r.mem == entries && r.stored == entries && r.nodes == c.nodes && r.w.objects == c.w.objects && c.w.clean
  {
  }

  // ----- visiting a node -----

  /** What a clean visit makes of the i-th node. */
  ghost predicate Settled(c: Cluster, gen: seq<NodeState>, i: nat, hash: string)
    requires i < |c.nodes| && i < |gen|
  {
    && HasEntry(c, gen[i].name)
    && EntryOf(c.mem, gen[i].name).upgrade == Upgrade(Blank, Blank, Blank, ControllerUpdated)
    && c.nodes[i].secretHash == hash
    && gen[i].name in c.w.objects
  }

  /** The treated node and entry, after a clean call that starts a cycle. */
  lemma CleanTreat(env: Env, n: NodeState, e: Entry, w: World, updating: bool, hash: string)
    requires FixedSecret(env, hash) && n.kind.Deployment? && AtStart(e.upgrade.phase)
    requires Treat(env, n, e, w, updating).2.clean
    ensures var (n', e', w') := Treat(env, n, e, w, updating);
            && e'.upgrade == Upgrade(Blank, Blank, Blank, ControllerUpdated)
            && n'.secretHash == hash && n.name in w'.objects
            && (updating ==> Agrees(w'.objects[n.name], n.self.spec) && w'.objects[n.name].paused)
            && (!updating ==> n.name in w.objects && w'.objects[n.name] == w.objects[n.name].(replicas := 1))
  {
    hide Dep.Call, State, Agrees, Grows;
    var s := Dep.Call(env, Step(n, e.upgrade, w, true), updating);
    StateGrows(env, s.n, s.w);
    CleanMonotone(s.w, State(env, s.n, s.w).3, s.n.name);
    CleanCallFromStart(env, Step(n, e.upgrade, w, true), updating, hash);
    CleanState(env, s.n, s.w, hash);
    SameComparedSelf(s.w.objects[n.name], s.n.self.spec);
  }

  /** And after a clean call that continues a cycle. */
  lemma CleanTreatFinishes(env: Env, n: NodeState, e: Entry, w: World, updating: bool, hash: string)
    requires FixedSecret(env, hash) && n.kind.Deployment? && Treat(env, n, e, w, updating).2.clean
    ensures var (n', e', w') := Treat(env, n, e, w, updating);
            e'.upgrade.under == Blank && e'.upgrade.phase == ControllerUpdated
  {
    hide Dep.Call, State, Grows;
    var s := Dep.Call(env, Step(n, e.upgrade, w, true), updating);
    StateGrows(env, s.n, s.w);
    CleanMonotone(s.w, State(env, s.n, s.w).3, s.n.name);
    CleanCallFinishes(env, Step(n, e.upgrade, w, true), updating, hash);
  }

  /** The frame of a clean visit: alignment and the other nodes. */
  lemma VisitFrame(env: Env, c: Cluster, gen: seq<NodeState>, i: nat, updating: bool)
    requires Aligned(c, gen) && i < |c.nodes| && HasEntry(c, c.nodes[i].name)
    requires Visit(env, c, i, updating).w.clean
    requires var e' := Treat(env, c.nodes[i], EntryOf(c.mem, c.nodes[i].name), c.w, updating).1;
             e'.upgrade.under != IsTrue ==> AtStart(e'.upgrade.phase)
    ensures var r := Visit(env, c, i, updating);
            var (n', e', w') := Treat(env, c.nodes[i], EntryOf(c.mem, c.nodes[i].name), c.w, updating);
            && Aligned(r, gen) && OthersUntouched(c, r, i)
            && HasEntry(r, c.nodes[i].name) && EntryOf(r.mem, c.nodes[i].name) == e'
            && r.nodes[i] == n' && r.w.objects == w'.objects && w'.clean && c.w.clean
            && r.mem == PutEntry(c.mem, FindEntry(c.mem, c.nodes[i].name), e')
  {
    hide Treat, Store, UniqueKeys, FindEntry, EntryOf, PutEntry, Grows, Named, Key;
    var name := c.nodes[i].name;
    var e := EntryOf(c.mem, name);
    var (n', e', w') := Treat(env, c.nodes[i], e, c.w, updating);
    TreatFollows(env, c.nodes[i], e, c.w, updating);
    CalmEntryOf(c.mem, gen, name);
    SameNamesSameKey(e, e');
    var c1 := c.(nodes := c.nodes[i := n'], w := w');
    var entries := PutEntry(c.mem, FindEntry(c.mem, name), e');
    CleanStore(env, c1, entries);
    CleanMonotone(c.w, w', name);
    CalmPut(c.mem, gen, name, e');
    RenamedNodes(c.nodes, i, n');
    PutEntryLookup(c.mem, name, e', "");
    var r := Visit(env, c, i, updating);
    forall j | 0 <= j < |c.nodes| && j != i ensures Untouched(c, r, j) {
      PutEntryLookup(c.mem, name, e', c.nodes[j].name);
      OtherObject(c.w, w', name, c.nodes[j].name);
    }
  }

  /** A node in a batch that has not been treated yet. */
  ghost predicate Waiting(c: Cluster, gen: seq<NodeState>, i: nat)
    requires i < |c.nodes| && i < |gen|
  {
    && Desired(c, gen, i) && HasEntry(c, gen[i].name)
    && EntryOf(c.mem, gen[i].name).upgrade.under != IsTrue
  }

  lemma VisitSettles(env: Env, c: Cluster, gen: seq<NodeState>, i: nat, updating: bool, hash: string)
    requires FixedSecret(env, hash) && Aligned(c, gen) && i < |c.nodes| && Waiting(c, gen, i)
    requires Visit(env, c, i, updating).w.clean
    ensures var r := Visit(env, c, i, updating);
            && Aligned(r, gen) && OthersUntouched(c, r, i) && Settled(r, gen, i, hash)
            && (updating || ObjectAgrees(c, gen[i]) ==> ObjectAgrees(r, gen[i]))
            && (updating || ObjectPaused(c, gen[i]) ==> ObjectPaused(r, gen[i]))
  {
    hide Treat, Visit, FindEntry, EntryOf, Agrees, CalmEntries, DistinctNodes;
    var name := c.nodes[i].name;
    var e := EntryOf(c.mem, name);
    assert name == gen[i].name && name != "" by {
      AlignedName(c, gen, i);
    }
    CalmEntryOf(c.mem, gen, name);
    var (n', e', w') := Treat(env, c.nodes[i], e, c.w, updating);
    assert w'.clean by {
      VisitCleanTreat(env, c, i, updating);
    }
    CleanTreat(env, c.nodes[i], e, c.w, updating, hash);
    VisitFrame(env, c, gen, i, updating);
    if !updating {
      SameComparedAgrees(w'.objects[name], c.w.objects[name], gen[i].self.spec);
    }
  }

  lemma AlignedName(c: Cluster, gen: seq<NodeState>, i: nat)
    requires Aligned(c, gen) && i < |c.nodes|
    ensures c.nodes[i].name == gen[i].name && c.nodes[i].name != ""
  {
  }

  lemma VisitCleanTreat(env: Env, c: Cluster, i: nat, updating: bool)
    requires i < |c.nodes| && Visit(env, c, i, updating).w.clean
    ensures Treat(env, c.nodes[i], EntryOf(c.mem, c.nodes[i].name), c.w, updating).2.clean
    ensures c.w.clean
  {
    hide Treat;
    TreatFollows(env, c.nodes[i], EntryOf(c.mem, c.nodes[i].name), c.w, updating);
  }

  // ----- batches -----

  lemma {:induction false} BatchClean(env: Env, c: Cluster, todo: seq<nat>, updating: bool)
    requires Positions(todo, |c.nodes|) && Batch(env, c, todo, updating).w.clean
    ensures c.w.clean
    decreases |todo|
  {
    hide Visit;
    if todo != [] {
      BatchClean(env, Visit(env, c, todo[0], updating), todo[1..], updating);
      VisitCleanTreat(env, c, todo[0], updating);
    }
  }

  ghost predicate AllWaiting(c: Cluster, gen: seq<NodeState>, todo: seq<nat>)
    requires |c.nodes| == |gen| && Positions(todo, |c.nodes|)
  {
    forall t :: 0 <= t < |todo| ==> Waiting(c, gen, todo[t])
  }

  ghost predicate AllSettled(c: Cluster, c': Cluster, gen: seq<NodeState>, todo: seq<nat>, updating: bool, hash: string)
    requires |c.nodes| == |c'.nodes| == |gen| && Positions(todo, |c.nodes|)
  {
    forall t :: 0 <= t < |todo| ==>
      && Settled(c', gen, todo[t], hash)
      && (updating || ObjectAgrees(c, gen[todo[t]]) ==> ObjectAgrees(c', gen[todo[t]]))
      && (updating || ObjectPaused(c, gen[todo[t]]) ==> ObjectPaused(c', gen[todo[t]]))
  }

  ghost predicate RestUntouched(c: Cluster, c': Cluster, todo: seq<nat>) {
    forall j: nat :: j < |c.nodes| && j !in todo ==> Untouched(c, c', j)
  }

  lemma {:induction false} BatchSettles(env: Env, c: Cluster, gen: seq<NodeState>, todo: seq<nat>, updating: bool, hash: string)
    requires FixedSecret(env, hash) && Aligned(c, gen) && Positions(todo, |c.nodes|) && NoDuplicates(todo)
    requires AllWaiting(c, gen, todo) && Batch(env, c, todo, updating).w.clean
    ensures var r := Batch(env, c, todo, updating);
            && Aligned(r, gen) && AllSettled(c, r, gen, todo, updating, hash) && RestUntouched(c, r, todo)
    decreases |todo|
  {
    hide Visit, Settled, Untouched, ObjectAgrees, ObjectPaused, Waiting, CalmEntries, DistinctNodes;
    if todo == [] {
      forall j: nat | j < |c.nodes| ensures Untouched(c, c, j) {
        UntouchedReflexive(c, j);
      }
    } else {
      var i, rest := todo[0], todo[1..];
      var c1 := Visit(env, c, i, updating);
      BatchClean(env, c1, rest, updating);
      VisitSettles(env, c, gen, i, updating, hash);
      assert NoDuplicates(rest);
      assert i !in rest;
      forall t | 0 <= t < |rest| ensures Waiting(c1, gen, rest[t]) {
        assert rest[t] == todo[t + 1] && rest[t] != i;
        WaitingUntouched(c, c1, gen, rest[t]);
      }
      BatchSettles(env, c1, gen, rest, updating, hash);
      var r := Batch(env, c1, rest, updating);
      BatchStep(c, c1, r, gen, todo, updating, hash);
    }
  }

  lemma BatchStep(c: Cluster, c1: Cluster, r: Cluster, gen: seq<NodeState>, todo: seq<nat>, updating: bool, hash: string)
    requires todo != [] && Positions(todo, |c.nodes|) && NoDuplicates(todo) && Positions(todo[1..], |c.nodes|)
    requires Aligned(c, gen) && Aligned(c1, gen) && Aligned(r, gen)
    requires OthersUntouched(c, c1, todo[0]) && Settled(c1, gen, todo[0], hash)
    requires updating || ObjectAgrees(c, gen[todo[0]]) ==> ObjectAgrees(c1, gen[todo[0]])
    requires updating || ObjectPaused(c, gen[todo[0]]) ==> ObjectPaused(c1, gen[todo[0]])
    requires AllSettled(c1, r, gen, todo[1..], updating, hash) && RestUntouched(c1, r, todo[1..])
    ensures AllSettled(c, r, gen, todo, updating, hash) && RestUntouched(c, r, todo)
  {
    hide Settled, Untouched, ObjectAgrees, ObjectPaused, CalmEntries, DistinctNodes;
    var i, rest := todo[0], todo[1..];
    assert i !in rest;
    assert Untouched(c1, r, i);
    SettledUntouched(c1, r, gen, i, hash);
    forall t | 0 <= t < |todo|
      ensures Settled(r, gen, todo[t], hash)
      ensures updating || ObjectAgrees(c, gen[todo[t]]) ==> ObjectAgrees(r, gen[todo[t]])
      ensures updating || ObjectPaused(c, gen[todo[t]]) ==> ObjectPaused(r, gen[todo[t]])
    {
      if t > 0 {
        assert rest[t - 1] == todo[t] && todo[t] != i;
        SettledUntouchedObject(c, c1, gen, todo[t]);
      }
    }
    forall j: nat | j < |c.nodes| && j !in todo ensures Untouched(c, r, j) {
      assert j != i && j !in rest;
      UntouchedTransitive(c, c1, r, j);
    }
  }

  lemma UntouchedReflexive(c: Cluster, i: nat)
    requires i < |c.nodes|
    ensures Untouched(c, c, i)
  {
  }

  lemma UntouchedTransitive(a: Cluster, b: Cluster, c: Cluster, i: nat)
    requires Untouched(a, b, i) && Untouched(b, c, i)
    ensures Untouched(a, c, i)
  {
    hide FindEntry, EntryOf;
  }

  lemma WaitingUntouched(c: Cluster, c': Cluster, gen: seq<NodeState>, i: nat)
    requires Aligned(c, gen) && i < |gen| && Untouched(c, c', i) && Waiting(c, gen, i)
    ensures Waiting(c', gen, i)
  {
  }

  lemma SettledUntouched(c: Cluster, c': Cluster, gen: seq<NodeState>, i: nat, hash: string)
    requires Aligned(c, gen) && i < |gen| && Untouched(c, c', i) && Settled(c, gen, i, hash)
    ensures Settled(c', gen, i, hash)
    ensures ObjectAgrees(c, gen[i]) ==> ObjectAgrees(c', gen[i])
    ensures ObjectPaused(c, gen[i]) ==> ObjectPaused(c', gen[i])
  {
    hide Agrees;
  }

  lemma SettledUntouchedObject(c: Cluster, c': Cluster, gen: seq<NodeState>, i: nat)
    requires Aligned(c, gen) && i < |gen| && Untouched(c, c', i)
    ensures ObjectAgrees(c, gen[i]) <==> ObjectAgrees(c', gen[i])
    ensures ObjectPaused(c, gen[i]) <==> ObjectPaused(c', gen[i])
  {
    hide Agrees;
  }
}
