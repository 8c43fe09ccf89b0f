/**
 * class Operator: one cluster's share of the operator process (pkg/k8shandler/cluster.go),
 * with the node cache as a list of objects and the custom resource's status as it is in
 * memory and as it is stored.  The loops follow the source, and every method is proved to
 * compute the function of Reconcile that the run properties are about.
 */
module OperatorObject {
  import opened Base
  import opened Environment
  import opened Workload
  import opened Reconcile
  import opened NodeObject

  /** Different positions hold different objects. */
  ghost predicate Separate(nodes: seq<Node>) {
    forall i, j :: 0 <= i < j < |nodes| ==> nodes[i] != nodes[j]
  }

  ghost predicate DistinctNames(nodes: seq<Node>) {
    forall i, j :: 0 <= i < j < |nodes| ==> nodes[i].name != nodes[j].name
  }

  ghost function Values(nodes: seq<Node>): (r: seq<NodeState>)
    reads nodes
    ensures |r| == |nodes|
    ensures forall i :: 0 <= i < |nodes| ==> r[i] == nodes[i].Value()
  {
    if nodes == [] then [] else Values(nodes[..|nodes| - 1]) + [nodes[|nodes| - 1].Value()]
  }

  lemma Associative<T>(a: seq<T>, b: seq<T>, c: seq<T>)
    ensures (a + b) + c == a + (b + c)
  {
  }

  lemma ChosenConcatenation(nodes: seq<Node>, a: seq<nat>, b: seq<nat>)
    requires Positions(a, |nodes|) && Positions(b, |nodes|)
    ensures Positions(a + b, |nodes|)
    ensures Chosen(nodes, a + b) == Chosen(nodes, a) + Chosen(nodes, b)
  {
  }

  lemma ChosenNext(nodes: seq<Node>, positions: seq<nat>, i: nat)
    requires Positions(positions, |nodes|) && i < |nodes|
    ensures Positions(positions + [i], |nodes|)
    ensures Chosen(nodes, positions + [i]) == Chosen(nodes, positions) + [nodes[i]]
  {
  }

  lemma NodesOfEnd(e: Entry, values: seq<NodeState>)
    ensures NodesOf(e, values, |values|) == []
  {
  }

  lemma ScheduledEnd(values: seq<NodeState>, redeploy: bool)
    ensures Scheduled([], values, redeploy) == []
  {
  }

  /** The positions that one node adds to its entry's list, and one entry to the schedule. */
  lemma NodesOfNext(e: Entry, values: seq<NodeState>, positions: seq<nat>, i: nat)
    requires i < |values|
    ensures positions + NodesOf(e, values, i)
         == (if Names(e, values[i].name) then positions + [i] else positions) + NodesOf(e, values, i + 1)
  {
    assert positions + ([i] + NodesOf(e, values, i + 1)) == (positions + [i]) + NodesOf(e, values, i + 1);
    assert [] + NodesOf(e, values, i + 1) == NodesOf(e, values, i + 1);
  }

  lemma ScheduledStep(entries: seq<Entry>, j: nat, values: seq<NodeState>, redeploy: bool) returns (here: seq<nat>)
    requires j < |entries|
    ensures here == if Flagged(entries[j], redeploy) then NodesOf(entries[j], values, 0) else []
    ensures Scheduled(entries[j..], values, redeploy) == here + Scheduled(entries[j + 1..], values, redeploy)
  {
    here := if Flagged(entries[j], redeploy) then NodesOf(entries[j], values, 0) else [];
    assert entries[j..][1..] == entries[j + 1..];
  }

  /** Purging sees the cached nodes' names only. */
  lemma {:induction false} PurgeSameNames(
    env: Env, c: Cluster, nodes: seq<NodeState>, gen: seq<NodeState>, i: nat, reviewed: bool)
    requires i <= |c.nodes| == |nodes|
    requires forall k :: 0 <= k < |nodes| ==> nodes[k].name == c.nodes[k].name
    ensures Purge(env, c.(nodes := nodes), gen, i, reviewed) == Purge(env, c, gen, i, reviewed).(nodes := nodes)
    decreases |nodes| - i
  {
    hide FindNodeFrom, FindEntryFrom;
    if i == |nodes| {
    } else if FindNode(gen, nodes[i].name) >= 0 {
      PurgeSameNames(env, c, nodes, gen, i + 1, reviewed);
    } else {
      var w1 := if reviewed then c.w else Note(c.w, MinMasters(""));
      var c1 := c.(mem := DropEntry(c.mem, nodes[i].name), w := Delete(env, w1, nodes[i].name));
      PurgeSameNames(env, c1, nodes, gen, i + 1, true);
    }
  }

  lemma CollectedIsMerged(cache: seq<NodeState>, gen: seq<NodeState>, current: seq<NodeState>)
    requires |current| == |gen|
    requires forall i :: 0 <= i < |gen| ==>
      current[i] == var k := FindNode(cache, gen[i].name); if k < 0 then gen[i] else cache[k].(self := gen[i].self)
    ensures current == Merge(cache, gen)
  {
    hide FindNodeFrom;
  }

  class Operator {
    const api: Api
    var nodes: seq<Node>
    var mem: seq<Entry>
    var stored: seq<Entry>

    ghost predicate Valid()
      reads this
    {
      Separate(nodes) && DistinctNames(nodes)
    }

    ghost function View(): Cluster
      reads this, nodes, api
    {
      Cluster(Values(nodes), mem, stored, api.w)
    }

    constructor (api: Api)
      ensures Valid() && this.api == api
      ensures View() == Cluster([], [], [], api.w)
    {
      this.api := api;
      nodes, mem, stored := [], [], [];
    }

    // ----- lookups -----

    /** getNodeStatus. */
    static method FindStatus(entries: seq<Entry>, name: string) returns (index: int)
      ensures index == FindEntry(entries, name)
    {
      for k := 0 to |entries|
        invariant forall j :: 0 <= j < k ==> !Names(entries[j], name)
      {
        if Names(entries[k], name) {
          return k;
        }
      }
      return -1;
    }

    /** containsNodeTypeInterface. */
    static method Contains(name: string, list: seq<Node>) returns (index: int)
      ensures index == FindNode(Values(list), name)
    {
      for k := 0 to |list|
        invariant forall j :: 0 <= j < k ==> list[j].name != name
      {
        if list[k].name == name {
          return k;
        }
      }
      return -1;
    }

    /** The cached nodes that an entry names. */
    method NodesNamed(entry: Entry) returns (list: seq<Node>, ghost positions: seq<nat>)
      ensures positions == NodesOf(entry, View().nodes, 0)
      ensures list == Chosen(nodes, NodesOf(entry, View().nodes, 0))
    {
      hide NodesOf, Chosen, Positions, Names;
      list, positions := [], [];
      ghost var values := Values(nodes);
      ChosenConcatenation(nodes, [], []);
      for i := 0 to |nodes|
        invariant Positions(positions, |nodes|) && list == Chosen(nodes, positions)
        invariant positions + NodesOf(entry, values, i) == NodesOf(entry, values, 0)
      {
        NodesOfNext(entry, values, positions, i);
        if Names(entry, nodes[i].name) {
          ChosenNext(nodes, positions, i);
          list, positions := list + [nodes[i]], positions + [i];
        }
      }
      NodesOfEnd(entry, values);
    }

    /** getScheduledUpgradeNodes and getScheduledRedeployOnlyNodes. */
    method ScheduledNodes(redeploy: bool) returns (list: seq<Node>, ghost positions: seq<nat>)
      ensures positions == Scheduled(mem, View().nodes, redeploy)
      ensures list == Chosen(nodes, Scheduled(mem, View().nodes, redeploy))
    {
      hide NodesOf, Scheduled, Chosen, Positions;
      list, positions := [], [];
      ghost var values := Values(nodes);
      ChosenConcatenation(nodes, [], []);
      assert mem[0..] == mem;
      for j := 0 to |mem|
        invariant Positions(positions, |nodes|) && list == Chosen(nodes, positions)
        invariant positions + Scheduled(mem[j..], values, redeploy) == Scheduled(mem, values, redeploy)
      {
        ghost var here := ScheduledStep(mem, j, values, redeploy);
        Associative(positions, here, Scheduled(mem[j + 1..], values, redeploy));
        if Flagged(mem[j], redeploy) {
          var more, found := NodesNamed(mem[j]);
          ChosenConcatenation(nodes, positions, found);
          list, positions := list + more, positions + found;
        }
      }
      assert mem[|mem|..] == [];
      ScheduledEnd(values, redeploy);
    }

    /** getNodeUpgradeInProgress. */
    method NodeInProgress() returns (index: Option<nat>)
      ensures index == InProgress(mem, View().nodes)
    {
      ghost var values := Values(nodes);
      for j := 0 to |mem|
        invariant InProgress(mem[j..], values) == InProgress(mem, values)
      {
        assert mem[j..][1..] == mem[j + 1..];
        if mem[j].upgrade.under == IsTrue {
          for i := 0 to |nodes|
            invariant NodesOf(mem[j], values, i) == NodesOf(mem[j], values, 0)
          {
            if Names(mem[j], nodes[i].name) {
              return Some(i);
            }
          }
        }
      }
      return None;
    }

    // ----- the status -----

    /** updateNodeStatus. */
    method StoreStatus(entries: seq<Entry>)
      modifies this`mem, this`stored, api
      ensures View() == Store(api.env, old(View()), entries)
    {
      hide NewlyUnder, Values;
      if entries != mem {
        var a := api.env(api.w.pos);
        var effective := a.ok || (a.loaded && a.applied);
        api.w := Tick(api.w, a.ok).(kept := api.w.kept && a.ok,
                                    begun := api.w.begun && (effective || !NewlyUnder(mem, entries)));
        if effective {
          stored := entries;
        }
        if a.ok || a.loaded {
          mem := entries;
        }
      }
    }

    /** Replacing one object's value in the cache. */
    twostate lemma OneChanged(new i: nat)
      requires old(Valid()) && nodes == old(nodes) && i < |nodes|
      requires forall j :: 0 <= j < |nodes| && j != i ==> nodes[j].Value() == old(nodes[j].Value())
      ensures Values(nodes) == old(Values(nodes))[i := nodes[i].Value()]
    {
    }

    /** The body shared by the three modes that treat existing nodes. */
    method Treat(node: Node, updating: bool, ghost i: nat)
      requires Valid() && i < |nodes| && nodes[i] == node
      modifies this`mem, this`stored, api, node
      ensures Valid() && nodes == old(nodes)
      ensures View() == Visit(api.env, old(View()), i, updating)
    {
      hide CallNode, State, Store, FindEntryFrom;
      var entries := mem;
      var index := FindStatus(entries, node.name);
      var entry := if index < 0 then NEW_ENTRY else entries[index];
      var u, _ := node.Run(api, entry.upgrade, updating);
      var up, redo := node.Evaluate(api);
      entry := entry.(upgrade := u.(scheduledUpgrade := up, scheduledRedeploy := redo));
      OneChanged(i);
      StoreStatus(PutEntry(entries, index, entry));
    }

    /** The loops over the scheduled nodes; a failed node does not stop them. */
    method TreatAll(list: seq<Node>, updating: bool, ghost todo: seq<nat>)
      requires Valid() && Positions(todo, |nodes|) && list == Chosen(nodes, todo)
      modifies this`mem, this`stored, api, nodes
      ensures Valid() && nodes == old(nodes)
      ensures View() == Batch(api.env, old(View()), todo, updating)
    {
      hide Visit;
      for k := 0 to |list|
        invariant Valid() && nodes == old(nodes)
        invariant Batch(api.env, View(), todo[k..], updating) == Batch(api.env, old(View()), todo, updating)
      {
        assert todo[k..][1..] == todo[k + 1..];
        Treat(list[k], updating, todo[k]);
      }
    }

    /** progressUnshedulableNodes; the phase it sets on a copy of the entry is lost. */
    method ProgressUnschedulable()
      requires Valid()
      modifies api, nodes
      ensures Valid() && nodes == old(nodes)
      ensures View() == ProgressAll(api.env, old(View()), 0)
    {
      for j := 0 to |mem|
        invariant Valid() && nodes == old(nodes) && mem == old(mem) && stored == old(stored)
        invariant ProgressAll(api.env, View(), j) == ProgressAll(api.env, old(View()), 0)
      {
        if mem[j].unschedulable {
          ProgressNamed(mem[j]);
        }
      }
    }

    method ProgressNamed(entry: Entry)
      requires Valid()
      modifies api, nodes
      ensures Valid() && nodes == old(nodes) && mem == old(mem)
      ensures View() == ProgressAt(api.env, old(View()), NodesOf(entry, old(View()).nodes, 0))
    {
      hide ProgressNode, Values;
      var list, positions := NodesNamed(entry);
      for k := 0 to |list|
        invariant Valid() && nodes == old(nodes) && mem == old(mem)
        invariant ProgressAt(api.env, View(), positions[k..]) == ProgressAt(api.env, old(View()), positions)
      {
        assert positions[k..][1..] == positions[k + 1..];
        ProgressOne(list[k], positions[k]);
      }
    }

    method ProgressOne(node: Node, ghost i: nat)
      requires Valid() && i < |nodes| && nodes[i] == node
      modifies api, node
      ensures Valid() && nodes == old(nodes)
      ensures var (n, w) := ProgressNode(api.env, old(node.Value()), old(api.w));
              View() == old(View()).(nodes := old(View()).nodes[i := n], w := w)
    {
      hide ProgressNode, Values;
      node.ProgressUnschedulable(api);
      OneChanged(i);
    }

    // ----- create mode -----

    /** create and state for one node; a new entry also gets the node's name. */
    method Raise(node: Node, entry: Entry, isNew: bool) returns (ok: bool, raised: Entry)
      modifies api, node
      ensures (ok, node.Value(), raised, api.w)
           == Reconcile.Raise(api.env, old(node.Value()), entry, isNew, old(api.w))
    {
      hide CreateNode, State;
      raised := entry;
      ok := node.CreateWorkload(api);
      if !ok {
        return;
      }
      var up, redo := node.Evaluate(api);
      raised := raised.(upgrade := raised.upgrade.(scheduledUpgrade := up, scheduledRedeploy := redo));
      if isNew {
        raised := if node.kind.Deployment? then raised.(deploymentName := node.name, statefulSetName := "")
                  else raised.(deploymentName := "", statefulSetName := node.name);
      }
    }

    /** One turn of the create loop; when the pass has to end, ok is false. */
    method Make(node: Node, ghost i: nat) returns (ok: bool)
      requires Valid() && i < |nodes| && nodes[i] == node
      modifies this`mem, this`stored, api, node
      ensures Valid() && nodes == old(nodes)
      ensures (ok, View()) == Reconcile.Make(api.env, old(View()), i)
    {
      hide Reconcile.Raise, Store, FindEntryFrom, DistinctNames, Values, PutEntry, NewlyUnder, Names;
      var entries := mem;
      var index := FindStatus(entries, node.name);
      ok := CheckConfiguration();
      if !ok {
        return;
      }
      assert Values(nodes) == old(Values(nodes));
      var entry;
      ok, entry := Raise(node, if index < 0 then NEW_ENTRY else entries[index], index < 0);
      OneChanged(i);
      if !ok {
        return;
      }
      StoreStatus(PutEntry(entries, index, entry));
      api.w := Note(api.w, MinMasters(""));
    }

    /** isValidConf as the pass sees it: it rereads the resource, and may refuse it. */
    method CheckConfiguration() returns (valid: bool)
      modifies this`mem, api
      ensures valid == api.env(old(api.w).pos).ok
      ensures mem == if valid || api.env(old(api.w).pos).loaded then stored else old(mem)
      ensures api.w == Tick(old(api.w), valid)
    {
      var answer := api.env(api.w.pos);
      valid := answer.ok;
      if valid || answer.loaded {
        mem := stored;
      }
      api.w := Tick(api.w, valid);
    }

    method MakeAll() returns (ok: bool)
      requires Valid()
      modifies this`mem, this`stored, api, nodes
      ensures Valid() && nodes == old(nodes)
      ensures (ok, View()) == Reconcile.MakeAll(api.env, old(View()), 0)
    {
      hide Reconcile.Make, Separate, DistinctNames, Values;
      for k := 0 to |nodes|
        invariant Valid() && nodes == old(nodes)
        invariant Reconcile.MakeAll(api.env, View(), k) == Reconcile.MakeAll(api.env, old(View()), 0)
      {
        ok := Make(nodes[k], k);
        if !ok {
          return;
        }
      }
      return true;
    }

    // ----- the node cache -----

    /**
     * getNodes, the first loop: the new list of nodes.  A generated node that is cached keeps
     * its object, with its hashes, revision and cluster size; only its reference is replaced.
     */
    method Collect(gen: seq<Node>) returns (current: seq<Node>)
      requires Valid() && Separate(gen) && DistinctNames(gen)
      requires Replaces(gen)
      modifies nodes
      ensures |current| == |gen|
      ensures forall i :: 0 <= i < |nodes| ==> nodes[i].name == old(nodes[i].name)
      ensures forall i :: 0 <= i < |gen| ==>
        var k := FindNode(old(Values(nodes)), gen[i].name);
        if k < 0 then current[i] == gen[i] && gen[i].Value() == old(gen[i].Value())
        else current[i] == nodes[k] && nodes[k].Value() == old(nodes[k].Value()).(self := old(gen[i].self))
    {
      hide FindNodeFrom, Values;
      ghost var cached := Values(nodes);
      current := [];
      for i := 0 to |gen|
        invariant |current| == i
        invariant forall j :: 0 <= j < |gen| ==> gen[j].Value() == old(gen[j].Value())
        invariant forall j :: 0 <= j < i ==>
          var k := FindNode(cached, gen[j].name);
          if k < 0 then current[j] == gen[j]
          else current[j] == nodes[k] && nodes[k].Value() == cached[k].(self := gen[j].self)
        invariant forall k :: 0 <= k < |nodes| ==>
          ((forall j :: 0 <= j < i ==> gen[j].name != nodes[k].name) ==> nodes[k].Value() == cached[k])
      {
        var k := Contains(gen[i].name, nodes);
        FindNodeSameNames(Values(nodes), cached, gen[i].name);
        if k < 0 {
          current := current + [gen[i]];
        } else {
          nodes[k].UpdateReference(gen[i]);
          current := current + [nodes[k]];
        }
      }
    }

    /** The generated objects are new, and a name that is cached has the cached node's kind. */
    ghost predicate Replaces(gen: seq<Node>)
      reads this
    {
      forall i, j :: 0 <= i < |gen| && 0 <= j < |nodes| ==>
        gen[i] != nodes[j] && (gen[i].name == nodes[j].name ==> gen[i].kind == nodes[j].kind)
    }

    /** getNodes, the second loop: delete what is no longer generated. */
    method PurgeNodes(current: seq<Node>, ghost gen: seq<NodeState>)
      requires |current| == |gen| && forall i :: 0 <= i < |gen| ==> current[i].name == gen[i].name
      modifies this`mem, api
      ensures View() == Purge(api.env, old(View()), gen, 0, false)
    {
      hide FindNodeFrom, Delete, DropEntry, Values;
      var reviewed := false;
      for i := 0 to |nodes|
        invariant Purge(api.env, View(), gen, i, reviewed) == Purge(api.env, old(View()), gen, 0, false)
      {
        var k := Contains(nodes[i].name, current);
        FindNodeSameNames(Values(current), gen, nodes[i].name);
        if k < 0 {
          if !reviewed {
            api.w := Note(api.w, MinMasters(""));
            reviewed := true;
          }
          Remove(nodes[i].name);
        }
      }
    }

    /** Delete a workload and its status entry. */
    method Remove(name: string)
      modifies this`mem, api
      ensures api.w == Delete(api.env, old(api.w), name)
      ensures mem == DropEntry(old(mem), name)
    {
      hide FindEntryFrom;
      api.w := Delete(api.env, api.w, name);
      var index := FindStatus(mem, name);
      if index >= 0 {
        mem := mem[..index] + mem[index + 1..];
      }
    }

    method GetNodes(gen: seq<Node>)
      requires Valid() && Separate(gen) && DistinctNames(gen) && Replaces(gen)
      modifies this`nodes, this`mem, api, nodes
      ensures Valid()
      ensures |nodes| == |gen| && forall i :: 0 <= i < |gen| ==> nodes[i].name == gen[i].name
      ensures forall i :: 0 <= i < |gen| ==>
        var k := FindNode(old(Values(nodes)), gen[i].name);
        if k < 0 then nodes[i] == gen[i] && nodes[i].Value() == old(gen[i].Value())
        else nodes[i] == old(nodes)[k] && nodes[i].Value() == old(nodes[k].Value()).(self := old(gen[i].self))
      ensures forall n :: n in nodes ==> n in old(nodes) || n in gen
      ensures View() == Reconcile.GetNodes(api.env, old(View()), old(Values(gen)))
    {
      hide FindNodeFrom, Purge, Values;
      ghost var before, desired := View(), Values(gen);
      var current := Collect(gen);
      ghost var after := Values(nodes);
      PurgeSameNames(api.env, before, after, desired, 0, false);
      assert View() == before.(nodes := after);
      PurgeNodes(current, desired);
      nodes := current;
      CollectedIsMerged(before.nodes, desired, Values(nodes));
    }

    // ----- the pass -----

    /** One mode of work, on the cache and status as they are. */
    method Work() returns (ok: bool)
      requires Valid()
      modifies this`mem, this`stored, api, nodes
      ensures Valid() && nodes == old(nodes)
      ensures (ok, View()) == Reconcile.Work(api.env, old(View()))
    {
      hide Values, Visit, Batch, Reconcile.MakeAll, Scheduled, FindNodeFrom, InProgress, Separate, DistinctNames, Chosen;
      ok := true;
      var current := NodeInProgress();
      var upgrades, todo := ScheduledNodes(false);
      if current.Some? {
        var node := nodes[current.value];
        var k := Contains(node.name, upgrades);
        assert Values(upgrades) == Chosen(Values(nodes), todo);
        Treat(node, k >= 0, current.value);
      } else if |upgrades| > 0 {
        TreatAll(upgrades, true, todo);
      } else {
        var redeploys, later := ScheduledNodes(true);
        if |redeploys| > 0 {
          TreatAll(redeploys, false, later);
        } else {
          ok := MakeAll();
        }
      }
    }

    /** UpdateClusterStatus, as far as the nodes' entries are concerned. */
    method CloseStatus()
      modifies this`mem, this`stored, api
      ensures View() == Close(api.env, old(View()))
    {
      var a := api.env(api.w.pos);
      var entries := mem;
      for i := 0 to |mem|
        invariant |entries| == |mem| && mem == old(mem)
        invariant forall j :: 0 <= j < i ==> entries[j] == Rescheduled(mem, a.unschedulable)[j]
        invariant forall j :: i <= j < |mem| ==> entries[j] == mem[j]
      {
        if i < |a.unschedulable| {
          entries := entries[i := entries[i].(unschedulable := a.unschedulable[i])];
        }
      }
      assert entries == Rescheduled(mem, a.unschedulable);
      if a.ok || (a.loaded && a.applied) {
        stored := entries;
      }
      if a.ok || a.loaded {
        mem := entries;
      }
      api.w := Tick(api.w, a.ok && forall i :: 0 <= i < |a.unschedulable| ==> !a.unschedulable[i])
               .(kept := api.w.kept && a.ok);
    }

    /** What a pass does to the cache before it chooses its work. */
    method RefreshCache(gen: seq<Node>)
      requires Valid() && Separate(gen) && DistinctNames(gen) && Replaces(gen)
      modifies this`nodes, this`mem, api, nodes, gen
      ensures Valid()
      ensures forall n :: n in nodes ==> n in old(nodes) || n in gen
      ensures View() == ProgressAll(api.env, Reconcile.GetNodes(api.env, old(View()), old(Values(gen))), 0)
    {
      hide Values, Reconcile.GetNodes, ProgressAll, Separate, DistinctNames, FindNode;
      GetNodes(gen);
      ProgressUnschedulable();
    }

    /** CreateOrUpdateElasticsearchCluster, on a freshly read resource. */
    method ReconcileCluster(gen: seq<Node>)
      requires Valid() && Separate(gen) && DistinctNames(gen) && Replaces(gen)
      modifies this, api, nodes, gen
      ensures Valid()
      ensures forall n :: n in nodes ==> n in old(nodes) || n in gen
      ensures View() == Pass(api.env, old(View()), old(Values(gen)))
    {
      hide Values, Reconcile.GetNodes, ProgressAll, Reconcile.Work, Close, Separate, DistinctNames;
      mem := stored;
      var valid := CheckConfiguration();
      if valid {
        RefreshCache(gen);
        assert forall i :: 0 <= i < |nodes| ==> nodes[i] in nodes;
        var ok := Work();
        if ok {
          CloseStatus();
        }
      }
    }
  }
}
