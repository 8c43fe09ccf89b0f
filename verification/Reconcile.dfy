/**
 * One reconcile pass (pkg/k8shandler/cluster.go) on values: the node cache, the
 * in-memory and the stored status entries, and the world.  class Operator runs the
 * same pass on objects and is proved equal to it.
 */
module Reconcile {
  import opened Base
  import opened Drift
  import opened Environment
  import opened Workload
  import Dep = DeploymentUpgrade
  import Sts = StatefulSetUpgrade

  /** A status entry; unschedulable stands for its Unschedulable condition being True. */
  datatype Entry = Entry(deploymentName: string, statefulSetName: string, upgrade: Upgrade, unschedulable: bool)

  const NEW_ENTRY := Entry("", "", NEW_UPGRADE, false)

  datatype Cluster = Cluster(nodes: seq<NodeState>, mem: seq<Entry>, stored: seq<Entry>, w: World)

  // ----- lookups -----

  predicate Names(e: Entry, name: string) {
    e.deploymentName == name || e.statefulSetName == name
  }

  /** getNodeStatus: the first entry with the name, or -1. */
  function FindEntry(entries: seq<Entry>, name: string): (k: int)
    ensures -1 <= k < |entries|
    ensures k >= 0 ==> Names(entries[k], name)
    ensures forall j :: 0 <= j < (if k < 0 then |entries| else k) ==> !Names(entries[j], name)
  {
    FindEntryFrom(entries, name, 0)
  }

  function FindEntryFrom(entries: seq<Entry>, name: string, from: nat): (k: int)
    requires from <= |entries|
    ensures k == -1 || from <= k < |entries|
    ensures k >= 0 ==> Names(entries[k], name)
    ensures forall j :: from <= j < (if k < 0 then |entries| else k) ==> !Names(entries[j], name)
    decreases |entries| - from
  {
    if from == |entries| then -1
    else if Names(entries[from], name) then from
    else FindEntryFrom(entries, name, from + 1)
  }

  /** containsNodeTypeInterface: the first node with the name, or -1. */
  function FindNode(nodes: seq<NodeState>, name: string): (k: int)
    ensures -1 <= k < |nodes|
    ensures k >= 0 ==> nodes[k].name == name
    ensures forall j :: 0 <= j < (if k < 0 then |nodes| else k) ==> nodes[j].name != name
  {
    FindNodeFrom(nodes, name, 0)
  }

  function FindNodeFrom(nodes: seq<NodeState>, name: string, from: nat): (k: int)
    requires from <= |nodes|
    ensures k == -1 || from <= k < |nodes|
    ensures k >= 0 ==> nodes[k].name == name
    ensures forall j :: from <= j < (if k < 0 then |nodes| else k) ==> nodes[j].name != name
    decreases |nodes| - from
  {
    if from == |nodes| then -1
    else if nodes[from].name == name then from
    else FindNodeFrom(nodes, name, from + 1)
  }

  /** The lookup sees names only. */
  lemma FindNodeSameNames(a: seq<NodeState>, b: seq<NodeState>, name: string)
    requires |a| == |b| && forall i :: 0 <= i < |a| ==> a[i].name == b[i].name
    ensures FindNode(a, name) == FindNode(b, name)
  {
    var i, j := FindNode(a, name), FindNode(b, name);
  }

  predicate Positions(todo: seq<nat>, n: nat) {
    forall j :: 0 <= j < |todo| ==> todo[j] < n
  }

  /** The positions, from i on, of the cached nodes that an entry names. */
  function NodesOf(e: Entry, nodes: seq<NodeState>, i: nat): (r: seq<nat>)
    requires i <= |nodes|
    ensures Positions(r, |nodes|)
    ensures forall k: nat :: k in r <==> i <= k < |nodes| && Names(e, nodes[k].name)
    decreases |nodes| - i
  {
    if i == |nodes| then []
    else (if Names(e, nodes[i].name) then [i] else []) + NodesOf(e, nodes, i + 1)
  }

  predicate UpgradeScheduled(e: Entry) {
    e.upgrade.scheduledUpgrade == IsTrue
  }

  predicate RedeployOnly(e: Entry) {
    && e.upgrade.scheduledRedeploy == IsTrue
    && (e.upgrade.scheduledUpgrade == IsFalse || e.upgrade.scheduledUpgrade == Blank)
  }

  predicate Flagged(e: Entry, redeploy: bool) {
    if redeploy then RedeployOnly(e) else UpgradeScheduled(e)
  }

  /** getScheduledUpgradeNodes and getScheduledRedeployOnlyNodes, as positions in the cache. */
  function Scheduled(entries: seq<Entry>, nodes: seq<NodeState>, redeploy: bool): (r: seq<nat>)
    ensures Positions(r, |nodes|)
  {
    if entries == [] then []
    else (if Flagged(entries[0], redeploy) then NodesOf(entries[0], nodes, 0) else [])
         + Scheduled(entries[1..], nodes, redeploy)
  }

  lemma {:induction false} ScheduledAre(entries: seq<Entry>, nodes: seq<NodeState>, redeploy: bool, k: nat)
    requires k < |nodes|
    ensures k in Scheduled(entries, nodes, redeploy) <==>
            exists e :: e in entries && Flagged(e, redeploy) && Names(e, nodes[k].name)
  {
    if entries != [] {
      ScheduledAre(entries[1..], nodes, redeploy, k);
      assert entries == [entries[0]] + entries[1..];
    }
  }

  /** getNodeUpgradeInProgress: the first entry under upgrade that names a cached node gives the node. */
  function InProgress(entries: seq<Entry>, nodes: seq<NodeState>): (r: Option<nat>)
    ensures r.Some? ==> r.value < |nodes|
    ensures r.Some? ==> exists j :: 0 <= j < |entries| && entries[j].upgrade.under == IsTrue
                                    && Names(entries[j], nodes[r.value].name)
    ensures r.None? ==> forall j, k :: 0 <= j < |entries| && entries[j].upgrade.under == IsTrue && 0 <= k < |nodes|
                                       ==> !Names(entries[j], nodes[k].name)
  {
    if entries == [] then None
    else
      assert forall j :: 0 < j < |entries| ==> entries[j] == entries[1..][j - 1];
      assert forall j :: 0 <= j < |entries| - 1 ==> entries[1..][j] == entries[j + 1];
      var here := NodesOf(entries[0], nodes, 0);
      if entries[0].upgrade.under == IsTrue && here != [] then
        assert here[0] in here;
        Some(here[0])
      else
        assert entries[0].upgrade.under == IsTrue ==> forall k :: 0 <= k < |nodes| ==> k !in here;
        InProgress(entries[1..], nodes)
  }

  // ----- per-node work -----

  function CallNode(env: Env, s: Step, updating: bool): Step {
    if s.n.kind.Deployment? then Dep.Call(env, s, updating) else Sts.Call(env, s, updating)
  }

  function CreateNode(env: Env, n: NodeState, w: World): (bool, NodeState, World) {
    if n.kind.Deployment? then Dep.CreateNode(env, n, w) else Sts.CreateNode(env, n, w)
  }

  function ProgressNode(env: Env, n: NodeState, w: World): (NodeState, World) {
    if n.kind.Deployment? then Dep.Progress(env, n, w) else Sts.Progress(env, n, w)
  }

  function EntryOf(entries: seq<Entry>, name: string): Entry {
    var k := FindEntry(entries, name);
    if k < 0 then NEW_ENTRY else entries[k]
  }

  /** Some Deployment's entry is under upgrade in after and was not in before. */
  predicate NewlyUnder(before: seq<Entry>, after: seq<Entry>) {
    exists i :: 0 <= i < |after| && after[i].deploymentName != "" && after[i].upgrade.under == IsTrue
                && EntryOf(before, after[i].deploymentName).upgrade.under != IsTrue
  }

  /** updateNodeStatus: nothing to do when equal, else a retried read-modify-write of the whole status. */
  function Store(env: Env, c: Cluster, entries: seq<Entry>): Cluster {
    if entries == c.mem then c
    else
      var a := env(c.w.pos);
      var effective := a.ok || (a.loaded && a.applied);
      c.(mem := if a.ok || a.loaded then entries else c.mem,
         stored := if effective then entries else c.stored,
         w := Tick(c.w, a.ok).(kept := c.w.kept && a.ok,
                               begun := c.w.begun && (effective || !NewlyUnder(c.mem, entries))))
  }

  function PutEntry(entries: seq<Entry>, k: int, e: Entry): seq<Entry>
    requires k < |entries|
  {
    if k < 0 then entries + [e] else entries[k := e]
  }

  /** Run update or restart on a node, then re-evaluate what it needs. */
  function Treat(env: Env, n: NodeState, e: Entry, w: World, updating: bool): (NodeState, Entry, World) {
    var s := CallNode(env, Step(n, e.upgrade, w, true), updating);
    var (up, redo, n', w') := State(env, s.n, s.w);
    (n', e.(upgrade := s.u.(scheduledUpgrade := up, scheduledRedeploy := redo)), w')
  }

  /** Treat the i-th node and store its status. */
  function Visit(env: Env, c: Cluster, i: nat, updating: bool): (r: Cluster)
    requires i < |c.nodes|
    ensures |r.nodes| == |c.nodes|
  {
    var name := c.nodes[i].name;
    var (n, e, w) := Treat(env, c.nodes[i], EntryOf(c.mem, name), c.w, updating);
    Store(env, c.(nodes := c.nodes[i := n], w := w), PutEntry(c.mem, FindEntry(c.mem, name), e))
  }

  function Batch(env: Env, c: Cluster, todo: seq<nat>, updating: bool): Cluster
    requires Positions(todo, |c.nodes|)
    decreases |todo|
  {
    if todo == [] then c
    else
      assert forall j :: 0 <= j < |todo| - 1 ==> todo[1..][j] == todo[j + 1];
      Batch(env, Visit(env, c, todo[0], updating), todo[1..], updating)
  }

  /**
   * Create mode for the i-th node.  The configuration check reads the resource again, so the
   * in-memory status becomes the stored one; a failed check or creation ends the pass.
   */
  function Make(env: Env, c: Cluster, i: nat): (bool, Cluster)
    requires i < |c.nodes|
  {
    var valid := env(c.w.pos).ok;
    var c1 := c.(mem := if valid || env(c.w.pos).loaded then c.stored else c.mem, w := Tick(c.w, valid));
    if !valid then (false, c1)
    else
      var name := c.nodes[i].name;
      var (ok, n, e, w) := Raise(env, c.nodes[i], EntryOf(c.mem, name), FindEntry(c.mem, name) < 0, c1.w);
      var c2 := c1.(nodes := c.nodes[i := n], w := w);
      if !ok then (false, c2)
      else
        var c3 := Store(env, c2, PutEntry(c.mem, FindEntry(c.mem, name), e));
        (true, c3.(w := Note(c3.w, MinMasters(""))))
  }

  /** Create a node and evaluate what it needs; a new entry also gets the node's name. */
  function Raise(env: Env, n: NodeState, e: Entry, isNew: bool, w: World): (bool, NodeState, Entry, World) {
    var (ok, n1, w1) := CreateNode(env, n, w);
    if !ok then (false, n1, e, w1)
    else
      var (up, redo, n2, w2) := State(env, n1, w1);
      var flagged := e.(upgrade := e.upgrade.(scheduledUpgrade := up, scheduledRedeploy := redo));
      var e' := if !isNew then flagged
                else if n.kind.Deployment? then flagged.(deploymentName := n2.name, statefulSetName := "")
                else flagged.(deploymentName := "", statefulSetName := n2.name);
      (true, n2, e', w2)
  }

  function MakeAll(env: Env, c: Cluster, i: nat): (bool, Cluster)
    requires i <= |c.nodes|
    decreases |c.nodes| - i
  {
    if i == |c.nodes| then (true, c)
    else
      var (ok, c1) := Make(env, c, i);
      if !ok then (false, c1) else MakeAll(env, c1, i + 1)
  }

  // ----- the node cache -----

  /** A generated node that is cached keeps everything but its reference. */
  function Merge(cache: seq<NodeState>, gen: seq<NodeState>): (r: seq<NodeState>)
    ensures |r| == |gen|
    ensures forall i :: 0 <= i < |gen| ==>
      r[i] == (var j := FindNode(cache, gen[i].name); if j < 0 then gen[i] else cache[j].(self := gen[i].self))
  {
    if gen == [] then []
    else
      var last := |gen| - 1;
      var j := FindNode(cache, gen[last].name);
      Merge(cache, gen[..last]) + [if j < 0 then gen[last] else cache[j].(self := gen[last].self)]
  }

  function DropEntry(entries: seq<Entry>, name: string): seq<Entry> {
    var k := FindEntry(entries, name);
    if k < 0 then entries else entries[..k] + entries[k + 1..]
  }

  /** Delete the cached nodes, from i on, that are no longer generated; before the first, review min masters. */
  function Purge(env: Env, c: Cluster, gen: seq<NodeState>, i: nat, reviewed: bool): Cluster
    requires i <= |c.nodes|
    decreases |c.nodes| - i
  {
    if i == |c.nodes| then c
    else if FindNode(gen, c.nodes[i].name) >= 0 then Purge(env, c, gen, i + 1, reviewed)
    else
      var w1 := if reviewed then c.w else Note(c.w, MinMasters(""));
      var c1 := c.(mem := DropEntry(c.mem, c.nodes[i].name), w := Delete(env, w1, c.nodes[i].name));
      Purge(env, c1, gen, i + 1, true)
  }

  function GetNodes(env: Env, c: Cluster, gen: seq<NodeState>): Cluster {
    Purge(env, c, gen, 0, false).(nodes := Merge(c.nodes, gen))
  }

  // ----- the rest of the pass -----

  function ProgressAt(env: Env, c: Cluster, todo: seq<nat>): (r: Cluster)
    requires Positions(todo, |c.nodes|)
    ensures r.mem == c.mem && r.stored == c.stored && |r.nodes| == |c.nodes|
    decreases |todo|
  {
    if todo == [] then c
    else
      assert forall j :: 0 <= j < |todo| - 1 ==> todo[1..][j] == todo[j + 1];
      var (n, w) := ProgressNode(env, c.nodes[todo[0]], c.w);
      ProgressAt(env, c.(nodes := c.nodes[todo[0] := n], w := w), todo[1..])
  }

  function ProgressAll(env: Env, c: Cluster, j: nat): Cluster
    requires j <= |c.mem|
    decreases |c.mem| - j
  {
    if j == |c.mem| then c
    else if c.mem[j].unschedulable then
      var c1 := ProgressAt(env, c, NodesOf(c.mem[j], c.nodes, 0));
      ProgressAll(env, c1, j + 1)
    else ProgressAll(env, c, j + 1)
  }

  function Rescheduled(entries: seq<Entry>, flags: seq<bool>): (r: seq<Entry>)
    ensures |r| == |entries|
    ensures forall i :: 0 <= i < |r| ==>
      r[i] == entries[i].(unschedulable := if i < |flags| then flags[i] else entries[i].unschedulable)
  {
    seq(|entries|, i requires 0 <= i < |entries| =>
      entries[i].(unschedulable := if i < |flags| then flags[i] else entries[i].unschedulable))
  }

  /** UpdateClusterStatus always writes, as it compares a reference with a value. */
  function Close(env: Env, c: Cluster): Cluster {
    var a := env(c.w.pos);
    var entries := Rescheduled(c.mem, a.unschedulable);
    c.(mem := if a.ok || a.loaded then entries else c.mem,
       stored := if a.ok || (a.loaded && a.applied) then entries else c.stored,
       w := Tick(c.w, a.ok && forall i :: 0 <= i < |a.unschedulable| ==> !a.unschedulable[i])
              .(kept := c.w.kept && a.ok))
  }

  datatype Mode = Continue(i: nat, updating: bool) | Upgrades(todo: seq<nat>) | Redeploys(todo: seq<nat>) | Creates

  /** The elements at some positions of a list. */
  function Chosen<T>(list: seq<T>, positions: seq<nat>): (r: seq<T>)
    requires Positions(positions, |list|)
    ensures |r| == |positions|
    ensures forall i :: 0 <= i < |positions| ==> r[i] == list[positions[i]]
  {
    seq(|positions|, i requires 0 <= i < |positions| => list[positions[i]])
  }

  /** A pass does exactly one kind of work. */
  function ModeOf(c: Cluster): (m: Mode)
    ensures m.Continue? ==> m.i < |c.nodes|
    ensures m.Upgrades? || m.Redeploys? ==> Positions(m.todo, |c.nodes|)
  {
    var upgrades := Scheduled(c.mem, c.nodes, false);
    var current := InProgress(c.mem, c.nodes);
    if current.Some? then
      Continue(current.value, FindNode(Chosen(c.nodes, upgrades), c.nodes[current.value].name) >= 0)
    else if |upgrades| > 0 then Upgrades(upgrades)
    else
      var redeploys := Scheduled(c.mem, c.nodes, true);
      if |redeploys| > 0 then Redeploys(redeploys) else Creates
  }

  function Work(env: Env, c: Cluster): (bool, Cluster) {
    match ModeOf(c)
    case Continue(i, updating) => (true, Visit(env, c, i, updating))
    case Upgrades(todo) => (true, Batch(env, c, todo, true))
    case Redeploys(todo) => (true, Batch(env, c, todo, false))
    case Creates => MakeAll(env, c, 0)
  }

  /** The pass up to choosing its work: load, check the configuration, refresh the cache, help unschedulable nodes. */
  function Prepare(env: Env, c: Cluster, gen: seq<NodeState>): Cluster {
    ProgressAll(env, GetNodes(env, c.(mem := c.stored, w := Tick(c.w, true)), gen), 0)
  }

  function Pass(env: Env, c: Cluster, gen: seq<NodeState>): Cluster {
    if !env(c.w.pos).ok then c.(mem := c.stored, w := Tick(c.w, false))
    else
      var (ok, c1) := Work(env, Prepare(env, c, gen));
      if ok then Close(env, c1) else c1
  }

  /** A run of passes; gens[i] are the nodes generated from the spec in the i-th pass. */
  function Run(env: Env, c: Cluster, gens: seq<seq<NodeState>>): Cluster
    decreases |gens|
  {
    if gens == [] then c
    else Pass(env, Run(env, c, gens[..|gens| - 1]), gens[|gens| - 1])
  }

  /** The states between the passes of a run. */
  ghost predicate IsRun(env: Env, trace: seq<Cluster>, gens: seq<seq<NodeState>>) {
    && |trace| == |gens| + 1
    && forall i {:trigger gens[i]} :: 0 <= i < |gens| ==> trace[i + 1] == Pass(env, trace[i], gens[i])
  }

  lemma {:induction false} TraceIsRun(env: Env, trace: seq<Cluster>, gens: seq<seq<NodeState>>, k: nat)
    requires IsRun(env, trace, gens) && k <= |gens|
    ensures trace[k] == Run(env, trace[0], gens[..k])
  {
    hide Pass;
    if k > 0 {
      TraceIsRun(env, trace, gens, k - 1);
      assert gens[..k][..k - 1] == gens[..k - 1];
      assert gens[..k][k - 1] == gens[k - 1];
    }
  }
}
