/**
 * Runs of the operator object over a changing spec.  That no pass stops generating a node under
 * upgrade follows from the UUID check of the configuration, if no node's roles change and no
 * count is lowered.
 */
module ObjectRuns {
  import opened Base
  import opened Environment
  import opened Workload
  import opened Reconcile
  import opened StatusIndex
  import opened RunSafety
  import opened AllocationSafety
  import opened Provenance
  import opened NodeNames
  import opened NodeFactory
  import opened NodeObject
  import opened OperatorObject

  /** The kind that a name has in a cluster. */
  function Kinds(cluster: string): KindOf {
    n => KindOfName(cluster, n)
  }

  // ----- what the UUID check buys -----

  /** A node keeps its roles, and its count is not lowered, for as long as its UUID is in the spec. */
  ghost predicate Steady(specs: seq<seq<SpecNode>>) {
    forall i, j, p, q ::
      0 <= i < j < |specs| && 0 <= p < |specs[i]| && 0 <= q < |specs[j]| && specs[i][p].uuid == specs[j][q].uuid ==>
        RoleMap(specs[i][p].roles) == RoleMap(specs[j][q].roles) && specs[i][p].count <= specs[j][q].count
  }

  function NamesOfEntry(e: Entry): StatusNames {
    StatusNames(e.deploymentName, e.statefulSetName)
  }

  /** If the configuration check lets the pass through, the UUID check has accepted the stored status. */
  ghost predicate ChecksUUIDs(env: Env, c: Cluster, cluster: string, spec: seq<SpecNode>) {
    env(c.w.pos).ok ==> forall e :: e in c.stored ==> UUIDKept(cluster, NamesOfEntry(e), spec)
  }

  ghost predicate AllGood(specs: seq<seq<SpecNode>>) {
    forall i :: 0 <= i < |specs| ==> GoodUUIDs(specs[i])
  }

  function NamesIn(nodes: seq<Generated>): set<string> {
    set i | 0 <= i < |nodes| :: nodes[i].name
  }

  /** The names that the specs generate. */
  ghost function AllNames(cluster: string, specs: seq<seq<SpecNode>>): set<string>
    requires AllGood(specs)
  {
    if specs == [] then {}
    else
      var last := |specs| - 1;
      assert GoodUUIDs(specs[last]);
      AllNames(cluster, specs[..last]) + NamesIn(GenerateAll(cluster, specs[last]))
  }

  lemma {:induction false} NameFrom(cluster: string, specs: seq<seq<SpecNode>>, name: string)
    returns (i: nat, p: nat, replica: Option<nat>)
    requires AllGood(specs) && name in AllNames(cluster, specs)
    ensures i < |specs| && p < |specs[i]| && specs[i][p].uuid.Some? && DASH !in specs[i][p].uuid.value
    ensures var node := specs[i][p];
            var r := RoleMap(node.roles);
            && name == NodeName(cluster, node.uuid.value, r, replica) && (replica.Some? <==> r.data)
            && (replica.Some? ==> 1 <= replica.value <= node.count)
  {
    hide NodeName;
    var last := |specs| - 1;
    assert GoodUUIDs(specs[last]);
    if name in AllNames(cluster, specs[..last]) {
      i, p, replica := NameFrom(cluster, specs[..last], name);
    } else {
      var g := GenerateAll(cluster, specs[last]);
      var k :| 0 <= k < |g| && g[k].name == name;
      i := last;
      p, replica := GeneratedFrom(cluster, specs[last], k);
    }
  }

  /** Every replica of an element of the spec is generated. */
  lemma {:induction false} GeneratedHas(cluster: string, spec: seq<SpecNode>, p: nat, replica: Option<nat>) returns (k: nat)
    requires HasUUIDs(spec) && p < |spec|
    requires var r := RoleMap(spec[p].roles);
             (replica.Some? <==> r.data) && (replica.Some? ==> 1 <= replica.value <= spec[p].count)
    ensures k < |GenerateAll(cluster, spec)|
    ensures GenerateAll(cluster, spec)[k].name == NodeName(cluster, spec[p].uuid.value, RoleMap(spec[p].roles), replica)
  {
    hide NodeName;
    var last := |spec| - 1;
    if p < last {
      k := GeneratedHas(cluster, spec[..last], p, replica);
    } else {
      k := |GenerateAll(cluster, spec[..last])| + if replica.Some? then replica.value - 1 else 0;
    }
  }

  /** The generated nodes of a pass are those of a spec. */
  ghost predicate From(gen: seq<NodeState>, cluster: string, spec: seq<SpecNode>) {
    && HasUUIDs(spec) && DistinctNodes(gen) && NodeKinds(Kinds(cluster), gen)
    && |gen| == |GenerateAll(cluster, spec)|
    && forall i :: 0 <= i < |gen| ==> gen[i].name == GenerateAll(cluster, spec)[i].name
  }

  /** An accepted spec still generates every node that an earlier one generated and that has an entry. */
  lemma AcceptedSpecKeepsNodes(
    cluster: string, specs: seq<seq<SpecNode>>, spec: seq<SpecNode>, entries: seq<Entry>, gen: seq<NodeState>)
    requires AllGood(specs) && Steady(specs + [spec]) && From(gen, cluster, spec)
    requires UniqueKeys(entries) && Known(entries, AllNames(cluster, specs))
    requires forall e :: e in entries ==> UUIDKept(cluster, NamesOfEntry(e), spec)
    ensures KeepsBusy(entries, gen)
  {
    forall e | e in entries ensures FindNode(gen, Key(e)) >= 0 {
      var i, p, replica := NameFrom(cluster, specs, Key(e));
      var node := specs[i][p];
      var uuid, r := node.uuid.value, RoleMap(node.roles);
      assert Named(e);
      hide NodeName, Steady, UUIDKept, GenerateAll, UniqueKeys;
      assert ListedName(NamesOfEntry(e)) == Key(e);
      PrintedNameKept(cluster, NamesOfEntry(e), spec, uuid, r, replica);
      var q :| 0 <= q < |spec| && spec[q].uuid == Some(uuid);
      SteadyPair(specs, spec, i, p, q);
      var k := GeneratedHas(cluster, spec, q, replica);
      assert gen[k].name == Key(e);
    }
  }

  lemma SteadyPair(specs: seq<seq<SpecNode>>, spec: seq<SpecNode>, i: nat, p: nat, q: nat)
    requires Steady(specs + [spec]) && i < |specs| && p < |specs[i]| && q < |spec| && specs[i][p].uuid == spec[q].uuid
    ensures RoleMap(specs[i][p].roles) == RoleMap(spec[q].roles) && specs[i][p].count <= spec[q].count
  {
    var all := specs + [spec];
    assert all[i] == specs[i] && all[|specs|] == spec;
  }

  lemma FromReconciled(gen: seq<NodeState>, cluster: string, spec: seq<SpecNode>)
    requires GoodUUIDs(spec) && |gen| == |GenerateAll(cluster, spec)| && DistinctNodes(gen)
    requires forall i :: 0 <= i < |gen| ==>
      gen[i].name == GenerateAll(cluster, spec)[i].name && gen[i].kind == KindOfName(cluster, gen[i].name)
    ensures From(gen, cluster, spec)
  {
    hide GenerateAll, KindOfName;
  }

  // ----- runs from specs -----

  ghost predicate RunFrom(gens: seq<seq<NodeState>>, cluster: string, specs: seq<seq<SpecNode>>) {
    |gens| == |specs| && forall i :: 0 <= i < |gens| ==> From(gens[i], cluster, specs[i])
  }

  /** In every pass that the configuration check lets through, the UUID check has accepted the stored status. */
  ghost predicate AlwaysChecks(
    env: Env, c: Cluster, gens: seq<seq<NodeState>>, cluster: string, specs: seq<seq<SpecNode>>)
    requires |gens| == |specs|
  {
    forall i :: 0 <= i < |gens| ==> ChecksUUIDs(env, Run(env, c, gens[..i]), cluster, specs[i])
  }

  /** Every stored entry is about a node that one of the specs generated. */
  lemma {:induction false} RunKnown(
    env: Env, c: Cluster, gens: seq<seq<NodeState>>, cluster: string, specs: seq<seq<SpecNode>>)
    requires Initial(Kinds(cluster), c) && AllGood(specs) && RunFrom(gens, cluster, specs)
    ensures Indexed(Run(env, c, gens)) && Known(Run(env, c, gens).stored, AllNames(cluster, specs))
    decreases |gens|
  {
    hide Pass, GoodUUIDs, DistinctNodes, NodeKinds, GenerateAll;
    forall i | 0 <= i < |gens| ensures DistinctNodes(gens[i]) {
      assert From(gens[i], cluster, specs[i]);
    }
    RunIndexed(env, c, gens);
    if gens != [] {
      var last := |gens| - 1;
      RunKnown(env, c, gens[..last], cluster, specs[..last]);
      var before, names := Run(env, c, gens[..last]), AllNames(cluster, specs);
      var gen := gens[last];
      assert From(gen, cluster, specs[last]);
      forall i | 0 <= i < |gen| ensures gen[i].name in names {
        assert gen[i].name == GenerateAll(cluster, specs[last])[i].name;
      }
      PassKnown(env, before, gen, names);
    }
  }

  /** One more pass, from a steady spec. */
  lemma PassFromSpecGuarded(
    env: Env, c: Cluster, gen: seq<NodeState>, cluster: string, specs: seq<seq<SpecNode>>, spec: seq<SpecNode>)
    requires Guarded(Kinds(cluster), c) && From(gen, cluster, spec)
    requires AllGood(specs) && Steady(specs + [spec]) && Known(c.stored, AllNames(cluster, specs))
    requires ChecksUUIDs(env, c, cluster, spec)
    ensures Guarded(Kinds(cluster), Pass(env, c, gen))
  {
    if env(c.w.pos).ok {
      hide Pass, GenerateAll, Steady, UUIDKept, AllNames, GoodUUIDs;
      AcceptedSpecKeepsNodes(cluster, specs, spec, c.stored, gen);
    }
    hide Pass, Guarded, KeepsBusy, GenerateAll;
    PassGuarded(Kinds(cluster), env, c, gen);
  }

  /** So shard allocation is answered for all along, whatever fails. */
  lemma {:induction false} RunGuarded(
    env: Env, c: Cluster, gens: seq<seq<NodeState>>, cluster: string, specs: seq<seq<SpecNode>>)
    requires Initial(Kinds(cluster), c) && AllGood(specs) && RunFrom(gens, cluster, specs)
    requires Steady(specs) && AlwaysChecks(env, c, gens, cluster, specs)
    ensures Guarded(Kinds(cluster), Run(env, c, gens))
    decreases |gens|
  {
    hide Pass, GoodUUIDs, From, Guarded, Initial, AllNames, ChecksUUIDs, SomeHolder, Steady, Kinds;
    if gens == [] {
      InitialGuarded(Kinds(cluster), c);
    } else {
      var last := |gens| - 1;
      assert specs == specs[..last] + [specs[last]];
      SteadyBefore(specs, last);
      ChecksBefore(env, c, gens, cluster, specs);
      RunGuarded(env, c, gens[..last], cluster, specs[..last]);
      RunKnown(env, c, gens[..last], cluster, specs[..last]);
      PassFromSpecGuarded(env, Run(env, c, gens[..last]), gens[last], cluster, specs[..last], specs[last]);
    }
  }

  lemma SteadyBefore(specs: seq<seq<SpecNode>>, last: nat)
    requires Steady(specs) && last <= |specs|
    ensures Steady(specs[..last])
  {
    hide RoleMap;
  }

  lemma ChecksBefore(env: Env, c: Cluster, gens: seq<seq<NodeState>>, cluster: string, specs: seq<seq<SpecNode>>)
    requires |gens| == |specs| > 0 && AlwaysChecks(env, c, gens, cluster, specs)
    ensures AlwaysChecks(env, c, gens[..|gens| - 1], cluster, specs[..|gens| - 1])
  {
    hide Run, ChecksUUIDs;
    var last := |gens| - 1;
    forall i | 0 <= i < last ensures ChecksUUIDs(env, Run(env, c, gens[..last][..i]), cluster, specs[..last][i]) {
      assert gens[..last][..i] == gens[..i];
    }
  }

  /**
   * A run of the operator over a changing spec is a run in the sense of Reconcile, so the theorems
   * about runs hold of the objects: from an empty status the entries stay an index by node name;
   * and if the spec is steady and the UUID check is made, shard allocation is never stranded.
   */
  method RunSpecs(op: Operator, cluster: string, specs: seq<seq<SpecNode>>, template: Template)
    returns (ghost gens: seq<seq<NodeState>>)
    requires op.Valid() && KindsFit(cluster, op.nodes) && AllGood(specs)
    requires Initial(Kinds(cluster), op.View())
    modifies op, op.api, op.nodes
    ensures op.View() == Run(op.api.env, old(op.View()), gens) && |gens| == |specs|
    ensures Indexed(op.View())
    ensures Steady(specs) && AlwaysChecks(op.api.env, old(op.View()), gens, cluster, specs) ==>
              op.api.w.begun && !op.api.w.allocation ==> SomeHolder(op.stored)
  {
    hide Pass, KindOfName, Values, GoodUUIDs, Separate, DistinctNames, GenerateAll;
    ghost var start := op.View();
    gens := [];
    for i := 0 to |specs|
      invariant op.Valid() && KindsFit(cluster, op.nodes) && |gens| == i
      invariant forall n :: n in op.nodes ==> n in old(op.nodes) || fresh(n)
      invariant op.View() == Run(op.api.env, start, gens)
      invariant RunFrom(gens, cluster, specs[..i])
    {
      assert forall j :: 0 <= j < |op.nodes| ==> op.nodes[j] in op.nodes;
      var gen := ReconcileSpec(op, cluster, specs[i], template);
      assert (gens + [gen])[..i] == gens;
      FromReconciled(gen, cluster, specs[i]);
      gens := gens + [gen];
    }
    assert specs[..|specs|] == specs;
    RunKnown(op.api.env, start, gens, cluster, specs);
    if Steady(specs) && AlwaysChecks(op.api.env, start, gens, cluster, specs) {
      RunGuarded(op.api.env, start, gens, cluster, specs);
    }
  }
}
