/**
 * The nodes generated from the spec (pkg/k8shandler/nodetypefactory.go): one Deployment per
 * replica of a data node, one StatefulSet for any other node.
 */
module NodeFactory {
  import opened Base
  import opened Drift
  import opened Environment
  import opened Workload
  import opened Reconcile
  import opened NodeNames
  import opened NodeObject
  import opened OperatorObject
  import opened StatusIndex

  /** What a generated node is called and how many replicas it asks for. */
  datatype Generated = Generated(kind: Kind, name: string, roles: Roles, replicas: int)

  function Replica(cluster: string, uuid: string, node: SpecNode, i: nat): Generated {
    var r := RoleMap(node.roles);
    Generated(Deployment, NodeName(cluster, uuid, r, Some(i)), r, 1)
  }

  function ReplicasUpTo(cluster: string, uuid: string, node: SpecNode, n: nat): (r: seq<Generated>)
    ensures |r| == n
    ensures forall i :: 0 <= i < n ==> r[i] == Replica(cluster, uuid, node, i + 1)
  {
    if n == 0 then [] else ReplicasUpTo(cluster, uuid, node, n - 1) + [Replica(cluster, uuid, node, n)]
  }

  /** The nodes of one element of the spec; data nodes are numbered from 1. */
  function Generate(cluster: string, uuid: string, node: SpecNode): seq<Generated> {
    var r := RoleMap(node.roles);
    if r.data then ReplicasUpTo(cluster, uuid, node, if node.count > 0 then node.count else 0)
    else [Generated(StatefulSet, NodeName(cluster, uuid, r, None), r, node.count)]
  }

  /** Every element of the spec has been given a UUID. */
  predicate HasUUIDs(spec: seq<SpecNode>) {
    forall i :: 0 <= i < |spec| ==> spec[i].uuid.Some?
  }

  function GenerateAll(cluster: string, spec: seq<SpecNode>): seq<Generated>
    requires HasUUIDs(spec)
  {
    if spec == [] then []
    else
      var last := |spec| - 1;
      GenerateAll(cluster, spec[..last]) + Generate(cluster, spec[last].uuid.value, spec[last])
  }

  /** UUIDs are drawn from an alphabet without dashes, and differ. */
  ghost predicate GoodUUIDs(spec: seq<SpecNode>) {
    && HasUUIDs(spec)
    && (forall i :: 0 <= i < |spec| ==> DASH !in spec[i].uuid.value)
    && forall i, j :: 0 <= i < j < |spec| ==> spec[i].uuid.value != spec[j].uuid.value
  }

  /** A generated node goes back to an element of the spec and a replica index. */
  lemma {:induction false} GeneratedFrom(cluster: string, spec: seq<SpecNode>, k: nat) returns (i: nat, replica: Option<nat>)
    requires HasUUIDs(spec) && k < |GenerateAll(cluster, spec)|
    ensures i < |spec|
    ensures var g, r := GenerateAll(cluster, spec)[k], RoleMap(spec[i].roles);
            && g.name == NodeName(cluster, spec[i].uuid.value, r, replica)
            && g.roles == r && (replica.Some? <==> r.data) && (g.kind.Deployment? <==> r.data)
            && (replica.Some? ==> 1 <= replica.value <= spec[i].count)
  {
    hide NodeName;
    var last := |spec| - 1;
    var before := GenerateAll(cluster, spec[..last]);
    if k < |before| {
      i, replica := GeneratedFrom(cluster, spec[..last], k);
    } else {
      i := last;
      replica := if RoleMap(spec[last].roles).data then Some(k - |before| + 1) else None;
    }
  }

  /** Generated names are distinct. */
  lemma {:induction false} GeneratedDistinct(cluster: string, spec: seq<SpecNode>, k: nat, l: nat)
    requires GoodUUIDs(spec) && k < l < |GenerateAll(cluster, spec)|
    ensures GenerateAll(cluster, spec)[k].name != GenerateAll(cluster, spec)[l].name
  {
    hide NodeName;
    var last := |spec| - 1;
    var before := GenerateAll(cluster, spec[..last]);
    if l < |before| {
      GeneratedDistinct(cluster, spec[..last], k, l);
    } else {
      var node := spec[last];
      var uuid, r := node.uuid.value, RoleMap(node.roles);
      if GenerateAll(cluster, spec)[k].name == GenerateAll(cluster, spec)[l].name {
        var later := if r.data then Some(l - |before| + 1) else None;
        if k < |before| {
          var i, replica := GeneratedFrom(cluster, spec[..last], k);
          NameInjective(cluster, spec[i].uuid.value, RoleMap(spec[i].roles), replica, uuid, r, later);
        } else {
          NameInjective(cluster, uuid, r, Some(k - |before| + 1), uuid, r, later);
        }
        assert false;
      }
    }
  }

  /** A name has one kind, whichever spec generated it: the type assertion in updateReference cannot fail. */
  lemma GeneratedKind(cluster: string, spec: seq<SpecNode>, k: nat)
    requires GoodUUIDs(spec) && k < |GenerateAll(cluster, spec)|
    ensures var g := GenerateAll(cluster, spec)[k]; g.name != "" && g.kind == KindOfName(cluster, g.name)
  {
    var i, replica := GeneratedFrom(cluster, spec, k);
    KindOfNodeName(cluster, spec[i].uuid.value, RoleMap(spec[i].roles), replica);
  }

  // ----- as objects -----

  /** newPodTemplateSpec and the rest of populateReference, which the model leaves open. */
  type Template = (string, SpecNode) -> Spec

  function DesiredSpec(template: Template, name: string, node: SpecNode, replicas: int): Spec {
    template(name, node).(replicas := replicas, paused := false, partition := 0)
  }

  ghost predicate Realizes(nodes: seq<Node>, generated: seq<Generated>)
    reads nodes
  {
    && |nodes| == |generated|
    && Separate(nodes)
    && forall i :: 0 <= i < |nodes| ==>
         && nodes[i].kind == generated[i].kind && nodes[i].name == generated[i].name
         && nodes[i].self.unsaved && nodes[i].self.spec.replicas == generated[i].replicas
  }

  /** GetNodeTypeInterface. */
  method GetNodeTypeInterface(cluster: string, uuid: string, node: SpecNode, template: Template)
    returns (nodes: seq<Node>)
    ensures fresh(nodes)
    ensures Realizes(nodes, Generate(cluster, uuid, node))
  {
    hide ReplicaName, BaseName;
    nodes := [];
    var r := GetNodeRoleMap(node.roles);
    var name := BaseName(cluster, uuid, r);
    if r.data {
      var i := 1;
      while i <= node.count
        invariant 1 <= i && (node.count >= 0 ==> i <= node.count + 1) && (node.count < 0 ==> i == 1)
        invariant fresh(nodes)
        invariant Realizes(nodes, ReplicasUpTo(cluster, uuid, node, i - 1))
      {
        var replicaName := ReplicaName(name, i);
        var replica := new Node(Deployment, replicaName, DesiredSpec(template, replicaName, node, 1));
        nodes := nodes + [replica];
        i := i + 1;
      }
    } else {
      var workload := new Node(StatefulSet, name, DesiredSpec(template, name, node, node.count));
      nodes := [workload];
    }
  }

  lemma RealizesBoth(nodes: seq<Node>, a: seq<Generated>, more: seq<Node>, b: seq<Generated>)
    requires Realizes(nodes, a) && Realizes(more, b) && forall n :: n in more ==> n !in nodes
    ensures Realizes(nodes + more, a + b)
  {
    assert forall k :: 0 <= k < |more| ==> more[k] in more;
    assert forall j :: 0 <= j < |nodes| ==> nodes[j] in nodes;
  }

  /** The loop of getNodes over the spec. */
  method GenerateNodes(cluster: string, spec: seq<SpecNode>, template: Template) returns (nodes: seq<Node>)
    requires HasUUIDs(spec)
    ensures fresh(nodes)
    ensures Realizes(nodes, GenerateAll(cluster, spec))
  {
    hide Generate;
    nodes := [];
    for i := 0 to |spec|
      invariant fresh(nodes)
      invariant Realizes(nodes, GenerateAll(cluster, spec[..i]))
    {
      var more := GetNodeTypeInterface(cluster, spec[i].uuid.value, spec[i], template);
      assert spec[..i + 1][..i] == spec[..i];
      RealizesBoth(nodes, GenerateAll(cluster, spec[..i]), more, Generate(cluster, spec[i].uuid.value, spec[i]));
      nodes := nodes + more;
    }
    assert spec[..|spec|] == spec;
  }

  /** Every cached node has the kind of its name. */
  ghost predicate KindsFit(cluster: string, nodes: seq<Node>) {
    forall i :: 0 <= i < |nodes| ==> nodes[i].kind == KindOfName(cluster, nodes[i].name)
  }

  /** A pass from the spec: what the pass demands of the generated nodes always holds. */
  method ReconcileSpec(op: Operator, cluster: string, spec: seq<SpecNode>, template: Template) returns (ghost gen: seq<NodeState>)
    requires op.Valid() && KindsFit(cluster, op.nodes) && GoodUUIDs(spec)
    modifies op, op.api, op.nodes
    ensures op.Valid() && KindsFit(cluster, op.nodes)
    ensures forall n :: n in op.nodes ==> n in old(op.nodes) || fresh(n)
    ensures |gen| == |GenerateAll(cluster, spec)| && DistinctNodes(gen)
    ensures forall i :: 0 <= i < |gen| ==>
      var g := GenerateAll(cluster, spec)[i];
      && gen[i].name == g.name && gen[i].kind == g.kind == KindOfName(cluster, g.name)
      && gen[i].self.spec.replicas == g.replicas
    ensures op.View() == Pass(op.api.env, old(op.View()), gen)
  {
    hide KindOfName, Pass, Values;
    var nodes := GenerateNodes(cluster, spec, template);
    gen := Values(nodes);
    forall k | 0 <= k < |gen| ensures gen[k].name != "" && nodes[k].kind == KindOfName(cluster, nodes[k].name) {
      GeneratedKind(cluster, spec, k);
    }
    forall k, l | 0 <= k < l < |gen| ensures nodes[k].name != nodes[l].name {
      GeneratedDistinct(cluster, spec, k, l);
    }
    assert op.Replaces(nodes);
    op.ReconcileCluster(nodes);
    assert forall i :: 0 <= i < |op.nodes| ==> op.nodes[i] in op.nodes;
  }
}
