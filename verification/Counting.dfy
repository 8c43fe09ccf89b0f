/**
 * Counting nodes and masters (pkg/k8shandler/util.go), the replica count of index shards
 * (defaults.go), the quorum (configmaps.go and cluster.go), and how they relate to the nodes
 * that are generated from the spec.  Counts are 32-bit and wrap around.
 */
module Counting {
  import opened Base
  import opened Workload
  import opened NodeNames
  import opened NodeFactory

  const MODULUS := 0x1_0000_0000
  const HALF := 0x8000_0000

  /** Two's complement. */
  function Int32(x: int): (r: int)
    ensures -HALF <= r < HALF
  {
    (x + HALF) % MODULUS - HALF
  }

  predicate Fits(x: int) {
    -HALF <= x < HALF
  }

  lemma Int32Fits(x: int)
    ensures Int32(x) == x <==> Fits(x)
  {
  }

  lemma Int32Adds(a: int, b: int)
    ensures Int32(Int32(a) + b) == Int32(a + b)
  {
    var q := (a + HALF) / MODULUS;
    assert Int32(a) == a - q * MODULUS;
    assert (a + b + HALF) - q * MODULUS == Int32(a) + b + HALF;
    ModAdds(Int32(a) + b + HALF, q);
  }

  lemma ModAdds(x: int, q: int)
    ensures (x + q * MODULUS) % MODULUS == x % MODULUS
  {
    var y := x + q * MODULUS;
    assert y - (x / MODULUS + q) * MODULUS == x % MODULUS;
  }

  function Max0(x: int): int {
    if x > 0 then x else 0
  }

  function Sum(spec: seq<SpecNode>, role: Role): int {
    if spec == [] then 0
    else
      var last := |spec| - 1;
      Sum(spec[..last], role) + if role in spec[last].roles then spec[last].count else 0
  }

  /** getMasterCount, getDataCount and getClientCount: the exact sum, wrapped. */
  method CountRole(spec: seq<SpecNode>, role: Role) returns (count: int)
    ensures count == Int32(Sum(spec, role))
    ensures count == Sum(spec, role) <==> Fits(Sum(spec, role))
  {
    count := 0;
    for i := 0 to |spec|
      invariant count == Int32(Sum(spec[..i], role))
    {
      assert spec[..i + 1][..i] == spec[..i];
      var has := Contains(spec[i].roles, role);
      if has {
        Int32Adds(Sum(spec[..i], role), spec[i].count);
        count := Int32(count + spec[i].count);
      }
    }
    assert spec[..|spec|] == spec;
    Int32Fits(Sum(spec, role));
  }

  // ----- what is generated -----

  function CountDeployments(nodes: seq<Generated>): nat {
    if nodes == [] then 0
    else CountDeployments(nodes[..|nodes| - 1]) + if nodes[|nodes| - 1].kind.Deployment? then 1 else 0
  }

  /** Replicas asked for by the nodes with the master role. */
  function MasterReplicas(nodes: seq<Generated>): int {
    if nodes == [] then 0
    else
      var last := nodes[|nodes| - 1];
      MasterReplicas(nodes[..|nodes| - 1]) + if last.roles.master then last.replicas else 0
  }

  lemma {:induction false} TalliesConcatenate(a: seq<Generated>, b: seq<Generated>)
    ensures CountDeployments(a + b) == CountDeployments(a) + CountDeployments(b)
    ensures MasterReplicas(a + b) == MasterReplicas(a) + MasterReplicas(b)
  {
    if b == [] {
      assert a + b == a;
    } else {
      var n := |b| - 1;
      assert (a + b)[..|a| + n] == a + b[..n];
      TalliesConcatenate(a, b[..n]);
    }
  }

  lemma {:induction false} TalliesOfReplicas(cluster: string, uuid: string, node: SpecNode, n: nat)
    ensures CountDeployments(ReplicasUpTo(cluster, uuid, node, n)) == n
    ensures MasterReplicas(ReplicasUpTo(cluster, uuid, node, n)) == if Master in node.roles then n else 0
  {
    hide NodeName;
    if n > 0 {
      TalliesOfReplicas(cluster, uuid, node, n - 1);
      assert ReplicasUpTo(cluster, uuid, node, n)[..n - 1] == ReplicasUpTo(cluster, uuid, node, n - 1);
    }
  }

  /** How many Deployments and master replicas one element of the spec yields. */
  lemma TalliesOfNode(cluster: string, uuid: string, node: SpecNode)
    ensures CountDeployments(Generate(cluster, uuid, node)) == if Data in node.roles then Max0(node.count) else 0
    ensures MasterReplicas(Generate(cluster, uuid, node))
         == if Master !in node.roles then 0 else if Data in node.roles then Max0(node.count) else node.count
  {
    hide NodeName;
    if Data in node.roles {
      TalliesOfReplicas(cluster, uuid, node, Max0(node.count));
    } else {
      var g := Generate(cluster, uuid, node);
      assert g[..0] == [];
    }
  }

  predicate NoNegative(spec: seq<SpecNode>, role: Role) {
    forall i :: 0 <= i < |spec| && Data in spec[i].roles && role in spec[i].roles ==> spec[i].count >= 0
  }

  /**
   * The counts are conserved by generation: there are getDataCount Deployments, and replicas for
   * getMasterCount masters, exactly when no data node has a negative count (a negative count
   * generates nothing but is still added up).
   */
  lemma {:induction false} CountsConserved(cluster: string, spec: seq<SpecNode>)
    requires HasUUIDs(spec)
    ensures var g := GenerateAll(cluster, spec);
            && CountDeployments(g) >= Sum(spec, Data) && MasterReplicas(g) >= Sum(spec, Master)
            && (CountDeployments(g) == Sum(spec, Data) <==> NoNegative(spec, Data))
            && (MasterReplicas(g) == Sum(spec, Master) <==> NoNegative(spec, Master))
  {
    hide Generate;
    if spec != [] {
      var last := |spec| - 1;
      CountsConserved(cluster, spec[..last]);
      TalliesOfNode(cluster, spec[last].uuid.value, spec[last]);
      TalliesConcatenate(GenerateAll(cluster, spec[..last]), Generate(cluster, spec[last].uuid.value, spec[last]));
      NoNegativeStep(spec, Data);
      NoNegativeStep(spec, Master);
    }
  }

  lemma NoNegativeStep(spec: seq<SpecNode>, role: Role)
    requires spec != []
    ensures var last := |spec| - 1;
            NoNegative(spec, role) == (
              && NoNegative(spec[..last], role)
              && (Data in spec[last].roles && role in spec[last].roles ==> spec[last].count >= 0))
  {
    var last := |spec| - 1;
    assert forall i :: 0 <= i < last ==> spec[..last][i] == spec[i];
  }

  // ----- redundancy -----

  datatype Policy = Unset | ZeroRedundancy | SingleRedundancy | MultipleRedundancy | FullRedundancy | Other(name: string)

  const MAX_MASTER_COUNT := 3

  predicate ValidMasterCount(nodes: nat, masters: int) {
    nodes == 0 || 0 < masters <= MAX_MASTER_COUNT
  }

  predicate ValidDataCount(nodes: nat, data: int) {
    nodes == 0 || data > 0
  }

  predicate ValidRedundancy(data: int, policy: Policy) {
    !policy.Other? && !(data == 1 && policy.SingleRedundancy?)
  }

  /** Go's division truncates. */
  function Quotient(a: int, b: int): int
    requires b > 0
  {
    if a >= 0 then a / b else -(-a / b)
  }

  /** calculateReplicaCount. */
  function ReplicaCount(data: int, policy: Policy): int {
    match policy
    case FullRedundancy => data - 1
    case MultipleRedundancy => Quotient(data - 1, 2)
    case SingleRedundancy => 1
    case ZeroRedundancy => 0
    case _ => if data == 1 then 0 else 1
  }

  /**
   * There is a data node for every copy of a shard exactly when there is a data node at all and
   * single redundancy is not asked of a single one.
   */
  lemma ReplicasHaveNodes(data: int, policy: Policy)
    ensures 0 <= ReplicaCount(data, policy) <= data - 1 <==> data >= 1 && !(data == 1 && policy.SingleRedundancy?)
  {
  }

  /**
   * What the policies mean, with the other data nodes counted: full gives each of them a copy, zero
   * none, multiple half of them rounded towards zero, single one; and unset or unknown one, unless
   * there is exactly one data node.
   */
  lemma PolicyMeaning(data: int, policy: Policy)
    ensures var copies, others := ReplicaCount(data, policy), data - 1;
            && (policy.FullRedundancy? ==> copies == others)
            && (policy.MultipleRedundancy? ==>
                  2 * copies == others || 2 * copies == if others > 0 then others - 1 else others + 1)
            && (policy.SingleRedundancy? ==> copies == 1)
            && (policy.ZeroRedundancy? ==> copies == 0)
            && (policy.Unset? || policy.Other? ==> copies == if others == 0 then 0 else 1)
  {
  }

  /** So a spec that passes the checks gets replicas within bounds exactly when it is not empty. */
  lemma ValidSpecReplicas(spec: seq<SpecNode>, policy: Policy)
    ensures var data := Int32(Sum(spec, Data));
            ValidDataCount(|spec|, data) && ValidRedundancy(data, policy) ==>
              (0 <= ReplicaCount(data, policy) <= data - 1 <==> spec != [])
  {
    ReplicasHaveNodes(Int32(Sum(spec, Data)), policy);
    if spec == [] {
      assert Int32(Sum(spec, Data)) == 0;
    }
  }

  // ----- the quorum -----

  /** masters/2 + 1, in the config map and for updateMinMasters. */
  function Quorum(masters: int): int {
    Quotient(masters, 2) + 1
  }

  /** A strict majority, and the least one, so that two quorums always meet. */
  lemma QuorumIsLeastMajority(masters: nat)
    ensures 2 * Quorum(masters) > masters
    ensures forall q :: 2 * q > masters ==> Quorum(masters) <= q
    ensures masters > 0 ==> Quorum(masters) <= masters
  {
    forall q | 2 * q > masters ensures Quorum(masters) <= q {
      assert q >= masters / 2 + 1;
    }
  }

  /** Any two groups of masters of quorum size overlap. */
  lemma QuorumsMeet(masters: set<string>, a: set<string>, b: set<string>)
    requires a <= masters && b <= masters
    requires |a| >= Quorum(|masters|) && |b| >= Quorum(|masters|)
    ensures a * b != {}
  {
    QuorumIsLeastMajority(|masters|);
    if a * b == {} {
      assert |a + b| == |a| + |b|;
      SubsetSize(a + b, masters);
      assert false;
    }
  }

  /**
   * updateMinMasters: what it writes, if anything.  The current value reads as 0 when it cannot be
   * read, and so does the number of nodes.
   */
  method UpdateMinMasters(spec: seq<SpecNode>, current: int, observed: int) returns (written: Option<int>)
    ensures written == if Quorum(Int32(Sum(spec, Master))) <= observed && current != Quorum(Int32(Sum(spec, Master)))
                       then Some(Quorum(Int32(Sum(spec, Master)))) else None
    ensures written.Some? ==> written.value <= observed
    ensures written.Some? && Sum(spec, Master) >= 0 && Fits(Sum(spec, Master)) ==>
      2 * written.value > Sum(spec, Master) && forall q :: 2 * q > Sum(spec, Master) ==> written.value <= q
  {
    var masters := CountRole(spec, Master);
    var desired := Quorum(masters);
    written := None;
    if observed >= desired {
      if current != desired {
        written := Some(desired);
        if Sum(spec, Master) >= 0 && Fits(Sum(spec, Master)) {
          QuorumIsLeastMajority(Sum(spec, Master));
        }
      }
    }
  }
}
