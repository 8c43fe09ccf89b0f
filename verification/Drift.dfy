/**
 * Drift detection (isChanged in pkg/k8shandler/deployment.go and statefulset.go):
 * which fields of a workload are compared with the server's copy, and how the
 * in-memory copy is patched.  A missing resource reads as zero, and a nil
 * resource list is the empty map.
 */
module Drift {
  import opened Comparison

  const CPU := "cpu"
  const MEMORY := "memory"

  type ResourceList = map<string, int>

  datatype Container = Container(image: string, limits: ResourceList, requests: ResourceList, rest: string)

  /** replicas, paused, partition and rest are never compared. */
  datatype Spec = Spec(
    selector: map<string, string>,
    tolerations: seq<Toleration>,
    containers: seq<Container>,
    replicas: int,
    paused: bool,
    partition: int,
    rest: string)

  const BLANK_SPEC := Spec(map[], [], [], 0, false, 0, "")

  function Quantity(list: ResourceList, name: string): int {
    if name in list then list[name] else 0
  }

  /** Assign only when the quantities differ. */
  function PatchQuantity(server: ResourceList, desired: ResourceList, name: string): ResourceList {
    if Quantity(desired, name) != Quantity(server, name) then server[name := Quantity(desired, name)] else server
  }

  function PatchList(server: ResourceList, desired: ResourceList): ResourceList {
    PatchQuantity(PatchQuantity(server, desired, CPU), desired, MEMORY)
  }

  predicate ListAgrees(server: ResourceList, desired: ResourceList) {
    Quantity(server, CPU) == Quantity(desired, CPU) && Quantity(server, MEMORY) == Quantity(desired, MEMORY)
  }

  predicate ContainerAgrees(server: Container, desired: Container) {
    && server.image == desired.image
    && ListAgrees(server.limits, desired.limits)
    && ListAgrees(server.requests, desired.requests)
  }

  function PatchContainer(server: Container, desired: Container): Container {
    server.(image := desired.image,
            limits := PatchList(server.limits, desired.limits),
            requests := PatchList(server.requests, desired.requests))
  }

  /** The loop indexes the desired containers by the server's positions. */
  predicate OutOfRange(server: Spec, desired: Spec) {
    |desired.containers| < |server.containers|
  }

  /** What the comparison looks at: agreement on every compared field. */
  predicate Agrees(server: Spec, desired: Spec) {
    && SelectorsSame(server.selector, desired.selector)
    && TolerationsSame(server.tolerations, desired.tolerations)
    && forall i :: 0 <= i < |server.containers| && i < |desired.containers| ==>
                     ContainerAgrees(server.containers[i], desired.containers[i])
  }

  function PatchContainers(server: seq<Container>, desired: seq<Container>): (r: seq<Container>)
    ensures |r| == |server|
  {
    seq(|server|, i requires 0 <= i < |server| =>
      if i < |desired| then PatchContainer(server[i], desired[i]) else server[i])
  }

  /** The in-memory copy after a comparison: the server's copy with the compared fields patched. */
  function Patch(server: Spec, desired: Spec): (r: Spec) {
    server.(selector := if SelectorsSame(server.selector, desired.selector) then server.selector else desired.selector,
            tolerations := if TolerationsSame(server.tolerations, desired.tolerations)
                           then server.tolerations else desired.tolerations,
            containers := PatchContainers(server.containers, desired.containers))
  }

  /** Patching makes the copy agree with the desired spec on every compared field. */
  lemma PatchAgrees(server: Spec, desired: Spec)
    ensures Agrees(Patch(server, desired), desired)
  {
    hide TolerationsSame;
    SelectorsSameIsEquality(desired.selector, desired.selector);
    TolerationsSameReflexive(desired.tolerations);
  }

  /** And leaves everything else as the server has it. */
  lemma PatchKeepsTheRest(server: Spec, desired: Spec)
    ensures var p := Patch(server, desired);
            && p.replicas == server.replicas && p.paused == server.paused
            && p.partition == server.partition && p.rest == server.rest
            && |p.containers| == |server.containers|
            && forall i :: 0 <= i < |server.containers| ==>
                 && p.containers[i].rest == server.containers[i].rest
                 && forall k :: k != CPU && k != MEMORY ==>
                      && (k in p.containers[i].limits <==> k in server.containers[i].limits)
                      && (k in p.containers[i].limits ==> p.containers[i].limits[k] == server.containers[i].limits[k])
                      && (k in p.containers[i].requests <==> k in server.containers[i].requests)
                      && (k in p.containers[i].requests ==>
                            p.containers[i].requests[k] == server.containers[i].requests[k])
  {
  }

  lemma AgreesReflexive(s: Spec)
    ensures Agrees(s, s)
  {
    TolerationsSameReflexive(s.tolerations);
  }

  /** Without drift the patch is the identity; so a second comparison repeats the first answer. */
  lemma PatchOfAgreeing(server: Spec, desired: Spec)
    requires Agrees(server, desired)
    ensures Patch(server, desired) == server
  {
    forall i | 0 <= i < |server.containers|
      ensures PatchContainers(server.containers, desired.containers)[i] == server.containers[i]
    {
    }
    assert PatchContainers(server.containers, desired.containers) == server.containers;
  }

  /** Comparing against the patched copy gives the same verdict and the same copy. */
  lemma PatchStable(server: Spec, desired: Spec)
    ensures Agrees(server, Patch(server, desired)) <==> Agrees(server, desired)
    ensures Patch(server, Patch(server, desired)) == Patch(server, desired)
  {
    var p := Patch(server, desired);
    if SelectorsSame(server.selector, desired.selector) {
    }
    TolerationsSameReflexive(server.tolerations);
    forall i | 0 <= i < |server.containers|
      ensures i < |desired.containers| ==>
                (ContainerAgrees(server.containers[i], p.containers[i])
                 <==> ContainerAgrees(server.containers[i], desired.containers[i]))
      ensures i >= |desired.containers| ==> ContainerAgrees(server.containers[i], p.containers[i])
      ensures PatchContainer(server.containers[i], p.containers[i]) == p.containers[i]
    {
      assert p.containers[i] == if i < |desired.containers| then PatchContainer(server.containers[i], desired.containers[i])
                                else server.containers[i];
    }
    if Agrees(server, p) {
      forall i | 0 <= i < |server.containers| && i < |desired.containers|
        ensures ContainerAgrees(server.containers[i], desired.containers[i])
      {
        assert ContainerAgrees(server.containers[i], p.containers[i]);
      }
    }
    assert Patch(server, p).containers == p.containers;
  }
}
