/**
 * isChanged and executeUpdate (pkg/k8shandler/deployment.go and statefulset.go) as calls: the
 * answer is exact, repeating it changes nothing, and a completed update removes the drift.
 */
module DriftDetection {
  import opened Base
  import opened Comparison
  import opened Drift
  import opened Environment
  import opened Workload

  /** The Get of a check succeeds. */
  predicate Readable(env: Env, n: NodeState, w: World) {
    env(w.pos).ok && n.name in w.objects
  }

  /** The answer is whether the server disagrees; afterwards self agrees with what was desired, and is the server's elsewhere. */
  lemma ChangedIsExact(env: Env, n: NodeState, w: World)
    requires Readable(env, n, w)
    ensures var (changed, n1, w1) := IsChanged(env, n, w);
            var server := w.objects[n.name];
            && (changed <==> !Agrees(server, n.self.spec))
            && Agrees(n1.self.spec, n.self.spec)
            && n1.self.spec.replicas == server.replicas && n1.self.spec.paused == server.paused
            && n1.self.spec.partition == server.partition && n1.self.spec.rest == server.rest
            && w1.objects == w.objects
  {
    PatchAgrees(w.objects[n.name], n.self.spec);
    PatchKeepsTheRest(w.objects[n.name], n.self.spec);
    hide Agrees, Patch;
  }

  /** A quantity by name, zero when it is missing. */
  function Amount(list: ResourceList, name: string): int {
    if name in list then list[name] else 0
  }

  /**
   * The same field by field.  There is drift if the selectors differ, or the tolerations do in the
   * sense of Comparison, or for a container that both have the image, or the CPU or memory of the
   * limits or of the requests; afterwards self has the desired value of each.
   */
  lemma ComparedFields(env: Env, n: NodeState, w: World)
    requires Readable(env, n, w)
    ensures var (changed, n1, w1) := IsChanged(env, n, w);
            var server, desired, self := w.objects[n.name], n.self.spec, n1.self.spec;
            && (changed <==>
                  || server.selector != desired.selector
                  || !TolerationsSame(server.tolerations, desired.tolerations)
                  || exists i :: 0 <= i < |server.containers| && i < |desired.containers| &&
                       var a, b := server.containers[i], desired.containers[i];
                       || a.image != b.image
                       || Amount(a.limits, "cpu") != Amount(b.limits, "cpu")
                       || Amount(a.limits, "memory") != Amount(b.limits, "memory")
                       || Amount(a.requests, "cpu") != Amount(b.requests, "cpu")
                       || Amount(a.requests, "memory") != Amount(b.requests, "memory"))
            && self.selector == desired.selector
            && TolerationsSame(self.tolerations, desired.tolerations)
            && |self.containers| == |server.containers|
            && (forall i :: 0 <= i < |server.containers| && i < |desired.containers| ==>
                  var a, b := self.containers[i], desired.containers[i];
                  && a.image == b.image
                  && Amount(a.limits, "cpu") == Amount(b.limits, "cpu")
                  && Amount(a.limits, "memory") == Amount(b.limits, "memory")
                  && Amount(a.requests, "cpu") == Amount(b.requests, "cpu")
                  && Amount(a.requests, "memory") == Amount(b.requests, "memory"))
            && forall i :: |desired.containers| <= i < |server.containers| ==> self.containers[i] == server.containers[i]
  {
    hide TolerationsSame, Grows;
    var server, desired := w.objects[n.name], n.self.spec;
    SelectorsSameIsEquality(server.selector, desired.selector);
    TolerationsSameReflexive(desired.tolerations);
    forall i | 0 <= i < |server.containers| && i < |desired.containers| ensures ContainerFields(server.containers[i], desired.containers[i]) {
      ComparedContainer(server.containers[i], desired.containers[i]);
    }
  }

  ghost predicate ContainerFields(a: Container, b: Container) {
    && (ContainerAgrees(a, b) <==>
          && a.image == b.image
          && Amount(a.limits, "cpu") == Amount(b.limits, "cpu") && Amount(a.limits, "memory") == Amount(b.limits, "memory")
          && Amount(a.requests, "cpu") == Amount(b.requests, "cpu")
          && Amount(a.requests, "memory") == Amount(b.requests, "memory"))
    && var p := PatchContainer(a, b);
       && p.image == b.image
       && Amount(p.limits, "cpu") == Amount(b.limits, "cpu") && Amount(p.limits, "memory") == Amount(b.limits, "memory")
       && Amount(p.requests, "cpu") == Amount(b.requests, "cpu")
       && Amount(p.requests, "memory") == Amount(b.requests, "memory")
  }

  lemma ComparedContainer(a: Container, b: Container)
    ensures ContainerFields(a, b)
  {
  }

  /** Asking again, with the server as it was, gives the same answer and the same self. */
  lemma RepeatedCheckIsStable(env: Env, n: NodeState, w: World)
    requires Readable(env, n, w) && env(w.pos + 1).ok
    ensures var (changed, n1, w1) := IsChanged(env, n, w);
            var (again, n2, w2) := IsChanged(env, n1, w1);
            again == changed && n2.self.spec == n1.self.spec
  {
    PatchStable(w.objects[n.name], n.self.spec);
    hide Agrees, Patch;
  }

  /**
   * After a successful update whose check could read the server there is no drift left, however
   * the next check's read goes.
   */
  lemma NoDriftAfterUpdate(env: Env, n: NodeState, w: World)
    requires Readable(env, n, w) && ExecuteUpdate(env, n, w).0
    ensures var (_, n1, w1) := ExecuteUpdate(env, n, w); !IsChanged(env, n1, w1).0
  {
    var server := w.objects[n.name];
    var patched := Patch(server, n.self.spec);
    AgreesReflexive(patched);
    if Agrees(server, n.self.spec) {
      PatchOfAgreeing(server, n.self.spec);
    }
    hide Agrees, Patch;
    var (changed, n1, w1) := IsChanged(env, n, w);
    if changed {
      assert Write(env, w1, n.name, n1.self.spec).1.objects[n.name] == patched;
    }
  }

  /**
   * When the check cannot read the server, the update reports success although nothing was
   * written, and the desired spec in memory is blank.  The next check that can read then compares
   * with the blank spec: it sees drift exactly if the server has a selector or tolerations, and
   * it indexes out of range if the server has a container.
   */
  lemma UnreadableUpdateLosesDesired(env: Env, n: NodeState, w: World)
    requires !Readable(env, n, w)
    ensures var (ok, n1, w1) := ExecuteUpdate(env, n, w);
            && ok && w1.objects == w.objects && n1.self.spec == BLANK_SPEC
            && (Readable(env, n1, w1) ==>
                  var (changed, _, w2) := IsChanged(env, n1, w1);
                  && (changed <==> w.objects[n.name].selector != map[] || w.objects[n.name].tolerations != [])
                  && (w.alive && w.objects[n.name].containers != [] ==> !w2.alive))
  {
    var (ok, n1, w1) := ExecuteUpdate(env, n, w);
    if Readable(env, n1, w1) {
      var server := w.objects[n.name];
      assert Agrees(server, BLANK_SPEC) <==> server.selector == map[] && server.tolerations == [];
    }
  }
}
