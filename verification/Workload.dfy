/**
 * The state of one Elasticsearch node inside the operator, its entry in the
 * custom resource's status, and the operations that Deployments and StatefulSets
 * share (pkg/k8shandler/deployment.go and statefulset.go).  Each function gives the
 * value that the corresponding method of class Node computes.
 */
module Workload {
  import opened Base
  import opened Drift
  import opened Environment

  datatype Condition = Blank | IsTrue | IsFalse | IsUnknown

  datatype Phase = NoPhase | NodeRestarting | RecoveringData | ControllerUpdated

  datatype Upgrade = Upgrade(
    scheduledUpgrade: Condition, scheduledRedeploy: Condition, under: Condition, phase: Phase)

  const NEW_UPGRADE := Upgrade(Blank, Blank, Blank, NoPhase)

  predicate AtStart(p: Phase) {
    p == NoPhase || p == ControllerUpdated
  }

  datatype Kind = Deployment | StatefulSet

  /** node.self; unsaved means that it has no resource version yet. */
  datatype Object = Object(unsaved: bool, revision: Option<string>, spec: Spec)

  datatype NodeState = NodeState(
    kind: Kind,
    name: string,
    self: Object,
    secretHash: string,
    configHash: string,
    revision: string,
    clusterSize: int)

  /** A call of update or restart in progress; once go is false the rest of it is skipped. */
  datatype Step = Step(n: NodeState, u: Upgrade, w: World, go: bool)

  /** nodeRevision: the annotation of the in-memory copy, or the empty string. */
  function Revision(n: NodeState): string {
    if n.self.revision.Some? then n.self.revision.value else ""
  }

  /** Get into node.self. */
  function Reload(env: Env, n: NodeState, w: World): (r: (bool, NodeState, World))
    ensures Grows(w, r.2, n.name)
  {
    var (ok, w1) := Read(env, w, n.name);
    (ok, if ok then n.(self := Object(false, env(w.pos).revision, w.objects[n.name])) else n, w1)
  }

  /** A failed read leaves node.self with a blank spec and reports no drift. */
  function IsChanged(env: Env, n: NodeState, w: World): (r: (bool, NodeState, World))
    ensures Grows(w, r.2, n.name)
  {
    var desired := n.self.spec;
    var (ok, n1, w1) := Reload(env, n, w);
    if !ok then (false, n.(self := n.self.(spec := BLANK_SPEC)), w1)
    else
      var server := n1.self.spec;
      (!Agrees(server, desired),
       n1.(self := n1.self.(spec := Patch(server, desired))),
       w1.(alive := w1.alive && !OutOfRange(server, desired)))
  }

  function ExecuteUpdate(env: Env, n: NodeState, w: World): (bool, NodeState, World) {
    var (changed, n1, w1) := IsChanged(env, n, w);
    if changed then
      var (ok, w2) := Write(env, w1, n.name, n1.self.spec);
      (ok, n1, w2)
    else
      (true, n1, w1)
  }

  /** Pausing works on a copy, so the desired spec in node.self survives it. */
  function TryPause(env: Env, n: NodeState, w: World, paused: bool): (bool, NodeState, World) {
    var (ok, w1) := Read(env, w, n.name);
    if !ok then (false, n, w1)
    else
      var copy := w.objects[n.name];
      var done := n.(self := n.self.(spec := n.self.spec.(paused := paused)));
      if copy.paused == paused then (true, done, w1)
      else
        var (written, w2) := Write(env, w1, n.name, copy.(paused := paused));
        (written, if written then done else n, w2)
  }

  function SetPaused(env: Env, n: NodeState, w: World, paused: bool): (bool, NodeState, World) {
    var (ok, n1, w1) := TryPause(env, n, w, paused);
    (ok, n1, Note(w1, Paused(n.name, paused, n.name in w1.objects && w1.objects[n.name].paused, ok)))
  }

  /** Scaling reads into node.self first, so the desired spec is replaced by the server's. */
  function TryScale(env: Env, n: NodeState, w: World, replicas: int): (bool, NodeState, World) {
    var (ok, n1, w1) := Reload(env, n, w);
    if !ok then (false, n1, w1)
    else if n1.self.spec.replicas == replicas then (true, n1, w1)
    else
      var n2 := n1.(self := n1.self.(spec := n1.self.spec.(replicas := replicas)));
      var (written, w2) := Write(env, w1, n.name, n2.self.spec);
      (written, n2, w2)
  }

  function SetReplicas(env: Env, n: NodeState, w: World, replicas: int): (bool, NodeState, World) {
    var (ok, n1, w1) := TryScale(env, n, w, replicas);
    (ok, n1, Note(w1, Scaled(n.name, replicas, if n.name in w1.objects then w1.objects[n.name].replicas else -1, ok)))
  }

  /** status.replicas, or -1 when it cannot be read. */
  function ReplicaCount(env: Env, n: NodeState, w: World): (r: (bool, int, World))
    ensures Grows(w, r.2, n.name)
  {
    var (ok, w1) := Read(env, w, n.name);
    (ok, if ok then env(w.pos).replicas else -1, w1)
  }

  /** Poll until the revision annotation differs; a failed read ends the poll with an error. */
  function RolloutPoll(env: Env, n: NodeState, w: World): (bool, NodeState, World) {
    var a := env(w.pos);
    var present := n.name in w.objects;
    var n1 := if present && (a.ok || a.applied)
              then n.(self := Object(false, a.revision, w.objects[n.name])) else n;
    var done := present && a.ok && Revision(n1) != n.revision;
    (done, n1, Note(Tick(w, done), RolledOut(n.name, n.revision, Revision(n1), done)))
  }

  /** Poll until there is a revision annotation. */
  function InitialRolloutPoll(env: Env, n: NodeState, w: World): (bool, NodeState, World) {
    var a := env(w.pos);
    var present := n.name in w.objects;
    var n1 := if present && (a.ok || a.applied)
              then n.(self := Object(false, a.revision, w.objects[n.name])) else n;
    var done := present && a.ok && a.revision.Some?;
    (done, n1, Tick(w, done))
  }

  function RefreshHashes(env: Env, n: NodeState, w: World): (NodeState, World) {
    var (config, w1) := ConfigHash(env, w);
    var (secret, w2) := SecretHash(env, w1);
    (n.(configHash := config, secretHash := secret), w2)
  }

  /** state(): is an upgrade needed, is a redeploy needed. */
  function State(env: Env, n: NodeState, w: World): (Condition, Condition, NodeState, World) {
    var (changed, n1, w1) := IsChanged(env, n, w);
    var (secret, w2) := SecretHash(env, w1);
    (if changed then IsTrue else Blank, if secret != n1.secretHash then IsTrue else Blank, n1, w2)
  }

  // ----- footprints -----

  lemma RefreshHashesGrows(env: Env, n: NodeState, w: World)
    ensures var r := RefreshHashes(env, n, w);
            && Grows(w, r.1, n.name) && r.0.name == n.name && r.0.kind == n.kind && r.0.clusterSize == n.clusterSize
            && r.1.log == w.log && r.1.allocation == w.allocation && r.1.objects == w.objects
  {
  }

  /** A call of this node's procedures: same node, growing world. */
  ghost predicate Follows(s: Step, t: Step) {
    t.n.name == s.n.name && t.n.kind == s.n.kind && Grows(s.w, t.w, s.n.name)
  }

  lemma FollowsTransitive(a: Step, b: Step, c: Step)
    requires Follows(a, b) && Follows(b, c)
    ensures Follows(a, c)
  {
    GrowsTransitive(a.w, b.w, c.w, a.n.name);
  }

  lemma ExecuteUpdateGrows(env: Env, n: NodeState, w: World)
    ensures var r := ExecuteUpdate(env, n, w);
            && Grows(w, r.2, n.name) && r.1.name == n.name && r.1.kind == n.kind
            && r.2.log == w.log && r.2.allocation == w.allocation
  {
    hide Grows, Agrees, Patch;
    var (changed, n1, w1) := IsChanged(env, n, w);
    if changed {
      GrowsTransitive(w, w1, Write(env, w1, n.name, n1.self.spec).1, n.name);
    }
  }

  lemma TryPauseGrows(env: Env, n: NodeState, w: World, paused: bool)
    ensures var (ok, n', w') := TryPause(env, n, w, paused);
            && Grows(w, w', n.name) && n'.name == n.name && n'.kind == n.kind && n'.revision == n.revision
            && n'.clusterSize == n.clusterSize && w'.allocation == w.allocation && w'.log == w.log
            && (w'.objects == w.objects ||
                 (n.name in w.objects && w'.objects == w.objects[n.name := w.objects[n.name].(paused := paused)]))
            && (ok ==> n.name in w'.objects && w'.objects[n.name].paused == paused)
  {
    hide Grows;
    var (ok, w1) := Read(env, w, n.name);
    if ok {
      var copy := w.objects[n.name];
      GrowsTransitive(w, w1, Write(env, w1, n.name, copy.(paused := paused)).1, n.name);
    }
  }

  /** Pausing changes nothing on the server but that one field, and logs one event. */
  lemma SetPausedGrows(env: Env, n: NodeState, w: World, paused: bool)
    ensures var (ok, n', w') := SetPaused(env, n, w, paused);
            && Grows(w, w', n.name) && n'.name == n.name && n'.kind == n.kind && n'.revision == n.revision
            && n'.clusterSize == n.clusterSize && w'.allocation == w.allocation
            && (w'.objects == w.objects ||
                 (n.name in w.objects && w'.objects == w.objects[n.name := w.objects[n.name].(paused := paused)]))
            && (ok ==> n.name in w'.objects && w'.objects[n.name].paused == paused)
            && w'.log == w.log + [Paused(n.name, paused, n.name in w'.objects && w'.objects[n.name].paused, ok)]
  {
    TryPauseGrows(env, n, w, paused);
    hide Grows, TryPause;
    var (ok, n', w1) := TryPause(env, n, w, paused);
    var e := Paused(n.name, paused, n.name in w1.objects && w1.objects[n.name].paused, ok);
    NoteGrows(w1, e);
    GrowsTransitive(w, w1, Note(w1, e), n.name);
  }

  lemma TryScaleGrows(env: Env, n: NodeState, w: World, replicas: int)
    ensures var (ok, n', w') := TryScale(env, n, w, replicas);
            && Grows(w, w', n.name) && n'.name == n.name && n'.kind == n.kind && n'.revision == n.revision
            && n'.clusterSize == n.clusterSize && w'.allocation == w.allocation && w'.log == w.log
            && (w'.objects == w.objects ||
                 (n.name in w.objects && w'.objects == w.objects[n.name := w.objects[n.name].(replicas := replicas)]))
            && (ok ==> n.name in w'.objects && w'.objects[n.name].replicas == replicas)
  {
    hide Grows;
    var (ok, n1, w1) := Reload(env, n, w);
    if ok {
      var n2 := n1.(self := n1.self.(spec := n1.self.spec.(replicas := replicas)));
      GrowsTransitive(w, w1, Write(env, w1, n.name, n2.self.spec).1, n.name);
    }
  }

  /** Scaling changes nothing on the server but that one field, and logs one event. */
  lemma SetReplicasGrows(env: Env, n: NodeState, w: World, replicas: int)
    ensures var (ok, n', w') := SetReplicas(env, n, w, replicas);
            && Grows(w, w', n.name) && n'.name == n.name && n'.kind == n.kind && n'.revision == n.revision
            && n'.clusterSize == n.clusterSize && w'.allocation == w.allocation
            && (w'.objects == w.objects ||
                 (n.name in w.objects && w'.objects == w.objects[n.name := w.objects[n.name].(replicas := replicas)]))
            && (ok ==> n.name in w'.objects && w'.objects[n.name].replicas == replicas)
            && w'.log == w.log + [Scaled(n.name, replicas, if n.name in w'.objects then w'.objects[n.name].replicas else -1, ok)]
  {
    TryScaleGrows(env, n, w, replicas);
    hide Grows, TryScale;
    var (ok, n', w1) := TryScale(env, n, w, replicas);
    var e := Scaled(n.name, replicas, if n.name in w1.objects then w1.objects[n.name].replicas else -1, ok);
    NoteGrows(w1, e);
    GrowsTransitive(w, w1, Note(w1, e), n.name);
  }

  lemma RolloutPollGrows(env: Env, n: NodeState, w: World)
    ensures var (done, n', w') := RolloutPoll(env, n, w);
            && Grows(w, w', n.name) && n'.name == n.name && n'.kind == n.kind && n'.revision == n.revision
            && n'.clusterSize == n.clusterSize && w'.allocation == w.allocation && w'.objects == w.objects
            && w'.log == w.log + [RolledOut(n.name, n.revision, Revision(n'), done)]
            && (done ==> n.name in w.objects && Revision(n') != n.revision)
  {
  }

  lemma StateGrows(env: Env, n: NodeState, w: World)
    ensures var r := State(env, n, w);
            && Grows(w, r.3, n.name) && r.2.name == n.name && r.2.kind == n.kind
            && r.3.log == w.log && r.3.allocation == w.allocation
            && r.3.objects == w.objects && r.2.secretHash == n.secretHash
  {
  }
}
