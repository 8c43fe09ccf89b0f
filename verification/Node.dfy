/**
 * class Node: deploymentNode and statefulSetNode as objects (pkg/k8shandler/deployment.go and
 * statefulset.go).  The methods follow the source step by step and are proved to compute the
 * functions of Workload, DeploymentUpgrade and StatefulSetUpgrade.
 */
module NodeObject {
  import opened Base
  import opened Comparison
  import opened Drift
  import opened Environment
  import opened Workload
  import Dep = DeploymentUpgrade
  import opened Reconcile
  import Sts = StatefulSetUpgrade

  /** The client: every call reads and writes the world through it. */
  class Api {
    const env: Env
    var w: World

    constructor (env: Env, w: World)
      ensures this.env == env && this.w == w
    {
      this.env := env;
      this.w := w;
    }
  }

  class Node {
    const kind: Kind
    const name: string
    var self: Object
    var secretHash: string
    var configHash: string
    var revision: string
    var clusterSize: int

    /** The node as a value. */
    function Value(): NodeState
      reads this
    {
      NodeState(kind, name, self, secretHash, configHash, revision, clusterSize)
    }

    constructor (kind: Kind, name: string, spec: Spec)
      ensures Value() == NodeState(kind, name, Object(true, None, spec), "", "", "", 0)
    {
      this.kind, this.name := kind, name;
      self := Object(true, None, spec);
      secretHash, configHash, revision, clusterSize := "", "", "", 0;
    }

    /** updateReference: only node.self is replaced. */
    method UpdateReference(desired: Node)
      requires desired.kind == kind
      modifies this`self
      ensures Value() == old(Value()).(self := old(desired.self))
    {
      self := desired.self;
    }

    // ----- operations of both kinds -----

    /** client.Get into node.self. */
    method ReloadSelf(api: Api) returns (ok: bool)
      modifies this`self, api
      ensures (ok, Value(), api.w) == Reload(api.env, old(Value()), old(api.w))
    {
      var answer := api.env(api.w.pos);
      var (read, w1) := Read(api.env, api.w, name);
      if read {
        self := Object(false, answer.revision, api.w.objects[name]);
      }
      api.w := w1;
      ok := read;
    }

    /** isChanged: compare field by field with the server's copy and patch node.self as it goes. */
    method HasChanged(api: Api) returns (changed: bool)
      modifies this`self, api
      ensures (changed, Value(), api.w) == IsChanged(api.env, old(Value()), old(api.w))
    {
      var desired := self.spec;
      self := self.(spec := BLANK_SPEC);
      var ok := ReloadSelf(api);
      if !ok {
        return false;
      }
      var server := self.spec;
      api.w := api.w.(alive := api.w.alive && !OutOfRange(server, desired));
      var patched;
      changed, patched := Compare(server, desired);
      self := self.(spec := patched);
    }

    /** The comparison itself, container by container. */
    static method Compare(server: Spec, desired: Spec) returns (changed: bool, patched: Spec)
      ensures changed <==> !Agrees(server, desired)
      ensures patched == Patch(server, desired)
      ensures Agrees(patched, desired)
    {
      changed, patched := false, server;
      var sameSelector := AreSelectorsSame(server.selector, desired.selector);
      SelectorsSameIsEquality(server.selector, desired.selector);
      if !sameSelector {
        patched, changed := patched.(selector := desired.selector), true;
      }
      var sameTolerations := AreTolerationsSame(server.tolerations, desired.tolerations);
      if !sameTolerations {
        patched, changed := patched.(tolerations := desired.tolerations), true;
      }
      var before := changed;
      var containers := server.containers;
      for i := 0 to |server.containers|
        invariant |containers| == |server.containers|
        invariant forall j :: 0 <= j < i ==> containers[j] == PatchContainers(server.containers, desired.containers)[j]
        invariant forall j :: i <= j < |containers| ==> containers[j] == server.containers[j]
        invariant changed <==> before || exists j :: 0 <= j < i && j < |desired.containers|
                                                     && !ContainerAgrees(server.containers[j], desired.containers[j])
      {
        if i < |desired.containers| {
          var differs, container := CompareContainer(server.containers[i], desired.containers[i]);
          changed := changed || differs;
          containers := containers[i := container];
        }
      }
      assert containers == PatchContainers(server.containers, desired.containers);
      patched := patched.(containers := containers);
      PatchAgrees(server, desired);
    }

    /** Image, then CPU and memory of the limits, then of the requests. */
    static method CompareContainer(server: Container, desired: Container) returns (changed: bool, patched: Container)
      ensures changed <==> !ContainerAgrees(server, desired)
      ensures patched == PatchContainer(server, desired)
      ensures ContainerAgrees(patched, desired)
    {
      changed, patched := false, server;
      if server.image != desired.image {
        patched, changed := patched.(image := desired.image), true;
      }
      var limitsChanged, limits := CompareList(server.limits, desired.limits);
      var requestsChanged, requests := CompareList(server.requests, desired.requests);
      patched := patched.(limits := limits, requests := requests);
      changed := changed || limitsChanged || requestsChanged;
    }

    static method CompareList(server: ResourceList, desired: ResourceList)
      returns (changed: bool, patched: ResourceList)
      ensures changed <==> !ListAgrees(server, desired)
      ensures patched == PatchList(server, desired)
      ensures ListAgrees(patched, desired)
    {
      changed, patched := false, server;
      if Quantity(desired, CPU) != Quantity(patched, CPU) {
        patched, changed := patched[CPU := Quantity(desired, CPU)], true;
      }
      if Quantity(desired, MEMORY) != Quantity(patched, MEMORY) {
        patched, changed := patched[MEMORY := Quantity(desired, MEMORY)], true;
      }
    }

    method Execute(api: Api) returns (ok: bool)
      modifies this`self, api
      ensures (ok, Value(), api.w) == ExecuteUpdate(api.env, old(Value()), old(api.w))
    {
      var changed := HasChanged(api);
      ok := true;
      if changed {
        var (written, w1) := Write(api.env, api.w, name, self.spec);
        api.w := w1;
        ok := written;
      }
    }

    method Pause(api: Api, paused: bool) returns (ok: bool)
      modifies this`self, api
      ensures (ok, Value(), api.w) == SetPaused(api.env, old(Value()), old(api.w), paused)
    {
      hide TryPause;
      ok := RetryPause(api, paused);
      api.w := Note(api.w, Paused(name, paused, name in api.w.objects && api.w.objects[name].paused, ok));
    }

    method RetryPause(api: Api, paused: bool) returns (ok: bool)
      modifies this`self, api
      ensures (ok, Value(), api.w) == TryPause(api.env, old(Value()), old(api.w), paused)
    {
      var (read, w1) := Read(api.env, api.w, name);
      api.w := w1;
      if !read {
        return false;
      }
      var copy := api.w.objects[name];
      if copy.paused != paused {
        copy := copy.(paused := paused);
        var (written, w2) := Write(api.env, api.w, name, copy);
        api.w := w2;
        if !written {
          return false;
        }
      }
      self := self.(spec := self.spec.(paused := copy.paused));
      return true;
    }

    method Scale(api: Api, replicas: int) returns (ok: bool)
      modifies this`self, api
      ensures (ok, Value(), api.w) == SetReplicas(api.env, old(Value()), old(api.w), replicas)
    {
      hide TryScale;
      ok := RetryScale(api, replicas);
      var left := if name in api.w.objects then api.w.objects[name].replicas else -1;
      api.w := Note(api.w, Scaled(name, replicas, left, ok));
    }

    method RetryScale(api: Api, replicas: int) returns (ok: bool)
      modifies this`self, api
      ensures (ok, Value(), api.w) == TryScale(api.env, old(Value()), old(api.w), replicas)
    {
      ok := ReloadSelf(api);
      if ok && self.spec.replicas != replicas {
        self := self.(spec := self.spec.(replicas := replicas));
        var (written, w1) := Write(api.env, api.w, name, self.spec);
        api.w := w1;
        ok := written;
      }
    }

    method WaitForRollout(api: Api, initial: bool) returns (ok: bool)
      modifies this`self, api
      ensures (ok, Value(), api.w) == if initial then InitialRolloutPoll(api.env, old(Value()), old(api.w))
                                      else RolloutPoll(api.env, old(Value()), old(api.w))
    {
      var answer := api.env(api.w.pos);
      if name in api.w.objects && (answer.ok || answer.applied) {
        self := Object(false, answer.revision, api.w.objects[name]);
      }
      var seen := if self.revision.Some? then self.revision.value else "";
      ok := name in api.w.objects && answer.ok && if initial then self.revision.Some? else seen != revision;
      api.w := Tick(api.w, ok);
      if !initial {
        api.w := Note(api.w, RolledOut(name, revision, seen, ok));
      }
    }

    method Refresh(api: Api)
      modifies this`configHash, this`secretHash, api
      ensures (Value(), api.w) == RefreshHashes(api.env, old(Value()), old(api.w))
    {
      var (config, w1) := ConfigHash(api.env, api.w);
      api.w := w1;
      if config != configHash {
        configHash := config;
      }
      var (secret, w2) := SecretHash(api.env, api.w);
      api.w := w2;
      if secret != secretHash {
        secretHash := secret;
      }
    }

    /** state(): what the node needs. */
    method Evaluate(api: Api) returns (up: Condition, redo: Condition)
      modifies this`self, api
      ensures (up, redo, Value(), api.w) == State(api.env, old(Value()), old(api.w))
    {
      up, redo := Blank, Blank;
      var changed := HasChanged(api);
      if changed {
        up := IsTrue;
      }
      var (secret, w1) := SecretHash(api.env, api.w);
      api.w := w1;
      if secret != secretHash {
        redo := IsTrue;
      }
    }

    // ----- Deployments -----

    /** The first lines of update and restart. */
    method BeginDeployment(api: Api, u0: Upgrade, sizeRequired: bool) returns (u: Upgrade, go: bool)
      modifies this`clusterSize, api
      ensures Step(Value(), u, api.w, go)
           == Dep.BeginCycle(api.env, Step(old(Value()), u0, old(api.w), true), sizeRequired)
    {
      u, go := u0, true;
      if u.under != IsTrue {
        var (green, w1) := Health(api.env, api.w, name);
        api.w := w1;
        if !green {
          return u, false;
        }
        var (ok, size, w2) := NodeCount(api.env, api.w);
        api.w := w2;
        if !ok && sizeRequired {
          return u, false;
        }
        clusterSize := size;
        u := u.(under := IsTrue);
        api.w := Note(api.w, Begin(name));
      }
    }

    method DrainDeployment(api: Api, u0: Upgrade) returns (u: Upgrade, go: bool)
      modifies this`self, api
      ensures Step(Value(), u, api.w, go) == Dep.Drain(api.env, Step(old(Value()), u0, old(api.w), true))
    {
      u, go := u0, true;
      if AtStart(u.phase) {
        var (_, replicas, w1) := ReplicaCount(api.env, Value(), api.w);
        api.w := Note(w1, Counted(name, replicas));
        if replicas > 0 {
          var (disabled, w2) := SetAllocation(api.env, api.w, name, false);
          api.w := w2;
          if !disabled {
            return u, false;
          }
          api.w := Flush(api.env, api.w, name);
          var scaled := Scale(api, 0);
          if !scaled {
            return u, false;
          }
          var (left, w3) := LeavePoll(api.env, api.w, name, clusterSize);
          api.w := w3;
          if !left {
            return u, false;
          }
        }
        u := u.(phase := NodeRestarting);
      }
    }

    method ApplyDeployment(api: Api, u0: Upgrade) returns (u: Upgrade, go: bool)
      modifies this`self, this`revision, api
      ensures Step(Value(), u, api.w, go) == Dep.Apply(api.env, Step(old(Value()), u0, old(api.w), true))
    {
      hide ExecuteUpdate;
      u, go := u0, true;
      if AtStart(u.phase) {
        var (disabled, w1) := SetAllocation(api.env, api.w, name, false);
        api.w := w1;
        if !disabled {
          return u, false;
        }
        api.w := Flush(api.env, api.w, name);
        var ok := Execute(api);
        api.w := Note(api.w, Applied(name, Revision(Value()), ok));
        if !ok {
          return u, false;
        }
        u := u.(phase := NodeRestarting);
        revision := Revision(Value());
      }
    }

    /** restart in phase NodeRestarting, up to shard allocation. */
    method ScaleUpDeployment(api: Api, ghost u: Upgrade) returns (go: bool)
      modifies this`self, this`configHash, this`secretHash, api
      ensures Step(Value(), u, api.w, go) == Dep.ScaleUp(api.env, Step(old(Value()), u, old(api.w), true))
    {
      hide SetReplicas, RefreshHashes;
      go := Scale(api, 1);
      if go {
        var (back, w1) := RejoinPoll(api.env, api.w, name, clusterSize);
        api.w := w1;
        if !back {
          return false;
        }
        Refresh(api);
      }
    }

    /** update in phase NodeRestarting, up to shard allocation; errors of unpausing and pausing are ignored. */
    method RollOutDeployment(api: Api, ghost u: Upgrade) returns (go: bool)
      modifies this`self, this`configHash, this`secretHash, api
      ensures Step(Value(), u, api.w, go) == Dep.RollOut(api.env, Step(old(Value()), u, old(api.w), true))
    {
      hide SetPaused, RefreshHashes, RolloutPoll;
      var _ := Pause(api, false);
      go := WaitForRollout(api, false);
      if go {
        var _ := Pause(api, true);
        Refresh(api);
        var (back, w1) := RejoinPoll(api.env, api.w, name, clusterSize);
        api.w := w1;
        go := back;
      }
    }

    method RecycleDeployment(api: Api, u0: Upgrade, updating: bool) returns (u: Upgrade, go: bool)
      modifies this`self, this`configHash, this`secretHash, api
      ensures Step(Value(), u, api.w, go) == Dep.Recycle(api.env, Step(old(Value()), u0, old(api.w), true), updating)
    {
      u, go := u0, true;
      if u.phase == NodeRestarting {
        if updating {
          go := RollOutDeployment(api, u);
        } else {
          go := ScaleUpDeployment(api, u);
        }
        if go {
          var (enabled, w1) := SetAllocation(api.env, api.w, name, true);
          api.w := w1;
          if !enabled {
            return u, false;
          }
          u := u.(phase := RecoveringData);
        }
      }
    }

    method RecoverDeployment(api: Api, u0: Upgrade) returns (u: Upgrade, go: bool)
      modifies api
      ensures Step(Value(), u, api.w, go) == Dep.Recover(api.env, Step(Value(), u0, old(api.w), true))
    {
      u, go := u0, true;
      if u.phase == RecoveringData {
        var (green, w1) := Health(api.env, api.w, name);
        api.w := w1;
        if !green {
          return u, false;
        }
        u := u.(phase := ControllerUpdated, under := Blank);
        api.w := Note(api.w, Clear(name));
      }
    }

    method RestartDeployment(api: Api, u0: Upgrade) returns (u: Upgrade, go: bool)
      modifies this, api
      ensures Step(Value(), u, api.w, go) == Dep.Call(api.env, Step(old(Value()), u0, old(api.w), true), false)
    {
      hide Dep.BeginCycle, Dep.ScaleUp;
      u, go := BeginDeployment(api, u0, true);
      if go {
        u, go := DrainDeployment(api, u);
      }
      if go {
        u, go := RecycleDeployment(api, u, false);
      }
      if go {
        u, go := RecoverDeployment(api, u);
      }
    }

    method UpdateDeployment(api: Api, u0: Upgrade) returns (u: Upgrade, go: bool)
      modifies this, api
      ensures Step(Value(), u, api.w, go) == Dep.Call(api.env, Step(old(Value()), u0, old(api.w), true), true)
    {
      hide Dep.BeginCycle, Dep.RollOut;
      u, go := BeginDeployment(api, u0, false);
      if go {
        u, go := ApplyDeployment(api, u);
      }
      if go {
        u, go := RecycleDeployment(api, u, true);
      }
      if go {
        u, go := RecoverDeployment(api, u);
      }
    }

    method CreateDeployment(api: Api) returns (ok: bool)
      modifies this, api
      ensures (ok, Value(), api.w) == Dep.CreateNode(api.env, old(Value()), old(api.w))
    {
      hide SetPaused, RefreshHashes, InitialRolloutPoll;
      if self.unsaved {
        var (result, w1) := Create(api.env, api.w, name, self.spec);
        api.w := w1;
        match result {
          case CreateFailed => return false;
          case AlreadyExists =>
            ok := Pause(api, true);
            return;
          case Created =>
            self := self.(unsaved := false);
            ok := WaitForRollout(api, true);
            if !ok {
              return;
            }
            Refresh(api);
        }
      }
      ok := Pause(api, true);
    }

    method ProgressDeployment(api: Api)
      modifies this`self, this`revision, api
      ensures (Value(), api.w) == Dep.Progress(api.env, old(Value()), old(api.w))
    {
      hide IsChanged, ExecuteUpdate, SetPaused, RolloutPoll;
      var changed := HasChanged(api);
      if changed {
        var ok := Execute(api);
        if !ok {
          return;
        }
        var unpaused := Pause(api, false);
        if !unpaused {
          return;
        }
        var rolled := WaitForRollout(api, false);
        if rolled {
          revision := Revision(Value());
        }
        var _ := Pause(api, true);
      }
    }

    // ----- StatefulSets -----

    method LowerPartition(api: Api, partition: int) returns (ok: bool)
      modifies this`self, api
      ensures (ok, Value(), api.w) == Sts.SetPartition(api.env, old(Value()), old(api.w), partition)
    {
      ok := ReloadSelf(api);
      if ok && self.spec.partition != partition {
        var before := self.spec.partition;
        self := self.(spec := self.spec.(partition := partition));
        var (written, w1) := Write(api.env, api.w, name, self.spec);
        api.w := if w1.objects[name].partition == before then w1 else Note(w1, Partition(name, before, partition));
        ok := written;
      }
    }

    method BeginStatefulSet(api: Api, u0: Upgrade, sizeRequired: bool) returns (u: Upgrade, go: bool)
      modifies this`self, this`clusterSize, api
      ensures Step(Value(), u, api.w, go)
           == Sts.BeginCycle(api.env, Step(old(Value()), u0, old(api.w), true), sizeRequired)
    {
      hide Sts.SetPartition;
      u, go := u0, true;
      if u.under != IsTrue {
        var (green, w1) := Health(api.env, api.w, name);
        api.w := w1;
        if !green {
          return u, false;
        }
        var (ok, size, w2) := NodeCount(api.env, api.w);
        api.w := w2;
        if !ok && sizeRequired {
          return u, false;
        }
        clusterSize := size;
        var (counted, replicas, w3) := ReplicaCount(api.env, Value(), api.w);
        api.w := w3;
        if !counted {
          return u, false;
        }
        var _ := LowerPartition(api, replicas);
        u := u.(under := IsTrue);
        api.w := Note(api.w, Begin(name));
      }
    }

    /** restart's loop: delete the pods from the ordinal below the partition down to 0. */
    method RestartPods(api: Api, ghost u: Upgrade, ordinal: int) returns (go: bool)
      modifies this`self, api
      ensures Step(Value(), u, api.w, go)
           == Sts.Loop(api.env, Step(old(Value()), u, old(api.w), true), ordinal, false)
    {
      hide Sts.SetPartition, FirstAtLeast, FirstBelow, Grows;
      var index := ordinal;
      while index > 0
        invariant Sts.Loop(api.env, Step(Value(), u, api.w, true), index, false)
               == Sts.Loop(api.env, Step(old(Value()), u, old(api.w), true), ordinal, false)
        decreases index
      {
        var (back, w1) := RejoinPoll(api.env, api.w, name, clusterSize);
        api.w := w1;
        if !back {
          return false;
        }
        var (deleted, w2) := DeletePodCall(api.env, api.w, name, index - 1);
        api.w := w2;
        if !deleted {
          return false;
        }
        var (left, w3) := LeavePoll(api.env, api.w, name, clusterSize);
        api.w := w3;
        if !left {
          return false;
        }
        var _ := LowerPartition(api, index - 1);
        index := index - 1;
      }
      return true;
    }

    /** update's loop: lower the partition one pod at a time. */
    method UpdatePods(api: Api, ghost u: Upgrade, ordinal: int) returns (go: bool)
      modifies this`self, api
      ensures Step(Value(), u, api.w, go)
           == Sts.Loop(api.env, Step(old(Value()), u, old(api.w), true), ordinal, true)
    {
      hide Sts.SetPartition, FirstAtLeast, FirstBelow, Grows;
      var index := ordinal;
      while index > 0
        invariant Sts.Loop(api.env, Step(Value(), u, api.w, true), index, true)
               == Sts.Loop(api.env, Step(old(Value()), u, old(api.w), true), ordinal, true)
        decreases index
      {
        var (back, w1) := RejoinPoll(api.env, api.w, name, clusterSize);
        api.w := w1;
        if !back {
          return false;
        }
        var _ := LowerPartition(api, index - 1);
        var (left, w2) := LeavePoll(api.env, api.w, name, clusterSize);
        api.w := w2;
        if !left {
          return false;
        }
        index := index - 1;
      }
      return true;
    }

    method RollStatefulSet(api: Api, u0: Upgrade, updating: bool) returns (u: Upgrade, go: bool)
      modifies this`self, this`configHash, this`secretHash, api
      ensures Step(Value(), u, api.w, go) == Sts.Roll(api.env, Step(old(Value()), u0, old(api.w), true), updating)
    {
      hide Sts.Loop, RefreshHashes;
      u, go := u0, true;
      if u.phase == NodeRestarting {
        var (ok, ordinal, w1) := Sts.ReadPartition(api.env, Value(), api.w);
        api.w := w1;
        if !ok {
          return u, false;
        }
        if updating {
          go := UpdatePods(api, u, ordinal);
        } else {
          go := RestartPods(api, u, ordinal);
        }
        if go {
          Sts.LoopTame(api.env, Step(old(Value()), u, w1, true), ordinal, updating);
          var (back, w2) := RejoinPoll(api.env, api.w, name, clusterSize);
          api.w := w2;
          if !back {
            return u, false;
          }
          Refresh(api);
          u := u.(phase := RecoveringData);
        }
      }
    }

    method FinishStatefulSet(api: Api, u0: Upgrade) returns (u: Upgrade)
      modifies api
      ensures Step(Value(), u, api.w, true) == Sts.Finish(Step(Value(), u0, old(api.w), true))
    {
      u := u0;
      if u.phase == RecoveringData {
        u := u.(phase := ControllerUpdated, under := Blank);
        api.w := Note(api.w, Clear(name));
      }
    }

    method RestartStatefulSet(api: Api, u0: Upgrade) returns (u: Upgrade, go: bool)
      modifies this, api
      ensures Step(Value(), u, api.w, go) == Sts.Call(api.env, Step(old(Value()), u0, old(api.w), true), false)
    {
      hide Sts.BeginCycle, Sts.Loop, Sts.AllBack;
      u, go := BeginStatefulSet(api, u0, true);
      if go && AtStart(u.phase) {
        u := u.(phase := NodeRestarting);
      }
      if go {
        u, go := RollStatefulSet(api, u, false);
      }
      if go {
        u := FinishStatefulSet(api, u);
      }
    }

    method UpdateStatefulSet(api: Api, u0: Upgrade) returns (u: Upgrade, go: bool)
      modifies this, api
      ensures Step(Value(), u, api.w, go) == Sts.Call(api.env, Step(old(Value()), u0, old(api.w), true), true)
    {
      hide Sts.BeginCycle, Sts.Loop, Sts.AllBack, ExecuteUpdate;
      u, go := BeginStatefulSet(api, u0, false);
      if go && AtStart(u.phase) {
        go := Execute(api);
        if go {
          u := u.(phase := NodeRestarting);
        }
      }
      if go {
        u, go := RollStatefulSet(api, u, true);
      }
      if go {
        u := FinishStatefulSet(api, u);
      }
    }

    method ScaleStatefulSet(api: Api)
      modifies this`self, api
      ensures (Value(), api.w) == Sts.Scale(api.env, old(Value()), old(api.w))
    {
      hide SetReplicas;
      var desired := self.spec.replicas;
      var ok := ReloadSelf(api);
      if ok && self.spec.replicas != desired {
        var _ := Scale(api, desired);
      }
    }

    method CreateStatefulSet(api: Api) returns (ok: bool)
      modifies this, api
      ensures (ok, Value(), api.w) == Sts.CreateNode(api.env, old(Value()), old(api.w))
    {
      hide Sts.Scale, RefreshHashes;
      ok := true;
      if self.unsaved {
        var (result, w1) := Create(api.env, api.w, name, self.spec);
        api.w := w1;
        match result {
          case CreateFailed => ok := false;
          case AlreadyExists => ScaleStatefulSet(api);
          case Created =>
            self := self.(unsaved := false);
            Refresh(api);
        }
      } else {
        ScaleStatefulSet(api);
      }
    }

    method ProgressStatefulSet(api: Api)
      modifies this`self, api
      ensures (Value(), api.w) == Sts.Progress(api.env, old(Value()), old(api.w))
    {
      hide IsChanged, ExecuteUpdate;
      var changed := HasChanged(api);
      if changed {
        var ok := Execute(api);
        if ok {
          var (found, ordinal, w1) := Sts.ReadPartition(api.env, Value(), api.w);
          api.w := w1;
          if found {
            api.w := DeletePodCall(api.env, api.w, name, ordinal).1;
          }
        }
      }
    }

    // ----- the interface of both kinds -----

    method Run(api: Api, u0: Upgrade, updating: bool) returns (u: Upgrade, go: bool)
      modifies this, api
      ensures Step(Value(), u, api.w, go) == CallNode(api.env, Step(old(Value()), u0, old(api.w), true), updating)
    {
      hide Dep.Call, Sts.Call;
      match kind {
        case Deployment =>
          if updating {
            u, go := UpdateDeployment(api, u0);
          } else {
            u, go := RestartDeployment(api, u0);
          }
        case StatefulSet =>
          if updating {
            u, go := UpdateStatefulSet(api, u0);
          } else {
            u, go := RestartStatefulSet(api, u0);
          }
      }
    }

    method CreateWorkload(api: Api) returns (ok: bool)
      modifies this, api
      ensures (ok, Value(), api.w) == CreateNode(api.env, old(Value()), old(api.w))
    {
      hide Dep.CreateNode, Sts.CreateNode;
      if kind.Deployment? {
        ok := CreateDeployment(api);
      } else {
        ok := CreateStatefulSet(api);
      }
    }

    method ProgressUnschedulable(api: Api)
      modifies this, api
      ensures (Value(), api.w) == ProgressNode(api.env, old(Value()), old(api.w))
    {
      hide Dep.Progress, Sts.Progress;
      if kind.Deployment? {
        ProgressDeployment(api);
      } else {
        ProgressStatefulSet(api);
      }
    }
  }
}
