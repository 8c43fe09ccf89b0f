/**
 * Everything outside the operator process: the API server's workload objects,
 * Elasticsearch's allocation setting, and the answers to each call.
 *
 * An Env is an arbitrary infinite list of answers; every external call, poll or
 * retried read-modify-write consumes one.  A statement for all Env is therefore a
 * statement about every behaviour of the outside world.  The log records what a
 * run did, and four flags summarise it:
 *   clean  every call so far succeeded, every health read was green and no pod was unschedulable;
 *   kept   every status write so far was acknowledged;
 *   begun  every status write so far that was to record a Deployment as newly under upgrade took effect;
 *   alive  drift detection never indexed past the desired containers (a crash of the process).
 */
module Environment {
  import opened Base
  import opened Drift

  /** One size read inside a poller; the pollers look at the value of a failed read, which is 0. */
  datatype SizeRead = FailedRead | Size(count: int)

  datatype Answer = Answer(
    ok: bool,                   // the call succeeded
    applied: bool,              // a write that was not acknowledged took effect all the same
    loaded: bool,               // in a read-modify-write, the read succeeded
    health: string,             // cluster health status
    size: int,                  // number of cluster nodes
    polled: seq<SizeRead>,      // the size reads of one poll, until its timeout
    replicas: int,              // a workload's status.replicas
    revision: Option<string>,   // a Deployment's revision annotation
    secretHash: string,         // hash of the cluster's secret
    configHash: string,         // hash of the cluster's config map
    unschedulable: seq<bool>)   // per status entry: its pod cannot be scheduled

  type Env = nat -> Answer

  datatype Event =
    | HealthRead(node: string, green: bool)
    | Begin(node: string)                                    // UnderUpgrade becomes True
    | Allocation(node: string, enable: bool, ok: bool)       // an attempt to set shard allocation
    | Clear(node: string)                                    // UnderUpgrade is cleared
    | Counted(node: string, replicas: int)                   // status.replicas as a restart read it
    | Flushed(node: string, ok: bool)                        // a synchronized flush
    | Scaled(node: string, replicas: int, left: int, ok: bool)    // an attempt to scale, and the server's replicas after it
    | Applied(node: string, revision: string, ok: bool)      // update's write of the spec, and the revision before it
    | Paused(node: string, paused: bool, now: bool, ok: bool)    // an attempt to pause or unpause, and what the server has after it
    | RolledOut(node: string, from: string, to: string, ok: bool)    // a poll for a revision other than from
    | Rejoin(node: string, seen: SizeRead, ok: bool)         // a poll for the node count to be back, and the read that ended it
    | Leave(node: string, ok: bool)                          // a poll for the node count to drop
    | DeletePod(node: string, ordinal: int, ok: bool)
    | Partition(node: string, before: int, after: int)       // the server's partition changed
    | Deleted(node: string)                                  // a workload was deleted
    | MinMasters(node: string)                               // minimum_master_nodes was reviewed

  datatype World = World(
    objects: map<string, Spec>,
    allocation: bool,
    log: seq<Event>,
    pos: nat,
    clean: bool,
    kept: bool,
    begun: bool,
    alive: bool)

  function Tick(w: World, ok: bool): World {
    w.(pos := w.pos + 1, clean := w.clean && ok)
  }

  function Note(w: World, e: Event): World {
    w.(log := w.log + [e])
  }

  /** Events that neither open or close a cycle, nor set allocation or a partition, nor poll the cluster's size. */
  predicate Harmless(e: Event) {
    e.DeletePod? || e.Scaled? || e.Paused? || e.RolledOut?
  }

  /**
   * The footprint of work on one node: the log is only extended, with that node's
   * events; other nodes' objects are untouched; and the flags only get worse.
   */
  ghost predicate Grows(w: World, w': World, name: string) {
    && w.log <= w'.log
    && (forall i :: |w.log| <= i < |w'.log| ==> w'.log[i].node == name)
    && (w'.clean ==> w.clean)
    && (w'.alive ==> w.alive)
    && w'.kept == w.kept && w'.begun == w.begun
    && (forall m :: m != name ==> (m in w.objects <==> m in w'.objects))
    && (forall m :: m != name && m in w.objects ==> w.objects[m] == w'.objects[m])
    && (name in w.objects ==> name in w'.objects)
  }

  lemma GrowsTransitive(a: World, b: World, c: World, name: string)
    requires Grows(a, b, name) && Grows(b, c, name)
    ensures Grows(a, c, name)
  {
    forall i | |a.log| <= i < |c.log| ensures c.log[i].node == name {
      if i < |b.log| {
        assert c.log[i] == b.log[i];
      }
    }
  }

  lemma GrowsReflexive(w: World, name: string)
    ensures Grows(w, w, name)
  {
  }

  lemma TickGrows(w: World, ok: bool, name: string)
    ensures Grows(w, Tick(w, ok), name)
  {
  }

  lemma NoteGrows(w: World, e: Event)
    ensures Grows(w, Note(w, e), e.node)
  {
  }

  // ----- Elasticsearch -----

  function Health(env: Env, w: World, name: string): (r: (bool, World))
    ensures Grows(w, r.1, name)
  {
    var green := env(w.pos).health == "green";
    (green, Note(Tick(w, green), HealthRead(name, green)))
  }

  /** A failed read yields 0. */
  function NodeCount(env: Env, w: World): (bool, int, World) {
    var a := env(w.pos);
    (a.ok, if a.ok then a.size else 0, Tick(w, a.ok))
  }

  /** An unacknowledged write may or may not have taken effect. */
  function SetAllocation(env: Env, w: World, name: string, enable: bool): (r: (bool, World))
    ensures Grows(w, r.1, name)
  {
    var a := env(w.pos);
    var w1 := Note(Tick(w, a.ok), Allocation(name, enable, a.ok));
    (a.ok, if a.ok || a.applied then w1.(allocation := enable) else w1)
  }

  function Flush(env: Env, w: World, name: string): (r: World)
    ensures Grows(w, r, name)
  {
    Note(Tick(w, env(w.pos).ok), Flushed(name, env(w.pos).ok))
  }

  function Observed(r: SizeRead): int {
    if r.FailedRead? then 0 else r.count
  }

  /** The first read that ends the poll: at least the size when rejoining, below it when leaving. */
  function FirstAtLeast(polled: seq<SizeRead>, size: int): (r: Option<SizeRead>)
    ensures r.Some? ==> size <= Observed(r.value)
  {
    if polled == [] then None
    else if size <= Observed(polled[0]) then Some(polled[0])
    else FirstAtLeast(polled[1..], size)
  }

  function FirstBelow(polled: seq<SizeRead>, size: int): (r: Option<SizeRead>)
    ensures r.Some? ==> Observed(r.value) < size
  {
    if polled == [] then None
    else if Observed(polled[0]) < size then Some(polled[0])
    else FirstBelow(polled[1..], size)
  }

  function RejoinPoll(env: Env, w: World, name: string, size: int): (r: (bool, World))
    ensures Grows(w, r.1, name)
  {
    var seen := FirstAtLeast(env(w.pos).polled, size);
    (seen.Some?, Note(Tick(w, seen.Some?), Rejoin(name, if seen.Some? then seen.value else FailedRead, seen.Some?)))
  }

  function LeavePoll(env: Env, w: World, name: string, size: int): (r: (bool, World))
    ensures Grows(w, r.1, name)
  {
    var seen := FirstBelow(env(w.pos).polled, size);
    (seen.Some?, Note(Tick(w, seen.Some?), Leave(name, seen.Some?)))
  }

  /** A poll succeeds exactly if one of its reads, in any place, meets the condition. */
  lemma {:induction false} PollsSearch(polled: seq<SizeRead>, size: int)
    ensures FirstAtLeast(polled, size).Some? <==> exists i :: 0 <= i < |polled| && size <= Observed(polled[i])
    ensures FirstBelow(polled, size).Some? <==> exists i :: 0 <= i < |polled| && Observed(polled[i]) < size
  {
    if polled != [] {
      PollsSearch(polled[1..], size);
      assert forall i :: 0 < i < |polled| ==> polled[i] == polled[1..][i - 1];
      assert forall i :: 0 <= i < |polled| - 1 ==> polled[1..][i] == polled[i + 1];
    }
  }

  /**
   * The pollers test the wrong error variable, so a failed read counts as a cluster of size 0.
   * When no real reading is below the recorded size, a leave poll still succeeds exactly if some
   * size was recorded and a read failed.
   */
  lemma FailedReadEndsLeavePoll(polled: seq<SizeRead>, size: int)
    requires forall i :: 0 <= i < |polled| && polled[i].Size? ==> polled[i].count >= size
    ensures FirstBelow(polled, size).Some? <==> size > 0 && FailedRead in polled
  {
    PollsSearch(polled, size);
  }

  /** And when no real reading reaches it, a rejoin poll succeeds exactly if none was recorded and a read failed. */
  lemma FailedReadEndsRejoinPoll(polled: seq<SizeRead>, size: int)
    requires forall i :: 0 <= i < |polled| && polled[i].Size? ==> polled[i].count < size
    ensures FirstAtLeast(polled, size).Some? <==> size <= 0 && FailedRead in polled
  {
    PollsSearch(polled, size);
  }

  // ----- the API server -----

  /** A failed read of the secret or config map hashes no data. */
  function SecretHash(env: Env, w: World): (string, World) {
    var a := env(w.pos);
    (if a.ok then a.secretHash else "", Tick(w, a.ok))
  }

  function ConfigHash(env: Env, w: World): (string, World) {
    var a := env(w.pos);
    (if a.ok then a.configHash else "", Tick(w, a.ok))
  }

  /** client.Get of a workload: does it exist and was it read? */
  function Read(env: Env, w: World, name: string): (r: (bool, World))
    ensures Grows(w, r.1, name)
    ensures r.0 ==> name in r.1.objects && r.1.objects == w.objects
  {
    var ok := env(w.pos).ok && name in w.objects;
    (ok, Tick(w, ok))
  }

  /** client.Update of an existing workload. */
  function Write(env: Env, w: World, name: string, spec: Spec): (r: (bool, World))
    ensures Grows(w, r.1, name)
    ensures r.0 ==> name in r.1.objects && r.1.objects[name] == spec
  {
    var a := env(w.pos);
    var ok := a.ok && name in w.objects;
    var w1 := Tick(w, ok);
    (ok, if name in w.objects && (a.ok || a.applied) then w1.(objects := w.objects[name := spec]) else w1)
  }

  /** client.Create: fails, or reports that the workload exists, or creates it. */
  datatype CreateResult = CreateFailed | AlreadyExists | Created

  function Create(env: Env, w: World, name: string, spec: Spec): (r: (CreateResult, World))
    ensures Grows(w, r.1, name)
  {
    var a := env(w.pos);
    var w1 := Tick(w, a.ok);
    if name in w.objects then
      (if a.ok then AlreadyExists else CreateFailed, w1)
    else
      (if a.ok then Created else CreateFailed,
       if a.ok || a.applied then w1.(objects := w.objects[name := spec]) else w1)
  }

  function Delete(env: Env, w: World, name: string): World {
    var a := env(w.pos);
    var w1 := Note(Tick(w, a.ok), Deleted(name));
    if a.ok || a.applied then w1.(objects := w.objects - {name}) else w1
  }

  function DeletePodCall(env: Env, w: World, name: string, ordinal: int): (r: (bool, World))
    ensures Grows(w, r.1, name)
  {
    var a := env(w.pos);
    (a.ok, Note(Tick(w, a.ok), DeletePod(name, ordinal, a.ok)))
  }
}
