/**
 * Why the run properties assume that status writes persist: a single lost write after shard
 * allocation has been disabled leaves it disabled with nothing in the status to show it.
 */
module LostStatus {
  import opened Base
  import opened Drift
  import opened Environment
  import opened Workload
  import Dep = DeploymentUpgrade
  import opened Reconcile
  import opened Footprint
  import opened StatusIndex
  import opened AllocationSafety

  const GOOD := Answer(true, true, true, "green", 1, [Size(1)], 1, Some("1"), "", "", [])
  const BAD := Answer(false, false, false, "", 0, [], 0, None, "", "", [])

  /** Three calls succeed - health, cluster size, disabling allocation - and everything after them fails. */
  ghost predicate FailsAfterDisabling(env: Env, pos: nat) {
    && env(pos) == GOOD && env(pos + 1) == GOOD && env(pos + 2) == GOOD
    && forall p :: p >= pos + 3 ==> env(p) == BAD
  }

  /** The first block disables allocation, and goes on although it cannot read the workload. */
  lemma DisablesAllocation(env: Env, n: NodeState, u: Upgrade, w: World)
    requires FailsAfterDisabling(env, w.pos) && u.under != IsTrue && AtStart(u.phase)
    ensures var x := Dep.Apply(env, Dep.BeginCycle(env, Step(n, u, w, true), false));
            !x.w.allocation && x.w.pos >= w.pos + 3 && x.u.under == IsTrue && x.u.phase != RecoveringData
  {
    hide Grows, Agrees, Patch;
    var t := Dep.BeginCycle(env, Step(n, u, w, true), false);
    var (disabled, w1) := SetAllocation(env, t.w, n.name, false);
    var (ok, n2, w2) := ExecuteUpdate(env, t.n, Flush(env, w1, n.name));
  }

  /** From there on nothing is done. */
  lemma NothingMoreHappens(env: Env, x: Step)
    requires !x.w.allocation && x.u.phase != RecoveringData && forall p :: p >= x.w.pos ==> env(p) == BAD
    ensures var t := Dep.Recover(env, Dep.Recycle(env, x, true));
            !t.w.allocation && t.w.pos >= x.w.pos && t.u == x.u
  {
    hide Grows, FirstAtLeast;
    var (_, n1, v1) := SetPaused(env, x.n, x.w, false);
    assert !v1.allocation && v1.pos >= x.w.pos;
    assert !RolloutPoll(env, n1, v1).0;
  }

  /** With every call failing, a Deployment update that has disabled allocation goes no further. */
  lemma UpdateStalls(env: Env, n: NodeState, u: Upgrade, w: World)
    requires FailsAfterDisabling(env, w.pos) && u.under != IsTrue && AtStart(u.phase)
    ensures var s := Dep.Call(env, Step(n, u, w, true), true);
            !s.w.allocation && s.w.pos >= w.pos + 3 && s.u.under == IsTrue
  {
    hide Dep.BeginCycle, Dep.Apply, Dep.Recycle, Dep.Recover;
    DisablesAllocation(env, n, u, w);
    NothingMoreHappens(env, Dep.Apply(env, Dep.BeginCycle(env, Step(n, u, w, true), false)));
  }

  /** The status has the Deployment's entry, as it does in every run. */
  ghost predicate IsDeploymentEntry(c: Cluster, name: string) {
    && UniqueKeys(c.mem) && name != ""
    && FindEntry(c.mem, name) >= 0 && EntryOf(c.mem, name).deploymentName == name
  }

  /** The pass's work on the node ends with allocation disabled and the stored status as it was. */
  lemma LostWriteStrandsAllocation(env: Env, c: Cluster, i: nat)
    requires i < |c.nodes| && c.nodes[i].kind.Deployment?
    requires var u := EntryOf(c.mem, c.nodes[i].name).upgrade; u.under != IsTrue && AtStart(u.phase)
    requires FailsAfterDisabling(env, c.w.pos) && c.w.allocation && !SomeHolder(c.stored)
    ensures var r := Visit(env, c, i, true); !r.w.allocation && !SomeHolder(r.stored) && !r.w.kept
    ensures IsDeploymentEntry(c, c.nodes[i].name) ==> !Visit(env, c, i, true).w.begun
  {
    hide Dep.Call, Grows, Agrees, Patch, FindEntryFrom, SomeHolder;
    var name := c.nodes[i].name;
    var e := EntryOf(c.mem, name);
    UpdateStalls(env, c.nodes[i], e.upgrade, c.w);
    var s := Dep.Call(env, Step(c.nodes[i], e.upgrade, c.w, true), true);
    StateGrows(env, s.n, s.w);
    var (n, e', w) := Treat(env, c.nodes[i], e, c.w, true);
    assert e'.upgrade.under == IsTrue;
    PutEntryDiffers(c.mem, name, e');
    if IsDeploymentEntry(c, name) {
      TreatFollows(env, c.nodes[i], e, c.w, true);
      NewlyUnderIfBegins(c.mem, FindEntry(c.mem, name), e');
    }
  }

  lemma PutEntryDiffers(entries: seq<Entry>, name: string, e: Entry)
    requires EntryOf(entries, name).upgrade.under != IsTrue && e.upgrade.under == IsTrue
    ensures PutEntry(entries, FindEntry(entries, name), e) != entries
  {
    var k := FindEntry(entries, name);
    if k >= 0 {
      assert PutEntry(entries, k, e)[k] == e != entries[k];
    } else {
      assert |PutEntry(entries, k, e)| == |entries| + 1;
    }
  }
}
