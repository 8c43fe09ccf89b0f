/**
 * What passes hand on to each other and where they stop: the closing write records which pods cannot
 * be scheduled, for the next pass to help; and create mode goes on until the first failure.
 */
module PassEffects {
  import opened Base
  import opened Drift
  import opened Environment
  import opened Workload
  import opened Reconcile
  import opened Footprint
  import opened StatusIndex
  import opened HelpEffects
  import ConvergenceTheorem

  // ----- unschedulable pods, from one pass to the next -----

  /** A pass whose work and closing write succeed stores exactly the answers about unschedulable pods. */
  lemma PassRecordsUnschedulable(env: Env, c: Cluster, gen: seq<NodeState>)
    requires env(c.w.pos).ok && Work(env, Prepare(env, c, gen)).0
    requires env(Work(env, Prepare(env, c, gen)).1.w.pos).ok
    ensures var r, flags := Pass(env, c, gen).stored, env(Work(env, Prepare(env, c, gen)).1.w.pos).unschedulable;
            forall i :: 0 <= i < |r| && i < |flags| ==> r[i].unschedulable == flags[i]
  {
    hide Work, Prepare;
  }

  /**
   * So a node whose pod one pass finds unschedulable has, once the next pass has gone well as far as
   * choosing its work, a workload that agrees with the spec.
   */
  lemma FlaggedThenHelped(env: Env, c: Cluster, gen: seq<NodeState>, gen': seq<NodeState>, i: nat, k: nat)
    requires Indexed(c) && DistinctNodes(gen) && DistinctNodes(gen')
    requires env(c.w.pos).ok && Work(env, Prepare(env, c, gen)).0
    requires var w := Work(env, Prepare(env, c, gen)).1;
             env(w.w.pos).ok && i < |env(w.w.pos).unschedulable| && env(w.w.pos).unschedulable[i]
    requires i < |Pass(env, c, gen).stored| && k < |gen'| && Names(Pass(env, c, gen).stored[i], gen'[k].name)
    requires Prepare(env, Pass(env, c, gen), gen').w.clean
    ensures var p, name := Prepare(env, Pass(env, c, gen), gen'), gen'[k].name;
            name in p.w.objects && Agrees(p.w.objects[name], gen'[k].self.spec)
  {
    PassRecordsUnschedulable(env, c, gen);
    PassIndexed(env, c, gen);
    hide Pass, Prepare, Work, Names, Agrees, Indexed, DistinctNodes;
    var r := Pass(env, c, gen);
    assert r.stored[i] in r.stored;
    UnschedulableHelped(env, r, gen', r.stored[i], k);
  }

  // ----- create mode -----

  ghost predicate LeftAlone(c: Cluster, c': Cluster, i: nat) {
    && i < |c.nodes| == |c'.nodes| && c'.nodes[i] == c.nodes[i]
    && (c.nodes[i].name in c.w.objects <==> c.nodes[i].name in c'.w.objects)
    && (c.nodes[i].name in c.w.objects ==> c'.w.objects[c.nodes[i].name] == c.w.objects[c.nodes[i].name])
  }

  lemma MakeLeavesOthers(env: Env, c: Cluster, i: nat, k: nat)
    requires Indexed(c) && i < |c.nodes| && k < |c.nodes| && k != i
    ensures LeftAlone(c, Make(env, c, i).1, k)
  {
    if env(c.w.pos).ok {
      var name := c.nodes[i].name;
      var c1 := c.(mem := c.stored, w := Tick(c.w, true));
      var e, isNew := EntryOf(c.mem, name), FindEntry(c.mem, name) < 0;
      RaiseFollows(env, c.nodes[i], e, isNew, c1.w);
      DistinctAt(c.nodes, k, i);
      hide Raise, Store, FindEntry, EntryOf, Indexed, DistinctNodes;
      var (ok, n, e', w) := Raise(env, c.nodes[i], e, isNew, c1.w);
      OtherObject(c1.w, w, name, c.nodes[k].name);
      StoreShape(env, c1.(nodes := c.nodes[i := n], w := w), PutEntry(c.mem, FindEntry(c.mem, name), e'));
    }
  }

  /** A state of the create loop: the first i nodes have been made, each of them successfully. */
  ghost predicate MadeUpTo(env: Env, c: Cluster, i: nat, c': Cluster)
    decreases i
  {
    if i == 0 then c' == c
    else exists b :: MadeUpTo(env, c, i - 1, b) && i <= |b.nodes| && Make(env, b, i - 1) == (true, c')
  }

  /**
   * Create mode makes the nodes in order.  It succeeds exactly if it makes all of them; otherwise it
   * stops at the first that the configuration check refuses or that cannot be created, and leaves the
   * later nodes and their workloads alone.
   */
  lemma {:induction false} CreatesUntilFailure(env: Env, c0: Cluster, c: Cluster, i: nat) returns (k: nat, b: Cluster)
    requires Indexed(c) && i <= |c.nodes| && MadeUpTo(env, c0, i, c)
    ensures var (ok, r) := MakeAll(env, c, i);
            && i <= k <= |c.nodes| == |b.nodes| && MadeUpTo(env, c0, k, b)
            && (if ok then k == |c.nodes| && r == b
                else k < |c.nodes| && !Make(env, b, k).0 && r == Make(env, b, k).1)
            && |r.nodes| == |c.nodes|
            && forall l: nat :: (if ok then k else k + 1) <= l < |c.nodes| ==> LeftAlone(c, r, l)
    decreases |c.nodes| - i
  {
    if i == |c.nodes| {
      k, b := i, c;
    } else {
      var (made, c1) := Make(env, c, i);
      MakeIndexed(env, c, i);
      forall l: nat | i + 1 <= l < |c.nodes| ensures LeftAlone(c, c1, l) {
        MakeLeavesOthers(env, c, i, l);
      }
      hide Make, Indexed, LeftAlone, MadeUpTo;
      if made {
        MadeOneMore(env, c0, c, i, c1);
        k, b := CreatesUntilFailure(env, c0, c1, i + 1);
        var (ok, r) := MakeAll(env, c1, i + 1);
        forall l: nat | (if ok then k else k + 1) <= l < |c.nodes| ensures LeftAlone(c, r, l) {
          LeftAloneTransitive(c, c1, r, l);
        }
      } else {
        k, b := i, c;
      }
    }
  }

  lemma MadeOneMore(env: Env, c0: Cluster, b: Cluster, i: nat, c: Cluster)
    requires MadeUpTo(env, c0, i, b) && i < |b.nodes| && Make(env, b, i) == (true, c)
    ensures MadeUpTo(env, c0, i + 1, c)
  {
    hide Make;
  }

  lemma LeftAloneTransitive(a: Cluster, b: Cluster, c: Cluster, i: nat)
    requires LeftAlone(a, b, i) && LeftAlone(b, c, i)
    ensures LeftAlone(a, c, i)
  {
  }
}
