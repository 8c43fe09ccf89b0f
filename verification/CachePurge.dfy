/**
 * What refreshing the node cache does to the outside world and to the status: exactly the
 * cached nodes that are no longer generated are deleted, each once and in order, exactly
 * their entries go, and min masters is reviewed once, before the first deletion, or not at all.
 */
module CachePurge {
  import opened Base
  import opened Environment
  import opened Workload
  import opened Reconcile
  import opened StatusIndex

  /** The names of the cached nodes, from i on, that are not generated. */
  ghost function Gone(nodes: seq<NodeState>, gen: seq<NodeState>, i: nat): seq<string>
    requires i <= |nodes|
    decreases |nodes| - i
  {
    if i == |nodes| then []
    else if FindNode(gen, nodes[i].name) >= 0 then Gone(nodes, gen, i + 1)
    else [nodes[i].name] + Gone(nodes, gen, i + 1)
  }

  lemma {:induction false} GoneAre(nodes: seq<NodeState>, gen: seq<NodeState>, i: nat, n: string)
    requires i <= |nodes|
    ensures n in Gone(nodes, gen, i) <==>
            (exists k :: i <= k < |nodes| && nodes[k].name == n) && FindNode(gen, n) < 0
    decreases |nodes| - i
  {
    hide FindNode;
    if i < |nodes| {
      GoneAre(nodes, gen, i + 1, n);
    }
  }

  lemma {:induction false} GoneNoDuplicates(nodes: seq<NodeState>, gen: seq<NodeState>, i: nat)
    requires i <= |nodes| && DistinctNodes(nodes)
    ensures NoDuplicates(Gone(nodes, gen, i))
    decreases |nodes| - i
  {
    hide FindNode;
    if i < |nodes| {
      GoneNoDuplicates(nodes, gen, i + 1);
      GoneAre(nodes, gen, i + 1, nodes[i].name);
    }
  }

  /** The entries about other nodes, in order. */
  ghost function Without(entries: seq<Entry>, names: seq<string>): seq<Entry> {
    if entries == [] then []
    else if Key(entries[0]) in names then Without(entries[1..], names)
    else [entries[0]] + Without(entries[1..], names)
  }

  ghost function Deletions(names: seq<string>): seq<Event> {
    seq(|names|, i requires 0 <= i < |names| => Deleted(names[i]))
  }

  ghost predicate NoneNamed(entries: seq<Entry>, name: string) {
    forall i :: 0 <= i < |entries| ==> Key(entries[i]) != name
  }

  lemma {:induction false} NothingToDrop(entries: seq<Entry>, name: string)
    requires NoneNamed(entries, name)
    ensures Without(entries, [name]) == entries
  {
    hide Key;
    if entries != [] {
      NothingToDrop(entries[1..], name);
    }
  }

  lemma {:induction false} WithoutMiddle(a: seq<Entry>, e: Entry, b: seq<Entry>, name: string)
    requires NoneNamed(a, name) && Key(e) == name && NoneNamed(b, name)
    ensures Without(a + [e] + b, [name]) == a + b
  {
    hide Key;
    var s := a + [e] + b;
    if a == [] {
      assert s[1..] == b;
      NothingToDrop(b, name);
    } else {
      assert s[1..] == a[1..] + [e] + b && s[0] == a[0];
      WithoutMiddle(a[1..], e, b, name);
      assert [a[0]] + (a[1..] + b) == a + b;
    }
  }

  lemma DropIsWithout(entries: seq<Entry>, name: string)
    requires UniqueKeys(entries) && name != ""
    ensures DropEntry(entries, name) == Without(entries, [name])
  {
    FindEntryKey(entries, name);
    var k := FindEntry(entries, name);
    hide FindEntry, Key, Names, Without;
    assert k < 0 ==> NoneNamed(entries, name);
    if k < 0 {
      NothingToDrop(entries, name);
    } else {
      OthersDiffer(entries, k);
      hide UniqueKeys, NoneNamed;
      WithoutMiddle(entries[..k], entries[k], entries[k + 1..], name);
      SplitAt(entries, k);
    }
  }

  lemma SplitAt<T>(s: seq<T>, k: nat)
    requires k < |s|
    ensures s == s[..k] + [s[k]] + s[k + 1..]
  {
  }

  lemma OthersDiffer(entries: seq<Entry>, k: nat)
    requires UniqueKeys(entries) && k < |entries|
    ensures NoneNamed(entries[..k], Key(entries[k])) && NoneNamed(entries[k + 1..], Key(entries[k]))
  {
    hide Key;
  }

  lemma {:induction false} WithoutTwice(entries: seq<Entry>, a: seq<string>, b: seq<string>)
    ensures Without(Without(entries, a), b) == Without(entries, a + b)
  {
    if entries != [] {
      WithoutTwice(entries[1..], a, b);
    }
  }

  lemma {:induction false} WithoutNone(entries: seq<Entry>)
    ensures Without(entries, []) == entries
  {
    if entries != [] {
      WithoutNone(entries[1..]);
    }
  }

  /** The log of a purge. */
  ghost function PurgeLog(gone: seq<string>, reviewed: bool): seq<Event> {
    (if gone == [] || reviewed then [] else [MinMasters("")]) + Deletions(gone)
  }

  ghost predicate ObjectsKept(w: World, w': World, gone: seq<string>) {
    forall m :: m !in gone && m in w.objects ==> m in w'.objects && w'.objects[m] == w.objects[m]
  }

  lemma {:induction false} PurgeEffect(env: Env, c: Cluster, gen: seq<NodeState>, i: nat, reviewed: bool)
    requires i <= |c.nodes| && DistinctNodes(c.nodes) && UniqueKeys(c.mem)
    ensures var r, gone := Purge(env, c, gen, i, reviewed), Gone(c.nodes, gen, i);
            && r.w.log == c.w.log + PurgeLog(gone, reviewed)
            && r.mem == Without(c.mem, gone)
            && ObjectsKept(c.w, r.w, gone)
    decreases |c.nodes| - i
  {
    hide UniqueKeys, DropEntry, FindNode, Without, Delete, ObjectsKept, PurgeLog;
    if i == |c.nodes| {
      WithoutNone(c.mem);
      EmptyPurge(c.w, reviewed);
    } else if FindNode(gen, c.nodes[i].name) >= 0 {
      PurgeEffect(env, c, gen, i + 1, reviewed);
    } else {
      var name := c.nodes[i].name;
      var w1 := if reviewed then c.w else Note(c.w, MinMasters(""));
      var c1 := c.(mem := DropEntry(c.mem, name), w := Delete(env, w1, name));
      var rest := Gone(c.nodes, gen, i + 1);
      DropEntryIndexed(c.mem, name);
      PurgeEffect(env, c1, gen, i + 1, true);
      DropIsWithout(c.mem, name);
      WithoutTwice(c.mem, [name], rest);
      PurgeStep(env, c.w, reviewed, name, rest, Purge(env, c1, gen, i + 1, true).w);
    }
  }

  lemma EmptyPurge(w: World, reviewed: bool)
    ensures w.log == w.log + PurgeLog([], reviewed) && ObjectsKept(w, w, [])
  {
  }

  lemma PurgeStep(env: Env, w: World, reviewed: bool, name: string, rest: seq<string>, w': World)
    requires var w1 := Delete(env, if reviewed then w else Note(w, MinMasters("")), name);
             w'.log == w1.log + PurgeLog(rest, true) && ObjectsKept(w1, w', rest)
    ensures w'.log == w.log + PurgeLog([name] + rest, reviewed)
    ensures ObjectsKept(w, w', [name] + rest)
  {
    var w1 := Delete(env, if reviewed then w else Note(w, MinMasters("")), name);
    assert ObjectsKept(w, w', [name] + rest) && w1.log == (if reviewed then w.log else w.log + [MinMasters("")]) + [Deleted(name)];
    hide ObjectsKept, Delete;
    assert Deletions([name] + rest) == [Deleted(name)] + Deletions(rest);
    assert PurgeLog([name] + rest, reviewed)
        == (if reviewed then [] else [MinMasters("")]) + ([Deleted(name)] + PurgeLog(rest, true));
  }

  ghost predicate HasName(nodes: seq<NodeState>, n: string) {
    exists k :: 0 <= k < |nodes| && nodes[k].name == n
  }

  /** getNodes: what is deleted, what stays. */
  lemma RefreshIsExact(env: Env, c: Cluster, gen: seq<NodeState>)
    requires DistinctNodes(c.nodes) && UniqueKeys(c.mem)
    ensures var r, gone := GetNodes(env, c, gen), Gone(c.nodes, gen, 0);
            && NoDuplicates(gone)
            && (forall n :: n in gone <==> (HasName(c.nodes, n) && !HasName(gen, n)))
            && r.w.log == c.w.log + (if gone == [] then [] else [MinMasters("")]) + Deletions(gone)
            && r.mem == Without(c.mem, gone)
            && ObjectsKept(c.w, r.w, gone)
  {
    hide Purge, Without, Merge, ObjectsKept, Gone, UniqueKeys;
    var gone := Gone(c.nodes, gen, 0);
    PurgeEffect(env, c, gen, 0, false);
    GoneNoDuplicates(c.nodes, gen, 0);
    forall n ensures n in gone <==> (HasName(c.nodes, n) && !HasName(gen, n)) {
      GoneAre(c.nodes, gen, 0, n);
      var k := FindNode(gen, n);
    }
  }

  /** The entries that stay keep their content and order, and are exactly those about other nodes. */
  lemma {:induction false} WithoutKeepsOrder(entries: seq<Entry>, names: seq<string>, i: nat, j: nat) returns (k: nat, l: nat)
    requires i < j < |entries| && Key(entries[i]) !in names && Key(entries[j]) !in names
    ensures k < l < |Without(entries, names)|
    ensures Without(entries, names)[k] == entries[i] && Without(entries, names)[l] == entries[j]
  {
    var skip := if Key(entries[0]) in names then 0 else 1;
    if i == 0 {
      l := WithoutKeeps(entries[1..], names, j - 1);
      k, l := 0, l + 1;
    } else {
      k, l := WithoutKeepsOrder(entries[1..], names, i - 1, j - 1);
      k, l := k + skip, l + skip;
    }
  }

  lemma {:induction false} WithoutKeeps(entries: seq<Entry>, names: seq<string>, i: nat) returns (k: nat)
    requires i < |entries| && Key(entries[i]) !in names
    ensures k < |Without(entries, names)| && Without(entries, names)[k] == entries[i]
  {
    if i == 0 {
      k := 0;
    } else {
      k := WithoutKeeps(entries[1..], names, i - 1);
      k := k + (if Key(entries[0]) in names then 0 else 1);
    }
  }

  lemma {:induction false} WithoutOnlyKeeps(entries: seq<Entry>, names: seq<string>)
    ensures forall e :: e in Without(entries, names) ==> e in entries && Key(e) !in names
  {
    if entries != [] {
      WithoutOnlyKeeps(entries[1..], names);
    }
  }
}
