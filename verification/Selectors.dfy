/**
 * Node selectors of generated nodes (mergeSelectors and ensureLinuxNodeSelector in
 * pkg/k8shandler/util.go).  Maps are references: merging writes into the common map of the
 * spec, and every generated template then holds that same map.
 */
module Selectors {

  const OS_NODE_LABEL := "kubernetes.io/os"
  const LINUX := "linux"

  class SelectorMap {
    var entries: map<string, string>

    constructor (entries: map<string, string>)
      ensures this.entries == entries
    {
      this.entries := entries;
    }
  }

  /** mergeSelectors: into the common map if there is one; the node's keys come in any order. */
  method MergeSelectors(node: map<string, string>, common: SelectorMap?) returns (merged: SelectorMap)
    modifies common
    ensures common != null ==> merged == common && common.entries == old(common.entries) + node
    ensures common == null ==> fresh(merged) && merged.entries == node
  {
    if common == null {
      merged := new SelectorMap(map[]);
    } else {
      merged := common;
    }
    ghost var before := merged.entries;
    var left := node.Keys;
    RestrictAll(node);
    while left != {}
      invariant left <= node.Keys && merged.entries + Restrict(node, left) == before + node
      decreases |left|
    {
      var key :| key in left;
      MergeStep(merged.entries, node, left, key);
      merged.entries := merged.entries[key := node[key]];
      left := left - {key};
    }
    assert merged.entries + Restrict(node, {}) == merged.entries;
  }

  ghost function Restrict(node: map<string, string>, keys: set<string>): map<string, string> {
    map k | k in node && k in keys :: node[k]
  }

  lemma RestrictAll(node: map<string, string>)
    ensures Restrict(node, node.Keys) == node
  {
  }

  lemma MergeStep(entries: map<string, string>, node: map<string, string>, left: set<string>, key: string)
    requires key in left && left <= node.Keys
    ensures entries[key := node[key]] + Restrict(node, left - {key}) == entries + Restrict(node, left)
  {
  }

  /** ensureLinuxNodeSelector, on a map that exists. */
  method EnsureLinux(selectors: SelectorMap)
    modifies selectors
    ensures selectors.entries == old(selectors.entries)[OS_NODE_LABEL := LINUX]
  {
    if OS_NODE_LABEL in selectors.entries {
      if selectors.entries[OS_NODE_LABEL] == LINUX {
        return;
      }
    }
    selectors.entries := selectors.entries[OS_NODE_LABEL := LINUX];
  }

  /** What one node is meant to get. */
  function Intended(common: map<string, string>, node: map<string, string>): map<string, string> {
    (common + node)[OS_NODE_LABEL := LINUX]
  }

  /** What the common map holds once all nodes are generated. */
  function Accumulated(common: map<string, string>, nodes: seq<map<string, string>>): map<string, string> {
    if nodes == [] then common
    else Intended(Accumulated(common, nodes[..|nodes| - 1]), nodes[|nodes| - 1])
  }

  /** The selectors of all templates, one node after the other. */
  method GenerateSelectors(nodes: seq<map<string, string>>, common: SelectorMap?) returns (templates: seq<SelectorMap>)
    modifies common
    ensures |templates| == |nodes|
    ensures common != null ==>
      && common.entries == Accumulated(old(common.entries), nodes)
      && forall i :: 0 <= i < |nodes| ==> templates[i] == common
    ensures common == null ==> forall i :: 0 <= i < |nodes| ==> templates[i].entries == Intended(map[], nodes[i])
  {
    templates := [];
    for i := 0 to |nodes|
      invariant |templates| == i
      invariant common != null ==>
        && common.entries == Accumulated(old(common.entries), nodes[..i])
        && forall j :: 0 <= j < i ==> templates[j] == common
      invariant common == null ==>
        forall j :: 0 <= j < i ==> fresh(templates[j]) && templates[j].entries == Intended(map[], nodes[j])
    {
      assert nodes[..i + 1][..i] == nodes[..i];
      var merged := MergeSelectors(nodes[i], common);
      EnsureLinux(merged);
      templates := templates + [merged];
    }
    assert nodes[..|nodes|] == nodes;
  }

  /** With a common map every node's keys end up in every template. */
  lemma {:induction false} KeysLeak(common: map<string, string>, nodes: seq<map<string, string>>, key: string)
    ensures key in Accumulated(common, nodes) <==>
      key in common || (nodes != [] && key == OS_NODE_LABEL) || exists i :: 0 <= i < |nodes| && key in nodes[i]
  {
    if nodes != [] {
      var n := |nodes| - 1;
      KeysLeak(common, nodes[..n], key);
      if i :| 0 <= i < |nodes| && key in nodes[i] {
        if i < n {
          assert key in nodes[..n][i];
        }
      }
    }
  }

  /** The last node that sets a key decides its value for all; the operating system is always Linux. */
  lemma {:induction false} LastNodeDecides(common: map<string, string>, nodes: seq<map<string, string>>, key: string, i: nat)
    requires i < |nodes| && key in nodes[i] && key != OS_NODE_LABEL
    requires forall j :: i < j < |nodes| ==> key !in nodes[j]
    ensures key in Accumulated(common, nodes) && Accumulated(common, nodes)[key] == nodes[i][key]
    ensures Accumulated(common, nodes)[OS_NODE_LABEL] == LINUX
  {
    var n := |nodes| - 1;
    if i < n {
      LastNodeDecides(common, nodes[..n], key, i);
    }
  }
}
