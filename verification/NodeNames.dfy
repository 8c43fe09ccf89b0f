/**
 * Node names (pkg/k8shandler/nodetypefactory.go) and the UUID check that parses them
 * (hasValidUUIDs in pkg/k8shandler/util.go).  A name is
 * {cluster}-{roles}-{uuid} for a StatefulSet and {cluster}-{roles}-{uuid}-{replica} for a
 * Deployment; the cluster name may itself contain dashes.
 */
module NodeNames {
  import opened Base
  import opened Text
  import opened Workload

  const DASH := '-'

  datatype Role = Client | Data | Master

  datatype Roles = Roles(client: bool, data: bool, master: bool)

  /** An element of spec.nodes. */
  datatype SpecNode = SpecNode(roles: seq<Role>, count: int, uuid: Option<string>)

  /** getNodeRoleMap. */
  function RoleMap(roles: seq<Role>): Roles {
    Roles(Client in roles, Data in roles, Master in roles)
  }

  /** A role list is a loop over the roles. */
  method GetNodeRoleMap(roles: seq<Role>) returns (r: Roles)
    ensures r == RoleMap(roles)
  {
    r := Roles(false, false, false);
    for i := 0 to |roles|
      invariant r == RoleMap(roles[..i])
    {
      assert roles[..i + 1] == roles[..i] + [roles[i]];
      match roles[i] {
        case Client => r := r.(client := true);
        case Data => r := r.(data := true);
        case Master => r := r.(master := true);
      }
    }
    assert roles[..|roles|] == roles;
  }

  function Letters(r: Roles): (s: string)
    ensures DASH !in s
    ensures ('c' in s <==> r.client) && ('d' in s <==> r.data) && ('m' in s <==> r.master)
  {
    (if r.client then "c" else "") + (if r.data then "d" else "") + (if r.master then "m" else "")
  }

  /** getNodeSuffix. */
  function Suffix(uuid: string, r: Roles): string {
    Letters(r) + [DASH] + uuid
  }

  function BaseName(cluster: string, uuid: string, r: Roles): string {
    cluster + [DASH] + Suffix(uuid, r)
  }

  /** addDataNodeSuffix. */
  function ReplicaName(name: string, replica: nat): string {
    name + [DASH] + Decimal(replica)
  }

  /** The name of a node: a Deployment has a replica index. */
  function NodeName(cluster: string, uuid: string, r: Roles, replica: Option<nat>): string {
    if replica.Some? then ReplicaName(BaseName(cluster, uuid, r), replica.value) else BaseName(cluster, uuid, r)
  }

  /** The parts that hasValidUUIDs sees. */
  function Parts(cluster: string, name: string): (r: seq<string>)
    ensures |r| > 0
  {
    Split(TrimPrefix(name, cluster + [DASH]), DASH)
  }

  /** Trimming the prefix leaves the letters and the rest. */
  lemma PartsAfterPrefix(cluster: string, letters: string, tail: string)
    requires DASH !in letters
    ensures Parts(cluster, cluster + [DASH] + (letters + [DASH] + tail)) == [letters] + Split(tail, DASH)
  {
    TrimOwnPrefix(cluster + [DASH], letters + [DASH] + tail);
    SplitFirst(letters, DASH, tail);
  }

  /** The split recovers what the printer printed, whatever the cluster is called. */
  lemma PartsOfName(cluster: string, uuid: string, r: Roles, replica: Option<nat>)
    requires DASH !in uuid
    ensures Parts(cluster, NodeName(cluster, uuid, r, replica))
         == [Letters(r), uuid] + if replica.Some? then [Decimal(replica.value)] else []
  {
    hide Letters, Parts, Split, Decimal;
    if replica.None? {
      PartsAfterPrefix(cluster, Letters(r), uuid);
      SplitWhole(uuid, DASH);
    } else {
      var digits := Decimal(replica.value);
      var tail := uuid + [DASH] + digits;
      assert NodeName(cluster, uuid, r, replica) == cluster + [DASH] + (Letters(r) + [DASH] + tail);
      PartsAfterPrefix(cluster, Letters(r), tail);
      SplitFirst(uuid, DASH, digits);
      SplitWhole(digits, DASH);
    }
  }

  /** Names of one cluster are equal only for equal roles, UUID and replica index. */
  lemma NameInjective(
    cluster: string, uuid: string, r: Roles, replica: Option<nat>, uuid': string, r': Roles, replica': Option<nat>)
    requires DASH !in uuid && DASH !in uuid'
    requires NodeName(cluster, uuid, r, replica) == NodeName(cluster, uuid', r', replica')
    ensures uuid == uuid' && r == r' && replica == replica'
  {
    PartsOfName(cluster, uuid, r, replica);
    PartsOfName(cluster, uuid', r', replica');
    var a, b := [Letters(r), uuid], [Letters(r'), uuid'];
    var parts := Parts(cluster, NodeName(cluster, uuid, r, replica));
    assert parts[0] == a[0] == b[0] && parts[1] == a[1] == b[1];
    hide Letters;
    assert |parts| == 2 <==> replica.None?;
    assert |parts| == 2 <==> replica'.None?;
    if replica.Some? {
      assert parts[2] == Decimal(replica.value) == Decimal(replica'.value);
      DecimalInjective(replica.value, replica'.value);
    }
  }

  /** The kind can be read off a name, so a name never changes kind within a cluster. */
  function KindOfName(cluster: string, name: string): Kind {
    if 'd' in Parts(cluster, name)[0] then Deployment else StatefulSet
  }

  lemma KindOfNodeName(cluster: string, uuid: string, r: Roles, replica: Option<nat>)
    requires DASH !in uuid && (replica.Some? <==> r.data)
    ensures KindOfName(cluster, NodeName(cluster, uuid, r, replica)) == if r.data then Deployment else StatefulSet
  {
    PartsOfName(cluster, uuid, r, replica);
  }

  // ----- hasValidUUIDs -----

  /** The two names of a status entry. */
  datatype StatusNames = StatusNames(deployment: string, statefulSet: string)

  function ListedName(e: StatusNames): string {
    if e.statefulSet != "" then e.statefulSet else e.deployment
  }

  datatype Verdict = Accepted | InvalidName(name: string) | UnknownUUID(uuid: string)

  /** The UUID in an entry's name; a name without one cannot be parsed. */
  function ListedUUID(cluster: string, e: StatusNames): Option<string> {
    var parts := Parts(cluster, ListedName(e));
    if |parts| < 2 then None else Some(parts[1])
  }

  predicate Parses(cluster: string, e: StatusNames) {
    ListedUUID(cluster, e).Some?
  }

  predicate InSpec(uuid: string, spec: seq<SpecNode>) {
    exists i :: 0 <= i < |spec| && spec[i].uuid == Some(uuid)
  }

  /** isUUIDFound. */
  method IsUUIDFound(uuid: string, spec: seq<SpecNode>) returns (found: bool)
    ensures found == InSpec(uuid, spec)
  {
    for i := 0 to |spec|
      invariant forall j :: 0 <= j < i ==> spec[j].uuid != Some(uuid)
    {
      if spec[i].uuid.Some? {
        if spec[i].uuid.value == uuid {
          return true;
        }
      }
    }
    return false;
  }

  /** The distinct UUIDs of the entries, in order of appearance, or the first name without one. */
  method KnownUUIDs(cluster: string, entries: seq<StatusNames>)
    returns (bad: Option<string>, known: seq<string>, ghost from: seq<nat>)
    ensures bad.Some? ==> exists i ::
      && 0 <= i < |entries| && !Parses(cluster, entries[i]) && bad.value == ListedName(entries[i])
      && forall j :: 0 <= j < i ==> Parses(cluster, entries[j])
    ensures bad.None? ==> FirstsOf(cluster, entries, known, from, |entries|)
  {
    hide Parts, ListedUUID, FirstsOf;
    assert FirstsOf(cluster, entries, [], [], 0) by {
      FirstsStart(cluster, entries);
    }
    known, from := [], [];
    for i := 0 to |entries|
      invariant FirstsOf(cluster, entries, known, from, i)
      invariant forall j :: 0 <= j < i ==> Parses(cluster, entries[j])
    {
      var name := "";
      if entries[i].deployment != "" {
        name := entries[i].deployment;
      }
      if entries[i].statefulSet != "" {
        name := entries[i].statefulSet;
      }
      var parts := Parts(cluster, name);
      ListedParts(cluster, entries[i]);
      if |parts| < 2 {
        return Some(name), known, from;
      }
      var uuid := parts[1];
      var found := Contains(known, uuid);
      ghost var known0, from0 := known, from;
      if !found {
        known, from := known + [uuid], from + [i];
      }
      FirstsGrow(cluster, entries, known0, from0, i, uuid, known, from);
    }
    return None, known, from;
  }

  lemma ListedParts(cluster: string, e: StatusNames)
    ensures var parts := Parts(cluster, ListedName(e));
            ListedUUID(cluster, e) == if |parts| < 2 then None else Some(parts[1])
  {
  }

  /** known lists the UUIDs of the first n entries; from are the entries where they first appear. */
  ghost predicate FirstsOf(cluster: string, entries: seq<StatusNames>, known: seq<string>, from: seq<nat>, n: nat) {
    && n <= |entries| && |from| == |known|
    && (forall j :: 0 <= j < n ==> Parses(cluster, entries[j]) && ListedUUID(cluster, entries[j]).value in known)
    && (forall k :: 0 <= k < |from| ==> from[k] < n && ListedUUID(cluster, entries[from[k]]) == Some(known[k]))
    && (forall k, j :: 0 <= k < |from| && 0 <= j < from[k] ==> Among(ListedUUID(cluster, entries[j]), known, k))
  }

  lemma FirstsStart(cluster: string, entries: seq<StatusNames>)
    ensures FirstsOf(cluster, entries, [], [], 0)
  {
  }

  ghost predicate Among(uuid: Option<string>, known: seq<string>, k: nat) {
    exists l :: 0 <= l < k && l < |known| && uuid == Some(known[l])
  }

  lemma FirstsGrow(
    cluster: string, entries: seq<StatusNames>, known: seq<string>, from: seq<nat>, n: nat, uuid: string,
    known': seq<string>, from': seq<nat>)
    requires FirstsOf(cluster, entries, known, from, n) && n < |entries|
    requires ListedUUID(cluster, entries[n]) == Some(uuid)
    requires known' == if uuid in known then known else known + [uuid]
    requires from' == if uuid in known then from else from + [n]
    ensures FirstsOf(cluster, entries, known', from', n + 1)
  {
    hide ListedUUID;
    forall k, j | 0 <= k < |from'| && 0 <= j < from'[k]
      ensures Among(ListedUUID(cluster, entries[j]), known', k)
    {
      if k < |from| {
        assert Among(ListedUUID(cluster, entries[j]), known, k);
        var l :| 0 <= l < k && l < |known| && ListedUUID(cluster, entries[j]) == Some(known[l]);
        assert known'[l] == known[l];
      } else {
        var l :| 0 <= l < |known| && known[l] == ListedUUID(cluster, entries[j]).value;
        assert known'[l] == known[l];
      }
    }
  }

  predicate UUIDKept(cluster: string, e: StatusNames, spec: seq<SpecNode>) {
    Parses(cluster, e) && InSpec(ListedUUID(cluster, e).value, spec)
  }

  lemma FirstUnknown(
    cluster: string, entries: seq<StatusNames>, spec: seq<SpecNode>, known: seq<string>, from: seq<nat>, k: nat)
    requires FirstsOf(cluster, entries, known, from, |entries|) && k < |known| && !InSpec(known[k], spec)
    requires forall l :: 0 <= l < k ==> InSpec(known[l], spec)
    ensures |from| == |known|
    ensures forall j :: 0 <= j < |entries| ==> Parses(cluster, entries[j])
    ensures from[k] < |entries| && ListedUUID(cluster, entries[from[k]]) == Some(known[k])
    ensures forall j :: 0 <= j < from[k] ==> UUIDKept(cluster, entries[j], spec)
  {
    hide ListedUUID, InSpec;
    forall j | 0 <= j < from[k] ensures UUIDKept(cluster, entries[j], spec) {
      assert Among(ListedUUID(cluster, entries[j]), known, k);
    }
  }

  lemma AllKept(cluster: string, entries: seq<StatusNames>, spec: seq<SpecNode>, known: seq<string>, from: seq<nat>)
    requires FirstsOf(cluster, entries, known, from, |entries|)
    requires forall l :: 0 <= l < |known| ==> InSpec(known[l], spec)
    ensures forall j :: 0 <= j < |entries| ==> UUIDKept(cluster, entries[j], spec)
  {
    hide ListedUUID, InSpec;
  }

  /**
   * hasValidUUIDs: accept iff every listed name parses and its UUID is still in the spec;
   * otherwise report the first name that does not parse, or else the first UUID not found.
   */
  method HasValidUUIDs(cluster: string, entries: seq<StatusNames>, spec: seq<SpecNode>) returns (v: Verdict)
    ensures v == Accepted <==> forall i :: 0 <= i < |entries| ==> UUIDKept(cluster, entries[i], spec)
    ensures v.InvalidName? ==> exists i ::
      && 0 <= i < |entries| && !Parses(cluster, entries[i]) && v.name == ListedName(entries[i])
      && forall j :: 0 <= j < i ==> Parses(cluster, entries[j])
    ensures v.UnknownUUID? ==>
      && (forall j :: 0 <= j < |entries| ==> Parses(cluster, entries[j]))
      && exists i ::
        && 0 <= i < |entries| && ListedUUID(cluster, entries[i]) == Some(v.uuid) && !InSpec(v.uuid, spec)
        && forall j :: 0 <= j < i ==> UUIDKept(cluster, entries[j], spec)
  {
    hide InSpec, ListedName, ListedUUID, FirstsOf;
    var bad, known, from := KnownUUIDs(cluster, entries);
    if bad.Some? {
      return InvalidName(bad.value);
    }
    for k := 0 to |known|
      invariant forall l :: 0 <= l < k ==> InSpec(known[l], spec)
    {
      var found := IsUUIDFound(known[k], spec);
      if !found {
        FirstUnknown(cluster, entries, spec, known, from, k);
        ghost var i := from[k];
        assert !UUIDKept(cluster, entries[i], spec);
        return UnknownUUID(known[k]);
      }
    }
    AllKept(cluster, entries, spec, known, from);
    return Accepted;
  }

  /** For printed names the check is about the printed UUIDs: one listed UUID missing from the spec refuses it. */
  lemma PrintedNameKept(
    cluster: string, e: StatusNames, spec: seq<SpecNode>, uuid: string, r: Roles, replica: Option<nat>)
    requires DASH !in uuid && ListedName(e) == NodeName(cluster, uuid, r, replica)
    ensures UUIDKept(cluster, e, spec) <==> InSpec(uuid, spec)
  {
    hide NodeName, Parts, InSpec;
    PartsOfName(cluster, uuid, r, replica);
    ListedParts(cluster, e);
  }
}
