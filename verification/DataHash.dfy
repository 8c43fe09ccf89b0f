/**
 * The hash of a secret's or config map's data (pkg/k8shandler/secret.go, configmaps.go,
 * sortDataHashKeys in common.go): the digests of the values, concatenated in key order.  The
 * digest is a parameter; it has 32 bytes, and where stated it is assumed not to collide.
 */
module DataHash {
  import opened Base
  import opened Drift
  import opened Environment
  import opened Workload

  type Data = map<string, string>

  type Digest = string -> string

  const DIGEST_SIZE := 32
  const INDEX_SETTINGS := "index_settings"

  ghost predicate Sized(digest: Digest) {
    forall x :: |digest(x)| == DIGEST_SIZE
  }

  /** The digest does not collide on the values at hand. */
  ghost predicate Injective(digest: Digest, values: set<string>) {
    forall x, y :: x in values && y in values && digest(x) == digest(y) ==> x == y
  }

  // ----- the order of keys -----

  predicate Less(a: string, b: string) {
    b != "" && (a == "" || a[0] < b[0] || (a[0] == b[0] && Less(a[1..], b[1..])))
  }

  lemma {:induction false} LessTotal(a: string, b: string)
    ensures Less(a, b) || Less(b, a) || a == b
    ensures !(Less(a, b) && Less(b, a)) && !Less(a, a)
  {
    if a != "" && b != "" {
      LessTotal(a[1..], b[1..]);
      assert a == [a[0]] + a[1..] && b == [b[0]] + b[1..];
    }
    if a != "" {
      LessTotal(a[1..], a[1..]);
    }
  }

  lemma {:induction false} LessTransitive(a: string, b: string, c: string)
    requires Less(a, b) && Less(b, c)
    ensures Less(a, c)
  {
    if a != "" && a[0] == b[0] == c[0] {
      LessTransitive(a[1..], b[1..], c[1..]);
    }
  }

  ghost predicate Sorted(keys: seq<string>) {
    forall i, j :: 0 <= i < j < |keys| ==> Less(keys[i], keys[j])
  }

  function Elements(keys: seq<string>): set<string> {
    set k | k in keys
  }

  /** Put a new key in its place. */
  function Insert(key: string, keys: seq<string>): (r: seq<string>)
    ensures Elements(r) == Elements(keys) + {key}
    ensures |r| == |keys| + 1
  {
    if keys == [] || Less(key, keys[0]) then [key] + keys
    else
      var rest := Insert(key, keys[1..]);
      ElementsOfRest(keys);
      assert [keys[0]] + rest == ([keys[0]] + rest)[..1] + rest;
      assert Elements([keys[0]] + rest) == {keys[0]} + Elements(rest);
      [keys[0]] + rest
  }

  lemma ElementsOfRest(keys: seq<string>)
    requires keys != []
    ensures Elements(keys) == {keys[0]} + Elements(keys[1..])
  {
    assert keys == [keys[0]] + keys[1..];
  }

  lemma {:induction false} InsertSorted(key: string, keys: seq<string>)
    requires Sorted(keys) && key !in keys
    ensures Sorted(Insert(key, keys))
  {
    if keys != [] {
      LessTotal(key, keys[0]);
      if Less(key, keys[0]) {
        forall j | 0 < j < |keys| ensures Less(key, keys[j]) {
          LessTransitive(key, keys[0], keys[j]);
        }
      } else {
        InsertSorted(key, keys[1..]);
        var rest := Insert(key, keys[1..]);
        forall j | 0 <= j < |rest| ensures Less(keys[0], rest[j]) {
          assert rest[j] in Elements(rest);
        }
      }
    }
  }

  /** The keys in order; which key is taken first does not matter, as sorting has one result. */
  ghost function SortedKeys(keys: set<string>): (r: seq<string>)
    ensures Sorted(r) && Elements(r) == keys
  {
    if keys == {} then []
    else
      var key :| key in keys;
      var rest := SortedKeys(keys - {key});
      assert key !in Elements(rest);
      InsertSorted(key, rest);
      Insert(key, rest)
  }

  /** Two sorted lists of the same keys are the same list. */
  lemma {:induction false} SortedUnique(a: seq<string>, b: seq<string>)
    requires Sorted(a) && Sorted(b) && Elements(a) == Elements(b)
    ensures a == b
  {
    if a == [] {
      assert forall i :: 0 <= i < |b| ==> b[i] in Elements(b);
    } else {
      assert a[0] in Elements(a) && b != [] by {
        assert a[0] in Elements(b);
      }
      assert b[0] in Elements(b);
      var i, j :| 0 <= i < |b| && b[i] == a[0] && 0 <= j < |a| && a[j] == b[0];
      LessTotal(a[0], b[0]);
      assert a[0] == b[0];
      TailElements(a);
      TailElements(b);
      SortedUnique(a[1..], b[1..]);
      assert a == [a[0]] + a[1..] && b == [b[0]] + b[1..];
    }
  }

  lemma TailElements(a: seq<string>)
    requires a != [] && Sorted(a)
    ensures Elements(a[1..]) == Elements(a) - {a[0]}
  {
    assert a == [a[0]] + a[1..];
    forall k | k in a[1..] ensures k != a[0] {
      LessTotal(a[0], a[0]);
    }
  }

  // ----- the hash -----

  /** The digests of the values along a list of keys. */
  function Along(keys: seq<string>, data: Data, digest: Digest): string
    requires forall k :: k in keys ==> k in data
  {
    if keys == [] then "" else Along(keys[..|keys| - 1], data, digest) + digest(data[keys[|keys| - 1]])
  }

  ghost function Hash(data: Data, digest: Digest): string {
    assert forall k :: k in SortedKeys(data.Keys) ==> k in Elements(SortedKeys(data.Keys));
    Along(SortedKeys(data.Keys), data, digest)
  }

  /** sortDataHashKeys: the keys come in any order, and go out sorted. */
  method SortDataHashKeys(hashes: Data) returns (keys: seq<string>)
    ensures keys == SortedKeys(hashes.Keys)
  {
    var left := hashes.Keys;
    keys := [];
    while left != {}
      invariant left <= hashes.Keys && Elements(keys) == hashes.Keys - left && Sorted(keys)
      decreases |left|
    {
      var key :| key in left;
      assert key !in Elements(keys);
      InsertSorted(key, keys);
      keys := Insert(key, keys);
      left := left - {key};
    }
    SortedUnique(keys, SortedKeys(hashes.Keys));
  }

  /** The first loop of getSecretDataHash. */
  method Digests(data: Data, digest: Digest) returns (hashes: Data)
    ensures hashes.Keys == data.Keys && forall k :: k in data ==> hashes[k] == digest(data[k])
  {
    hashes := map[];
    var left := data.Keys;
    while left != {}
      invariant left <= data.Keys && hashes.Keys == data.Keys - left
      invariant forall k :: k in hashes ==> hashes[k] == digest(data[k])
      decreases |left|
    {
      var key :| key in left;
      hashes := hashes[key := digest(data[key])];
      left := left - {key};
    }
  }

  /** getSecretDataHash: digest every value, then concatenate in key order. */
  method GetSecretDataHash(data: Data, digest: Digest) returns (hash: string)
    ensures hash == Hash(data, digest)
  {
    hide SortedKeys;
    var hashes := Digests(data, digest);
    var keys := SortDataHashKeys(hashes);
    assert forall k :: k in keys ==> k in Elements(keys);
    hash := "";
    for i := 0 to |keys|
      invariant hash == Along(keys[..i], data, digest)
    {
      assert keys[..i + 1][..i] == keys[..i];
      hash := hash + hashes[keys[i]];
    }
    assert keys[..|keys|] == keys;
  }

  /** getConfigmapDataHash: the index settings do not count. */
  method GetConfigmapDataHash(data: Data, digest: Digest) returns (hash: string)
    ensures hash == Hash(data - {INDEX_SETTINGS}, digest)
  {
    hash := GetSecretDataHash(data - {INDEX_SETTINGS}, digest);
  }

  /** The values along a list of keys. */
  function ValuesAlong(keys: seq<string>, data: Data): (r: seq<string>)
    requires forall k :: k in keys ==> k in data
    ensures |r| == |keys| && forall i :: 0 <= i < |keys| ==> r[i] == data[keys[i]]
  {
    seq(|keys|, i requires 0 <= i < |keys| => data[keys[i]])
  }

  ghost function ValueList(data: Data): seq<string> {
    assert forall k :: k in SortedKeys(data.Keys) ==> k in Elements(SortedKeys(data.Keys));
    ValuesAlong(SortedKeys(data.Keys), data)
  }

  lemma {:induction false} AlongSize(keys: seq<string>, data: Data, digest: Digest)
    requires Sized(digest) && forall k :: k in keys ==> k in data
    ensures |Along(keys, data, digest)| == DIGEST_SIZE * |keys|
  {
    if keys != [] {
      AlongSize(keys[..|keys| - 1], data, digest);
    }
  }

  lemma {:induction false} AlongInjective(
    a: seq<string>, x: Data, b: seq<string>, y: Data, digest: Digest, seen: set<string>)
    requires Sized(digest) && Injective(digest, seen)
    requires (forall k :: k in x ==> x[k] in seen) && (forall k :: k in y ==> y[k] in seen)
    requires (forall k :: k in a ==> k in x) && (forall k :: k in b ==> k in y)
    ensures Along(a, x, digest) == Along(b, y, digest) <==> ValuesAlong(a, x) == ValuesAlong(b, y)
    decreases |a|
  {
    AlongSize(a, x, digest);
    AlongSize(b, y, digest);
    if |a| != |b| {
    } else if a == [] {
      assert b == [];
    } else {
      var n := |a| - 1;
      var s, t := Along(a, x, digest), Along(b, y, digest);
      AlongSize(a[..n], x, digest);
      AlongSize(b[..n], y, digest);
      AlongInjective(a[..n], x, b[..n], y, digest, seen);
      assert s[..DIGEST_SIZE * n] == Along(a[..n], x, digest) && s[DIGEST_SIZE * n..] == digest(x[a[n]]);
      assert t[..DIGEST_SIZE * n] == Along(b[..n], y, digest) && t[DIGEST_SIZE * n..] == digest(y[b[n]]);
      assert ValuesAlong(a, x) == ValuesAlong(a[..n], x) + [x[a[n]]];
      assert ValuesAlong(b, y) == ValuesAlong(b[..n], y) + [y[b[n]]];
      if s == t {
        assert digest(x[a[n]]) == digest(y[b[n]]);
        assert x[a[n]] in seen && y[b[n]] in seen;
      }
      if ValuesAlong(a, x) == ValuesAlong(b, y) {
        assert ValuesAlong(a, x)[..n] == ValuesAlong(b, y)[..n];
        assert ValuesAlong(a[..n], x) == ValuesAlong(a, x)[..n];
        assert ValuesAlong(b[..n], y) == ValuesAlong(b, y)[..n];
        assert ValuesAlong(a, x)[n] == ValuesAlong(b, y)[n];
      }
    }
  }

  /** Exactly the values in key order are seen; the keys' names are not. */
  lemma HashSeesValues(a: Data, b: Data, digest: Digest)
    requires Sized(digest) && Injective(digest, a.Values + b.Values)
    ensures Hash(a, digest) == Hash(b, digest) <==> ValueList(a) == ValueList(b)
  {
    var ka, kb := SortedKeys(a.Keys), SortedKeys(b.Keys);
    assert forall k :: k in ka ==> k in Elements(ka);
    assert forall k :: k in kb ==> k in Elements(kb);
    AlongInjective(ka, a, kb, b, digest, a.Values + b.Values);
  }

  /** So with the same keys the hash changes exactly when the data does. */
  lemma HashSeesEveryChange(a: Data, b: Data, digest: Digest)
    requires Sized(digest) && Injective(digest, a.Values + b.Values) && a.Keys == b.Keys
    ensures Hash(a, digest) == Hash(b, digest) <==> a == b
  {
    HashSeesValues(a, b, digest);
    if ValueList(a) == ValueList(b) {
      var keys := SortedKeys(a.Keys);
      forall k | k in a ensures a[k] == b[k] {
        assert k in Elements(keys);
        var i :| 0 <= i < |keys| && keys[i] == k;
        assert ValueList(a)[i] == a[k] && ValueList(b)[i] == b[k];
      }
    }
  }

  /** But a secret whose one key is renamed keeps its hash. */
  lemma RenamedKeyUnseen(key: string, key': string, value: string, digest: Digest)
    ensures Hash(map[key := value], digest) == Hash(map[key' := value], digest)
  {
    HashOfOne(key, value, digest);
    HashOfOne(key', value, digest);
  }

  lemma HashOfOne(key: string, value: string, digest: Digest)
    ensures Hash(map[key := value], digest) == digest(value)
  {
    var data: Data := map[key := value];
    OneKey(key);
    assert data.Keys == {key};
    assert [key][..0] == [];
    assert Along([key], data, digest) == Along([], data, digest) + digest(value);
    assert "" + digest(value) == digest(value);
  }

  lemma OneKey(key: string)
    ensures SortedKeys({key}) == [key]
  {
    SortedUnique([key], SortedKeys({key}));
  }

  /**
   * What this means for a node whose stored hash is that of secret a: its next evaluation, when
   * it reads secret b with the same keys, schedules a redeploy exactly if the secret changed.
   */
  lemma RedeployIffSecretChanged(env: Env, n: NodeState, w: World, a: Data, b: Data, digest: Digest)
    requires Sized(digest) && Injective(digest, a.Values + b.Values) && a.Keys == b.Keys
    requires n.secretHash == Hash(a, digest)
    requires env(w.pos + 1).ok && env(w.pos + 1).secretHash == Hash(b, digest)
    ensures State(env, n, w).1 == IsTrue <==> a != b
  {
    hide Hash, Agrees, Patch;
    HashSeesEveryChange(a, b, digest);
  }
}
