/**
 The release store: releases and plugin state under prefix-structured keys of a
 flat key-value store, and the map of releases it stands for.
 */
module Storage {
  import opened Prelude

  datatype StoredRelease = StoredRelease(name: string, runtime: Option<string>, body: string)

  /** A value: the JSON of a release, or the raw state of a plugin. */
  datatype Blob = Json(release: StoredRelease) | Raw(data: string)

  type KV = map<string, Blob>

  const BASE := "consul-release-controller/releases"
  const CONFIG := "config"

  /** The names the state machine passes to CreatePluginStateStore. */
  const PLUGINS: set<string> := {"releaser", "runtime", "monitor", "strategy", "webhooks", "post-deployment-tests"}

  function ReleasePath(name: string): string { BASE + "/" + name }

  predicate HasSuffix(s: string, suffix: string) {
    |suffix| <= |s| && s[|s| - |suffix|..] == suffix
  }

  /** DeleteTree: every key that begins with the prefix goes. */
  function DeleteTree(kv: KV, prefix: string): KV {
    map k | k in kv && !(prefix <= k) :: kv[k]
  }

  // ---- The structured store ----

  /** What is stored of a release: its configuration, or the state of one plugin. */
  datatype Part = Config | Plugin(name: string)

  datatype Key = Key(release: string, part: Part)

  type Db = map<Key, Blob>

  /** The rest of a key's path below the release. */
  function PartPath(part: Part): string {
    if part.Config? then CONFIG else "plugin-state/" + part.name
  }

  function Path(key: Key): string {
    BASE + "/" + (key.release + "/" + PartPath(key.part))
  }

  function ReleaseConfigPath(name: string): string { Path(Key(name, Config)) }

  function StateConfigPath(name: string, plugin: string): string { Path(Key(name, Plugin(plugin))) }

  function Without(db: Db, name: string): Db {
    map k | k in db && k.release != name :: db[k]
  }

  predicate SlashFree(n: string) {
    forall k :: 0 <= k < |n| ==> n[k] != '/'
  }

  predicate ValidKey(k: Key) {
    SlashFree(k.release) && (k.part.Plugin? ==> k.part.name in PLUGINS)
  }

  /** Releases under configuration keys, raw data under plugin keys. */
  predicate WellTyped(db: Db) {
    forall k :: k in db ==> ValidKey(k) && (k.part.Config? <==> db[k].Json?)
  }

  /** The flat store holds exactly the structured one, each key under its path. */
  predicate Represents(kv: KV, db: Db) {
    && WellTyped(db)
    && (forall k :: k in db ==> Path(k) in kv && kv[Path(k)] == db[k])
    && (forall p :: p in kv ==> exists k :: k in db && Path(k) == p)
  }

  // ---- Keys ----

  lemma FirstSlash(n: string, x: string, k: nat)
    requires SlashFree(n) && k <= |n|
    ensures (n + "/" + x)[k] == '/' <==> k == |n|
  {
  }

  lemma FirstSegment(n: string, x: string, m: string, y: string)
    requires SlashFree(n) && SlashFree(m) && n + "/" + x == m + "/" + y
    ensures n == m && x == y
  {
    var a, b := n + "/" + x, m + "/" + y;
    var k := if |n| < |m| then |n| else |m|;
    FirstSlash(n, x, k);
    FirstSlash(m, y, k);
    assert a[..|n|] == n && b[..|m|] == m;
    assert a[|n| + 1..] == x && b[|m| + 1..] == y;
  }

  lemma BaseCancels(x: string, y: string)
    ensures BASE + "/" + x == BASE + "/" + y ==> x == y
    ensures BASE + "/" + x <= BASE + "/" + y <==> x <= y
  {
    var a, b, n := BASE + "/" + x, BASE + "/" + y, |BASE| + 1;
    assert a[n..] == x && b[n..] == y;
    if x <= y {
      assert y == x + y[|x|..];
      assert b == a + y[|x|..];
    }
    if a <= b {
      assert b[..|a|] == a;
      assert y[..|x|] == b[..|a|][n..];
    }
  }

  lemma PartsDiffer(p: Part, q: Part)
    requires PartPath(p) == PartPath(q)
    ensures p == q
  {
    assert CONFIG[0] == 'c' && "plugin-state/"[0] == 'p';
    if p.Plugin? { assert PartPath(p)[13..] == p.name && PartPath(p)[0] == 'p'; }
    if q.Plugin? { assert PartPath(q)[13..] == q.name && PartPath(q)[0] == 'p'; }
  }

  /** The layout of the store. */
  lemma PathLayout(name: string, plugin: string)
    ensures ReleasePath(name) == "consul-release-controller/releases/" + name
    ensures ReleaseConfigPath(name) == "consul-release-controller/releases/" + name + "/config"
    ensures StateConfigPath(name, plugin) == "consul-release-controller/releases/" + name + "/plugin-state/" + plugin
  {
  }

  /** Different keys of slash-free releases have different paths. */
  lemma PathInjective(k: Key, l: Key)
    requires SlashFree(k.release) && SlashFree(l.release) && Path(k) == Path(l)
    ensures k == l
  {
    BaseCancels(k.release + "/" + PartPath(k.part), l.release + "/" + PartPath(l.part));
    FirstSegment(k.release, PartPath(k.part), l.release, PartPath(l.part));
    PartsDiffer(k.part, l.part);
  }

  /** A key lies under the path of n exactly when n is a prefix of its release's name. */
  lemma UnderPath(n: string, k: Key)
    requires SlashFree(n)
    ensures ReleasePath(n) <= Path(k) <==> n <= k.release
  {
    var m, rest := k.release, PartPath(k.part);
    var s := m + "/" + rest;
    BaseCancels(n, s);
    if n <= m {
      assert m == n + m[|n|..];
      assert s == n + (m[|n|..] + "/" + rest);
    }
    assert s[..|m|] == m && s[|m|] == '/';
    if n <= s {
      assert s[..|n|] == n;
      if |n| <= |m| { assert m == n + m[|n|..]; }
    }
  }

  /** Only configuration keys end in "config". */
  lemma ConfigSuffix(k: Key)
    requires ValidKey(k)
    ensures HasSuffix(Path(k), CONFIG) <==> k.part.Config?
  {
    var a := Path(k);
    assert a == (BASE + "/" + (k.release + "/")) + PartPath(k.part);
    if k.part.Plugin? {
      var p := k.part.name;
      assert a[|a| - 1] == p[|p| - 1];
      assert p[|p| - 1] != 'g' && CONFIG[5] == 'g' && |CONFIG| == 6;
      assert a[|a| - 6..][5] == a[|a| - 1];
    }
  }

  // ---- Each operation simulates the structured one ----

  lemma UpsertSimulates(kv: KV, db: Db, key: Key, b: Blob)
    requires Represents(kv, db) && ValidKey(key) && (key.part.Config? <==> b.Json?)
    ensures Represents(kv[Path(key) := b], db[key := b])
  {
    var kv', db' := kv[Path(key) := b], db[key := b];
    forall k | k in db' ensures Path(k) in kv' && kv'[Path(k)] == db'[k] {
      if k != key && Path(k) == Path(key) { PathInjective(k, key); }
    }
    forall p | p in kv' ensures exists k :: k in db' && Path(k) == p {
      if p == Path(key) {
        assert key in db';
      } else {
        var k :| k in db && Path(k) == p;
        assert k in db';
      }
    }
  }

  /** No other name in the store begins with n. */
  predicate NoOtherUnder(db: Db, n: string) {
    forall k :: k in db && k.release != n ==> !(n <= k.release)
  }

  lemma DeleteSimulates(kv: KV, db: Db, n: string)
    requires Represents(kv, db) && SlashFree(n) && NoOtherUnder(db, n)
    ensures Represents(DeleteTree(kv, ReleasePath(n)), Without(db, n))
  {
    var kv', db' := DeleteTree(kv, ReleasePath(n)), Without(db, n);
    forall k | k in db' ensures Path(k) in kv' && kv'[Path(k)] == db'[k] {
      UnderPath(n, k);
    }
    forall p | p in kv' ensures exists k :: k in db' && Path(k) == p {
      var k :| k in db && Path(k) == p;
      UnderPath(n, k);
      assert k in db';
    }
  }

  /**
   DeleteRelease removes exactly one release, with its plugin state, iff no other
   stored name begins with its name.
   */
  lemma DeleteExactIff(kv: KV, db: Db, n: string)
    requires Represents(kv, db) && SlashFree(n)
    ensures Represents(DeleteTree(kv, ReleasePath(n)), Without(db, n)) <==> NoOtherUnder(db, n)
  {
    if NoOtherUnder(db, n) {
      DeleteSimulates(kv, db, n);
    } else {
      var k :| k in db && k.release != n && n <= k.release;
      UnderPath(n, k);
      assert k in Without(db, n) && Path(k) !in DeleteTree(kv, ReleasePath(n));
    }
  }

  // ---- Any sequence of writes ----

  datatype Write =
    | UpsertRelease(name: string, release: StoredRelease)
    | UpsertState(name: string, plugin: string, data: string)
    | DeleteRelease(name: string)

  function Flat(ws: seq<Write>): KV {
    if ws == [] then map[]
    else
      var kv := Flat(ws[..|ws| - 1]);
      match ws[|ws| - 1]
      case UpsertRelease(n, r) => kv[ReleaseConfigPath(n) := Json(r)]
      case UpsertState(n, p, d) => kv[StateConfigPath(n, p) := Raw(d)]
      case DeleteRelease(n) => DeleteTree(kv, ReleasePath(n))
  }

  function Structured(ws: seq<Write>): Db {
    if ws == [] then map[]
    else
      var db := Structured(ws[..|ws| - 1]);
      match ws[|ws| - 1]
      case UpsertRelease(n, r) => db[Key(n, Config) := Json(r)]
      case UpsertState(n, p, d) => db[Key(n, Plugin(p)) := Raw(d)]
      case DeleteRelease(n) => Without(db, n)
  }

  /** Slash-free names none of which is a proper prefix of another. */
  predicate PrefixFree(names: set<string>) {
    && (forall n :: n in names ==> SlashFree(n))
    && (forall n, m :: n in names && m in names && n != m ==> !(n <= m))
  }

  predicate Disciplined(names: set<string>, w: Write) {
    w.name in names && (w.UpsertState? ==> w.plugin in PLUGINS)
  }

  /**
   Over any sequence of writes for such names and the machine's plugins, the flat
   store represents the structured one.
   */
  lemma {:induction false} FlatSimulatesStructured(names: set<string>, ws: seq<Write>)
    requires PrefixFree(names) && forall k :: 0 <= k < |ws| ==> Disciplined(names, ws[k])
    ensures Represents(Flat(ws), Structured(ws))
    ensures forall k :: k in Structured(ws) ==> k.release in names
    decreases |ws|
  {
    if ws != [] {
      var init := ws[..|ws| - 1];
      FlatSimulatesStructured(names, init);
      var kv, db := Flat(init), Structured(init);
      assert Disciplined(names, ws[|ws| - 1]);
      match ws[|ws| - 1]
      case UpsertRelease(n, r) => UpsertSimulates(kv, db, Key(n, Config), Json(r));
      case UpsertState(n, p, d) => UpsertSimulates(kv, db, Key(n, Plugin(p)), Raw(d));
      case DeleteRelease(n) => DeleteSimulates(kv, db, n);
    }
  }

  // ---- Reads ----

  /** What a read of a key finds: an absent or empty value counts as not found. */
  function ReadAt(kv: KV, path: string): Option<Blob> {
    if path in kv && kv[path] != Raw("") then Some(kv[path]) else None
  }

  /** A read finds the last value written under the key, if that was not empty. */
  lemma ReadsAgree(kv: KV, db: Db, key: Key)
    requires Represents(kv, db) && ValidKey(key)
    ensures ReadAt(kv, Path(key)) == if key in db && db[key] != Raw("") then Some(db[key]) else None
  {
    if Path(key) in kv {
      var k :| k in db && Path(k) == Path(key);
      PathInjective(k, key);
    }
  }

  /** The keys ListReleases reads a release from. */
  predicate ReleaseKey(kv: KV, p: string, options: Option<string>) {
    && p in kv && BASE <= p && HasSuffix(p, CONFIG) && kv[p].Json?
    && (options.Some? ==> kv[p].release.runtime == options)
  }

  lemma BaseIsPrefix(k: Key)
    ensures BASE <= Path(k)
  {
    assert Path(k)[..|BASE|] == BASE;
  }

  /** Exactly the stored releases have such a key, whatever plugin state is stored beside them. */
  lemma ReleaseKeyIff(kv: KV, db: Db, k: Key)
    requires Represents(kv, db) && k in db
    ensures ReleaseKey(kv, Path(k), None) <==> k.part.Config?
  {
    ConfigSuffix(k);
    BaseIsPrefix(k);
  }

  /** Every value under a configuration key is a release. */
  predicate AllDecode(kv: KV) {
    forall k :: k in kv && BASE <= k && HasSuffix(k, CONFIG) ==> kv[k].Json?
  }

  /** With options only the releases of that runtime are listed, without options all of them. */
  lemma OptionsSelect(kv: KV, p: string, options: Option<string>)
    ensures ReleaseKey(kv, p, options) ==>
              p in kv && kv[p].Json? && (options.Some? ==> kv[p].release.runtime == options)
    ensures ReleaseKey(kv, p, None) ==>
              (ReleaseKey(kv, p, options) <==> options == None || kv[p].release.runtime == options)
  {
  }

  predicate Distinct(keys: seq<string>) {
    forall i, j :: 0 <= i < j < |keys| ==> keys[i] != keys[j]
  }

  /** Releases read from distinct release keys. */
  predicate Collected(kv: KV, options: Option<string>, releases: seq<StoredRelease>, keys: seq<string>) {
    && Distinct(keys) && |keys| == |releases|
    && forall j :: 0 <= j < |keys| ==> ReleaseKey(kv, keys[j], options) && kv[keys[j]] == Json(releases[j])
  }

  class ConsulKV {
    const reliable: bool  // no request fails
    var kv: KV

    constructor (reliable: bool, kv: KV)
      ensures this.reliable == reliable && this.kv == kv
    {
      this.reliable, this.kv := reliable, kv;
    }

    method SetKV(path: string, data: Blob) returns (ok: bool)
      modifies `kv
      ensures kv == old(kv)[path := data] || (!ok && kv == old(kv))
      ensures reliable ==> ok
    {
      ok := Reachable(reliable);
      var lost: bool := *;
      if ok || lost { kv := kv[path := data]; }
    }

    method GetKV(path: string) returns (ok: bool, data: Option<Blob>)
      ensures ok ==> data == if path in kv then Some(kv[path]) else None
      ensures reliable ==> ok
    {
      ok := Reachable(reliable);
      data := if path in kv then Some(kv[path]) else None;
    }

    method DeleteKV(path: string) returns (ok: bool)
      modifies `kv
      ensures kv == DeleteTree(old(kv), path) || (!ok && kv == old(kv))
      ensures reliable ==> ok
    {
      ok := Reachable(reliable);
      var lost: bool := *;
      if ok || lost { kv := DeleteTree(kv, path); }
    }

    /** Every key under the prefix, each once, in any order. */
    method ListKV(prefix: string) returns (ok: bool, keys: seq<string>)
      ensures ok ==> Distinct(keys) && forall k :: k in keys <==> k in kv && prefix <= k
      ensures reliable ==> ok
    {
      ok := Reachable(reliable);
      keys := [];
      var rest := set k | k in kv && prefix <= k;
      while rest != {}
        invariant Distinct(keys)
        invariant forall k :: k in keys ==> k !in rest
        invariant forall k :: k in keys || k in rest <==> k in kv && prefix <= k
        decreases |rest|
      {
        var k :| k in rest;
        keys, rest := keys + [k], rest - {k};
      }
    }
  }

  datatype ReadError = ReleaseNotFound | Failure

  datatype Read<T> = Value(value: T) | Error(error: ReadError)

  class StorageClient {
    const consul: ConsulKV
    const releaseName: string
    const pluginName: string

    constructor (consul: ConsulKV, releaseName: string, pluginName: string)
      ensures this.consul == consul && this.releaseName == releaseName && this.pluginName == pluginName
    {
      this.consul, this.releaseName, this.pluginName := consul, releaseName, pluginName;
    }

    method UpsertRelease(r: StoredRelease) returns (ok: bool)
      modifies consul
      ensures consul.kv == old(consul.kv)[ReleaseConfigPath(r.name) := Json(r)] || (!ok && consul.kv == old(consul.kv))
      ensures consul.reliable ==> ok
    {
      ok := consul.SetKV(ReleaseConfigPath(r.name), Json(r));
    }

    /** The release at a key; a value that is no release cannot be decoded. */
    method GetReleaseAt(path: string) returns (r: Read<StoredRelease>)
      ensures r.Value? ==> path in consul.kv && consul.kv[path] == Json(r.value)
      ensures r == Error(ReleaseNotFound) ==> path !in consul.kv || consul.kv[path] == Raw("")
      ensures consul.reliable ==>
                r == match ReadAt(consul.kv, path)
                     case None => Error(ReleaseNotFound)
                     case Some(Json(release)) => Value(release)
                     case Some(Raw(_)) => Error(Failure)
    {
      var ok, data := consul.GetKV(path);
      if !ok { return Error(Failure); }
      if data.None? || data == Some(Raw("")) { return Error(ReleaseNotFound); }
      if !data.value.Json? { return Error(Failure); }
      return Value(data.value.release);
    }

    method DeleteRelease(name: string) returns (ok: bool)
      modifies consul
      ensures consul.kv == DeleteTree(old(consul.kv), ReleasePath(name)) || (!ok && consul.kv == old(consul.kv))
      ensures consul.reliable ==> ok
    {
      ok := consul.DeleteKV(ReleasePath(name));
    }

    method UpsertPluginState(data: string) returns (ok: bool)
      modifies consul
      ensures pluginName == "" || releaseName == "" ==> !ok && consul.kv == old(consul.kv)
      ensures consul.kv == old(consul.kv)[StateConfigPath(releaseName, pluginName) := Raw(data)]
              || (!ok && consul.kv == old(consul.kv))
      ensures consul.reliable ==> (ok <==> pluginName != "" && releaseName != "")
    {
      if pluginName == "" || releaseName == "" { return false; }
      ok := consul.SetKV(StateConfigPath(releaseName, pluginName), Raw(data));
    }

    /** The bytes stored for the plugin; `found` is None for PluginStateNotFound. */
    method GetPluginState() returns (ok: bool, found: Option<Blob>)
      ensures ok ==> found == ReadAt(consul.kv, StateConfigPath(releaseName, pluginName))
      ensures pluginName == "" || releaseName == "" ==> !ok
      ensures consul.reliable ==> (ok <==> pluginName != "" && releaseName != "")
    {
      if pluginName == "" || releaseName == "" { return false, None; }
      var k := StateConfigPath(releaseName, pluginName);
      var data: Option<Blob>;
      ok, data := consul.GetKV(k);
      if data.None? || data == Some(Raw("")) { return ok, None; }
      return ok, data;
    }

    /** One release per matching release key; `keys` are those keys, each once. */
    method ListReleases(options: Option<string>)
      returns (ok: bool, releases: seq<StoredRelease>, ghost keys: seq<string>)
      ensures ok ==> Collected(consul.kv, options, releases, keys)
      ensures ok ==> forall k :: k in keys <==> ReleaseKey(consul.kv, k, options)
      ensures consul.reliable && AllDecode(consul.kv) ==> ok
    {
      var all: seq<string>;
      ok, all := consul.ListKV(BASE);
      releases, keys := [], [];
      if !ok { return; }
      var i := 0;
      while i < |all|
        invariant 0 <= i <= |all| && ok
        invariant Collected(consul.kv, options, releases, keys)
        invariant forall k :: k in keys ==> k in all[..i]
        invariant forall j :: 0 <= j < i && ReleaseKey(consul.kv, all[j], options) ==> all[j] in keys
      {
        var k := all[i];
        assert k !in all[..i] && k in all;
        if HasSuffix(k, CONFIG) {
          var r := GetReleaseAt(k);
          if r.Error? { return false, [], []; }
          if options.None? || r.value.runtime == options {
            releases, keys := releases + [r.value], keys + [k];
          }
        }
        i := i + 1;
        assert all[..i] == all[..i - 1] + [k];
      }
      assert all[..i] == all;
    }
  }

  /** Release `r`, read at `path`, is the one stored under key k. */
  predicate Lists(db: Db, k: Key, path: string, r: StoredRelease) {
    k in db && k.part.Config? && Path(k) == path && Json(r) == db[k]
  }

  /** The release read at `path` is a stored one. */
  predicate IsStored(db: Db, path: string, r: StoredRelease) {
    exists k :: k in db && Lists(db, k, path, r)
  }

  lemma ListedIsStored(kv: KV, db: Db, path: string, r: StoredRelease)
    requires Represents(kv, db) && ReleaseKey(kv, path, None) && kv[path] == Json(r)
    ensures IsStored(db, path, r)
  {
    var k :| k in db && Path(k) == path;
    ReleaseKeyIff(kv, db, k);
  }

  lemma StoredIsListed(kv: KV, db: Db, k: Key)
    requires Represents(kv, db) && k in db && k.part.Config?
    ensures ReleaseKey(kv, Path(k), None) && kv[Path(k)] == db[k]
  {
    ReleaseKeyIff(kv, db, k);
  }

  /** What ListReleases(nil) returns, read at `keys`, is each stored release exactly once. */
  lemma ListIsExact(kv: KV, db: Db, releases: seq<StoredRelease>, keys: seq<string>)
    requires Represents(kv, db) && Collected(kv, None, releases, keys)
    requires forall p :: p in keys <==> ReleaseKey(kv, p, None)
    ensures forall k :: k in db && k.part.Config? ==>
              exists i :: 0 <= i < |releases| && Lists(db, k, keys[i], releases[i])
    ensures forall i :: 0 <= i < |keys| ==> IsStored(db, keys[i], releases[i])
  {
    forall k | k in db && k.part.Config? ensures exists i :: 0 <= i < |releases| && Lists(db, k, keys[i], releases[i]) {
      StoredIsListed(kv, db, k);
      assert Path(k) in keys;
      var i :| 0 <= i < |keys| && keys[i] == Path(k);
      assert Lists(db, k, keys[i], releases[i]);
    }
    forall i | 0 <= i < |keys| ensures IsStored(db, keys[i], releases[i]) {
      assert keys[i] in keys;
      ListedIsStored(kv, db, keys[i], releases[i]);
    }
  }
}
