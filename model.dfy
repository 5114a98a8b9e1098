/**
 * Reference model of the two-tier persistence service: the whole persisted
 * and cached state as one value (Tiers), and each operation of the service as
 * a function from the state before the call to the state after it (and what
 * the returned promise settles to). The class in StorageService is proved to
 * behave exactly like these functions; the lemmas in StorageProperties state
 * what the service promises in terms of them.
 */
module StorageModel {
  import opened Records
  import opened Json

  /** Schema version the service opens the database with. */
  const DbVersion: nat := 1

  /** Names of the object stores, which are also the fallback keys. */
  const Pedidos: string := "pedidos"
  const Transacoes: string := "transacoes"
  const Contatos: string := "contatos"
  const AppVersion: string := "app_version"

  /** The stores in declaration order, the order in which clearing visits them. */
  const StoreOrder: seq<string> := [Pedidos, Transacoes, Contatos, AppVersion]
  const StoreSet: set<string> := {Pedidos, Transacoes, Contatos, AppVersion}

  const CurrentAppVersion: string := "1.0.0"
  const VersionId: string := "version"
  /** The version marker `{id: "version", value: "1.0.0"}`. */
  const VersionRecord: Record := Record(VersionId, CurrentAppVersion)

  /** The cached outcome of opening the database (the module's `dbPromise`). */
  datatype DbState = Unopened | Opened | Failed

  /**
   * Everything the service's behaviour depends on: the cached open outcome
   * (reset on every page load), the version of the database on disk, its
   * object stores (name to contents, each keyed by `id`), and localStorage.
   */
  datatype Tiers = Tiers(
    db: DbState,
    version: nat,
    primary: map<string, seq<Record>>,
    fallback: map<string, string>)

  /**
   * The browser's behaviour during one call: whether IndexedDB exists and the
   * open request succeeds, which stores refuse a transaction (db.transaction
   * throws), whether a get/getAll request fails, which stores' readwrite
   * transactions abort at commit, and whether localStorage.setItem succeeds.
   */
  datatype Env = Env(
    indexedDbPresent: bool,
    openSucceeds: bool,
    txRefused: set<string>,
    requestFails: bool,
    commitFails: set<string>,
    localStorageWritable: bool)

  /** The persisted state the code itself can produce. */
  predicate Valid(t: Tiers)
  {
    && t.version <= DbVersion
    && t.primary.Keys == (if t.version == 0 then {} else StoreSet)
    && (t.db == Opened ==> t.version == DbVersion)
    && forall s :: s in t.primary ==> DistinctIds(t.primary[s])
  }

  /** A fresh browser profile before the first page load. */
  const Empty: Tiers := Tiers(Unopened, 0, map[], map[])

  /** A page reload: the cached open outcome is forgotten, both tiers persist. */
  function Reload(t: Tiers): (r: Tiers)
    ensures r.db == Unopened && r.version == t.version
    ensures r.primary == t.primary && r.fallback == t.fallback
  {
    t.(db := Unopened)
  }

  /** Creates store `name`, empty, unless it already exists. */
  function EnsureStore(stores: map<string, seq<Record>>, name: string): map<string, seq<Record>>
  {
    if name in stores then stores else stores[name := []]
  }

  /** The `onupgradeneeded` handler: each of the four stores is created only if absent. */
  function Upgraded(stores: map<string, seq<Record>>): (r: map<string, seq<Record>>)
    ensures r.Keys == stores.Keys + StoreSet
    ensures forall n :: n in stores ==> r[n] == stores[n]
    ensures forall n :: n in r && n !in stores ==> r[n] == []
  {
    EnsureStore(EnsureStore(EnsureStore(EnsureStore(stores, Pedidos), Transacoes), Contatos), AppVersion)
  }

  /**
   * initDatabase: the first call of a page load opens the database (running
   * the upgrade when the database on disk is older than DbVersion) and caches
   * the outcome; every later call returns the cached outcome, failed or not.
   * Opening a database on disk newer than DbVersion fails with a VersionError.
   */
  function Open(t: Tiers, env: Env): (r: Tiers)
    ensures r.db != Unopened
    ensures t.db != Unopened ==> r == t
    ensures t.db == Unopened ==>
      (r.db == Opened <==> env.indexedDbPresent && env.openSucceeds && t.version <= DbVersion)
    ensures t.db == Unopened && r.db == Opened ==>
      && r.version == DbVersion
      && r.primary == (if t.version < DbVersion then Upgraded(t.primary) else t.primary)
    ensures r.db == Failed ==> r.primary == t.primary && r.version == t.version
    ensures r.fallback == t.fallback
  {
    if t.db != Unopened then t
    else if !env.indexedDbPresent || !env.openSucceeds || t.version > DbVersion then t.(db := Failed)
    else if t.version < DbVersion then t.(db := Opened, version := DbVersion, primary := Upgraded(t.primary))
    else t.(db := Opened)
  }

  /** Whether a call on store `s` ends in the `catch` block: the open failed or db.transaction threw. */
  predicate Unreachable(t: Tiers, s: string, env: Env)
  {
    Open(t, env).db != Opened || s in env.txRefused || s !in Open(t, env).primary
  }

  /** fallbackSaveToLocalStorage: overwrite `key` with the encoded records; a failing write is swallowed. */
  function FallbackWrite(ls: map<string, string>, key: string, data: seq<Record>, writable: bool): (r: map<string, string>)
    ensures writable ==> key in r && Decode(r[key]) == Some(data)
    ensures !writable ==> r == ls
    ensures forall k :: k != key ==> (k in r <==> k in ls) && (k in r ==> r[k] == ls[k])
  {
    DecodeEncode(data);
    if writable then ls[key := Encode(data)] else ls
  }

  /**
   * fallbackLoadFromLocalStorage: the decoded value when `key` holds a
   * non-empty text that parses, otherwise `dflt`.
   */
  function FallbackLoad(ls: map<string, string>, key: string, dflt: seq<Record>): (r: seq<Record>)
    ensures key !in ls ==> r == dflt
    ensures key in ls && Decode(ls[key]).Some? ==> r == Decode(ls[key]).value
    ensures key in ls && Decode(ls[key]).None? ==> r == dflt
  {
    if key in ls && ls[key] != "" then
      match Decode(ls[key])
      case Some(rs) => rs
      case None => dflt
    else dflt
  }

  /**
   * syncLoadPedidos and its two siblings: an absent or empty key reads as the
   * empty list, otherwise JSON.parse runs unguarded, so a text that does not
   * parse makes the call throw.
   */
  function SyncLoad(ls: map<string, string>, key: string): (r: Sync<seq<Record>>)
    ensures key !in ls || ls[key] == "" ==> r == Returns([])
    ensures r == Throws <==> key in ls && Decode(ls[key]).None? && ls[key] != ""
    ensures key in ls && Decode(ls[key]).Some? ==> r == Returns(Decode(ls[key]).value)
  {
    if key in ls && ls[key] != "" then
      match Decode(ls[key])
      case Some(rs) => Returns(rs)
      case None => Throws
    else Returns([])
  }

  /**
   * saveData: clear store `s` and add every record in one readwrite
   * transaction. A failed open or a refused transaction falls back to
   * localStorage and resolves; a duplicate key or a failed commit aborts the
   * transaction (nothing it did is kept) and rejects, without fallback.
   */
  function Save(t: Tiers, s: string, data: seq<Record>, env: Env): (Tiers, Outcome<()>)
  {
    var t1 := Open(t, env);
    if Unreachable(t, s, env) then
      (t1.(fallback := FallbackWrite(t1.fallback, s, data, env.localStorageWritable)), Resolved(()))
    else if !DistinctIds(data) || s in env.commitFails then
      (t1, Rejected)
    else
      (t1.(primary := t1.primary[s := data]), Resolved(()))
  }

  /**
   * loadData: a non-empty getAll result is returned as it is; an empty one,
   * or a failed open or refused transaction, removes fallback key `s` and
   * returns `dflt`; a failed getAll rejects. The fallback tier is never read.
   */
  function Load(t: Tiers, s: string, dflt: seq<Record>, env: Env): (Tiers, Outcome<seq<Record>>)
  {
    var t1 := Open(t, env);
    if Unreachable(t, s, env) then
      (t1.(fallback := t1.fallback - {s}), Resolved(dflt))
    else if env.requestFails then
      (t1, Rejected)
    else if |t1.primary[s]| > 0 then
      (t1, Resolved(t1.primary[s]))
    else
      (t1.(fallback := t1.fallback - {s}), Resolved(dflt))
  }

  /**
   * initializeAppVersion: add the version marker unless a record with id
   * "version" exists. When the store cannot be reached, set localStorage
   * key "app_version" to "1.0.0" unless it already holds a non-empty value.
   * Later failures (the get request, the commit) are swallowed.
   */
  function InitVersion(t: Tiers, env: Env): Tiers
  {
    var t1 := Open(t, env);
    if Unreachable(t, AppVersion, env) then
      if (AppVersion !in t1.fallback || t1.fallback[AppVersion] == "") && env.localStorageWritable
      then t1.(fallback := t1.fallback[AppVersion := CurrentAppVersion])
      else t1
    else if env.requestFails || AppVersion in env.commitFails || HasId(t1.primary[AppVersion], VersionId) then
      t1
    else
      t1.(primary := t1.primary[AppVersion := t1.primary[AppVersion] + [VersionRecord]])
  }

  /**
   * The loop of clearAllData over the stores: each store whose transaction
   * starts is cleared (unless its commit fails); the first store whose
   * transaction is refused stops the loop, and the flag reports that it threw.
   */
  function ClearStores(p: map<string, seq<Record>>, names: seq<string>, env: Env): (map<string, seq<Record>>, bool)
    decreases |names|
  {
    if names == [] then (p, false)
    else if names[0] in env.txRefused || names[0] !in p then (p, true)
    else ClearStores(if names[0] in env.commitFails then p else p[names[0] := []], names[1..], env)
  }

  /**
   * clearAllData: after a successful open, clear every store and then remove
   * every fallback key; any throw (the open, a refused transaction) lands in
   * the catch block and skips everything after it.
   */
  function Clear(t: Tiers, env: Env): Tiers
  {
    var t1 := Open(t, env);
    if t1.db != Opened then t1
    else
      var (p, threw) := ClearStores(t1.primary, StoreOrder, env);
      if threw then t1.(primary := p)
      else t1.(primary := p, fallback := t1.fallback - StoreSet)
  }
}
