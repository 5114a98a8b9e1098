/**
 * What the persistence service promises, stated over the reference model for
 * every reachable state: the invariant each operation keeps, and how calls
 * combine (save then load, save twice, an outage, repeated version set-up,
 * clearing).
 */
module StorageProperties {
  import opened Records
  import opened Json
  import opened StorageModel

  /** Store `s` can be reached and every step of a call on it succeeds. */
  predicate Healthy(env: Env, s: string)
  {
    && env.indexedDbPresent && env.openSucceeds
    && s !in env.txRefused && s !in env.commitFails && !env.requestFails
  }

  // ---------------------------------------------------------------- opening

  /**
   * The first call of a page load decides the open outcome; every later
   * operation, whatever the browser does then, sees that same outcome.
   */
  lemma OpenOutcomeIsCached(t: Tiers, env: Env, later: Env, s: string, data: seq<Record>, dflt: seq<Record>)
    ensures var t1 := Open(t, env);
      && Save(t1, s, data, later).0.db == t1.db
      && Load(t1, s, dflt, later).0.db == t1.db
      && InitVersion(t1, later).db == t1.db
      && Clear(t1, later).db == t1.db
  {
  }

  /** A failed open is never retried: no later call of the page load touches the database. */
  lemma FailedOpenIsFinal(t: Tiers, env: Env, s: string, data: seq<Record>, dflt: seq<Record>)
    requires t.db == Failed
    ensures Save(t, s, data, env).0.primary == t.primary
    ensures Load(t, s, dflt, env) == (t.(fallback := t.fallback - {s}), Resolved(dflt))
    ensures InitVersion(t, env).primary == t.primary
    ensures Clear(t, env) == t
  {
  }

  /** Running the schema upgrade again changes nothing. */
  lemma UpgradeIdempotent(stores: map<string, seq<Record>>)
    ensures Upgraded(Upgraded(stores)) == Upgraded(stores)
  {
  }

  // ------------------------------------------------------------ invariant

  lemma OpenPreservesValid(t: Tiers, env: Env)
    requires Valid(t)
    ensures Valid(Open(t, env))
    ensures Open(t, env).db == Opened ==> StoreSet <= Open(t, env).primary.Keys
  {
  }

  lemma ReloadPreservesValid(t: Tiers)
    requires Valid(t)
    ensures Valid(Reload(t))
  {
  }

  lemma SavePreservesValid(t: Tiers, s: string, data: seq<Record>, env: Env)
    requires Valid(t)
    ensures Valid(Save(t, s, data, env).0)
  {
    OpenPreservesValid(t, env);
  }

  lemma LoadPreservesValid(t: Tiers, s: string, dflt: seq<Record>, env: Env)
    requires Valid(t)
    ensures Valid(Load(t, s, dflt, env).0)
  {
    OpenPreservesValid(t, env);
  }

  /** The version store never holds two records: the marker is only added when absent. */
  lemma InitVersionPreservesValid(t: Tiers, env: Env)
    requires Valid(t)
    ensures Valid(InitVersion(t, env))
  {
    OpenPreservesValid(t, env);
    var t1 := Open(t, env);
    if !Unreachable(t, AppVersion, env) && !env.requestFails && AppVersion !in env.commitFails
       && !HasId(t1.primary[AppVersion], VersionId) {
      AppendFreshId(t1.primary[AppVersion], VersionRecord);
    }
  }

  /** Clearing keeps the set of stores and leaves each store either as it was or empty. */
  lemma {:induction false} ClearStoresFrame(p: map<string, seq<Record>>, names: seq<string>, env: Env)
    ensures ClearStores(p, names, env).0.Keys == p.Keys
    ensures forall n :: n in p ==> ClearStores(p, names, env).0[n] in {p[n], []}
    decreases |names|
  {
    if names != [] && names[0] !in env.txRefused && names[0] in p {
      var next := if names[0] in env.commitFails then p else p[names[0] := []];
      ClearStoresFrame(next, names[1..], env);
    }
  }

  lemma ClearPreservesValid(t: Tiers, env: Env)
    requires Valid(t)
    ensures Valid(Clear(t, env))
  {
    OpenPreservesValid(t, env);
    ClearStoresFrame(Open(t, env).primary, StoreOrder, env);
  }

  // ------------------------------------------------------------- save/load

  /**
   * Which tier a save writes: localStorage only when the store cannot be
   * reached (open failed, transaction refused), and then the database is
   * untouched and the promise resolves; a duplicate key or a failed commit
   * rejects and changes neither tier; otherwise store `s` holds exactly
   * `data` and no other store changes.
   */
  lemma SaveTierChoice(t: Tiers, s: string, data: seq<Record>, env: Env)
    ensures var (t', o) := Save(t, s, data, env);
      && (t'.fallback != t.fallback ==> Unreachable(t, s, env))
      && (Unreachable(t, s, env) ==>
            && o == Resolved(()) && t'.primary == Open(t, env).primary
            && t'.fallback == FallbackWrite(t.fallback, s, data, env.localStorageWritable)
            && (env.localStorageWritable ==> s in t'.fallback && Decode(t'.fallback[s]) == Some(data)))
      && (o == Rejected <==> !Unreachable(t, s, env) && (!DistinctIds(data) || s in env.commitFails))
      && (o == Rejected ==> t' == Open(t, env))
      && (!Unreachable(t, s, env) && o.Resolved? ==>
            && t'.primary[s] == data && t'.fallback == t.fallback
            && forall n :: n != s ==> (n in t'.primary <==> n in Open(t, env).primary)
                                      && (n in t'.primary ==> t'.primary[n] == Open(t, env).primary[n]))
  {
  }

  /**
   * What a load can return: the store's contents when non-empty, otherwise
   * `dflt`. It never changes the database, and it can only remove fallback
   * key `s`, never write one. It rejects exactly when the store is reachable
   * and getAll fails, and then only the open has happened.
   */
  lemma LoadOutcomes(t: Tiers, s: string, dflt: seq<Record>, env: Env)
    ensures var (t', o) := Load(t, s, dflt, env);
      && t'.primary == Open(t, env).primary
      && (t'.fallback == t.fallback || t'.fallback == t.fallback - {s})
      && (o.Resolved? ==> o.value == dflt || (s in t'.primary && o.value == t'.primary[s] != []))
      && (o == Rejected <==> !Unreachable(t, s, env) && env.requestFails)
      && (o == Rejected ==> t' == Open(t, env))
  {
  }

  /**
   * A load on a reachable store whose getAll succeeds: non-empty contents are
   * returned as they are and localStorage is left alone; an empty store gives
   * `dflt` and removes fallback key `s`.
   */
  lemma LoadReachable(t: Tiers, s: string, dflt: seq<Record>, env: Env)
    requires !Unreachable(t, s, env) && !env.requestFails
    ensures var (t', o) := Load(t, s, dflt, env);
      var p := Open(t, env).primary[s];
      && t'.primary == Open(t, env).primary
      && (p != [] ==> o == Resolved(p) && t'.fallback == t.fallback)
      && (p == [] ==> o == Resolved(dflt) && t'.fallback == t.fallback - {s})
  {
  }

  /**
   * A load whose open failed or whose transaction was refused gives `dflt`
   * and removes fallback key `s`, whatever either tier holds.
   */
  lemma LoadUnreachable(t: Tiers, s: string, dflt: seq<Record>, env: Env)
    requires Unreachable(t, s, env)
    ensures Load(t, s, dflt, env) == (Open(t, env).(fallback := t.fallback - {s}), Resolved(dflt))
  {
  }

  /** loadData never reads the fallback tier: its result does not depend on it. */
  lemma LoadIgnoresFallback(t: Tiers, other: map<string, string>, s: string, dflt: seq<Record>, env: Env)
    ensures Load(t.(fallback := other), s, dflt, env).1 == Load(t, s, dflt, env).1
  {
  }

  /**
   * With the database reachable, a load after a save returns what was saved;
   * an empty save reads back as `dflt` and drops the fallback copy.
   */
  lemma RoundTrip(t: Tiers, s: string, data: seq<Record>, dflt: seq<Record>, env: Env)
    requires Valid(t) && t.db != Failed && s in StoreSet && Healthy(env, s) && DistinctIds(data)
    ensures Save(t, s, data, env).1 == Resolved(())
    ensures var t' := Save(t, s, data, env).0;
      && Load(t', s, dflt, env).1 == Resolved(if data == [] then dflt else data)
      && (data == [] ==> s !in Load(t', s, dflt, env).0.fallback)
  {
    OpenPreservesValid(t, env);
  }

  /** Saving twice keeps only the second collection: saves replace, they never merge. */
  lemma ReplaceNotMerge(t: Tiers, s: string, first: seq<Record>, second: seq<Record>, dflt: seq<Record>, env: Env)
    requires Valid(t) && t.db != Failed && s in StoreSet && Healthy(env, s)
    requires DistinctIds(second) && second != []
    ensures var t2 := Save(Save(t, s, first, env).0, s, second, env).0;
      Load(t2, s, dflt, env).1 == Resolved(second)
  {
    var t1 := Save(t, s, first, env).0;
    SavePreservesValid(t, s, first, env);
    assert t1.db == Opened;
    RoundTrip(t1, s, second, dflt, env);
  }

  /**
   * During an outage a save goes to localStorage, yet a load in the same
   * outage returns `dflt` and deletes that copy: the fallback data is lost.
   */
  lemma OutageSaveThenLoad(t: Tiers, s: string, data: seq<Record>, dflt: seq<Record>, env: Env, later: Env)
    requires Open(t, env).db == Failed && env.localStorageWritable
    ensures var t1 := Save(t, s, data, env).0;
      && s in t1.fallback && t1.fallback[s] == Encode(data)
      && Load(t1, s, dflt, later).1 == Resolved(dflt)
      && s !in Load(t1, s, dflt, later).0.fallback
  {
  }

  // -------------------------------------------------------- version marker

  /** An existing marker is never changed, in either tier. */
  lemma VersionMarkerWrittenOnce(t: Tiers, env: Env)
    requires Valid(t)
    ensures AppVersion in t.primary && HasId(t.primary[AppVersion], VersionId) ==>
      InitVersion(t, env).primary == t.primary
    ensures AppVersion in t.fallback && t.fallback[AppVersion] != "" ==>
      InitVersion(t, env).fallback == t.fallback
  {
  }

  /** With the database reachable, exactly one version record exists afterwards. */
  lemma VersionMarkerPresent(t: Tiers, env: Env)
    requires Valid(t) && t.db != Failed && Healthy(env, AppVersion)
    ensures var t' := InitVersion(t, env);
      AppVersion in t'.primary && HasId(t'.primary[AppVersion], VersionId)
      && DistinctIds(t'.primary[AppVersion])
  {
    OpenPreservesValid(t, env);
    InitVersionPreservesValid(t, env);
    var p := Open(t, env).primary[AppVersion];
    if !HasId(p, VersionId) {
      assert (p + [VersionRecord])[|p|].id == VersionId;
    }
  }

  /**
   * The catch branch of the version set-up: when the version store cannot be
   * reached and localStorage holds no version, "1.0.0" is written under
   * `app_version`, and the database stays as the open left it.
   */
  lemma VersionFallbackWritten(t: Tiers, env: Env)
    requires Unreachable(t, AppVersion, env) && env.localStorageWritable
    requires AppVersion !in t.fallback || t.fallback[AppVersion] == ""
    ensures InitVersion(t, env) == Open(t, env).(fallback := t.fallback[AppVersion := CurrentAppVersion])
  {
  }

  /**
   * On a reachable version store without a marker, whose get and commit
   * succeed, exactly the record `{id: "version", value: "1.0.0"}` is added.
   */
  lemma VersionReachableAdds(t: Tiers, env: Env)
    requires !Unreachable(t, AppVersion, env) && !env.requestFails && AppVersion !in env.commitFails
    requires !HasId(Open(t, env).primary[AppVersion], VersionId)
    ensures var p := Open(t, env).primary;
      InitVersion(t, env) == Open(t, env).(primary := p[AppVersion := p[AppVersion] + [VersionRecord]])
  {
  }

  /** With the version store reachable, localStorage is never touched. */
  lemma VersionReachableKeepsFallback(t: Tiers, env: Env)
    requires !Unreachable(t, AppVersion, env)
    ensures InitVersion(t, env).fallback == t.fallback
  {
  }

  /** Setting the version up twice is the same as once. */
  lemma InitVersionIdempotent(t: Tiers, env: Env)
    ensures InitVersion(InitVersion(t, env), env) == InitVersion(t, env)
  {
    var t1 := Open(t, env);
    if !Unreachable(t, AppVersion, env) && !env.requestFails && AppVersion !in env.commitFails
       && !HasId(t1.primary[AppVersion], VersionId) {
      var p := t1.primary[AppVersion];
      assert (p + [VersionRecord])[|p|].id == VersionId;
    }
  }

  /** Across page loads too: once the marker exists, no later set-up changes the database. */
  lemma VersionMarkerSurvivesReload(t: Tiers, env: Env, later: Env)
    requires Valid(t) && t.db != Failed && Healthy(env, AppVersion)
    ensures var t' := InitVersion(t, env);
      InitVersion(Reload(t'), later).primary == t'.primary
  {
    VersionMarkerPresent(t, env);
    InitVersionPreservesValid(t, env);
    VersionMarkerWrittenOnce(Reload(InitVersion(t, env)), later);
  }

  // ------------------------------------------------------------------ clear

  lemma {:induction false} ClearStoresAll(p: map<string, seq<Record>>, names: seq<string>, env: Env)
    requires forall i :: 0 <= i < |names| ==> names[i] in p && names[i] !in env.txRefused
    ensures !ClearStores(p, names, env).1
    ensures ClearStores(p, names, env).0.Keys == p.Keys
    ensures forall i :: 0 <= i < |names| && names[i] !in env.commitFails ==>
      ClearStores(p, names, env).0[names[i]] == []
    decreases |names|
  {
    ClearStoresFrame(p, names, env);
    if names != [] {
      var next := if names[0] in env.commitFails then p else p[names[0] := []];
      ClearStoresAll(next, names[1..], env);
      ClearStoresFrame(next, names[1..], env);
      forall i | 0 <= i < |names| && names[i] !in env.commitFails
        ensures ClearStores(p, names, env).0[names[i]] == []
      {
        if i > 0 {
          assert names[1..][i - 1] == names[i];
        }
      }
    }
  }

  /** After a successful open with every transaction starting, both tiers are emptied. */
  lemma ClearEmptiesBothTiers(t: Tiers, env: Env)
    requires Valid(t) && t.db != Failed && env.indexedDbPresent && env.openSucceeds
    requires StoreSet !! env.txRefused && StoreSet !! env.commitFails
    ensures forall s :: s in StoreSet ==> s in Clear(t, env).primary && Clear(t, env).primary[s] == []
    ensures forall s :: s in StoreSet ==> s !in Clear(t, env).fallback
  {
    OpenPreservesValid(t, env);
    var p := Open(t, env).primary;
    ClearStoresAll(p, StoreOrder, env);
    ClearStoresFrame(p, StoreOrder, env);
    assert StoreOrder[0] == Pedidos && StoreOrder[1] == Transacoes;
    assert StoreOrder[2] == Contatos && StoreOrder[3] == AppVersion;
  }

  /** clearAllData is fail-fast: when the open fails, neither tier changes. */
  lemma ClearFailFast(t: Tiers, env: Env)
    requires Open(t, env).db == Failed
    ensures Clear(t, env).primary == t.primary && Clear(t, env).fallback == t.fallback
  {
  }

  // ------------------------------------------------------------- fallback

  /** What fallbackSaveToLocalStorage writes, fallbackLoadFromLocalStorage and the syncLoad functions read back. */
  lemma FallbackRoundTrip(ls: map<string, string>, key: string, data: seq<Record>, dflt: seq<Record>)
    ensures FallbackLoad(FallbackWrite(ls, key, data, true), key, dflt) == data
    ensures SyncLoad(FallbackWrite(ls, key, data, true), key) == Returns(data)
  {
  }

  /** The plain version string kept under "app_version" is not JSON: the sync loaders would throw on it. */
  lemma VersionStringIsNotJson()
    ensures Decode(CurrentAppVersion) == None
    ensures SyncLoad(map[AppVersion := CurrentAppVersion], AppVersion) == Throws
  {
  }
}
