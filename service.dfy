/**
 * The persistence service as the program runs it: one object holding the
 * cached open outcome, the database on disk and localStorage, whose methods
 * change them step by step. Each method is proved to end in exactly the state
 * (and settle to exactly the outcome) the reference model prescribes, and to
 * keep the model's invariant.
 */
module StorageService {
  import opened Records
  import opened Json
  import opened StorageModel
  import StorageProperties

  /**
   * What one readwrite transaction does to a store in saveData: store.clear(),
   * then store.add(item) for each item in order. An add whose key is already
   * present fails, which aborts the whole transaction.
   */
  method ClearAndAddAll(data: seq<Record>) returns (contents: seq<Record>, conflict: bool)
    ensures conflict <==> !DistinctIds(data)
    ensures !conflict ==> contents == data
  {
    contents := [];
    conflict := false;
    var keys: set<string> := {};
    for i := 0 to |data|
      invariant conflict <==> !DistinctIds(data[..i])
      invariant !conflict ==> contents == data[..i] && keys == Ids(data[..i])
    {
      if !conflict && data[i].id in keys {
        var k :| 0 <= k < i && data[k].id == data[i].id;
        assert data[..i + 1][k].id == data[..i + 1][i].id;
      } else if conflict {
        var a, b :| 0 <= a < b < i && data[a].id == data[b].id;
        assert data[..i + 1][a].id == data[..i + 1][b].id;
      }
      if data[i].id in keys {
        conflict := true;
      } else {
        contents := contents + [data[i]];
        keys := keys + {data[i].id};
      }
      assert data[..i + 1] == data[..i] + [data[i]];
    }
    assert data[..|data|] == data;
  }

  class Storage {
    /** The module-level `dbPromise`: unset, resolved or rejected. */
    var dbState: DbState
    /** Version of the IndexedDB database on disk (0: it does not exist yet). */
    var dbVersion: nat
    /** The object stores of the database, by name. */
    var primary: map<string, seq<Record>>
    /** localStorage. */
    var fallback: map<string, string>

    function State(): Tiers
      reads this
    {
      Tiers(dbState, dbVersion, primary, fallback)
    }

    ghost predicate Valid()
      reads this
    {
      StorageModel.Valid(State())
    }

    /** A fresh browser profile at its first page load. */
    constructor ()
      ensures Valid() && State() == Empty
    {
      dbState, dbVersion, primary, fallback := Unopened, 0, map[], map[];
    }

    /** A page reload: module state starts over, both tiers persist. */
    method Reload()
      requires Valid()
      modifies this
      ensures Valid() && State() == StorageModel.Reload(old(State()))
    {
      dbState := Unopened;
    }

    /** onupgradeneeded: create each of the four stores only if it is absent. */
    method UpgradeSchema()
      modifies this`primary
      ensures primary == Upgraded(old(primary))
    {
      if Pedidos !in primary {
        primary := primary[Pedidos := []];
      }
      if Transacoes !in primary {
        primary := primary[Transacoes := []];
      }
      if Contatos !in primary {
        primary := primary[Contatos := []];
      }
      if AppVersion !in primary {
        primary := primary[AppVersion := []];
      }
    }

    /** initDatabase: open once per page load and cache the outcome, success or failure. */
    method InitDatabase(env: Env) returns (ok: bool)
      requires Valid()
      modifies this
      ensures Valid() && State() == Open(old(State()), env)
      ensures ok <==> dbState == Opened
    {
      StorageProperties.OpenPreservesValid(State(), env);
      if dbState == Unopened {
        if !env.indexedDbPresent || !env.openSucceeds || dbVersion > DbVersion {
          dbState := Failed;
        } else {
          if dbVersion < DbVersion {
            UpgradeSchema();
            dbVersion := DbVersion;
          }
          dbState := Opened;
        }
      }
      ok := dbState == Opened;
    }

    /** fallbackSaveToLocalStorage: a failing setItem is swallowed. */
    method FallbackSaveToLocalStorage(key: string, data: seq<Record>, env: Env)
      modifies this`fallback
      ensures fallback == FallbackWrite(old(fallback), key, data, env.localStorageWritable)
    {
      if env.localStorageWritable {
        fallback := fallback[key := Encode(data)];
      }
    }

    /** saveData */
    method SaveData(s: string, data: seq<Record>, env: Env) returns (o: Outcome<()>)
      requires Valid()
      modifies this
      ensures Valid() && (State(), o) == Save(old(State()), s, data, env)
    {
      StorageProperties.SavePreservesValid(State(), s, data, env);
      var ok := InitDatabase(env);
      if !ok || s in env.txRefused || s !in primary {
        FallbackSaveToLocalStorage(s, data, env);
        return Resolved(());
      }
      var contents, conflict := ClearAndAddAll(data);
      if conflict || s in env.commitFails {
        // the transaction aborts: the clear and the adds are rolled back
        o := Rejected;
      } else {
        primary := primary[s := contents];
        o := Resolved(());
      }
    }

    /** loadData */
    method LoadData(s: string, dflt: seq<Record>, env: Env) returns (o: Outcome<seq<Record>>)
      requires Valid()
      modifies this
      ensures Valid() && (State(), o) == Load(old(State()), s, dflt, env)
    {
      StorageProperties.LoadPreservesValid(State(), s, dflt, env);
      var ok := InitDatabase(env);
      if !ok || s in env.txRefused || s !in primary {
        fallback := fallback - {s};
        return Resolved(dflt);
      }
      if env.requestFails {
        return Rejected;
      }
      var result := primary[s];
      if |result| > 0 {
        o := Resolved(result);
      } else {
        fallback := fallback - {s};
        o := Resolved(dflt);
      }
    }

    method SavePedidos(pedidos: seq<Record>, env: Env) returns (o: Outcome<()>)
      requires Valid()
      modifies this
      ensures Valid() && (State(), o) == Save(old(State()), Pedidos, pedidos, env)
    {
      o := SaveData(Pedidos, pedidos, env);
    }

    method LoadPedidos(env: Env) returns (o: Outcome<seq<Record>>)
      requires Valid()
      modifies this
      ensures Valid() && (State(), o) == Load(old(State()), Pedidos, [], env)
    {
      o := LoadData(Pedidos, [], env);
    }

    method SaveTransacoes(transacoes: seq<Record>, env: Env) returns (o: Outcome<()>)
      requires Valid()
      modifies this
      ensures Valid() && (State(), o) == Save(old(State()), Transacoes, transacoes, env)
    {
      o := SaveData(Transacoes, transacoes, env);
    }

    method LoadTransacoes(env: Env) returns (o: Outcome<seq<Record>>)
      requires Valid()
      modifies this
      ensures Valid() && (State(), o) == Load(old(State()), Transacoes, [], env)
    {
      o := LoadData(Transacoes, [], env);
    }

    method SaveContatos(contatos: seq<Record>, env: Env) returns (o: Outcome<()>)
      requires Valid()
      modifies this
      ensures Valid() && (State(), o) == Save(old(State()), Contatos, contatos, env)
    {
      o := SaveData(Contatos, contatos, env);
    }

    method LoadContatos(env: Env) returns (o: Outcome<seq<Record>>)
      requires Valid()
      modifies this
      ensures Valid() && (State(), o) == Load(old(State()), Contatos, [], env)
    {
      o := LoadData(Contatos, [], env);
    }

    /** initializeAppVersion: always resolves; every failure is swallowed. */
    method InitializeAppVersion(env: Env)
      requires Valid()
      modifies this
      ensures Valid() && State() == InitVersion(old(State()), env)
    {
      StorageProperties.InitVersionPreservesValid(State(), env);
      var ok := InitDatabase(env);
      if !ok || AppVersion in env.txRefused || AppVersion !in primary {
        var stored := if AppVersion in fallback then Some(fallback[AppVersion]) else None;
        if (stored.None? || stored.value == "") && env.localStorageWritable {
          fallback := fallback[AppVersion := CurrentAppVersion];
        }
        return;
      }
      if env.requestFails {
        // the get request fails; nothing handles it and the transaction aborts
        return;
      }
      var existing := Find(primary[AppVersion], VersionId);
      if existing.None? && AppVersion !in env.commitFails {
        primary := primary[AppVersion := primary[AppVersion] + [VersionRecord]];
      }
    }

    /** syncLoadPedidos */
    function SyncLoadPedidos(): (r: Sync<seq<Record>>)
      reads this
      ensures Pedidos !in fallback || fallback[Pedidos] == "" ==> r == Returns([])
      ensures Pedidos in fallback && Decode(fallback[Pedidos]).Some? ==> r == Returns(Decode(fallback[Pedidos]).value)
      ensures r == Throws <==> Pedidos in fallback && fallback[Pedidos] != "" && Decode(fallback[Pedidos]).None?
    {
      SyncLoad(fallback, Pedidos)
    }

    /** syncLoadTransacoes */
    function SyncLoadTransacoes(): (r: Sync<seq<Record>>)
      reads this
      ensures Transacoes !in fallback || fallback[Transacoes] == "" ==> r == Returns([])
      ensures Transacoes in fallback && Decode(fallback[Transacoes]).Some? ==> r == Returns(Decode(fallback[Transacoes]).value)
      ensures r == Throws <==> Transacoes in fallback && fallback[Transacoes] != "" && Decode(fallback[Transacoes]).None?
    {
      SyncLoad(fallback, Transacoes)
    }

    /** syncLoadContatos */
    function SyncLoadContatos(): (r: Sync<seq<Record>>)
      reads this
      ensures Contatos !in fallback || fallback[Contatos] == "" ==> r == Returns([])
      ensures Contatos in fallback && Decode(fallback[Contatos]).Some? ==> r == Returns(Decode(fallback[Contatos]).value)
      ensures r == Throws <==> Contatos in fallback && fallback[Contatos] != "" && Decode(fallback[Contatos]).None?
    {
      SyncLoad(fallback, Contatos)
    }

    /**
     * clearAllData: clear every store, then remove every fallback key; a
     * failed open or a refused transaction jumps to the catch block.
     */
    method ClearAllData(env: Env)
      requires Valid()
      modifies this
      ensures Valid() && State() == Clear(old(State()), env)
    {
      StorageProperties.ClearPreservesValid(State(), env);
      var ok := InitDatabase(env);
      if !ok {
        return;
      }
      ghost var before := State();
      ghost var goal := ClearStores(primary, StoreOrder, env);
      var i := 0;
      while i < |StoreOrder|
        invariant 0 <= i <= |StoreOrder|
        invariant dbState == before.db && dbVersion == before.version && fallback == before.fallback
        invariant ClearStores(primary, StoreOrder[i..], env) == goal
      {
        var name := StoreOrder[i];
        if name in env.txRefused || name !in primary {
          // db.transaction throws: nothing after it runs
          return;
        }
        if name !in env.commitFails {
          primary := primary[name := []];
        }
        i := i + 1;
      }
      for j := 0 to |StoreOrder|
        invariant dbState == before.db && dbVersion == before.version && primary == goal.0
        invariant fallback == before.fallback - (set k | 0 <= k < j :: StoreOrder[k])
      {
        fallback := fallback - {StoreOrder[j]};
      }
      assert (set k | 0 <= k < |StoreOrder| :: StoreOrder[k]) == StoreSet by {
        assert StoreOrder[0] == Pedidos && StoreOrder[1] == Transacoes;
        assert StoreOrder[2] == Contatos && StoreOrder[3] == AppVersion;
      }
    }
  }
}
