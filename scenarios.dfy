/**
 * Client programs that drive a fresh Storage object through typical call
 * sequences, and state what each call observes.
 */
module StorageScenarios {
  import opened Records
  import opened StorageModel
  import StorageProperties
  import StorageService

  /** A browser in which every IndexedDB and localStorage step succeeds. */
  const AllSucceed: Env := Env(true, true, {}, false, {}, true)
  /** A browser without IndexedDB whose localStorage still works. */
  const NoIndexedDb: Env := Env(false, false, {}, false, {}, true)

  /** First visit: set up the version, save the orders, load them back. */
  method FirstVisitRoundTrip(pedidos: seq<Record>) returns (loaded: Outcome<seq<Record>>)
    requires DistinctIds(pedidos)
    ensures loaded == Resolved(pedidos)
  {
    var st := new StorageService.Storage();
    st.InitializeAppVersion(AllSucceed);
    var saved := st.SavePedidos(pedidos, AllSucceed);
    loaded := st.LoadPedidos(AllSucceed);
    if pedidos == [] {
      // an empty store reads back as the loader's default, which is []
      assert loaded == Resolved([]);
    }
  }

  /**
   * Without IndexedDB a save lands in localStorage, where the synchronous
   * loader sees it; the asynchronous loader returns [] and deletes it.
   */
  method OutageLosesFallbackCopy(pedidos: seq<Record>)
    returns (before: Sync<seq<Record>>, loaded: Outcome<seq<Record>>, after: Sync<seq<Record>>)
    ensures before == Returns(pedidos)
    ensures loaded == Resolved([])
    ensures after == Returns([])
  {
    var st := new StorageService.Storage();
    var saved := st.SavePedidos(pedidos, NoIndexedDb);
    StorageProperties.FallbackRoundTrip(map[], Pedidos, pedidos, []);
    before := st.SyncLoadPedidos();
    loaded := st.LoadPedidos(NoIndexedDb);
    after := st.SyncLoadPedidos();
  }

  /** Setting the version up on two page loads leaves one marker. */
  method VersionSetUpOnEveryLoad() returns (versions: seq<Record>)
    ensures versions == [VersionRecord]
  {
    var st := new StorageService.Storage();
    st.InitializeAppVersion(AllSucceed);
    assert st.primary[AppVersion] == [VersionRecord];
    assert st.primary[AppVersion][0].id == VersionId;
    st.Reload();
    st.InitializeAppVersion(AllSucceed);
    versions := st.primary[AppVersion];
  }

  /** Clearing after saves empties every collection in both tiers. */
  method SaveThenClear(pedidos: seq<Record>, contatos: seq<Record>)
    returns (loadedPedidos: Outcome<seq<Record>>, syncContatos: Sync<seq<Record>>)
    ensures loadedPedidos == Resolved([])
    ensures syncContatos == Returns([])
  {
    var st := new StorageService.Storage();
    var a := st.SavePedidos(pedidos, AllSucceed);
    var b := st.SaveContatos(contatos, AllSucceed);
    StorageProperties.ClearEmptiesBothTiers(st.State(), AllSucceed);
    st.ClearAllData(AllSucceed);
    loadedPedidos := st.LoadPedidos(AllSucceed);
    syncContatos := st.SyncLoadContatos();
  }
}
