# Two-tier persistence service of the orders app

This project models the client-side persistence layer of a small orders
application (`services/storage-service.ts`). The service keeps four named
collections in an IndexedDB database called `pedidos-app-db`:

- `pedidos` (orders)
- `transacoes` (financial transactions)
- `contatos` (contacts)
- `app_version` (the version marker)

Every object store is keyed by the record's `id`. localStorage is the
fallback tier: each collection is kept there as JSON text under the store's
name, and the version is kept as the plain string `"1.0.0"` under
`app_version`.

The model has three layers.

- `Records` and `Json` hold the values. A record is an `id` plus a `body`
  standing for its other fields. The fallback tier's text encoding is a
  canonical JSON array of `{"id":…,"body":…}` objects, with a proven decoder.
- `StorageModel` is the reference model. The state is a `Tiers` value made
  of four parts:
  - the cached outcome of opening the database (the module's `dbPromise`)
  - the database version on disk
  - the object stores
  - localStorage

  Each operation of the service is a function from the state before the
  call to the state after it, together with what its promise settles to.
  Browser behaviour is an `Env` argument. It says whether IndexedDB exists,
  whether the open succeeds, which stores refuse a transaction, whether a
  get request fails, which commits abort, and whether `localStorage.setItem`
  succeeds.
- `StorageService.Storage` is the service as the program runs it. It is a
  class with those four fields, and its methods change them step by step:
  - clear a store, then add each record
  - remove a fallback key
  - loop over the stores to clear them

  Each method is proved to end in exactly the state the reference function
  prescribes. Every method the service exports is also proved to keep the
  invariant `Valid`. The two internal helpers, `UpgradeSchema` and
  `FallbackSaveToLocalStorage`, are proved only to match their reference
  functions: the upgrade alone leaves a version-0 database with all four
  stores, and `InitDatabase` restores the invariant by setting the version
  right after it. The invariant says:
  - the database holds either no stores or exactly the four
  - once the database is opened, it is at version 1
  - no store holds two records with the same `id`

`StorageProperties` proves what the service promises over every valid state:
- open once and cache the outcome
- idempotent schema upgrade
- replace on save, never merge
- which tier a save writes
- what a load can return
- loads never read localStorage
- the outage data loss
- the version marker is written once
- clearing is fail-fast

`StorageScenarios` runs fresh `Storage` objects through typical call
sequences.

IndexedDB transactions are atomic. When an `add` fails (a duplicate `id`) or
the commit fails, the transaction aborts: the earlier `clear` is rolled back
and the store keeps its old contents. The model reflects this. Such a failure
rejects the caller's promise and does not fall back to localStorage, because
the rejection happens in a promise returned from inside the `try`, which the
`catch` never sees.

### Behaviour worth knowing

- **A failed load never reads localStorage.** On a failed open or a refused
  transaction, `loadData` deletes the fallback key and returns the default
  (lines 123-129). So a save made during an outage is lost at the next load
  (`OutageSaveThenLoad`, `OutageLosesFallbackCopy`).
- **A non-empty load leaves the fallback key alone.** The key is removed only
  when the store is empty (lines 110-116; `LoadReachable`).
- **A failure after the transaction starts rejects without falling back**
  (lines 85-91, 118-121).
- **Clearing is fail-fast.** A failed open changes nothing. A refused
  transaction stops the loop and skips every localStorage removal
  (lines 224-241).
- **Calls are not serialised.** Nothing orders concurrent calls on the same
  store; the only shared state is the cached `dbPromise`.

## Model

| member | source | states |
|---|---|---|
| `Records.Find` | services/storage-service.ts:184-187 | `store.get("version")` yields a record exactly when some record has that key, and the record it yields has that key |
| `Json.ParseEscaped` | services/storage-service.ts:135 | an escaped string literal reads back as the original string, leaving the text after its closing quote |
| `Json.DecodeEncode` | services/storage-service.ts:133-149 | parsing the text written for a collection gives back exactly that collection |
| `StorageModel.Upgraded` | services/storage-service.ts:45-64 | after the upgrade all four stores exist; stores already present keep their contents; only missing stores are added, and they are empty |
| `StorageModel.Open` | services/storage-service.ts:21-64 | after any call the open outcome is decided, and once decided it is returned unchanged; a first call succeeds exactly when IndexedDB exists, the open request succeeds and the database on disk is not newer than version 1 (a newer one fails with a VersionError); a successful first open runs the upgrade when the database on disk is older than version 1; a failed open leaves the stores alone; opening never touches localStorage |
| `StorageModel.Reload` | services/storage-service.ts:21 | a page load forgets the cached outcome while both tiers persist |
| `StorageModel.FallbackWrite` | services/storage-service.ts:133-139 | when writable, key `key` then decodes to the saved records; no other key changes; a failing write leaves localStorage exactly as it was |
| `StorageModel.FallbackLoad` | services/storage-service.ts:141-149 | the decoded value when the key holds parseable text, `dflt` when the key is absent or the text does not parse |
| `StorageModel.SyncLoad` | services/storage-service.ts:208-221 | an absent key or an empty string gives `[]`; parseable text gives its records; the call throws exactly when the text is non-empty and does not parse |
| `StorageProperties.OpenOutcomeIsCached` | services/storage-service.ts:23-26 | once the first call has decided the open outcome, no later save, load, version set-up or clear changes it |
| `StorageProperties.FailedOpenIsFinal` | services/storage-service.ts:24 | with a failed open cached, no operation touches the database, a load returns the default after removing its fallback key, and clear changes nothing |
| `StorageProperties.UpgradeIdempotent` | services/storage-service.ts:48-63 | running the upgrade twice equals running it once |
| `StorageProperties.OpenPreservesValid` | services/storage-service.ts:33-64 | opening keeps the invariant, and an opened database has all four stores |
| `StorageProperties.ReloadPreservesValid` | services/storage-service.ts:21 | a page load keeps the invariant |
| `StorageProperties.SavePreservesValid` | services/storage-service.ts:71-98 | a save keeps the invariant: a store never ends up with two records of one id |
| `StorageProperties.LoadPreservesValid` | services/storage-service.ts:101-130 | a load keeps the invariant |
| `StorageProperties.InitVersionPreservesValid` | services/storage-service.ts:184-190 | setting up the version never creates a second version record |
| `StorageProperties.ClearStoresFrame` | services/storage-service.ts:229-233 | the clearing loop keeps the set of stores and leaves each store either unchanged or empty |
| `StorageProperties.ClearPreservesValid` | services/storage-service.ts:224-242 | clearing keeps the invariant |
| `StorageProperties.SaveTierChoice` | services/storage-service.ts:71-98 | localStorage changes only when the store is unreachable (open failed or transaction refused); then the database is untouched, the save resolves, and, when localStorage accepts the write, the key decodes to the data, every other key is kept, and a failing write leaves localStorage unchanged; it rejects exactly on a duplicate id or failed commit, and then changes nothing; otherwise the store holds exactly `data` and no other store or fallback key changes |
| `StorageProperties.LoadOutcomes` | services/storage-service.ts:101-130 | a load never changes the database; it can only remove fallback key `s`; it returns either `dflt` or the store's non-empty contents; it rejects exactly when the store is reachable and `getAll` fails, and then neither tier changes beyond the open |
| `StorageProperties.LoadReachable` | services/storage-service.ts:109-116 | on a reachable store whose `getAll` succeeds, non-empty contents are returned as they are and localStorage is untouched; an empty store gives `dflt` and removes fallback key `s`; the database never changes |
| `StorageProperties.LoadUnreachable` | services/storage-service.ts:123-129 | when the open failed or the transaction was refused, a load returns `dflt`, removes fallback key `s` and changes nothing else |
| `StorageProperties.LoadIgnoresFallback` | services/storage-service.ts:101-130 | what a load returns does not depend on localStorage |
| `StorageProperties.RoundTrip` | services/storage-service.ts:74-86 | with the database reachable, a save resolves and the next load returns the saved records; an empty save reads back as the default and drops the fallback key |
| `StorageProperties.ReplaceNotMerge` | services/storage-service.ts:77-83 | after two saves a load returns only the second collection |
| `StorageProperties.OutageSaveThenLoad` | services/storage-service.ts:92-97 | with the open failed, a save stores the encoded data in localStorage, yet a load in the same outage returns the default and deletes that copy |
| `StorageProperties.VersionMarkerWrittenOnce` | services/storage-service.ts:184-200 | an existing version record is never changed, and neither is a non-empty `app_version` fallback value |
| `StorageProperties.VersionFallbackWritten` | services/storage-service.ts:192-200 | when the version store cannot be reached, localStorage holds no version and `setItem` succeeds, `app_version` becomes `"1.0.0"` and the database stays as the open left it |
| `StorageProperties.VersionReachableAdds` | services/storage-service.ts:184-190 | on a reachable version store with no marker, whose get and commit succeed, exactly the record `{id: "version", value: "1.0.0"}` is appended and nothing else changes |
| `StorageProperties.VersionReachableKeepsFallback` | services/storage-service.ts:178-191 | with the version store reachable, localStorage is left unchanged |
| `StorageProperties.VersionMarkerPresent` | services/storage-service.ts:184-190 | with the database reachable, the version store afterwards holds a record with id `"version"`, and only one |
| `StorageProperties.InitVersionIdempotent` | services/storage-service.ts:177-205 | setting up the version twice equals setting it up once |
| `StorageProperties.VersionMarkerSurvivesReload` | services/storage-service.ts:177-191 | once the marker is written, setting up the version on a later page load leaves the database unchanged |
| `StorageProperties.ClearStoresAll` | services/storage-service.ts:229-233 | when every transaction starts, the loop does not throw, and every store whose commit succeeds ends up empty |
| `StorageProperties.ClearEmptiesBothTiers` | services/storage-service.ts:224-238 | after a successful open with every transaction starting and committing, all four stores are empty and all four fallback keys are gone |
| `StorageProperties.ClearFailFast` | services/storage-service.ts:225-241 | when the open fails, neither tier changes |
| `StorageProperties.FallbackRoundTrip` | services/storage-service.ts:133-149 | what the fallback save writes, the fallback loader and the sync loaders read back |
| `StorageProperties.VersionStringIsNotJson` | services/storage-service.ts:199 | the plain version string under `app_version` is not JSON, so a sync loader pointed at it would throw |
| `StorageService.ClearAndAddAll` | services/storage-service.ts:77-83 | clearing a store and adding each record fails exactly when two records share an id; otherwise the store holds exactly the records, in order |
| `StorageService.Storage.constructor` | services/storage-service.ts:21 | a fresh profile: nothing opened, no database, empty localStorage |
| `StorageService.Storage.Reload` | services/storage-service.ts:21 | resets the cached open outcome only |
| `StorageService.Storage.UpgradeSchema` | services/storage-service.ts:45-64 | the stores become `Upgraded` of the old stores |
| `StorageService.Storage.InitDatabase` | services/storage-service.ts:23-68 | the new state is `Open` of the old one; returns whether the cached outcome is success; keeps the invariant |
| `StorageService.Storage.FallbackSaveToLocalStorage` | services/storage-service.ts:133-139 | localStorage becomes `FallbackWrite` of the old one |
| `StorageService.Storage.SaveData` | services/storage-service.ts:71-98 | new state and outcome are those of `Save`; keeps the invariant |
| `StorageService.Storage.LoadData` | services/storage-service.ts:101-130 | new state and outcome are those of `Load`; keeps the invariant |
| `StorageService.Storage.SavePedidos` | services/storage-service.ts:152-154 | a save on store `pedidos` |
| `StorageService.Storage.LoadPedidos` | services/storage-service.ts:156-158 | a load on store `pedidos` with default `[]` |
| `StorageService.Storage.SaveTransacoes` | services/storage-service.ts:160-162 | a save on store `transacoes` |
| `StorageService.Storage.LoadTransacoes` | services/storage-service.ts:164-166 | a load on store `transacoes` with default `[]` |
| `StorageService.Storage.SaveContatos` | services/storage-service.ts:168-170 | a save on store `contatos` |
| `StorageService.Storage.LoadContatos` | services/storage-service.ts:172-174 | a load on store `contatos` with default `[]` |
| `StorageService.Storage.InitializeAppVersion` | services/storage-service.ts:177-205 | the new state is that of `InitVersion`; keeps the invariant |
| `StorageService.Storage.SyncLoadPedidos` | services/storage-service.ts:208-211 | an absent key or an empty string gives `[]`; parseable text gives its records; throws exactly on non-empty text that does not parse |
| `StorageService.Storage.SyncLoadTransacoes` | services/storage-service.ts:213-216 | the same for key `transacoes` |
| `StorageService.Storage.SyncLoadContatos` | services/storage-service.ts:218-221 | the same for key `contatos` |
| `StorageService.Storage.ClearAllData` | services/storage-service.ts:224-242 | the new state is that of `Clear`: stores cleared in declaration order until a transaction is refused, and fallback keys removed only if none was refused; keeps the invariant |
| `StorageScenarios.FirstVisitRoundTrip` | services/storage-service.ts:152-158 | on a fresh profile with a working browser, saving orders and loading them returns those orders |
| `StorageScenarios.OutageLosesFallbackCopy` | services/storage-service.ts:123-129 | without IndexedDB, saved orders are visible to `syncLoadPedidos`; then `loadPedidos` returns `[]`, and afterwards the sync loader returns `[]` too |
| `StorageScenarios.VersionSetUpOnEveryLoad` | services/storage-service.ts:184-190 | setting up the version on two page loads leaves exactly one marker record |
| `StorageScenarios.SaveThenClear` | services/storage-service.ts:224-238 | after saves and a clear, loading orders gives `[]` and the sync contacts loader gives `[]` |

## Left out

- Promise scheduling and interleaving. The model has no concurrent calls, and it treats each asynchronous call as finishing before the next one starts.
- `InitializeAppVersion`: the add is applied at once. In the source the promise resolves before the transaction that adds the marker commits.
- A transaction that aborts without an `error` event. Its save promise would never settle; the model rejects instead.
- The `blocked` and `versionchange` events of IndexedDB, and a failing upgrade handler. Both count as a failed open.
- Records with a missing or invalid `id`. In the source, `store.add` throws synchronously on such a record and the save falls back to localStorage. The requests already queued still commit: the clear, and the adds of the records before the bad one, so the store keeps that prefix of the data. Every modelled record has a string `id`.
- Record order. IndexedDB's `getAll` returns records in key order; the model keeps them in insertion order.
- `JSON.stringify` and `JSON.parse`. They are modelled by a canonical encoding, and text in any other form reads as a parse error. Escaping of control characters and the parsing of other JSON values (numbers, objects, whitespace) are not modelled.
- `localStorage.getItem` and `removeItem` throwing (for example a `SecurityError`). Only a failing `setItem` is modelled.
- `console.error` logging.
- The `StorageService` re-export object (lines 245-260).
- The database name `pedidos-app-db` passed to `indexedDB.open`. The model has a single database, so it leaves the name out.
- The `Pedido`, `Transacao` and `Contato` record types. These types are not part of this model; a generic record with an `id` stands in for them.
- `public/sw.js` and the UI files (`app/layout.tsx`, `app/page.tsx`, `components/footer.tsx`, `components/pedido-search.tsx`): routing, markup and service-worker caching.
