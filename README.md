# YandexProvider, modelled in Dafny

This project models the core of the geoclue position provider
`YandexProvider` (plugin/yandexprovider.cpp). The provider is a
single-threaded, event-driven object that estimates the device's position
from the mobile cells it can see. The model covers:

- **Client sessions.** `m_watchedServices` holds a reference count and a
  requested update interval per D-Bus client. It is driven by
  `AddReference`, `RemoveReference`, `serviceUnregistered` and `SetOptions`.
  `minimumRequestedUpdateInterval` derives the recompute interval from it.
- **The positioning gate.** `getEnabled` derives flags from the location
  settings. `updatePositioningEnabled` opens or closes the gate.
  `startPositioningIfNeeded` and `stopPositioningIfNeeded` start and stop
  positioning.
- **The three timers in `timerEvent`.** The idle timer quits the process.
  The fix-lost timer falls back to Acquiring. The recalculate timer either
  recomputes or republishes the current fix.
- **The cell pipeline.** `seenCellIds` turns observed cells into dataset
  keys. `updateLocationFromCells` resolves the keys through a positive and a
  negative cache in front of `searchForCellIdLocation`. It then builds a
  weighted estimate with an accuracy heuristic, and keeps a recent, more
  accurate fix for up to 120 s.
- **Publication.** `setLocation` tracks the current and last fix.
  `setStatus` announces only real status changes.
- **The online callbacks.** `onlineLocationFound`, `onlineLocationError` and
  `onlineWlanChanged`, and `cellularNetworkRegistrationChanged`.

The files are:

- `basics.dfy`: `Option` and the fixed-width integers.
- `settings.dfy`: the settings snapshot and `getEnabled`.
- `sessions.dfy`: the session registry and the interval.
- `cells.dfy`: cell normalisation and `seenCellIds`.
- `shards.dfy`: the sharded dataset and `searchForCellIdLocation`.
- `cache.dfy`: the two caches.
- `estimation.dfy`: the offline estimate and the supersession rule.
- `provider.dfy`: the `YandexProvider` class and its handlers, and the
  value-level account of what they publish.

The class keeps the source's fields and mutates them the way the handlers
do. Every handler is proved against value-level functions:

- `AfterSetStatus` and `AfterSetLocation` describe publication.
- `OfflineResult` and `Recalculate` describe the positioning engine.
- `RecalculateTimerStep` describes the recalculate timer.
- `AfterAddReference` and `AfterRemoveReference` describe the registry.

Lemmas then prove the invariants those functions keep:

- The caches agree with the dataset, stay disjoint, only grow, and no key is
  searched twice.
- Every published fix with a timestamp has an accuracy.
- The emitted status signals form a change-only history that ends in the
  current status.
- Every registered client holds a reference.
- The idle timer runs exactly while no client is registered, until the
  process quits.
- Positioning runs exactly when it is enabled and some client is registered,
  and then the recalculate timer runs at an interval of at least 10 s.

## Model

| member | source | states |
|---|---|---|
| Basics.ToUint16 | plugin/yandexprovider.cpp:384-385 | Storing a country or network code in a quint16 keeps every value that fits, and otherwise wraps modulo 2^16. |
| Basics.ToUint32 | plugin/yandexprovider.cpp:393-398 | The static_cast to quint32 of a location code or cell id keeps every value that fits, and otherwise wraps modulo 2^32. |
| Settings.GetEnabled | plugin/yandexprovider.cpp:698-716 | Positioning is on only when `location/enabled` is true. Cell positioning needs positioning and one of the two MLS keys. Online positioning needs cell positioning and the online key. Each data source is allowed unless its key is false. All of these hold in both directions. |
| Settings.GateIsCellPositioning | plugin/yandexprovider.cpp:606-607 | The gate `positioningEnabled && cellPositioningEnabled` equals cell positioning, and it is closed unless `location/enabled` is true. |
| Sessions.AddReferenceEffect | plugin/yandexprovider.cpp:190-192 | AddReference registers the caller. It raises the caller's count by exactly one, from 0 for a new entry, keeps the caller's interval, and leaves every other entry alone. |
| Sessions.RemoveReferenceEffect | plugin/yandexprovider.cpp:205-214 | RemoveReference never registers a client and leaves every other client's entry alone. |
| Sessions.AddKeepsActive | plugin/yandexprovider.cpp:192 | After AddReference every registered client still holds a positive count. |
| Sessions.RemoveKeepsActive | plugin/yandexprovider.cpp:207-214 | A count never drops below 1 while its entry stays. The entry is removed exactly when its count was 1. A count above 1 drops by exactly one. |
| Sessions.RemoveUnknownClient | plugin/yandexprovider.cpp:207-214 | RemoveReference from an unknown caller inserts a default entry and removes it again, so the registry is unchanged. |
| Sessions.RemoveUndoesAdd | plugin/yandexprovider.cpp:184-222 | RemoveReference after AddReference from the same client restores the registry. |
| Sessions.EffectiveIntervalUnique | plugin/yandexprovider.cpp:718-740 | At most one value meets the characterisation of the recompute interval. |
| Sessions.SmallestRequest | plugin/yandexprovider.cpp:720-734 | The running minimum is at most every interval requested by an active client, and it is UINT_MAX or one of those intervals. |
| Sessions.EffectiveIntervalIsEffective | plugin/yandexprovider.cpp:718-740 | The recompute interval is at least 10 s. It is at most every requested interval raised to 10 s, and equal to one of them. It is exactly 10 s when no active client requests an interval. |
| Sessions.MinimumRequestedUpdateInterval | plugin/yandexprovider.cpp:718-740 | The loop skips clients with count ≤ 0 and interval 0, and returns the effective interval. The result lies in [10000, UINT_MAX). |
| CellData.CellTypeOf | plugin/yandexprovider.cpp:386-392 | LTE maps to LTE and GSM maps to GSM. Everything else, WCDMA included, maps to UMTS. |
| CellData.UnknownCountryCodeWraps | plugin/yandexprovider.cpp:384-395 | An unknown country code (INT_MAX) wraps to 65535, not 0, so a cell with a known cid is still keyed. |
| CellData.UsableIds | plugin/yandexprovider.cpp:393-405 | The usable observations carry exactly the keys of the observed cells that have one. |
| CellData.FirstOccurrencesIds | plugin/yandexprovider.cpp:406-419 | De-duplication loses no key. |
| CellData.FirstOccurrencesDistinct | plugin/yandexprovider.cpp:406-419 | After de-duplication no two cells share a key. |
| CellData.FirstOccurrencesKeepsFirst | plugin/yandexprovider.cpp:406-419 | A cell is kept exactly when it is the first one in the list with its key. |
| CellData.SeenCellIds | plugin/yandexprovider.cpp:370-422 | The loop returns nothing when cell data is not allowed. Otherwise it keys each cell by (lac, cid) when cid is known and mcc ≠ 0, else by (tac, ci) under the same conditions, else drops it. It keeps the first cell per key, in observer order. |
| CellData.SeenCellsKeys | plugin/yandexprovider.cpp:370-422 | The cells seenCellIds returns have distinct keys, and those keys are exactly the usable observed keys, or none when cell data is not allowed. |
| Shards.Decimal | plugin/yandexprovider.cpp:142 | QString::number writes at least one digit and only digits. |
| Shards.DecimalRoundTrip | plugin/yandexprovider.cpp:142 | Reading the decimal text back gives the location code. |
| Shards.LeadingDigitZero | plugin/yandexprovider.cpp:142 | The first digit is '0' only for location code 0. |
| Shards.LeadingDigitIsFirst | plugin/yandexprovider.cpp:142 | `QString::number(locationCode).at(0)` is the leading decimal digit, which selects the shard directory. |
| Shards.LookupIsFirstAnswer | plugin/yandexprovider.cpp:144-175 | A key is found exactly when some file with a matching path and a valid header holds it. The answer is the location in the first such file. |
| Shards.SkippedFileIrrelevant | plugin/yandexprovider.cpp:146-160 | A file whose path does not match, or whose magic or version is wrong, can be removed without changing any search for the key. |
| Shards.SearchForCellIdLocation | plugin/yandexprovider.cpp:138-182 | The search loop selects files ending in `/<digit>/mlsdb.data` case-insensitively, skips a magic other than 0xc710cdb and a version other than 3, and returns the first file's answer. It finds a location exactly when some file answers. |
| CellCache.EmptyCacheAgrees | plugin/yandexprovider.cpp:424-447 | The empty caches agree with any dataset. |
| CellCache.CacheStepAgrees | plugin/yandexprovider.cpp:429-447 | Through caches that agree with the dataset, every key gets the dataset's answer. A lookup keeps the caches in agreement and adds only the looked-up key. It searches exactly when the key was in neither cache. |
| CellCache.CacheAfterAgrees | plugin/yandexprovider.cpp:429-451 | Looking up a cell list keeps the caches in agreement and adds exactly the cells' keys. |
| CellCache.StepRetains | plugin/yandexprovider.cpp:431-446 | One lookup never drops or changes a cached location, a cached absence or a searched key. |
| CellCache.CacheAfterGrows | plugin/yandexprovider.cpp:429-451 | A whole pass never drops or changes a cached entry: both caches only grow. |
| CellCache.CacheAfterSearches | plugin/yandexprovider.cpp:429-451 | After a pass, the keys searched so far are those searched before plus the cells' keys. |
| CellCache.SearchedAtMostOnce | plugin/yandexprovider.cpp:431-441 | A key has been searched exactly when it is cached, so a lookup that searches the dataset does so for a key never searched before. |
| CellCache.CachesDisjoint | plugin/yandexprovider.cpp:431-443 | The positive and negative caches never share a key. |
| Estimation.ResolvedIsLocated | plugin/yandexprovider.cpp:427-451 | cellLocations holds exactly the cells' keys that the dataset holds, each with the dataset's location. |
| Estimation.TotalIsSumOfSamples | plugin/yandexprovider.cpp:450-470 | totalSignalStrength is the sum of the averaged samples' strengths, so for a nonzero total the weights sum to one. |
| Estimation.SampleCount | plugin/yandexprovider.cpp:449-479 | For distinct keys there is one sample per resolved cell, so the accuracy counts exactly the averaged cells. |
| Estimation.CollectSamples | plugin/yandexprovider.cpp:467-479 | The averaging loop takes one sample per resolved cell, in list order. |
| Estimation.EstimatedAccuracy | plugin/yandexprovider.cpp:485-486 | The accuracy is max(2500, 10000 − 1000·n): always in [2500, 10000], at most 9000 for n ≥ 1, exactly 10000 − 1000·n up to 7 cells and 2500 from 8 cells on. |
| Estimation.AccuracyMonotone | plugin/yandexprovider.cpp:485-486 | More resolved cells never make the claimed accuracy worse. |
| Estimation.EstimateAbsentIffNothingResolves | plugin/yandexprovider.cpp:453-455 | There is no candidate fix exactly when no observed cell is in the dataset. |
| Estimation.EstimateAccuracyRange | plugin/yandexprovider.cpp:481-491 | A candidate is stamped now and claims a horizontal accuracy in [2500, 9000]. |
| Estimation.EstimateOneCell | plugin/yandexprovider.cpp:456-491 | One resolved cell gives its own location as the only sample, at 9000 m. |
| Estimation.Preferred | plugin/yandexprovider.cpp:493-508 | The published fix is the current one or the candidate. The current one wins exactly when it has a timestamp, is younger than 120 s and is strictly more accurate. |
| Provider.ChangesOnlyNeighbours | plugin/yandexprovider.cpp:685-692 | The change-only history means that no two neighbouring announced statuses are equal. |
| Provider.HistoryExtends | plugin/yandexprovider.cpp:685-692 | A position signal that keeps the status, or a status signal announcing a new status, keeps the change-only status history. |
| Provider.AfterSetStatus | plugin/yandexprovider.cpp:685-692 | The status becomes s. StatusChanged is appended exactly when s differs from the old status, and nothing else changes. |
| Provider.SetStatusKeepsHistory | plugin/yandexprovider.cpp:685-692 | setStatus keeps the history: no two neighbouring announced statuses are equal, and the last one is the current status. |
| Provider.AfterSetLocation | plugin/yandexprovider.cpp:511-529 | The fix becomes current and is announced. A timestamped fix makes the status Available, re-arms the 30 s fix-lost timer and moves the old fix to last. A fix without a timestamp resets last and keeps status and timer. The signal log keeps every earlier entry and gains StatusChanged(Available) when a timestamped fix changes the status, then PositionChanged. |
| Provider.SetLocationKeepsHistory | plugin/yandexprovider.cpp:511-529 | setLocation keeps the status history. |
| Provider.RepublishAnnouncesNoStatus | plugin/yandexprovider.cpp:305-307 | Republishing while Available announces no status change. |
| Provider.OfflineOutcomeKeepsValid | plugin/yandexprovider.cpp:481-508 | The offline outcome keeps every timestamped current fix with an accuracy. |
| Provider.OfflineOutcomeKeepsHistory | plugin/yandexprovider.cpp:453-508 | The offline outcome keeps the status history. |
| Provider.AfterStop | plugin/yandexprovider.cpp:678-682 | Stopping makes the status Unavailable and stops the fix-lost timer, keeps both fixes, and appends StatusChanged(Unavailable) to the log exactly when the status changes. |
| Provider.StopKeepsHistory | plugin/yandexprovider.cpp:678-682 | Stopping keeps the status history. |
| Provider.AfterFixLost | plugin/yandexprovider.cpp:291-293 | Fix-lost expiry stops the timer and makes the status Acquiring, keeping both fixes. It appends StatusChanged(Acquiring) to the log exactly when the status changes. |
| Provider.FixLostKeepsHistory | plugin/yandexprovider.cpp:291-293 | Fix-lost expiry keeps the status history. |
| Provider.OfflineResultValid | plugin/yandexprovider.cpp:424-509 | updateLocationFromCells keeps the caches in agreement with the dataset and the published state valid. Afterwards exactly the keys cached before plus the cells' keys are cached. |
| Provider.RecalculateValid | plugin/yandexprovider.cpp:314-338 | calculatePositionAndEmitLocation, online or offline, keeps the caches in agreement and the published state valid. |
| Provider.RecalculateKeepsHistory | plugin/yandexprovider.cpp:314-338 | A recomputation keeps the status history. |
| Provider.RecalculateTimerKeepsHistory | plugin/yandexprovider.cpp:294-308 | Every outcome of a recalculate timer event keeps the status history. |
| Provider.DisableKeepsHistory | plugin/yandexprovider.cpp:616-621 | Publishing the empty fix and then stopping keeps the status history. |
| Provider.YandexProvider.constructor | plugin/yandexprovider.cpp:79-129 | The new provider has no client, the idle timer armed, status Unavailable, no fix, empty caches, the gate and the four online and data-source flags as read from the settings, no last fix, no previous query, nothing searched and no quit requested. The cell-change flag is set exactly when positioning is enabled. |
| Provider.YandexProvider.SetStatus | plugin/yandexprovider.cpp:685-692 | The published state becomes AfterSetStatus of the old one, and no other field changes. |
| Provider.YandexProvider.SetLocation | plugin/yandexprovider.cpp:511-529 | The published state becomes AfterSetLocation of the old one, and no other field changes. |
| Provider.YandexProvider.CachedLocation | plugin/yandexprovider.cpp:430-447 | One cache step returns the dataset's answer. A positive hit or a negative hit answers without a search. A miss searches once and lands in exactly one cache. The caches keep agreeing. |
| Provider.YandexProvider.ResolveCells | plugin/yandexprovider.cpp:427-451 | The first loop leaves the caches as CacheAfter. It returns the resolved keys with their locations and the sum of their strengths. |
| Provider.YandexProvider.UpdateLocationFromCells | plugin/yandexprovider.cpp:424-509 | The state becomes OfflineResult: the caches after the pass, and nothing published if no cell resolves, else the preferred of the current fix and the estimate. |
| Provider.YandexProvider.CalculatePositionAndEmitLocation | plugin/yandexprovider.cpp:314-338 | An accepted online query is recorded with nothing published. Otherwise the offline estimate runs over the seen cells (Recalculate). |
| Provider.YandexProvider.StartRecalculateTimer | plugin/yandexprovider.cpp:664-665 | The recalculate timer runs at the effective interval, which is at least 10 s. |
| Provider.YandexProvider.MarkStarted | plugin/yandexprovider.cpp:659-662 | The idle timer stops and positioning is marked started. |
| Provider.YandexProvider.StartPositioningIfNeeded | plugin/yandexprovider.cpp:645-666 | It starts only if not started, some client is registered and positioning is enabled. Then the idle timer stops, a position is computed at once and the recalculate timer runs at the effective interval. Otherwise nothing changes. |
| Provider.YandexProvider.StopPositioningIfNeeded | plugin/yandexprovider.cpp:668-683 | It stops only if started and either disabled or without clients. Then status is Unavailable and both the fix-lost and recalculate timers stop. Otherwise nothing changes. |
| Provider.YandexProvider.AddReference | plugin/yandexprovider.cpp:184-199 | The registry becomes AfterAddReference, the idle timer stops, and positioning starts if enabled and not started. The invariants hold. |
| Provider.YandexProvider.RemoveReference | plugin/yandexprovider.cpp:201-222 | The registry becomes AfterRemoveReference. The idle timer is armed exactly when no client is left, and then positioning stops. The invariants hold. |
| Provider.YandexProvider.ServiceUnregistered | plugin/yandexprovider.cpp:531-541 | The client's entry goes whatever its count. The idle timer is armed exactly when no client is left, and then positioning stops. |
| Provider.YandexProvider.SetOptions | plugin/yandexprovider.cpp:235-253 | A caller without an entry, or an option map without UpdateInterval, changes nothing. Otherwise the caller's interval is stored and the recalculate timer restarts at the effective interval, even when positioning is not started. |
| Provider.YandexProvider.UpdatePositioningEnabled | plugin/yandexprovider.cpp:543-622 | The flags become those of the settings. An unchanged gate changes nothing else. An opening gate starts positioning if a client is registered. A closing gate publishes the empty fix and then stops positioning. |
| Provider.YandexProvider.StoreFlags | plugin/yandexprovider.cpp:552-600 | The online, cell-data and WLAN-data flags are stored as read. |
| Provider.YandexProvider.EnablePositioning | plugin/yandexprovider.cpp:612-615 | The gate opens, and positioning starts exactly when some client is registered. |
| Provider.YandexProvider.DisablePositioning | plugin/yandexprovider.cpp:616-621 | The gate closes, the empty fix is published, and positioning stops if it ran. |
| Provider.YandexProvider.TimerEvent | plugin/yandexprovider.cpp:285-312 | An event for a stopped or unknown timer changes nothing. The idle timer stops and quits. The fix-lost timer stops and becomes Acquiring. The recalculate timer follows RecalculateTimerStep. The invariants hold. |
| Provider.YandexProvider.IdleTimeout | plugin/yandexprovider.cpp:287-290 | The idle timer stops and the process quits. Nothing else changes. |
| Provider.YandexProvider.FixLostTimeout | plugin/yandexprovider.cpp:291-293 | The published state becomes AfterFixLost of the old one. |
| Provider.YandexProvider.RecalculateTimeout | plugin/yandexprovider.cpp:294-308 | Disabled positioning changes nothing. With no fix, a fix older than 30 s, or a pending cell or WLAN change, it clears both flags and recomputes. Otherwise it republishes the current fix with the flags untouched. |
| Provider.YandexProvider.Recompute | plugin/yandexprovider.cpp:301-304 | Both change flags are cleared and the state becomes Recalculate of the old one. |
| Provider.YandexProvider.OnlineWlanChanged | plugin/yandexprovider.cpp:340-343 | The WLAN-change flag is set and nothing else changes. |
| Provider.YandexProvider.CellularNetworkRegistrationChanged | plugin/yandexprovider.cpp:624-627 | The cell-change flag is set and nothing else changes. |
| Provider.YandexProvider.OnlineLocationFound | plugin/yandexprovider.cpp:345-359 | The online fix, stamped now, is published through setLocation with no supersession check. |
| Provider.YandexProvider.OnlineLocationError | plugin/yandexprovider.cpp:361-368 | It falls back to the offline estimate over the currently seen cells. |
| Provider.StartTwice | plugin/yandexprovider.cpp:645-666 | startPositioningIfNeeded is idempotent: two calls have the effect of one. |
| Provider.StopTwice | plugin/yandexprovider.cpp:668-683 | stopPositioningIfNeeded is idempotent: two calls have the effect of one. |
| Provider.ReferenceRoundTrip | plugin/yandexprovider.cpp:184-222 | Two references taken and released by one client on an idle provider leave no client, the idle timer armed and positioning stopped. |

## Left out

- D-Bus: the adaptors, marshalling, `calledFromDBus`/`qFatal` checks, the single-instance guard, the service watcher's add and remove calls, and `GetProviderInfo`. The caller's bus name is an explicit `ClientId` parameter.
- `GetPosition` and `GetStatus` are plain reads of the current fix and status. They are not modelled, and neither is the NaN-based field mask of `emitLocationChanged`. A `PositionChanged` entry in the signal log stands for the emission.
- File I/O in `searchForCellIdLocation`: directory traversal, opening files and `QDataStream` decoding. The dataset is a sequence of already parsed files (path, magic, version, cell map) in traversal order. A file that is empty or unreadable is a file whose map does not hold the key.
- `QSettings` and the file-system watcher: the settings are a snapshot of optional booleans, and a settings change is a call to `UpdatePositioningEnabled`.
- The cell watcher object (`m_cellWatcher`) and its creation and deletion in `updatePositioningEnabled`. The cells it reports are an input, `Environment.visibleCells`.
- The online locator (`YandexOnlineLocator`) is foreign code. Whether `findLocation` accepts the query is an input, `Environment.onlineQueryAccepted`. `previousQuery` records the cells of the last accepted query instead of the locator's query pair. `setWlanDataAllowed` is not modelled.
- Floating point: the weighted latitude/longitude average is not computed. A triangulated fix records its samples and the total strength. The source has no guard for a total strength of zero; the model does not add one.
- Estimate: the claimed accuracy is a real number built from the integer heuristic; the double conversion is not modelled.
- Clocks, timers and quitting: the clock is `Environment.now`. Each timer is `Stopped` or `Running(interval)`, and `qApp->quit()` sets `quitRequested`. A timer event names which timer fired. Time passing is not modelled, so restarting a running timer with the same interval (`QBasicTimer::start` on an active timer) looks the same as leaving it running.
- Shards.SearchForCellIdLocation: the case-insensitive path match folds ASCII letters only, while `Qt::CaseInsensitive` folds Unicode case. A path such as `/1/mlſdb.data` (U+017F) is opened by the source but not by the model.
- Logging (`qDebug`, `qWarning`) and the unused `maxNeighborSignalStrength`. The latter is computed in `SeenCellIds` as in the source but never read.
- The repository's header is not part of this model. `ServiceData` is taken as an `int` reference count and a `quint32` interval, both starting at 0. A cell's signal strength is taken as `quint32`, and the cell observer's invalid value as INT_MAX.
- Provider.YandexProvider.constructor: the model arms the idle timer before reading the settings, while the source does so after. With no client registered, reading the settings never touches that timer, so the outcome is the same.
- The status history (every StatusChanged announces a new status, and the last one is the current status) is proved about the value-level functions every handler is specified by (`AfterSetStatus`, `AfterSetLocation`, `AfterStop`, `AfterFixLost`, `Recalculate`), not carried as a class invariant.
- `searched`, the keys searched in the dataset so far, is a ghost set kept beside the caches. It records the searches so that "no key is searched twice" can be stated.
- `StoreFlags`, `MarkStarted`, `Recompute`, `IdleTimeout`, `FixLostTimeout`, `EnablePositioning` and `DisablePositioning` group consecutive statements of one source function into a method. They keep the source's order.

## Behaviour worth noting

- Disabling positioning makes the status Unavailable only if positioning had started (plugin/yandexprovider.cpp:616-621, 668-683). Otherwise the empty fix is published and the status is kept, for example Available after a late online fix. `DisablePositioning` states both cases.
- RemoveReference from a client without an entry leaves the registry unchanged: `operator[]` inserts a default entry and removes it again, with no warning (plugin/yandexprovider.cpp:207-214, `RemoveUnknownClient`). With no client registered it still restarts the 30 s idle timer (plugin/yandexprovider.cpp:216-218), so such a call postpones the idle quit and, after an idle timeout, re-arms the timer (`YandexProvider.RemoveReference`).
- A client that requests an interval of UINT_MAX counts as requesting none, because UINT_MAX is the running minimum's start value (plugin/yandexprovider.cpp:720-737). If no other client requests an interval, the recompute interval is then 10 s (`Requests`, `EffectiveIntervalIsEffective`).
