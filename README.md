# GeoGame position estimation, modelled in Dafny

GeoGame is an Android app. It estimates the user's position from Bluetooth Low Energy beacons
and shows that estimate, together with the raw GPS fix, on a map. This project models the
position-estimation logic of `MainActivity`, without the Android, map and Bluetooth plumbing:

- **Reference index build** (`reference_index.dfy`, `MainActivity.LoadReferenceBeacons`).
  The app walks a fixed, ordered list of bundled beacon files. Inside a `try` it reads and
  parses each file, adds the response to the returned list and adds its `items` to the record
  list; an exception is logged and the loop moves on to the next file. The records are then
  keyed by `beaconUid`, and when two records share a uid the later one wins. A file read is
  given as a total function `readAsset: string -> Option<BeaconResponse>`: `Some` is a file
  that reads and parses to a well-formed response, `None` a file whose read or parse throws.
  Parse results that break Kotlin's non-null types are outside this outcome type (see
  "## Left out").
- **Per-batch resolution** (`ranging.dfy`, `MainActivity.CollectSamples`,
  `MainActivity.OnBeaconsRanged`). Each detected `(address, distance)` is looked up in the
  index, and misses are dropped. Three parallel lists (latitudes, longitudes, distances) are
  built in detection order. The estimator runs only when at least one beacon resolved.
- **Inverse-distance weighted average** (`position_estimator.dfy`). Each weight is
  `1 / max(d, 1e-6)`. The estimate is `Σ lat·w / Σ w` and `Σ lon·w / Σ w`. The loop of the
  source is `CalculatePosition`. It is proved equal to the recursive specification `Estimate`,
  and the convex-combination, single-sample and equal-distance properties are proved about
  `Estimate`.
- **Two start/stop flag machines** (class `Tracking.MainActivity`). `scanningBeacons` guards
  beacon ranging and monitoring. `locationUpdatesStarted` guards the fused-location
  subscription. A ghost event log records every registering and subscribing call into the
  beacon library and the location provider, with the three parser additions as one event, plus
  the error log lines of the loader. Calls that only obtain objects
  (`getInstanceForApplication`, the `Region` constructor, `setBeaconLayout`,
  `getRegionViewModel`) are not logged. The class invariant `Valid()` ties each flag to the
  subscription state that the log implies.

Behaviour of the code that the model keeps:

- The location flag is set at line 303, before the permission check at line 321. A start
  without permission therefore subscribes to nothing, yet it turns every later start into a no-op until a stop. The stop then
  removes a callback that was never registered (`StopContinuousLocationUpdates`,
  `StopAfterDeniedStart`).
- Every start of beacon scanning adds a new range notifier and three more parsers. Stop never
  removes them, so after a stop and a restart two notifiers process each batch
  (`RestartBeaconScanning`, `RangeNotifiers`).
- The range notifier (`MainActivity.kt:184-201`) never reads `scanningBeacons`, so a batch
  delivered after a stop is still processed. `OnBeaconsRanged` therefore has no precondition
  on the flags.
- The caller runs the estimator only on a non-empty batch (`MainActivity.kt:198`); on an empty
  input the estimator would compute `0.0 / 0.0` at line 158. The model makes a non-empty input
  a precondition of `Estimate` and `CalculatePosition`, and `OnBeaconsRanged` shows that the
  caller always meets it.

## Model

| member | source | states |
|---|---|---|
| `ReferenceIndex.Loaded` | app/src/main/java/com/example/geogame/presentation/ui/MainActivity.kt:114-118 | defines the responses of the files that read and parse, in file order, skipping the files whose read or parse throws; never more responses than files |
| `ReferenceIndex.Records` | app/src/main/java/com/example/geogame/presentation/ui/MainActivity.kt:119 | defines the flat record list: the `items` of each loaded response appended in order |
| `ReferenceIndex.AssociateBy` | app/src/main/java/com/example/geogame/presentation/ui/MainActivity.kt:125 | defines `associateBy { it.beaconUid }`: records are keyed by uid in list order, a later record overwriting an earlier one with the same uid; every key maps to one of the records, and that record carries the key as its uid |
| `ReferenceIndex.IndexOf` | app/src/main/java/com/example/geogame/presentation/ui/MainActivity.kt:114-125 | defines the index the loader installs: `AssociateBy` of the records of the loaded responses; every key maps to a record carrying that uid |
| `PositionEstimator.ClampDistance` | app/src/main/java/com/example/geogame/presentation/ui/MainActivity.kt:152 | defines `coerceAtLeast(1e-6)`: the clamped distance is at least 1e-6 and equals the distance whenever that is at least 1e-6 |
| `PositionEstimator.WeightedSum` | app/src/main/java/com/example/geogame/presentation/ui/MainActivity.kt:151-154 | defines the accumulated `Σ value·weight` over the samples, in index order |
| `PositionEstimator.TotalWeight` | app/src/main/java/com/example/geogame/presentation/ui/MainActivity.kt:151-155 | defines the accumulated `Σ weight` over the samples, in index order |
| `PositionEstimator.WeightedAverage` | app/src/main/java/com/example/geogame/presentation/ui/MainActivity.kt:158-159 | defines one coordinate of the result: the weighted sum divided by the total weight |
| `PositionEstimator.Estimate` | app/src/main/java/com/example/geogame/presentation/ui/MainActivity.kt:145-161 | defines the returned pair: the weighted average of the latitudes and of the longitudes |
| `Ranging.Known` | app/src/main/java/com/example/geogame/presentation/ui/MainActivity.kt:190-191 | defines the filter: a detection is kept if and only if the index exists and holds its Bluetooth address |
| `Ranging.SampleOf` | app/src/main/java/com/example/geogame/presentation/ui/MainActivity.kt:190-194 | defines the entry a kept detection adds: the indexed record's latitude and longitude with the detection's measured distance |
| `Ranging.Resolved` | app/src/main/java/com/example/geogame/presentation/ui/MainActivity.kt:189-196 | defines the samples of a batch: the entries of its kept detections, in detection order; never more samples than detections |
| `Ranging.Latitudes` | app/src/main/java/com/example/geogame/presentation/ui/MainActivity.kt:185-192 | defines the `lats` list: the latitudes of the samples, one per sample, in order |
| `Ranging.Longitudes` | app/src/main/java/com/example/geogame/presentation/ui/MainActivity.kt:186-193 | defines the `lons` list: the longitudes of the samples, one per sample, in order |
| `Ranging.Distances` | app/src/main/java/com/example/geogame/presentation/ui/MainActivity.kt:187-194 | defines the `dists` list: the measured distances of the samples, one per sample, in order |
| `ReferenceIndex.LoadedConcat` | app/src/main/java/com/example/geogame/presentation/ui/MainActivity.kt:114-119 | the loaded responses of a concatenated file list are those of the first part followed by those of the second: responses keep file order |
| `ReferenceIndex.LoadedMembership` | app/src/main/java/com/example/geogame/presentation/ui/MainActivity.kt:114-118 | a response is in the returned list if and only if some file reads and parses to it |
| `ReferenceIndex.FailedFileSkipped` | app/src/main/java/com/example/geogame/presentation/ui/MainActivity.kt:114-123 | a file whose read or parse fails contributes nothing: the responses and the index equal those obtained without that file, and the files after it are still loaded |
| `ReferenceIndex.RecordsConcat` | app/src/main/java/com/example/geogame/presentation/ui/MainActivity.kt:119 | flattening the items of concatenated response lists concatenates the flattened items |
| `ReferenceIndex.RecordsMembership` | app/src/main/java/com/example/geogame/presentation/ui/MainActivity.kt:119 | a record is in the flat list if and only if it is an item of one of the responses |
| `ReferenceIndex.AssociateByKeys` | app/src/main/java/com/example/geogame/presentation/ui/MainActivity.kt:125 | the index's key set is exactly the set of uids of the records |
| `ReferenceIndex.AssociateByLastWins` | app/src/main/java/com/example/geogame/presentation/ui/MainActivity.kt:125 | a record followed by no other record with its uid is the record the index holds for that uid (last write wins) |
| `ReferenceIndex.AssociateByConcat` | app/src/main/java/com/example/geogame/presentation/ui/MainActivity.kt:125 | indexing a concatenation equals the index of the first part overwritten by the index of the second |
| `ReferenceIndex.IndexOfConcat` | app/src/main/java/com/example/geogame/presentation/ui/MainActivity.kt:114-125 | the index over a file list equals the index over its first files overwritten by the index over the later files, so a duplicate uid in a later file replaces the earlier record |
| `ReferenceIndex.IndexKeys` | app/src/main/java/com/example/geogame/presentation/ui/MainActivity.kt:110-125 | a uid is a key of the index if and only if some file that reads and parses lists a record with that uid |
| `Tracking.LoadFailuresExact` | app/src/main/java/com/example/geogame/presentation/ui/MainActivity.kt:120-122 | the loader logs one line per file whose outcome is a failure and nothing else; for outcomes of this type, failing and loaded files together account for every file |
| `Tracking.MainActivity.LoadReferenceBeacons` | app/src/main/java/com/example/geogame/presentation/ui/MainActivity.kt:108-127 | the loop returns exactly the parsed responses in file order, installs the uid index of all their items, and appends exactly the failure log lines; the flags and the subscription state stay unchanged |
| `Tracking.MainActivity.constructor` | app/src/main/java/com/example/geogame/presentation/ui/MainActivity.kt:53-59 | a new activity has the seven reference files in order, no index and `scanningBeacons` cleared (lines 53-59), `locationUpdatesStarted` cleared (line 297), and no calls made |
| `PositionEstimator.Weight` | app/src/main/java/com/example/geogame/presentation/ui/MainActivity.kt:150-152 | every weight is strictly positive and at most 1e6; a distance of at least 1e-6 gets exactly its inverse, and anything at or below 1e-6 gets 1e6 |
| `PositionEstimator.TotalWeightBounds` | app/src/main/java/com/example/geogame/presentation/ui/MainActivity.kt:148-155 | the accumulated total weight is zero only for an empty input and is at most 1e6 per sample, so the final divisions are defined for every non-empty input |
| `PositionEstimator.CalculatePosition` | app/src/main/java/com/example/geogame/presentation/ui/MainActivity.kt:145-161 | the accumulation loop over the three lists yields exactly the specified weighted average of latitudes and of longitudes |
| `PositionEstimator.WeightedSumAbove` | app/src/main/java/com/example/geogame/presentation/ui/MainActivity.kt:151-155 | when every value is at least lo, the weighted sum is at least lo times the total weight |
| `PositionEstimator.WeightedSumBelow` | app/src/main/java/com/example/geogame/presentation/ui/MainActivity.kt:151-155 | when every value is at most hi, the weighted sum is at most hi times the total weight |
| `PositionEstimator.AverageBetween` | app/src/main/java/com/example/geogame/presentation/ui/MainActivity.kt:151-159 | a weighted average of values that all lie between lo and hi lies between lo and hi, whatever the distances |
| `PositionEstimator.AverageWithinBounds` | app/src/main/java/com/example/geogame/presentation/ui/MainActivity.kt:151-159 | a weighted average lies between the smallest and the largest averaged value |
| `PositionEstimator.EstimateWithinBounds` | app/src/main/java/com/example/geogame/presentation/ui/MainActivity.kt:145-159 | the estimated latitude lies between the minimum and maximum input latitudes, and the longitude likewise, for any distances |
| `PositionEstimator.SingleSample` | app/src/main/java/com/example/geogame/presentation/ui/MainActivity.kt:151-159 | with one sample the estimate is that sample's coordinates, whatever its distance |
| `PositionEstimator.WeightedSumUniform` | app/src/main/java/com/example/geogame/presentation/ui/MainActivity.kt:151-153 | with one common distance the weighted sum is the plain sum times the common weight |
| `PositionEstimator.TotalWeightUniform` | app/src/main/java/com/example/geogame/presentation/ui/MainActivity.kt:151-155 | with one common distance the total weight is the sample count times the common weight |
| `PositionEstimator.UniformAverageIsMean` | app/src/main/java/com/example/geogame/presentation/ui/MainActivity.kt:151-159 | with equal distances the weighted average is the arithmetic mean |
| `PositionEstimator.EqualDistancesGiveMean` | app/src/main/java/com/example/geogame/presentation/ui/MainActivity.kt:145-159 | with all distances equal the estimate is the arithmetic mean of the latitudes and of the longitudes |
| `PositionEstimator.MidpointExample` | app/src/main/java/com/example/geogame/presentation/ui/MainActivity.kt:145-159 | two beacons at (10, 10) and (20, 20), both 5 m away, give exactly (15, 15) |
| `PositionEstimator.ZeroDistanceDominates` | app/src/main/java/com/example/geogame/presentation/ui/MainActivity.kt:150-159 | a beacon at distance 0 is clamped to 1e-6 and weighs ten million times as much as one at 10 m: the estimate is (10000000·p1 + p2) / 10000001 per coordinate |
| `Ranging.Lookup` | app/src/main/java/com/example/geogame/presentation/ui/MainActivity.kt:190 | a lookup hits if and only if the index exists and holds the address, and then yields that address's record |
| `Ranging.ParallelListsAligned` | app/src/main/java/com/example/geogame/presentation/ui/MainActivity.kt:185-195 | entry i of the latitude, longitude and distance lists all describe the i-th resolved sample |
| `Ranging.ResolvedConcat` | app/src/main/java/com/example/geogame/presentation/ui/MainActivity.kt:189-196 | resolving a concatenated batch concatenates the resolutions, so samples keep detection order |
| `Ranging.ResolvedSingle` | app/src/main/java/com/example/geogame/presentation/ui/MainActivity.kt:190-195 | one detection yields its record's coordinates with its measured distance when its address is indexed, and nothing otherwise |
| `Ranging.ResolvedSound` | app/src/main/java/com/example/geogame/presentation/ui/MainActivity.kt:189-196 | every sample comes from a detection of the batch whose address is in the index |
| `Ranging.ResolvedComplete` | app/src/main/java/com/example/geogame/presentation/ui/MainActivity.kt:189-196 | every detection whose address is in the index yields a sample |
| `Ranging.ResolvedEmptyIff` | app/src/main/java/com/example/geogame/presentation/ui/MainActivity.kt:189-198 | a batch resolves to nothing if and only if none of its addresses is in the index |
| `Ranging.NoIndexResolvesNothing` | app/src/main/java/com/example/geogame/presentation/ui/MainActivity.kt:190 | before the index is built every detection is dropped |
| `Tracking.MainActivity.CollectSamples` | app/src/main/java/com/example/geogame/presentation/ui/MainActivity.kt:185-196 | the loop builds three equal-length lists whose entries are the latitude, longitude and distance of the resolved samples, in detection order |
| `Tracking.MainActivity.OnBeaconsRanged` | app/src/main/java/com/example/geogame/presentation/ui/MainActivity.kt:184-201 | a position is produced if and only if at least one detected beacon resolved; it is then the weighted estimate of the resolved samples and lies within their latitude and longitude ranges |
| `Tracking.ScanCallsSwitch` | app/src/main/java/com/example/geogame/presentation/ui/MainActivity.kt:171-213 | the calls of a scanning start leave ranging and monitoring on and register one notifier; the calls of a stop leave both off and register none |
| `Tracking.MainActivity.StartBeaconScanning` | app/src/main/java/com/example/geogame/presentation/ui/MainActivity.kt:164-205 | a no-op when already scanning; otherwise it sets the flag and makes the parser, observer, notifier, monitoring and ranging calls in order, adding one range notifier |
| `Tracking.MainActivity.StopBeaconScanning` | app/src/main/java/com/example/geogame/presentation/ui/MainActivity.kt:207-216 | a no-op when not scanning; otherwise it stops ranging and then monitoring and clears the flag. It unsubscribes only what is running, and it never removes a notifier |
| `Tracking.MainActivity.StartContinuousLocationUpdates` | app/src/main/java/com/example/geogame/presentation/ui/MainActivity.kt:301-326 | a no-op when the flag is set; otherwise it sets the flag and subscribes only when the permission is granted |
| `Tracking.MainActivity.StopContinuousLocationUpdates` | app/src/main/java/com/example/geogame/presentation/ui/MainActivity.kt:362-368 | a no-op when the flag is clear; otherwise it removes the callback and clears the flag, after which no subscription exists |
| `Tracking.StartLocationWithoutPermission` | app/src/main/java/com/example/geogame/presentation/ui/MainActivity.kt:301-325 | a start without permission followed by one with permission leaves the flag set and no subscription made |
| `Tracking.StopAfterDeniedStart` | app/src/main/java/com/example/geogame/presentation/ui/MainActivity.kt:362-368 | a start without permission followed by a stop logs exactly one callback removal and nothing else, so the removed callback was never registered, and the flag ends clear |
| `Tracking.RestartBeaconScanning` | app/src/main/java/com/example/geogame/presentation/ui/MainActivity.kt:164-213 | a stop before any start and a second start are no-ops, so stop, start, start, stop, stop, start makes exactly the calls of start, stop, start and leaves scanning on with two range notifiers registered |

## Left out

- Map rendering (`updateMapLocation`, `updateGpsMarker`, `vectorToBitmapDrawable`, `runOnUiThread`, `setViewpointCenterAsync`): these are UI calls into the map library. `OnBeaconsRanged` returns the position that would be drawn instead of drawing it.
- The location callback body (`onLocationResult`, lines 312-319): it only forwards the fix to `updateGpsMarker`, which is map rendering.
- Permission and Bluetooth handling (`checkPermissions`, `runApp`, the permission launchers, `showExplanation`, `checkBluetoothStatus`, `bluetoothReceiver`) and the start/stop button handlers: these are platform glue. The location permission enters as the `hasLocationPermission` parameter.
- Toasts and the region-state `Log.d`: these are user-visible messages with no effect on state.
- Asset I/O and Gson parsing: these are replaced by the `readAsset` outcome function.
- Tracking.MainActivity.LoadReferenceBeacons: Gson results that break Kotlin's non-null types are outside the `Option<BeaconResponse>` outcome. A file of `{}` parses to a response whose `items` is null: line 118 adds the response, line 119 throws, and line 121 logs the file, so it is both returned and logged; the index is unaffected. An empty file parses to a null response, which line 118 adds before line 119 throws and line 121 logs. A file such as `{"items":[null]}` loads without error, and then `associateBy` at line 125, outside the `try`, throws, so `loadReferenceBeacons` itself fails. The model promises nothing for these inputs.
- Tracking.LoadFailuresExact: holds only for outcomes of the modelled type. With a null `items` or a null response (see the previous line) a file is both returned and logged, so failing and loaded files then number one more than the files.
- The contents of the AltBeacon and fused-location calls: these are foreign libraries. Only the fact that each call was made, and its order, is recorded in the ghost log.
- The beacon data class file (`BeaconData.kt`) is not part of this model. A record carries only `beaconUid`, `latitude` and `longitude`, the fields the core reads.
- Concurrency between the ranging and GPS callbacks: each callback is modelled as one sequential call.
- PositionEstimator.CalculatePosition: computes over exact reals. It does not model IEEE-754 double rounding, or the NaN that an empty input would give.
- Tracking.MainActivity.OnBeaconsRanged: it models one registered notifier. When several notifiers are registered after restarts, the library calls each of them on the same batch, and each computes the same position.
