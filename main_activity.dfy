/**
 * The activity's position-tracking state: the reference index, the two start/stop flags, and a
 * ghost log of the calls it makes into the beacon library and the location provider.
 */
module Tracking {
  import opened BeaconTypes
  import opened ReferenceIndex
  import opened Ranging
  import opened PositionEstimator

  /** An external call the activity makes, or an error it logs. */
  datatype Event =
    | LoadFailed(file: string)      // a reference file could not be read or parsed
    | ParsersAdded                  // the three Eddystone layouts appended to the beacon parsers
    | RegionObserverAdded           // an observer on the all-beacons region state
    | RangeNotifierAdded            // a new range notifier handed to the beacon manager
    | MonitoringStarted
    | RangingStarted
    | RangingStopped
    | MonitoringStopped
    | LocationUpdatesRequested      // a fused-location subscription
    | LocationUpdatesRemoved        // removal of the location callback

  /** The calls a start of beacon scanning makes, in order. */
  const ScanStartCalls: seq<Event> :=
    [ParsersAdded, RegionObserverAdded, RangeNotifierAdded, MonitoringStarted, RangingStarted]

  /** The calls a stop of beacon scanning makes, in order. */
  const ScanStopCalls: seq<Event> := [RangingStopped, MonitoringStopped]

  /** Whether the last of the events `on` and `off` in the log is `on`. */
  ghost function Switched(events: seq<Event>, on: Event, off: Event): bool
  {
    if events == [] then false
    else
      var e := events[|events| - 1];
      if e == on then true
      else if e == off then false
      else Switched(events[..|events| - 1], on, off)
  }

  ghost function RangingActive(events: seq<Event>): bool
  {
    Switched(events, RangingStarted, RangingStopped)
  }

  ghost function MonitoringActive(events: seq<Event>): bool
  {
    Switched(events, MonitoringStarted, MonitoringStopped)
  }

  ghost function LocationSubscribed(events: seq<Event>): bool
  {
    Switched(events, LocationUpdatesRequested, LocationUpdatesRemoved)
  }

  /** How many range notifiers the log has registered; none is ever removed. */
  ghost function RangeNotifiers(events: seq<Event>): nat
  {
    if events == [] then 0
    else RangeNotifiers(events[..|events| - 1]) + (if events[|events| - 1] == RangeNotifierAdded then 1 else 0)
  }

  /** The log lines of a load: one per failing file, in file order. */
  function LoadFailures(files: seq<string>, read: string -> Option<BeaconResponse>): (log: seq<Event>)
  {
    if files == [] then []
    else
      var f := files[|files| - 1];
      LoadFailures(files[..|files| - 1], read) + (if read(f).None? then [LoadFailed(f)] else [])
  }

  lemma {:induction false} SwitchedAppend(events: seq<Event>, extra: seq<Event>, on: Event, off: Event)
    ensures Switched(events + extra, on, off)
         == if on in extra || off in extra then Switched(extra, on, off) else Switched(events, on, off)
  {
    if extra != [] {
      var n := |extra| - 1;
      assert (events + extra)[..|events + extra| - 1] == events + extra[..n];
      SwitchedAppend(events, extra[..n], on, off);
      assert extra == extra[..n] + [extra[n]];
    } else {
      assert events + extra == events;
    }
  }

  lemma {:induction false} RangeNotifiersAppend(events: seq<Event>, extra: seq<Event>)
    ensures RangeNotifiers(events + extra) == RangeNotifiers(events) + RangeNotifiers(extra)
  {
    if extra != [] {
      var n := |extra| - 1;
      assert (events + extra)[..|events + extra| - 1] == events + extra[..n];
      RangeNotifiersAppend(events, extra[..n]);
    } else {
      assert events + extra == events;
    }
  }

  /**
   * The load log holds one line per file whose read or parse fails, in file order, and
   * nothing else; every other file is loaded.
   */
  lemma {:induction false} LoadFailuresExact(files: seq<string>, read: string -> Option<BeaconResponse>)
    ensures |LoadFailures(files, read)| + |Loaded(files, read)| == |files|
    ensures forall e :: e in LoadFailures(files, read) <==> e.LoadFailed? && e.file in files && read(e.file).None?
  {
    if files != [] {
      LoadFailuresExact(files[..|files| - 1], read);
      assert files == files[..|files| - 1] + [files[|files| - 1]];
    }
  }

  /** Loading one more file extends the responses, the records and the log by that file's outcome. */
  lemma LoadStep(files: seq<string>, i: nat, read: string -> Option<BeaconResponse>)
    requires i < |files|
    ensures Loaded(files[..i + 1], read)
         == Loaded(files[..i], read) + (if read(files[i]).Some? then [read(files[i]).value] else [])
    ensures read(files[i]).Some? ==>
              Records(Loaded(files[..i + 1], read)) == Records(Loaded(files[..i], read)) + read(files[i]).value.items
    ensures LoadFailures(files[..i + 1], read)
         == LoadFailures(files[..i], read) + (if read(files[i]).None? then [LoadFailed(files[i])] else [])
  {
    assert files[..i + 1][..i] == files[..i];
    var prefix := Loaded(files[..i], read);
    if read(files[i]).Some? {
      var response := read(files[i]).value;
      assert (prefix + [response])[..|prefix|] == prefix;
    }
  }

  /** Logging load failures leaves the state of every subscription unchanged. */
  lemma LoadLogKeepsSwitches(events: seq<Event>, files: seq<string>, read: string -> Option<BeaconResponse>)
    ensures RangingActive(events + LoadFailures(files, read)) == RangingActive(events)
    ensures MonitoringActive(events + LoadFailures(files, read)) == MonitoringActive(events)
    ensures LocationSubscribed(events + LoadFailures(files, read)) == LocationSubscribed(events)
  {
    var log := LoadFailures(files, read);
    LoadFailuresExact(files, read);
    SwitchedAppend(events, log, RangingStarted, RangingStopped);
    SwitchedAppend(events, log, MonitoringStarted, MonitoringStopped);
    SwitchedAppend(events, log, LocationUpdatesRequested, LocationUpdatesRemoved);
  }

  lemma ScanCallsSwitch()
    ensures Switched(ScanStartCalls, RangingStarted, RangingStopped)
    ensures Switched(ScanStartCalls, MonitoringStarted, MonitoringStopped)
    ensures !Switched(ScanStopCalls, RangingStarted, RangingStopped)
    ensures !Switched(ScanStopCalls, MonitoringStarted, MonitoringStopped)
    ensures RangeNotifiers(ScanStartCalls) == 1 && RangeNotifiers(ScanStopCalls) == 0
  {
    var s := ScanStartCalls;
    assert s[..4] == [ParsersAdded, RegionObserverAdded, RangeNotifierAdded, MonitoringStarted];
    assert s[..4][..3] == [ParsersAdded, RegionObserverAdded, RangeNotifierAdded];
    assert s[..4][..3][..2] == [ParsersAdded, RegionObserverAdded];
    assert s[..4][..3][..2][..1] == [ParsersAdded];
    assert [ParsersAdded][..0] == [];
    assert ScanStopCalls[..1] == [RangingStopped] && [RangingStopped][..0] == [];
    assert RangeNotifiers([RangingStopped]) == 0;
    assert RangeNotifiers(s[..4][..3][..2]) == 0;
    assert RangeNotifiers(s[..4][..3]) == 1;
    assert RangeNotifiers(s[..4]) == 1;
  }

  class MainActivity {
    /** The reference files this activity loads, in order. */
    const beaconJsonFileNames: seq<string>

    /** The reference index; None until the reference files have been loaded. */
    var beaconMap: Option<BeaconIndex>
    var scanningBeacons: bool
    var locationUpdatesStarted: bool
    ghost var events: seq<Event>

    /**
     * The scanning flag says exactly whether ranging and monitoring are running; a location
     * subscription exists only while the location flag is set (the flag can be set without one).
     */
    ghost predicate Valid()
      reads this
    {
      && scanningBeacons == RangingActive(events)
      && scanningBeacons == MonitoringActive(events)
      && (LocationSubscribed(events) ==> locationUpdatesStarted)
    }

    constructor ()
      ensures Valid()
      ensures beaconJsonFileNames == BeaconFileNames
      ensures beaconMap == None && !scanningBeacons && !locationUpdatesStarted && events == []
    {
      beaconJsonFileNames := BeaconFileNames;
      beaconMap := None;
      scanningBeacons := false;
      locationUpdatesStarted := false;
      events := [];
    }

    /**
     * Reads every bundled file in order, keeps the responses that parse, logs the ones that fail,
     * and installs the index of all loaded records keyed by uid.
     */
    method LoadReferenceBeacons(readAsset: string -> Option<BeaconResponse>) returns (responses: seq<BeaconResponse>)
      requires Valid()
      modifies this`beaconMap, this`events
      ensures Valid()
      ensures responses == Loaded(beaconJsonFileNames, readAsset)
      ensures beaconMap == Some(IndexOf(beaconJsonFileNames, readAsset))
      ensures events == old(events) + LoadFailures(beaconJsonFileNames, readAsset)
    {
      var beacons: seq<BeaconRecord> := [];
      responses := [];
      ghost var failures: seq<Event> := [];
      for i := 0 to |beaconJsonFileNames|
        invariant responses == Loaded(beaconJsonFileNames[..i], readAsset)
        invariant beacons == Records(responses)
        invariant failures == LoadFailures(beaconJsonFileNames[..i], readAsset)
        invariant unchanged(this)
      {
        var file := beaconJsonFileNames[i];
        LoadStep(beaconJsonFileNames, i, readAsset);
        var outcome := readAsset(file);
        if outcome.Some? {
          responses := responses + [outcome.value];
          beacons := beacons + outcome.value.items;
        } else {
          failures := failures + [LoadFailed(file)];
        }
      }
      assert beaconJsonFileNames[..|beaconJsonFileNames|] == beaconJsonFileNames;
      LoadLogKeepsSwitches(events, beaconJsonFileNames, readAsset);
      events := events + failures;
      beaconMap := Some(AssociateBy(beacons));
    }

    /** The body of the range notifier up to the estimator call: the three parallel lists. */
    method CollectSamples(batch: seq<Detection>) returns (lats: seq<real>, lons: seq<real>, dists: seq<real>)
      ensures |lats| == |lons| == |dists| == |Resolved(beaconMap, batch)|
      ensures lats == Latitudes(Resolved(beaconMap, batch))
      ensures lons == Longitudes(Resolved(beaconMap, batch))
      ensures dists == Distances(Resolved(beaconMap, batch))
    {
      lats, lons, dists := [], [], [];
      for k := 0 to |batch|
        invariant lats == Latitudes(Resolved(beaconMap, batch[..k]))
        invariant lons == Longitudes(Resolved(beaconMap, batch[..k]))
        invariant dists == Distances(Resolved(beaconMap, batch[..k]))
      {
        var beacon := batch[k];
        assert batch[..k + 1][..k] == batch[..k];
        var data := Lookup(beaconMap, beacon.bluetoothAddress);
        ghost var before := Resolved(beaconMap, batch[..k]);
        if data.Some? {
          lats := lats + [data.value.latitude];
          lons := lons + [data.value.longitude];
          dists := dists + [beacon.distance];
          assert (before + [SampleOf(beaconMap, beacon)])[..|before|] == before;
        } else {
          assert Resolved(beaconMap, batch[..k + 1]) == before + [];
          assert before + [] == before;
        }
      }
      assert batch[..|batch|] == batch;
    }

    /**
     * One invocation of the range notifier: resolve the batch and, when at least one beacon
     * resolved, compute the position that is handed to the map.
     */
    method OnBeaconsRanged(batch: seq<Detection>) returns (fix: Option<Position>)
      ensures fix.Some? <==> Resolved(beaconMap, batch) != []
      ensures fix.Some? ==>
        var samples := Resolved(beaconMap, batch);
        && fix.value == Estimate(Latitudes(samples), Longitudes(samples), Distances(samples))
        && Min(Latitudes(samples)) <= fix.value.latitude <= Max(Latitudes(samples))
        && Min(Longitudes(samples)) <= fix.value.longitude <= Max(Longitudes(samples))
    {
      var lats, lons, dists := CollectSamples(batch);
      if |lats| > 0 {
        var position := CalculatePosition(lats, lons, dists);
        EstimateWithinBounds(lats, lons, dists);
        fix := Some(position);
      } else {
        fix := None;
      }
    }

    method StartBeaconScanning()
      requires Valid()
      modifies this`scanningBeacons, this`events
      ensures Valid() && scanningBeacons
      ensures events == old(events) + (if old(scanningBeacons) then [] else ScanStartCalls)
      ensures RangeNotifiers(events) == old(RangeNotifiers(events)) + (if old(scanningBeacons) then 0 else 1)
    {
      if scanningBeacons {
        return;
      }
      scanningBeacons := true;
      ghost var before := events;
      events := events + ScanStartCalls;
      ScanCallsSwitch();
      SwitchedAppend(before, ScanStartCalls, RangingStarted, RangingStopped);
      SwitchedAppend(before, ScanStartCalls, MonitoringStarted, MonitoringStopped);
      SwitchedAppend(before, ScanStartCalls, LocationUpdatesRequested, LocationUpdatesRemoved);
      RangeNotifiersAppend(before, ScanStartCalls);
    }

    method StopBeaconScanning()
      requires Valid()
      modifies this`scanningBeacons, this`events
      ensures Valid() && !scanningBeacons
      ensures events == old(events) + (if old(scanningBeacons) then ScanStopCalls else [])
      ensures events != old(events) ==> old(RangingActive(events)) && old(MonitoringActive(events))
      ensures RangeNotifiers(events) == old(RangeNotifiers(events))
    {
      if !scanningBeacons {
        return;
      }
      ghost var before := events;
      events := events + ScanStopCalls;
      scanningBeacons := false;
      ScanCallsSwitch();
      SwitchedAppend(before, ScanStopCalls, RangingStarted, RangingStopped);
      SwitchedAppend(before, ScanStopCalls, MonitoringStarted, MonitoringStopped);
      SwitchedAppend(before, ScanStopCalls, LocationUpdatesRequested, LocationUpdatesRemoved);
      RangeNotifiersAppend(before, ScanStopCalls);
    }

    /**
     * The flag is set before the permission check, so a start without the location permission
     * subscribes to nothing and still turns every later start into a no-op.
     */
    method StartContinuousLocationUpdates(hasLocationPermission: bool)
      requires Valid()
      modifies this`locationUpdatesStarted, this`events
      ensures Valid() && locationUpdatesStarted
      ensures events == old(events) +
        (if old(locationUpdatesStarted) || !hasLocationPermission then [] else [LocationUpdatesRequested])
    {
      if locationUpdatesStarted {
        return;
      }
      locationUpdatesStarted := true;
      ghost var before := events;
      if hasLocationPermission {
        events := events + [LocationUpdatesRequested];
        SwitchedAppend(before, [LocationUpdatesRequested], RangingStarted, RangingStopped);
        SwitchedAppend(before, [LocationUpdatesRequested], MonitoringStarted, MonitoringStopped);
      }
    }

    /** Removes the location callback whenever the flag is set, whether or not it was ever subscribed. */
    method StopContinuousLocationUpdates()
      requires Valid()
      modifies this`locationUpdatesStarted, this`events
      ensures Valid() && !locationUpdatesStarted && !LocationSubscribed(events)
      ensures events == old(events) + (if old(locationUpdatesStarted) then [LocationUpdatesRemoved] else [])
    {
      if !locationUpdatesStarted {
        return;
      }
      locationUpdatesStarted := false;
      ghost var before := events;
      events := events + [LocationUpdatesRemoved];
      SwitchedAppend(before, [LocationUpdatesRemoved], RangingStarted, RangingStopped);
      SwitchedAppend(before, [LocationUpdatesRemoved], MonitoringStarted, MonitoringStopped);
    }
  }

  /**
   * A start without the location permission sets the flag but subscribes to nothing, so a later
   * start that has the permission is a no-op and no subscription ever exists.
   */
  method StartLocationWithoutPermission() returns (a: MainActivity)
    ensures a.locationUpdatesStarted && a.events == [] && !LocationSubscribed(a.events)
  {
    a := new MainActivity();
    a.StartContinuousLocationUpdates(false);
    a.StartContinuousLocationUpdates(true);
  }

  /**
   * A stop after a start without the location permission removes a callback that was never
   * registered: the removal is the only call in the log.
   */
  method StopAfterDeniedStart() returns (a: MainActivity)
    ensures !a.locationUpdatesStarted && a.events == [LocationUpdatesRemoved]
    ensures !LocationSubscribed(a.events)
  {
    a := new MainActivity();
    a.StartContinuousLocationUpdates(false);
    a.StopContinuousLocationUpdates();
  }

  /**
   * A second start while scanning changes nothing, a stop before a start changes nothing, and a
   * stop followed by a start registers a second range notifier beside the first.
   */
  method RestartBeaconScanning() returns (a: MainActivity)
    ensures a.scanningBeacons && a.events == ScanStartCalls + ScanStopCalls + ScanStartCalls
    ensures RangeNotifiers(a.events) == 2
  {
    a := new MainActivity();
    a.StopBeaconScanning();
    assert a.events == [];
    a.StartBeaconScanning();
    a.StartBeaconScanning();
    assert a.events == ScanStartCalls;
    a.StopBeaconScanning();
    a.StopBeaconScanning();
    a.StartBeaconScanning();
  }
}
