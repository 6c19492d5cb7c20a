/**
 * Resolving one ranging batch against the reference index: detections whose address is in the
 * index become (latitude, longitude, distance) samples, in detection order; the rest are dropped.
 */
module Ranging {
  import opened BeaconTypes

  /** One detected beacon: its Bluetooth address and the distance the ranging library estimated. */
  datatype Detection = Detection(bluetoothAddress: string, distance: real)

  /** One resolved observation: the reference coordinates and the measured distance. */
  datatype Sample = Sample(latitude: real, longitude: real, distance: real)

  /** `beaconMap?.get(address)`: a miss when the index has not been built or lacks the address. */
  function Lookup(index: Option<BeaconIndex>, address: string): (r: Option<BeaconRecord>)
    ensures r.Some? <==> index.Some? && address in index.value
    ensures r.Some? ==> r.value == index.value[address]
  {
    match index
    case None => None
    case Some(m) => if address in m then Some(m[address]) else None
  }

  predicate Known(index: Option<BeaconIndex>, d: Detection)
    ensures Known(index, d) <==> index.Some? && d.bluetoothAddress in index.value
  {
    Lookup(index, d.bluetoothAddress).Some?
  }

  function SampleOf(index: Option<BeaconIndex>, d: Detection): (s: Sample)
    requires Known(index, d)
    ensures s.latitude == index.value[d.bluetoothAddress].latitude
    ensures s.longitude == index.value[d.bluetoothAddress].longitude
    ensures s.distance == d.distance
  {
    var r := Lookup(index, d.bluetoothAddress).value;
    Sample(r.latitude, r.longitude, d.distance)
  }

  /** The samples of the known detections of a batch, in detection order. */
  function Resolved(index: Option<BeaconIndex>, batch: seq<Detection>): (samples: seq<Sample>)
    ensures |samples| <= |batch|
  {
    if batch == [] then []
    else
      var d := batch[|batch| - 1];
      Resolved(index, batch[..|batch| - 1]) + (if Known(index, d) then [SampleOf(index, d)] else [])
  }

  function Latitudes(samples: seq<Sample>): (r: seq<real>)
    ensures |r| == |samples|
  {
    if samples == [] then [] else Latitudes(samples[..|samples| - 1]) + [samples[|samples| - 1].latitude]
  }

  function Longitudes(samples: seq<Sample>): (r: seq<real>)
    ensures |r| == |samples|
  {
    if samples == [] then [] else Longitudes(samples[..|samples| - 1]) + [samples[|samples| - 1].longitude]
  }

  function Distances(samples: seq<Sample>): (r: seq<real>)
    ensures |r| == |samples|
  {
    if samples == [] then [] else Distances(samples[..|samples| - 1]) + [samples[|samples| - 1].distance]
  }

  /** Entry i of the three parallel lists describes the same sample. */
  lemma {:induction false} ParallelListsAligned(samples: seq<Sample>, i: nat)
    requires i < |samples|
    ensures Latitudes(samples)[i] == samples[i].latitude
    ensures Longitudes(samples)[i] == samples[i].longitude
    ensures Distances(samples)[i] == samples[i].distance
  {
    var n := |samples| - 1;
    if i < n {
      ParallelListsAligned(samples[..n], i);
    }
  }

  /** Resolution distributes over concatenation of batches: detection order is kept. */
  lemma {:induction false} ResolvedConcat(index: Option<BeaconIndex>, a: seq<Detection>, b: seq<Detection>)
    ensures Resolved(index, a + b) == Resolved(index, a) + Resolved(index, b)
  {
    if b != [] {
      var n := |b| - 1;
      assert (a + b)[..|a + b| - 1] == a + b[..n];
      ResolvedConcat(index, a, b[..n]);
    } else {
      assert a + b == a;
    }
  }

  /** A single detection resolves to its sample when known and to nothing otherwise. */
  lemma ResolvedSingle(index: Option<BeaconIndex>, d: Detection)
    ensures Resolved(index, [d]) == if Known(index, d) then [SampleOf(index, d)] else []
  {
    assert [d][..0] == [];
  }

  /** Every sample comes from a known detection of the batch. */
  lemma {:induction false} ResolvedSound(index: Option<BeaconIndex>, batch: seq<Detection>, s: Sample)
    requires s in Resolved(index, batch)
    ensures exists j :: 0 <= j < |batch| && Known(index, batch[j]) && s == SampleOf(index, batch[j])
  {
    var n := |batch| - 1;
    if s in Resolved(index, batch[..n]) {
      ResolvedSound(index, batch[..n], s);
      var j :| 0 <= j < n && Known(index, batch[..n][j]) && s == SampleOf(index, batch[..n][j]);
      assert batch[..n][j] == batch[j];
    } else {
      assert Known(index, batch[n]) && s == SampleOf(index, batch[n]);
    }
  }

  /** Every known detection of the batch yields a sample. */
  lemma {:induction false} ResolvedComplete(index: Option<BeaconIndex>, batch: seq<Detection>, j: nat)
    requires j < |batch| && Known(index, batch[j])
    ensures SampleOf(index, batch[j]) in Resolved(index, batch)
  {
    var n := |batch| - 1;
    if j < n {
      assert batch[..n][j] == batch[j];
      ResolvedComplete(index, batch[..n], j);
    }
  }

  /** A batch resolves to nothing exactly when none of its detections is known. */
  lemma {:induction false} ResolvedEmptyIff(index: Option<BeaconIndex>, batch: seq<Detection>)
    ensures Resolved(index, batch) == [] <==> forall j :: 0 <= j < |batch| ==> !Known(index, batch[j])
  {
    if Resolved(index, batch) != [] {
      ResolvedSound(index, batch, Resolved(index, batch)[0]);
    }
    forall j | 0 <= j < |batch| && Known(index, batch[j])
      ensures Resolved(index, batch) != []
    {
      ResolvedComplete(index, batch, j);
    }
  }

  /** Before the index is built every detection is dropped. */
  lemma {:induction false} NoIndexResolvesNothing(batch: seq<Detection>)
    ensures Resolved(None, batch) == []
  {
    ResolvedEmptyIff(None, batch);
  }
}
