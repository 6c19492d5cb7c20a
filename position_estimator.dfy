/**
 * Inverse-distance weighted averaging of reference-beacon coordinates.
 * Doubles are modelled as reals, so rounding and the NaN of an empty input are not modelled.
 */
module PositionEstimator {

  /** The lower clamp applied to every measured distance. */
  const Epsilon: real := 0.000001

  /** The largest weight a single sample can receive, 1 / Epsilon. */
  const MaxWeight: real := 1000000.0

  datatype Position = Position(latitude: real, longitude: real)

  /** `d.coerceAtLeast(Epsilon)` */
  function ClampDistance(d: real): (c: real)
    ensures c >= Epsilon
    ensures d >= Epsilon ==> c == d
  {
    if d < Epsilon then Epsilon else d
  }

  /** The weight of one sample: the inverse of its clamped distance. */
  function Weight(d: real): (w: real)
    ensures 0.0 < w <= MaxWeight
    ensures d >= Epsilon ==> w == 1.0 / d
    ensures d <= Epsilon ==> w == MaxWeight
  {
    var c := ClampDistance(d);
    assert c * MaxWeight >= 1.0;
    1.0 / c
  }

  /** Sum of xs[i] * Weight(ds[i]), accumulated in index order. */
  function WeightedSum(xs: seq<real>, ds: seq<real>): (s: real)
    requires |xs| == |ds|
  {
    if xs == [] then 0.0
    else WeightedSum(xs[..|xs| - 1], ds[..|ds| - 1]) + xs[|xs| - 1] * Weight(ds[|ds| - 1])
  }

  /** Sum of the weights of all distances. */
  function TotalWeight(ds: seq<real>): (t: real)
  {
    if ds == [] then 0.0 else TotalWeight(ds[..|ds| - 1]) + Weight(ds[|ds| - 1])
  }

  /** The total weight is positive for a non-empty input and at most MaxWeight per sample. */
  lemma {:induction false} TotalWeightBounds(ds: seq<real>)
    ensures 0.0 <= TotalWeight(ds) <= |ds| as real * MaxWeight
    ensures TotalWeight(ds) == 0.0 <==> ds == []
  {
    if ds != [] {
      TotalWeightBounds(ds[..|ds| - 1]);
    }
  }

  /** Plain sum, used to state the equal-distance case. */
  function Sum(xs: seq<real>): (s: real)
  {
    if xs == [] then 0.0 else Sum(xs[..|xs| - 1]) + xs[|xs| - 1]
  }

  function Min(xs: seq<real>): (m: real)
    requires xs != []
    ensures m in xs
    ensures forall i :: 0 <= i < |xs| ==> m <= xs[i]
  {
    if |xs| == 1 then xs[0]
    else
      var m' := Min(xs[..|xs| - 1]);
      if xs[|xs| - 1] < m' then xs[|xs| - 1] else m'
  }

  function Max(xs: seq<real>): (m: real)
    requires xs != []
    ensures m in xs
    ensures forall i :: 0 <= i < |xs| ==> xs[i] <= m
  {
    if |xs| == 1 then xs[0]
    else
      var m' := Max(xs[..|xs| - 1]);
      if xs[|xs| - 1] > m' then xs[|xs| - 1] else m'
  }

  /** The inverse-distance weighted average of xs. */
  function WeightedAverage(xs: seq<real>, ds: seq<real>): (a: real)
    requires |xs| == |ds| > 0
  {
    TotalWeightBounds(ds);
    WeightedSum(xs, ds) / TotalWeight(ds)
  }

  /** The estimate: weighted latitude and longitude sums divided by the total weight. */
  function Estimate(lats: seq<real>, lons: seq<real>, dists: seq<real>): (p: Position)
    requires |lats| == |lons| == |dists| > 0
  {
    Position(WeightedAverage(lats, dists), WeightedAverage(lons, dists))
  }

  /** The accumulation loop of the activity's position calculation. */
  method CalculatePosition(lats: seq<real>, lons: seq<real>, dists: seq<real>) returns (p: Position)
    requires |lats| == |lons| == |dists| > 0
    ensures p == Estimate(lats, lons, dists)
  {
    var weightedLat, weightedLon, totalWeight := 0.0, 0.0, 0.0;
    for i := 0 to |lats|
      invariant weightedLat == WeightedSum(lats[..i], dists[..i])
      invariant weightedLon == WeightedSum(lons[..i], dists[..i])
      invariant totalWeight == TotalWeight(dists[..i])
    {
      var weight := 1.0 / ClampDistance(dists[i]);
      assert lats[..i + 1][..i] == lats[..i] && lons[..i + 1][..i] == lons[..i];
      assert dists[..i + 1][..i] == dists[..i];
      weightedLat := weightedLat + lats[i] * weight;
      weightedLon := weightedLon + lons[i] * weight;
      totalWeight := totalWeight + weight;
    }
    assert lats[..|lats|] == lats && lons[..|lons|] == lons && dists[..|dists|] == dists;
    TotalWeightBounds(dists);
    p := Position(weightedLat / totalWeight, weightedLon / totalWeight);
  }

  /** A weighted sum of values at least lo is at least lo times the total weight. */
  lemma {:induction false} WeightedSumAbove(xs: seq<real>, ds: seq<real>, lo: real)
    requires |xs| == |ds|
    requires forall i :: 0 <= i < |xs| ==> lo <= xs[i]
    ensures lo * TotalWeight(ds) <= WeightedSum(xs, ds)
  {
    if xs != [] {
      var n := |xs| - 1;
      WeightedSumAbove(xs[..n], ds[..n], lo);
      var w, t, s := Weight(ds[n]), TotalWeight(ds[..n]), WeightedSum(xs[..n], ds[..n]);
      assert TotalWeight(ds) == t + w;
      assert WeightedSum(xs, ds) == s + xs[n] * w;
      StepAbove(lo, xs[n], w, t, s);
    }
  }

  /** A weighted sum of values at most hi is at most hi times the total weight. */
  lemma {:induction false} WeightedSumBelow(xs: seq<real>, ds: seq<real>, hi: real)
    requires |xs| == |ds|
    requires forall i :: 0 <= i < |xs| ==> xs[i] <= hi
    ensures WeightedSum(xs, ds) <= hi * TotalWeight(ds)
  {
    if xs != [] {
      var n := |xs| - 1;
      WeightedSumBelow(xs[..n], ds[..n], hi);
      var w, t, s := Weight(ds[n]), TotalWeight(ds[..n]), WeightedSum(xs[..n], ds[..n]);
      assert TotalWeight(ds) == t + w;
      assert WeightedSum(xs, ds) == s + xs[n] * w;
      StepBelow(hi, xs[n], w, t, s);
    }
  }

  /** One accumulation step keeps the lower bound: lo * t <= s extends to the next sample. */
  lemma StepAbove(lo: real, x: real, w: real, t: real, s: real)
    requires lo <= x && w > 0.0 && lo * t <= s
    ensures lo * (t + w) <= s + x * w
  {
    MultiplyMonotone(lo, x, w);
    Distribute(lo, t, w);
  }

  /** One accumulation step keeps the upper bound: s <= hi * t extends to the next sample. */
  lemma StepBelow(hi: real, x: real, w: real, t: real, s: real)
    requires x <= hi && w > 0.0 && s <= hi * t
    ensures s + x * w <= hi * (t + w)
  {
    MultiplyMonotone(x, hi, w);
    Distribute(hi, t, w);
  }

  lemma Distribute(a: real, t: real, w: real)
    ensures a * (t + w) == a * t + a * w
  {
  }

  lemma MultiplyMonotone(a: real, b: real, w: real)
    requires a <= b && w > 0.0
    ensures a * w <= b * w
  {
  }

  lemma QuotientBetween(s: real, t: real, q: real, lo: real, hi: real)
    requires t > 0.0 && q == s / t && lo * t <= s <= hi * t
    ensures lo <= q <= hi
  {
    assert q * t == s;
  }

  /** A weighted average of xs lies between the smallest and the largest of xs. */
  lemma AverageWithinBounds(xs: seq<real>, ds: seq<real>)
    requires |xs| == |ds| > 0
    ensures Min(xs) <= WeightedAverage(xs, ds) <= Max(xs)
  {
    AverageBetween(xs, ds, Min(xs), Max(xs));
  }

  /** A weighted average of values between lo and hi lies between lo and hi. */
  lemma AverageBetween(xs: seq<real>, ds: seq<real>, lo: real, hi: real)
    requires |xs| == |ds| > 0
    requires forall i :: 0 <= i < |xs| ==> lo <= xs[i] <= hi
    ensures lo <= WeightedAverage(xs, ds) <= hi
  {
    WeightedSumAbove(xs, ds, lo);
    WeightedSumBelow(xs, ds, hi);
    TotalWeightBounds(ds);
    QuotientBetween(WeightedSum(xs, ds), TotalWeight(ds), WeightedAverage(xs, ds), lo, hi);
  }

  /** The estimate is a convex combination: it lies in the bounding box of the samples. */
  lemma EstimateWithinBounds(lats: seq<real>, lons: seq<real>, dists: seq<real>)
    requires |lats| == |lons| == |dists| > 0
    ensures Min(lats) <= Estimate(lats, lons, dists).latitude <= Max(lats)
    ensures Min(lons) <= Estimate(lats, lons, dists).longitude <= Max(lons)
  {
    AverageWithinBounds(lats, dists);
    AverageWithinBounds(lons, dists);
  }

  /** A single sample is returned unchanged, whatever its distance. */
  lemma SingleSample(lat: real, lon: real, d: real)
    ensures Estimate([lat], [lon], [d]) == Position(lat, lon)
  {
    var w := Weight(d);
    assert WeightedSum([lat], [d]) == lat * w by {
      assert [lat][..0] == [];
    }
    assert WeightedSum([lon], [d]) == lon * w by {
      assert [lon][..0] == [];
    }
    assert TotalWeight([d]) == w by {
      assert [d][..0] == [];
    }
  }

  lemma {:induction false} WeightedSumUniform(xs: seq<real>, ds: seq<real>, d: real)
    requires |xs| == |ds|
    requires forall i :: 0 <= i < |ds| ==> ds[i] == d
    ensures WeightedSum(xs, ds) == Sum(xs) * Weight(d)
  {
    if xs != [] {
      WeightedSumUniform(xs[..|xs| - 1], ds[..|ds| - 1], d);
    }
  }

  lemma {:induction false} TotalWeightUniform(ds: seq<real>, d: real)
    requires forall i :: 0 <= i < |ds| ==> ds[i] == d
    ensures TotalWeight(ds) == |ds| as real * Weight(d)
  {
    if ds != [] {
      TotalWeightUniform(ds[..|ds| - 1], d);
    }
  }

  /** With equal distances the weighted average of xs is their arithmetic mean. */
  lemma UniformAverageIsMean(xs: seq<real>, ds: seq<real>)
    requires |xs| == |ds| > 0
    requires forall i :: 0 <= i < |ds| ==> ds[i] == ds[0]
    ensures WeightedAverage(xs, ds) == Sum(xs) / |xs| as real
  {
    WeightedSumUniform(xs, ds, ds[0]);
    TotalWeightUniform(ds, ds[0]);
    var w, n := Weight(ds[0]), |ds| as real;
    var a, b := WeightedSum(xs, ds), TotalWeight(ds);
    CancelFactor(Sum(xs), n, w, a, b);
    assert WeightedAverage(xs, ds) == a / b;
  }

  /** When every beacon is at the same distance the estimate is the arithmetic mean. */
  lemma EqualDistancesGiveMean(lats: seq<real>, lons: seq<real>, dists: seq<real>)
    requires |lats| == |lons| == |dists| > 0
    requires forall i :: 0 <= i < |dists| ==> dists[i] == dists[0]
    ensures Estimate(lats, lons, dists)
         == Position(Sum(lats) / |lats| as real, Sum(lons) / |lons| as real)
  {
    UniformAverageIsMean(lats, dists);
    UniformAverageIsMean(lons, dists);
  }

  lemma CancelFactor(s: real, n: real, w: real, a: real, b: real)
    requires n > 0.0 && w > 0.0 && a == s * w && b == n * w
    ensures a / b == s / n
  {
  }

  /** Two beacons at the same distance give their exact midpoint. */
  lemma MidpointExample()
    ensures Estimate([10.0, 20.0], [10.0, 20.0], [5.0, 5.0]) == Position(15.0, 15.0)
  {
    EqualDistancesGiveMean([10.0, 20.0], [10.0, 20.0], [5.0, 5.0]);
    assert Sum([10.0, 20.0]) == 30.0 by {
      assert [10.0, 20.0][..1] == [10.0];
      assert [10.0][..0] == [];
    }
  }

  /**
   * A beacon at distance zero is clamped to Epsilon and outweighs one at ten metres
   * by a factor of ten million.
   */
  lemma ZeroDistanceDominates(lat1: real, lat2: real, lon1: real, lon2: real)
    ensures Estimate([lat1, lat2], [lon1, lon2], [0.0, 10.0])
         == Position((10000000.0 * lat1 + lat2) / 10000001.0, (10000000.0 * lon1 + lon2) / 10000001.0)
  {
    assert Weight(0.0) == MaxWeight;
    assert Weight(10.0) == 0.1;
    assert [lat1, lat2][..1] == [lat1] && [lon1, lon2][..1] == [lon1];
    assert [0.0, 10.0][..1] == [0.0];
    assert [lat1][..0] == [] && [lon1][..0] == [] && [0.0][..0] == [];
    var total := MaxWeight + 0.1;
    assert TotalWeight([0.0, 10.0]) == total;
    assert WeightedSum([lat1], [0.0]) == lat1 * MaxWeight;
    assert WeightedSum([lon1], [0.0]) == lon1 * MaxWeight;
    assert WeightedSum([lat1, lat2], [0.0, 10.0]) == lat1 * MaxWeight + lat2 * 0.1;
    assert WeightedSum([lon1, lon2], [0.0, 10.0]) == lon1 * MaxWeight + lon2 * 0.1;
    ScaleQuotient(lat1 * MaxWeight + lat2 * 0.1, total);
    ScaleQuotient(lon1 * MaxWeight + lon2 * 0.1, total);
  }

  lemma ScaleQuotient(s: real, t: real)
    requires t > 0.0
    ensures s / t == (10.0 * s) / (10.0 * t)
  {
  }
}
