/**
 * Pressure-zone detection (src/components/Orderbook3D.tsx:394-424): the
 * displayed bids and asks are grouped by `Math.round(price)`; every group whose
 * quantities add up to at least PRESSURE_THRESHOLD becomes a zone.
 */
module PressureZones {
  import opened OrderbookTypes

  /** Clamp on the visual intensity of a zone. */
  const MaxIntensity: real := 3.0

  datatype PressureZone = PressureZone(priceLevel: int, totalQuantity: real, venues: seq<string>, intensity: real)

  /** The orders whose rounded price is `level`, in list order. */
  function Bucket(s: seq<Entry>, level: int): seq<Entry>
    decreases |s|
  {
    if s == [] then []
    else Bucket(s[..|s| - 1], level) + (if Round(s[|s| - 1].price) == level then [s[|s| - 1]] else [])
  }

  lemma {:induction false} BucketMembers(s: seq<Entry>, level: int)
    ensures forall e :: e in Bucket(s, level) <==> e in s && Round(e.price) == level
    decreases |s|
  {
    if s != [] {
      BucketMembers(s[..|s| - 1], level);
      assert s == s[..|s| - 1] + [s[|s| - 1]];
    }
  }

  /**
   * `Array.from(new Set(orders.map(o => o.venue)))`: each venue once, in order
   * of first appearance.
   */
  function DistinctVenues(s: seq<Entry>): (r: seq<string>)
    ensures forall i, j :: 0 <= i < j < |r| ==> r[i] != r[j]
    ensures forall v :: v in r <==> exists k :: 0 <= k < |s| && s[k].venue == v
    decreases |s|
  {
    if s == [] then []
    else
      var init := s[..|s| - 1];
      var d := DistinctVenues(init);
      assert forall k :: 0 <= k < |init| ==> s[k] == init[k];
      if s[|s| - 1].venue in d then d else d + [s[|s| - 1].venue]
  }

  /** `Math.min(totalQuantity / PRESSURE_THRESHOLD, 3)`: between 1 and 3 for every zone. */
  function Intensity(total: real): (r: real)
    ensures r <= MaxIntensity && r <= total / PressureThreshold
    ensures total >= PressureThreshold ==> 1.0 <= r
    ensures r == MaxIntensity || r * PressureThreshold == total
  {
    MinReal(total / PressureThreshold, MaxIntensity)
  }

  /** `z` reports bucket `z.priceLevel` of `orders` as a qualifying zone. */
  ghost predicate ReportsBucket(z: PressureZone, orders: seq<Entry>) {
    var bucket := Bucket(orders, z.priceLevel);
    && |bucket| > 0
    && z.totalQuantity == Volume(bucket)
    && z.totalQuantity >= PressureThreshold
    && z.venues == DistinctVenues(bucket)
    && z.intensity == Intensity(z.totalQuantity)
  }

  /**
   * Lines 400-405: `priceGroups` maps each rounded price that occurs to its
   * orders, in order; `keys` lists the rounded prices once each, in order of
   * first occurrence.
   */
  method GroupByRoundedPrice(all: seq<Entry>) returns (groups: map<int, seq<Entry>>, keys: seq<int>)
    ensures forall a, b :: 0 <= a < b < |keys| ==> keys[a] != keys[b]
    ensures forall b :: b in groups <==> b in keys
    ensures forall b :: b in groups ==> groups[b] == Bucket(all, b) && |groups[b]| > 0
    ensures forall b :: b !in groups ==> Bucket(all, b) == []
  {
    groups := map[];
    keys := [];
    for i := 0 to |all|
      invariant forall a, b :: 0 <= a < b < |keys| ==> keys[a] != keys[b]
      invariant forall b :: b in groups <==> b in keys
      invariant forall b :: b in groups ==> groups[b] == Bucket(all[..i], b) && |groups[b]| > 0
      invariant forall b :: b !in groups ==> Bucket(all[..i], b) == []
    {
      assert all[..i + 1][..i] == all[..i];
      var rounded := Round(all[i].price);
      if rounded !in groups {
        groups := groups[rounded := []];
        keys := keys + [rounded];
      }
      groups := groups[rounded := groups[rounded] + [all[i]]];
    }
    assert all[..|all|] == all;
  }

  /** The bucket at `level` carries at least PRESSURE_THRESHOLD. */
  ghost predicate Qualifies(orders: seq<Entry>, level: int) {
    Volume(Bucket(orders, level)) >= PressureThreshold
  }

  /** The price levels of a list of zones, in order. */
  function PriceLevels(zones: seq<PressureZone>): (r: seq<int>)
    ensures |r| == |zones|
  {
    seq(|zones|, k requires 0 <= k < |zones| => zones[k].priceLevel)
  }

  /**
   * The `useMemo` body (lines 395-424): one zone per qualifying bucket of the
   * displayed bids and asks, with the bucket's total, its distinct venues and
   * its clamped intensity; no bucket is reported twice.
   */
  method DetectPressureZones(bids: seq<Entry>, asks: seq<Entry>) returns (zones: seq<PressureZone>)
    ensures forall k :: 0 <= k < |zones| ==> ReportsBucket(zones[k], bids + asks)
    ensures forall e :: e in bids + asks && Qualifies(bids + asks, Round(e.price)) ==>
      Round(e.price) in PriceLevels(zones)
    ensures forall k, l :: 0 <= k < l < |zones| ==> zones[k].priceLevel != zones[l].priceLevel
  {
    var all := bids + asks;
    var groups, keys := GroupByRoundedPrice(all);
    zones := [];
    for k := 0 to |keys|
      invariant forall z :: 0 <= z < |zones| ==> zones[z].priceLevel in keys[..k] && ReportsBucket(zones[z], all)
      invariant forall j :: 0 <= j < k && Qualifies(all, keys[j]) ==> keys[j] in PriceLevels(zones)
      invariant forall a, b :: 0 <= a < b < |zones| ==> zones[a].priceLevel != zones[b].priceLevel
    {
      var level := keys[k];
      var orders := groups[level];
      assert orders == Bucket(all, level);
      assert level !in keys[..k];
      var total := Volume(orders);
      assert Qualifies(all, level) <==> total >= PressureThreshold;
      ghost var before := PriceLevels(zones);
      if total >= PressureThreshold {
        var zone := PressureZone(level, total, DistinctVenues(orders), Intensity(total));
        assert ReportsBucket(zone, all);
        assert PriceLevels(zones + [zone]) == PriceLevels(zones) + [level];
        zones := zones + [zone];
      }
      assert keys[..k + 1] == keys[..k] + [level];
      assert forall x :: x in before ==> x in PriceLevels(zones);
    }

    forall e | e in all && Qualifies(all, Round(e.price))
      ensures Round(e.price) in PriceLevels(zones)
    {
      BucketMembers(all, Round(e.price));
      var j :| 0 <= j < |keys| && keys[j] == Round(e.price);
    }
  }
}
