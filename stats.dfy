/**
 * Summary statistics of the displayed book (src/components/Orderbook3D.tsx:426-440).
 */
module Stats {
  import opened Wrappers
  import opened OrderbookTypes
  import opened Depth
  import opened Display

  datatype Statistics = Statistics(
    totalBidVolume: real,
    totalAskVolume: real,
    spread: real,
    bidAskRatio: real,
    pressureZones: nat)

  /**
   * Volumes are the displayed quantities summed (`reduce` from 0, left to right);
   * the spread is best ask minus best bid, or 0 when a side is empty; the ratio
   * divides only when the ask volume is positive and is 0 otherwise.
   */
  function ComputeStats(bids: seq<Entry>, asks: seq<Entry>, zoneCount: nat): (r: Statistics)
    ensures r.totalBidVolume == Volume(bids) && r.totalAskVolume == Volume(asks)
    ensures |asks| > 0 && |bids| > 0 ==> r.spread == asks[0].price - bids[0].price
    ensures |asks| == 0 || |bids| == 0 ==> r.spread == 0.0
    ensures r.totalAskVolume > 0.0 ==> r.bidAskRatio * r.totalAskVolume == r.totalBidVolume
    ensures r.totalAskVolume <= 0.0 ==> r.bidAskRatio == 0.0
    ensures r.pressureZones == zoneCount
  {
    var bidVolume := Volume(bids);
    var askVolume := Volume(asks);
    Statistics(
      bidVolume,
      askVolume,
      if |asks| > 0 && |bids| > 0 then asks[0].price - bids[0].price else 0.0,
      if askVolume > 0.0 then bidVolume / askVolume else 0.0,
      zoneCount)
  }

  /** The volume of an ordered selection is at most the volume up to its last element. */
  lemma {:induction false} SelectionVolumeBounded(r: seq<Entry>, t: seq<Entry>, idx: seq<int>)
    requires NonNegativeQuantities(t)
    requires SubsequenceAt(r, t, idx)
    requires |r| > 0
    ensures Volume(r) <= Volume(t[..idx[|r| - 1] + 1])
    decreases |r|
  {
    var n := |r|;
    var last := idx[n - 1];
    assert t[..last + 1][..last] == t[..last];
    if n == 1 {
      VolumeNonNegative(t[..last]);
      assert r[..0] == [];
    } else {
      SelectionVolumeBounded(r[..n - 1], t, idx[..n - 1]);
      VolumePrefixMonotone(t, idx[n - 2] + 1, last);
    }
  }

  /**
   * The displayed volume of a side never exceeds the cumulative quantity shown
   * on its last displayed entry (quantities being non-negative).
   */
  lemma DisplayedVolumeWithinDepth(sorted: seq<Entry>, venues: map<string, VenueConfig>, f: Filters)
    requires NonNegativeQuantities(sorted)
    requires |Displayed(Accumulate(sorted), venues, f)| > 0
    ensures var shown := Displayed(Accumulate(sorted), venues, f);
      shown[|shown| - 1].cumulativeQuantity.Some?
      && Volume(shown) <= shown[|shown| - 1].cumulativeQuantity.value
  {
    var acc := Accumulate(sorted);
    var shown := Displayed(acc, venues, f);
    var idx := DisplayedIsSubsequence(acc, venues, f);
    var last := idx[|shown| - 1];
    AccumulateKeepsLevels(sorted);
    assert NonNegativeQuantities(acc) by {
      forall i | 0 <= i < |acc| ensures acc[i].quantity >= 0.0 {
        assert acc[i].quantity == sorted[i].quantity;
      }
    }
    SelectionVolumeBounded(shown, acc, idx);
    AccumulatePrefixVolume(sorted, last + 1);
    assert shown[|shown| - 1] == acc[last];
    assert acc[last].cumulativeQuantity == Some(Volume(sorted[..last + 1]));
  }

  lemma {:induction false} AccumulatePrefixVolume(s: seq<Entry>, n: nat)
    requires n <= |s|
    ensures Volume(Accumulate(s)[..n]) == Volume(s[..n])
    decreases n
  {
    if n > 0 {
      AccumulatePrefixVolume(s, n - 1);
      assert Accumulate(s)[..n][..n - 1] == Accumulate(s)[..n - 1];
      assert s[..n][..n - 1] == s[..n - 1];
    }
  }
}
