/**
 * The update callback of the `Orderbook3D` component
 * (src/components/Orderbook3D.tsx:286-388): each Binance depth message is
 * tagged, merged with the enabled mock venues, ranked, accumulated, filtered
 * and truncated, and appended to the bounded history.
 */
module OrderbookView {
  import opened Wrappers
  import opened OrderbookTypes
  import opened MockLadder
  import opened Ranking
  import opened Depth
  import opened Display

  /** `levels.map(([price, quantity]) => ({price, quantity, venue, timestamp}))`. */
  function Tag(levels: seq<Level>, venue: string, timestamp: int): (r: seq<Entry>)
    ensures |r| == |levels|
  {
    seq(|levels|, i requires 0 <= i < |levels| =>
      Entry(levels[i].price, levels[i].quantity, venue, timestamp, None))
  }

  function SideLevels(side: Side, m: MockVenue): seq<Level> {
    match side
    case Bid => m.bids
    case Ask => m.asks
  }

  /** What the enabled mock venues push onto one side, in venue order. */
  function EnabledMockEntries(side: Side, mock: seq<MockVenue>, venues: map<string, VenueConfig>, timestamp: int): seq<Entry>
    decreases |mock|
  {
    if mock == [] then []
    else
      var last := mock[|mock| - 1];
      EnabledMockEntries(side, mock[..|mock| - 1], venues, timestamp)
        + (if IsEnabled(venues, last.venue) then Tag(SideLevels(side, last), last.venue, timestamp) else [])
  }

  /** Only enabled mock venues contribute, each entry stamped with the update's time. */
  lemma {:induction false} MockEntriesFromEnabledVenues(side: Side, mock: seq<MockVenue>, venues: map<string, VenueConfig>, timestamp: int)
    ensures forall e :: e in EnabledMockEntries(side, mock, venues, timestamp) ==>
      IsEnabled(venues, e.venue) && e.timestamp == timestamp && e.cumulativeQuantity == None
      && exists v :: 0 <= v < |mock| && mock[v].venue == e.venue
    decreases |mock|
  {
    if mock != [] {
      var init, last := mock[..|mock| - 1], mock[|mock| - 1];
      MockEntriesFromEnabledVenues(side, init, venues, timestamp);
      forall e | e in EnabledMockEntries(side, mock, venues, timestamp)
        ensures IsEnabled(venues, e.venue) && e.timestamp == timestamp && e.cumulativeQuantity == None
          && exists v :: 0 <= v < |mock| && mock[v].venue == e.venue
      {
        if e in EnabledMockEntries(side, init, venues, timestamp) {
          var v :| 0 <= v < |init| && init[v].venue == e.venue;
          assert mock[v] == init[v];
        } else {
          assert mock[|mock| - 1] == last;
        }
      }
    }
  }

  /** Every level of an enabled mock venue is merged: the side grows by exactly their number. */
  lemma {:induction false} MockEntriesCount(side: Side, mock: seq<MockVenue>, venues: map<string, VenueConfig>, timestamp: int)
    requires forall v :: 0 <= v < |mock| ==> |SideLevels(side, mock[v])| == LadderDepth
    ensures |EnabledMockEntries(side, mock, venues, timestamp)|
      == LadderDepth * |set v | 0 <= v < |mock| && IsEnabled(venues, mock[v].venue)|
    decreases |mock|
  {
    if mock != [] {
      var n := |mock| - 1;
      var init, last := mock[..n], mock[n];
      MockEntriesCount(side, init, venues, timestamp);
      var before := set v | 0 <= v < n && IsEnabled(venues, init[v].venue);
      var after := set v | 0 <= v < |mock| && IsEnabled(venues, mock[v].venue);
      assert before == set v | 0 <= v < n && IsEnabled(venues, mock[v].venue);
      if IsEnabled(venues, last.venue) {
        assert after == before + {n};
      } else {
        assert after == before;
      }
    }
  }

  /**
   * Lines 314-337: `allBids`/`allAsks` start as Binance's entries and each
   * enabled mock venue, in order, pushes its entries onto both.
   */
  method Merge(binanceBids: seq<Entry>, binanceAsks: seq<Entry>, mock: seq<MockVenue>,
               venues: map<string, VenueConfig>, timestamp: int)
    returns (allBids: seq<Entry>, allAsks: seq<Entry>)
    ensures allBids == binanceBids + EnabledMockEntries(Bid, mock, venues, timestamp)
    ensures allAsks == binanceAsks + EnabledMockEntries(Ask, mock, venues, timestamp)
  {
    allBids, allAsks := binanceBids, binanceAsks;
    for v := 0 to |mock|
      invariant allBids == binanceBids + EnabledMockEntries(Bid, mock[..v], venues, timestamp)
      invariant allAsks == binanceAsks + EnabledMockEntries(Ask, mock[..v], venues, timestamp)
    {
      assert mock[..v + 1][..v] == mock[..v];
      var m := mock[v];
      if IsEnabled(venues, m.venue) {
        allBids := allBids + Tag(m.bids, m.venue, timestamp);
        allAsks := allAsks + Tag(m.asks, m.venue, timestamp);
      }
    }
    assert mock[..|mock|] == mock;
  }

  /** Ranked, accumulated and displayed side: the value the component stores for one side. */
  function DisplayedSide(side: Side, merged: seq<Entry>, venues: map<string, VenueConfig>, f: Filters): seq<Entry> {
    Displayed(Accumulate(SortBy(side, merged)), venues, f)
  }

  /** A displayed side is ranked for its side, at most MAX_ORDERS long, and every entry passes the filters. */
  lemma DisplayedSideWellFormed(side: Side, merged: seq<Entry>, venues: map<string, VenueConfig>, f: Filters)
    ensures SortedBy(side, DisplayedSide(side, merged, venues, f))
    ensures |DisplayedSide(side, merged, venues, f)| <= MaxOrders
    ensures forall e :: e in DisplayedSide(side, merged, venues, f) ==> Passes(e, venues, f)
  {
    var sorted := SortBy(side, merged);
    SortByCorrect(side, merged);
    var acc := Accumulate(sorted);
    AccumulateKeepsLevels(sorted);
    assert SortedBy(side, acc) by {
      forall i, j | 0 <= i < j < |acc| ensures Precedes(side, acc[i], acc[j]) {
        assert acc[i].price == sorted[i].price && acc[j].price == sorted[j].price;
      }
    }
    DisplayedKeepsRanking(side, acc, venues, f);
  }

  /**
   * Lines 340-378 for one side: copy into an array, sort it in place, write the
   * running totals in place, then filter and truncate.
   */
  method RankAndDisplay(side: Side, merged: seq<Entry>, venues: map<string, VenueConfig>, f: Filters)
    returns (shown: seq<Entry>)
    ensures shown == DisplayedSide(side, merged, venues, f)
  {
    var a := new Entry[|merged|](i requires 0 <= i < |merged| => merged[i]);
    assert a[..] == merged;
    SortInPlace(side, a);
    FillCumulative(a);
    shown := Displayed(a[..], venues, f);
  }

  /** Lines 290-306: a Binance `[price, quantity]` pair, already parsed to numbers. */
  function BinanceEntries(levels: seq<Level>, timestamp: int): seq<Entry> {
    Tag(levels, "Binance", timestamp)
  }

  /** The side the component stores after one Binance message with both sides non-empty. */
  function NextSide(side: Side, binance: seq<Level>, mock: seq<MockVenue>, venues: map<string, VenueConfig>,
                    f: Filters, timestamp: int): seq<Entry> {
    DisplayedSide(side, BinanceEntries(binance, timestamp) + EnabledMockEntries(side, mock, venues, timestamp), venues, f)
  }

  /**
   * Lines 309-378: ladders around Binance's touch, the merge, and one ranked,
   * accumulated, filtered side each.
   */
  method Rebuild(binanceBids: seq<Level>, binanceAsks: seq<Level>, timestamp: int, draws: seq<real>,
                 venues: map<string, VenueConfig>, f: Filters)
    returns (bids: seq<Entry>, asks: seq<Entry>)
    requires ValidDraws(draws)
    requires |binanceBids| > 0 && |binanceAsks| > 0
    ensures var bestBid, bestAsk := binanceBids[0].price, binanceAsks[0].price;
      var mock := GenerateMockVenueData((bestBid + bestAsk) / 2.0, bestAsk - bestBid, draws);
      && bids == NextSide(Bid, binanceBids, mock, venues, f, timestamp)
      && asks == NextSide(Ask, binanceAsks, mock, venues, f, timestamp)
  {
    var tagBids := BinanceEntries(binanceBids, timestamp);
    var tagAsks := BinanceEntries(binanceAsks, timestamp);
    assert tagBids[0].price == binanceBids[0].price && tagAsks[0].price == binanceAsks[0].price;
    var midPrice := (tagBids[0].price + tagAsks[0].price) / 2.0;
    var spread := tagAsks[0].price - tagBids[0].price;
    var mock := GenerateMockVenueData(midPrice, spread, draws);
    var allBids, allAsks := Merge(tagBids, tagAsks, mock, venues, timestamp);
    bids := RankAndDisplay(Bid, allBids, venues, f);
    asks := RankAndDisplay(Ask, allAsks, venues, f);
  }

  /** The component's order-book state for one subscription (fixed venue toggles and filters). */
  class OrderbookView {
    const venues: map<string, VenueConfig>
    const filters: Filters
    var bids: seq<Entry>
    var asks: seq<Entry>
    var bidHistory: seq<seq<Entry>>
    var askHistory: seq<seq<Entry>>

    ghost predicate Valid()
      reads this
    {
      && SortedBy(Bid, bids) && SortedBy(Ask, asks)
      && |bids| <= MaxOrders && |asks| <= MaxOrders
      && (forall e :: e in bids ==> Passes(e, venues, filters))
      && (forall e :: e in asks ==> Passes(e, venues, filters))
      && |bidHistory| <= HistoryLength && |askHistory| <= HistoryLength
    }

    constructor (venues: map<string, VenueConfig>, filters: Filters)
      ensures Valid()
      ensures this.venues == venues && this.filters == filters
      ensures bids == [] && asks == [] && bidHistory == [] && askHistory == []
    {
      this.venues := venues;
      this.filters := filters;
      bids, asks := [], [];
      bidHistory, askHistory := [], [];
    }

    /**
     * One Binance message: nothing happens unless both sides have a level;
     * otherwise the mock ladders are generated around Binance's touch, the
     * merge is ranked, accumulated, filtered and stored, and the history grows.
     */
    method OnBinanceUpdate(binanceBids: seq<Level>, binanceAsks: seq<Level>, timestamp: int, draws: seq<real>)
      requires Valid()
      requires ValidDraws(draws)
      modifies this
      ensures Valid()
      ensures |binanceBids| == 0 || |binanceAsks| == 0 ==>
        bids == old(bids) && asks == old(asks)
        && bidHistory == old(bidHistory) && askHistory == old(askHistory)
      ensures |binanceBids| > 0 && |binanceAsks| > 0 ==>
        var bestBid, bestAsk := binanceBids[0].price, binanceAsks[0].price;
        var mock := GenerateMockVenueData((bestBid + bestAsk) / 2.0, bestAsk - bestBid, draws);
        && bids == NextSide(Bid, binanceBids, mock, venues, filters, timestamp)
        && asks == NextSide(Ask, binanceAsks, mock, venues, filters, timestamp)
        && bidHistory == AppendSnapshot(old(bidHistory), bids)
        && askHistory == AppendSnapshot(old(askHistory), asks)
    {
      if |binanceBids| > 0 && |binanceAsks| > 0 {
        ghost var bestBid, bestAsk := binanceBids[0].price, binanceAsks[0].price;
        ghost var mock := GenerateMockVenueData((bestBid + bestAsk) / 2.0, bestAsk - bestBid, draws);
        bids, asks := Rebuild(binanceBids, binanceAsks, timestamp, draws, venues, filters);
        DisplayedSideWellFormed(Bid, BinanceEntries(binanceBids, timestamp)
                                     + EnabledMockEntries(Bid, mock, venues, timestamp), venues, filters);
        DisplayedSideWellFormed(Ask, BinanceEntries(binanceAsks, timestamp)
                                     + EnabledMockEntries(Ask, mock, venues, timestamp), venues, filters);
        bidHistory := AppendSnapshot(bidHistory, bids);
        askHistory := AppendSnapshot(askHistory, asks);
      }
    }
  }
}
