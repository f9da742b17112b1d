/**
 * The stand-alone mock book of src/lib/mockVenueData.ts: for each of Binance,
 * OKX and Bybit (venue index `idx`), ten levels `i` whose bid is priced
 * 29000 + 10·i + idx and whose ask is 1000 higher. `draws[k]` is the k-th
 * `Math.random()` result: each level draws its bid quantity, then its ask quantity.
 */
module MockVenueData {
  datatype VenueOrderbookEntry = VenueOrderbookEntry(price: real, quantity: real, venue: string)

  const MockVenues: seq<string> := ["Binance", "OKX", "Bybit"]
  const LevelsPerVenue: nat := 10
  const BookSize: nat := 30

  function BidPrice(idx: nat, i: nat): real { (29000 + 10 * i + idx) as real }
  function AskPrice(idx: nat, i: nat): real { (30000 + 10 * i + idx) as real }

  /** The book the generator produces, level by level. */
  ghost predicate IsMockBook(bids: seq<VenueOrderbookEntry>, asks: seq<VenueOrderbookEntry>, draws: seq<real>) {
    && |bids| == BookSize && |asks| == BookSize && |draws| >= 2 * BookSize
    && forall idx, i :: 0 <= idx < |MockVenues| && 0 <= i < LevelsPerVenue ==>
      && bids[LevelsPerVenue * idx + i]
         == VenueOrderbookEntry(BidPrice(idx, i), draws[2 * (LevelsPerVenue * idx + i)] * 4.0, MockVenues[idx])
      && asks[LevelsPerVenue * idx + i]
         == VenueOrderbookEntry(AskPrice(idx, i), draws[2 * (LevelsPerVenue * idx + i) + 1] * 4.0, MockVenues[idx])
  }

  /** `generateMockVenueData()`: a `forEach` over the venues with a nested ten-step loop pushing one bid and one ask. */
  method GenerateMockVenueData(draws: seq<real>) returns (bids: seq<VenueOrderbookEntry>, asks: seq<VenueOrderbookEntry>)
    requires |draws| >= 2 * BookSize
    ensures IsMockBook(bids, asks, draws)
  {
    bids, asks := [], [];
    for idx := 0 to |MockVenues|
      invariant |bids| == LevelsPerVenue * idx && |asks| == LevelsPerVenue * idx
      invariant forall v, i :: 0 <= v < idx && 0 <= i < LevelsPerVenue ==>
        && bids[LevelsPerVenue * v + i]
           == VenueOrderbookEntry(BidPrice(v, i), draws[2 * (LevelsPerVenue * v + i)] * 4.0, MockVenues[v])
        && asks[LevelsPerVenue * v + i]
           == VenueOrderbookEntry(AskPrice(v, i), draws[2 * (LevelsPerVenue * v + i) + 1] * 4.0, MockVenues[v])
    {
      var venue := MockVenues[idx];
      for i := 0 to LevelsPerVenue
        invariant |bids| == LevelsPerVenue * idx + i && |asks| == LevelsPerVenue * idx + i
        invariant forall v, l :: 0 <= v < idx && 0 <= l < LevelsPerVenue ==>
          && bids[LevelsPerVenue * v + l]
             == VenueOrderbookEntry(BidPrice(v, l), draws[2 * (LevelsPerVenue * v + l)] * 4.0, MockVenues[v])
          && asks[LevelsPerVenue * v + l]
             == VenueOrderbookEntry(AskPrice(v, l), draws[2 * (LevelsPerVenue * v + l) + 1] * 4.0, MockVenues[v])
        invariant forall l :: 0 <= l < i ==>
          && bids[LevelsPerVenue * idx + l]
             == VenueOrderbookEntry(BidPrice(idx, l), draws[2 * (LevelsPerVenue * idx + l)] * 4.0, venue)
          && asks[LevelsPerVenue * idx + l]
             == VenueOrderbookEntry(AskPrice(idx, l), draws[2 * (LevelsPerVenue * idx + l) + 1] * 4.0, venue)
      {
        var k := LevelsPerVenue * idx + i;
        bids := bids + [VenueOrderbookEntry(BidPrice(idx, i), draws[2 * k] * 4.0, venue)];
        asks := asks + [VenueOrderbookEntry(AskPrice(idx, i), draws[2 * k + 1] * 4.0, venue)];
      }
    }
  }

  /** Position `j` of the book holds level `j % 10` of venue `j / 10`. */
  lemma MockBookAt(bids: seq<VenueOrderbookEntry>, asks: seq<VenueOrderbookEntry>, draws: seq<real>, j: nat)
    requires IsMockBook(bids, asks, draws)
    requires j < BookSize
    ensures bids[j].venue == asks[j].venue == MockVenues[j / LevelsPerVenue]
    ensures bids[j].price == BidPrice(j / LevelsPerVenue, j % LevelsPerVenue)
    ensures asks[j].price == AskPrice(j / LevelsPerVenue, j % LevelsPerVenue)
    ensures bids[j].quantity == draws[2 * j] * 4.0 && asks[j].quantity == draws[2 * j + 1] * 4.0
  {
    var idx, i := j / LevelsPerVenue, j % LevelsPerVenue;
    assert j == LevelsPerVenue * idx + i && idx < |MockVenues|;
    assert bids[j] == VenueOrderbookEntry(BidPrice(idx, i), draws[2 * j] * 4.0, MockVenues[idx]);
    assert asks[j] == VenueOrderbookEntry(AskPrice(idx, i), draws[2 * j + 1] * 4.0, MockVenues[idx]);
  }

  /**
   * Every bid (at most 29092) is strictly below every ask (at least 30000), and
   * each ask is exactly 1000 above the bid at the same position.
   */
  lemma MockBookSeparated(bids: seq<VenueOrderbookEntry>, asks: seq<VenueOrderbookEntry>, draws: seq<real>)
    requires IsMockBook(bids, asks, draws)
    ensures forall j :: 0 <= j < BookSize ==> bids[j].price <= 29092.0 && asks[j].price >= 30000.0
    ensures forall j, k :: 0 <= j < BookSize && 0 <= k < BookSize ==> bids[j].price < asks[k].price
    ensures forall j :: 0 <= j < BookSize ==> asks[j].price == bids[j].price + 1000.0
  {
    forall j | 0 <= j < BookSize
      ensures bids[j].price <= 29092.0 && asks[j].price >= 30000.0
      ensures asks[j].price == bids[j].price + 1000.0
    {
      MockBookAt(bids, asks, draws, j);
    }
  }

  /** Within one venue the bids are listed with rising prices, so not best-first. */
  lemma MockBidsRiseWithinVenue(bids: seq<VenueOrderbookEntry>, asks: seq<VenueOrderbookEntry>, draws: seq<real>)
    requires IsMockBook(bids, asks, draws)
    ensures forall j, k :: 0 <= j < k < BookSize && j / LevelsPerVenue == k / LevelsPerVenue ==>
      bids[j].price < bids[k].price
  {
    forall j, k | 0 <= j < k < BookSize && j / LevelsPerVenue == k / LevelsPerVenue
      ensures bids[j].price < bids[k].price
    {
      MockBookAt(bids, asks, draws, j);
      MockBookAt(bids, asks, draws, k);
    }
  }

  /** With `Math.random()` in [0, 1), every quantity lies in [0, 4). */
  lemma MockQuantitiesBounded(bids: seq<VenueOrderbookEntry>, asks: seq<VenueOrderbookEntry>, draws: seq<real>)
    requires IsMockBook(bids, asks, draws)
    requires forall k :: 0 <= k < |draws| ==> 0.0 <= draws[k] < 1.0
    ensures forall j :: 0 <= j < BookSize ==>
      0.0 <= bids[j].quantity < 4.0 && 0.0 <= asks[j].quantity < 4.0
  {
    forall j | 0 <= j < BookSize
      ensures 0.0 <= bids[j].quantity < 4.0 && 0.0 <= asks[j].quantity < 4.0
    {
      MockBookAt(bids, asks, draws, j);
    }
  }
}
