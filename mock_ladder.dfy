/**
 * The simulated venues of the view (src/components/Orderbook3D.tsx:66-82):
 * OKX, Bybit and Deribit each quote 15 bids and 15 asks walking outward from
 * `basePrice ± spread / 2` in steps of 0.5. The `Math.random()` results are an
 * input: `draws[k]` is the value of the k-th call, in call order (per venue,
 * 15 bid quantities, then 15 ask quantities).
 */
module MockLadder {
  /** A `[price, quantity]` pair as the ladder produces it. */
  datatype Level = Level(price: real, quantity: real)

  datatype MockVenue = MockVenue(venue: string, bids: seq<Level>, asks: seq<Level>)

  const MockVenueNames: seq<string> := ["OKX", "Bybit", "Deribit"]
  const LadderDepth: nat := 15
  const LadderStep: real := 0.5
  /** Random draws the whole call consumes: 3 venues, 15 bids and 15 asks each. */
  const DrawCount: nat := 90

  /** `Math.random()` results: enough of them, each in [0, 1). */
  predicate ValidDraws(draws: seq<real>) {
    |draws| >= DrawCount && forall k :: 0 <= k < |draws| ==> 0.0 <= draws[k] < 1.0
  }

  function Ladder(start: real, step: real, draws: seq<real>, offset: nat): seq<Level>
    requires offset + LadderDepth <= |draws|
  {
    seq(LadderDepth, i requires 0 <= i < LadderDepth =>
      Level(start + i as real * step, draws[offset + i] * 3.0 + 0.1))
  }

  /** `generateMockVenueData(basePrice, spread)`: one entry per simulated venue, in the order OKX, Bybit, Deribit. */
  function GenerateMockVenueData(basePrice: real, spread: real, draws: seq<real>): (r: seq<MockVenue>)
    requires ValidDraws(draws)
    ensures |r| == |MockVenueNames|
    ensures forall v :: 0 <= v < |r| ==> r[v].venue == MockVenueNames[v]
  {
    seq(|MockVenueNames|, v requires 0 <= v < |MockVenueNames| =>
      MockVenue(
        MockVenueNames[v],
        Ladder(basePrice - spread / 2.0, -LadderStep, draws, 30 * v),
        Ladder(basePrice + spread / 2.0, LadderStep, draws, 30 * v + LadderDepth)))
  }

  /**
   * Each simulated venue quotes 15 bids and 15 asks from the touch
   * `basePrice ± spread / 2`; bid prices strictly fall and ask prices strictly
   * rise; with a non-negative spread no mock bid is above any mock ask; every
   * quantity lies in [0.1, 3.1).
   */
  lemma MockLadderShape(basePrice: real, spread: real, draws: seq<real>)
    requires ValidDraws(draws)
    ensures var r := GenerateMockVenueData(basePrice, spread, draws);
      && (forall v :: 0 <= v < |r| ==>
        && |r[v].bids| == LadderDepth && |r[v].asks| == LadderDepth
        && r[v].bids[0].price == basePrice - spread / 2.0
        && r[v].asks[0].price == basePrice + spread / 2.0)
      && (forall v, i, j :: 0 <= v < |r| && 0 <= i < j < LadderDepth ==>
        r[v].bids[i].price > r[v].bids[j].price && r[v].asks[i].price < r[v].asks[j].price)
      && (spread >= 0.0 ==> forall v, w, i, j ::
        0 <= v < |r| && 0 <= w < |r| && 0 <= i < LadderDepth && 0 <= j < LadderDepth ==>
        r[v].bids[i].price <= r[w].asks[j].price)
      && (forall v, i :: 0 <= v < |r| && 0 <= i < LadderDepth ==>
        && 0.1 <= r[v].bids[i].quantity < 3.1
        && 0.1 <= r[v].asks[i].quantity < 3.1)
  {
  }
}
