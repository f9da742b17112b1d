/**
 * Vocabulary of the merged order-book view (src/components/Orderbook3D.tsx):
 * entries, venue configuration, display filters and the two tuning constants.
 * Prices and quantities are exact reals; the source's float64 rounding is not modelled.
 */
module OrderbookTypes {
  import opened Wrappers

  /** MAX_ORDERS: entries displayed per side. */
  const MaxOrders: nat := 20
  /** PRESSURE_THRESHOLD: resting quantity that makes a price bucket a pressure zone. */
  const PressureThreshold: real := 2.0

  datatype Side = Bid | Ask

  /** One ranked level; `cumulativeQuantity` stays `None` until the depth pass writes it. */
  datatype Entry = Entry(
    price: real,
    quantity: real,
    venue: string,
    timestamp: int,
    cumulativeQuantity: Option<real>)

  /** The part of a venue's configuration the aggregation reads (colours are presentation). */
  datatype VenueConfig = VenueConfig(name: string, enabled: bool)

  /** User filters; a price bound of exactly 0 means "no bound". */
  datatype Filters = Filters(quantityThreshold: real, priceRangeMin: real, priceRangeMax: real)

  /** `venues[v]?.enabled`: an unknown venue counts as disabled. */
  predicate IsEnabled(venues: map<string, VenueConfig>, venue: string) {
    venue in venues && venues[venue].enabled
  }

  /** Total quantity of a list, summed left to right as the source's running totals do. */
  function Volume(s: seq<Entry>): real {
    if s == [] then 0.0 else Volume(s[..|s| - 1]) + s[|s| - 1].quantity
  }

  predicate NonNegativeQuantities(s: seq<Entry>) {
    forall i :: 0 <= i < |s| ==> s[i].quantity >= 0.0
  }

  /** JavaScript `Math.round`: nearest integer, halves rounded up. */
  function Round(x: real): (r: int)
    ensures r as real - 0.5 <= x < r as real + 0.5
  {
    (x + 0.5).Floor
  }

  function MinReal(a: real, b: real): (r: real)
    ensures r <= a && r <= b && (r == a || r == b)
  {
    if a <= b then a else b
  }

  lemma {:induction false} VolumeNonNegative(s: seq<Entry>)
    requires NonNegativeQuantities(s)
    ensures Volume(s) >= 0.0
    decreases |s|
  {
    if s != [] {
      VolumeNonNegative(s[..|s| - 1]);
    }
  }
}
