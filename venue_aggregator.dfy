/**
 * `MultiVenueAggregator` (src/lib/enhancedWebSocket.ts:171-285): the latest
 * snapshot per venue, a subscriber list, and the connections it tears down.
 * The Binance socket delivers through `OnBinanceUpdate`; the OKX and Bybit
 * interval timers through `OnOkxTick` and `OnBybitTick`, whose `draws` are the
 * `Math.random()` results in call order and `now` is `Date.now()`.
 * Subscriber callbacks are values of `C`; each call is recorded in `published`.
 */
module VenueAggregator {
  import opened Wrappers
  import opened EnhancedSocket

  /** One venue's snapshot; levels are kept as the JSON arrays the source stores. */
  datatype VenueData = VenueData(
    venue: string,
    bids: seq<Json>,
    asks: seq<Json>,
    timestamp: int,
    latency: Option<real>)

  /** `level.length === 2` for a JSON value (arrays, strings, and objects with a `length` field have one). */
  predicate HasLengthTwo(level: Json) {
    match level
    case JArray(items) => |items| == 2
    case JString(s) => |s| == 2
    case JObject(fields) => "length" in fields && fields["length"] == JNumber(2.0)
    case _ => false
  }

  /** `.filter((b) => b.length === 2)`: the levels of length 2, in their order. */
  function KeepPairs(levels: seq<Json>): (r: seq<Json>)
    ensures |r| <= |levels|
    ensures forall x :: x in r <==> x in levels && HasLengthTwo(x)
    decreases |levels|
  {
    if levels == [] then []
    else (if HasLengthTwo(levels[0]) then [levels[0]] else []) + KeepPairs(levels[1..])
  }

  function NumberPair(price: real, quantity: real): Json {
    JArray([JNumber(price), JNumber(quantity)])
  }

  /**
   * Levels `i` to `depth - 1` of a mock ladder: price `start + i * step`,
   * quantity `draws[offset + i] * scale + floor`.
   */
  function MockSide(start: real, step: real, depth: nat, draws: seq<real>, offset: nat, scale: real, floor: real, i: nat): (r: seq<Json>)
    requires i <= depth && offset + depth <= |draws|
    ensures |r| == depth - i
    ensures forall k :: 0 <= k < |r| ==> HasLengthTwo(r[k])
    decreases depth - i
  {
    if i == depth then []
    else
      var level := NumberPair(start + i as real * step, draws[offset + i] * scale + floor);
      [level] + MockSide(start, step, depth, draws, offset, scale, floor, i + 1)
  }

  /** The OKX tick (lines 209-226): 15 levels a side around 50000 with spread 10, step 0.5. */
  function OkxSnapshot(draws: seq<real>, now: int): (r: VenueData)
    requires |draws| >= 31
    ensures r.venue == "OKX" && |r.bids| == 15 && |r.asks| == 15 && r.timestamp == now
    ensures r.bids[0] == NumberPair(49995.0, draws[0] * 2.0 + 0.1)
    ensures r.asks[0] == NumberPair(50005.0, draws[15] * 2.0 + 0.1)
    ensures r.latency == Some(draws[30] * 20.0 + 5.0)
  {
    VenueData("OKX",
      MockSide(50000.0 - 10.0 / 2.0, -0.5, 15, draws, 0, 2.0, 0.1, 0),
      MockSide(50000.0 + 10.0 / 2.0, 0.5, 15, draws, 15, 2.0, 0.1, 0),
      now,
      Some(draws[30] * 20.0 + 5.0))
  }

  /** The Bybit tick (lines 229-246): 12 levels a side around 50005 with spread 12, step 0.7. */
  function BybitSnapshot(draws: seq<real>, now: int): (r: VenueData)
    requires |draws| >= 25
    ensures r.venue == "Bybit" && |r.bids| == 12 && |r.asks| == 12 && r.timestamp == now
    ensures r.bids[0] == NumberPair(49999.0, draws[0] * 1.5 + 0.2)
    ensures r.asks[0] == NumberPair(50011.0, draws[12] * 1.5 + 0.2)
    ensures r.latency == Some(draws[24] * 30.0 + 10.0)
  {
    VenueData("Bybit",
      MockSide(50005.0 - 12.0 / 2.0, -0.7, 12, draws, 0, 1.5, 0.2, 0),
      MockSide(50005.0 + 12.0 / 2.0, 0.7, 12, draws, 12, 1.5, 0.2, 0),
      now,
      Some(draws[24] * 30.0 + 10.0))
  }

  /** `callbacks.splice(callbacks.indexOf(cb), 1)` when `cb` occurs: its first occurrence goes. */
  function RemoveFirst<C(==)>(s: seq<C>, cb: C): (r: seq<C>)
    ensures cb !in s ==> r == s
    ensures cb in s ==> |r| == |s| - 1 && multiset(r) == multiset(s) - multiset{cb}
    decreases |s|
  {
    if s == [] then []
    else if s[0] == cb then
      assert s == [s[0]] + s[1..];
      s[1..]
    else
      var rest := RemoveFirst(s[1..], cb);
      assert s == [s[0]] + s[1..];
      [s[0]] + rest
  }

  /** Calling an unsubscribe function again after its callback is gone changes nothing. */
  lemma UnsubscribeTwiceHarmless<C>(s: seq<C>, cb: C)
    requires multiset(s)[cb] <= 1
    ensures RemoveFirst(RemoveFirst(s, cb), cb) == RemoveFirst(s, cb)
  {
    var once := RemoveFirst(s, cb);
    if cb in s {
      assert multiset(once)[cb] == 0;
    }
    assert cb !in once;
  }

  /** `indexOf`: the first position of `x`, or -1. */
  method IndexOf<C(==)>(s: seq<C>, x: C) returns (index: int)
    ensures index == -1 <==> x !in s
    ensures index != -1 ==> 0 <= index < |s| && s[index] == x && x !in s[..index]
  {
    index := 0;
    while index < |s|
      invariant 0 <= index <= |s|
      invariant x !in s[..index]
    {
      if s[index] == x {
        return;
      }
      assert s[..index + 1] == s[..index] + [s[index]];
      index := index + 1;
    }
    assert s[..index] == s;
    index := -1;
  }

  lemma RemoveFirstAt<C>(s: seq<C>, cb: C, i: nat)
    requires i < |s| && s[i] == cb && cb !in s[..i]
    ensures RemoveFirst(s, cb) == s[..i] + s[i + 1..]
    decreases i
  {
    if i > 0 {
      assert s[1..][..i - 1] == s[..i][1..];
      RemoveFirstAt(s[1..], cb, i - 1);
    }
  }

  /**
   * `after` is `before` followed by one call per subscriber, in subscriber
   * order, each handing over `table`.
   */
  ghost predicate PublishedToAll<C>(before: seq<(C, map<string, VenueData>)>, after: seq<(C, map<string, VenueData>)>,
                                    subscribers: seq<C>, table: map<string, VenueData>) {
    && |after| == |before| + |subscribers|
    && after[..|before|] == before
    && forall k :: 0 <= k < |subscribers| ==> after[|before| + k] == (subscribers[k], table)
  }

  class MultiVenueAggregator<C(==)> {
    var venues: map<string, VenueData>
    /** Keys of `venues` in the Map's insertion order. */
    var venueOrder: seq<string>
    var subscribers: seq<C>
    /** Keys of `connections` in insertion order; each names a cleanup to run. */
    var connections: seq<string>
    /** Every (subscriber, venue table copy) call made so far. */
    var published: seq<(C, map<string, VenueData>)>
    /** Cleanups run so far, in order. */
    var stopped: seq<string>

    ghost predicate Valid()
      reads this
    {
      && Distinct(venueOrder)
      && (forall v :: v in venues <==> v in venueOrder)
      && Distinct(connections)
    }

    /** The constructor opens the Binance connection, then the OKX and Bybit timers. */
    constructor ()
      ensures Valid()
      ensures venues == map[] && venueOrder == [] && subscribers == []
      ensures connections == ["Binance", "OKX", "Bybit"]
      ensures published == [] && stopped == []
    {
      venues, venueOrder := map[], [];
      subscribers := [];
      connections := ["Binance", "OKX", "Bybit"];
      published, stopped := [], [];
    }

    /**
     * `updateVenueData`: the reporting venue's entry is replaced wholesale, no
     * other venue changes, and every current subscriber receives the new table.
     */
    method UpdateVenueData(venue: string, data: VenueData)
      requires Valid()
      modifies this`venues, this`venueOrder, this`published
      ensures Valid()
      ensures venues == old(venues)[venue := data]
      ensures venueOrder == if venue in old(venues) then old(venueOrder) else old(venueOrder) + [venue]
      ensures PublishedToAll(old(published), published, subscribers, venues)
    {
      if venue !in venues {
        venueOrder := venueOrder + [venue];
      }
      venues := venues[venue := data];
      var calls := published;
      for k := 0 to |subscribers|
        invariant |calls| == |published| + k
        invariant calls[..|published|] == published
        invariant forall j :: 0 <= j < k ==> calls[|published| + j] == (subscribers[j], venues)
      {
        calls := calls + [(subscribers[k], venues)];
      }
      published := calls;
    }

    /**
     * The Binance callback: levels whose length is not 2 are dropped before the
     * snapshot is stored. A `null` level makes `b.length` throw, which abandons
     * the whole update: nothing is stored and no subscriber is called.
     */
    method OnBinanceUpdate(update: BookUpdate, now: int)
      requires Valid()
      modifies this`venues, this`venueOrder, this`published
      ensures Valid()
      ensures JNull in update.bids || JNull in update.asks ==>
        venues == old(venues) && venueOrder == old(venueOrder) && published == old(published)
      ensures JNull !in update.bids && JNull !in update.asks ==>
        && venues == old(venues)["Binance" := VenueData("Binance", KeepPairs(update.bids), KeepPairs(update.asks), now, None)]
        && venueOrder == (if "Binance" in old(venues) then old(venueOrder) else old(venueOrder) + ["Binance"])
        && PublishedToAll(old(published), published, subscribers, venues)
    {
      if JNull in update.bids || JNull in update.asks {
        return;
      }
      UpdateVenueData("Binance", VenueData("Binance", KeepPairs(update.bids), KeepPairs(update.asks), now, None));
    }

    method OnOkxTick(draws: seq<real>, now: int)
      requires Valid()
      requires |draws| >= 31
      modifies this`venues, this`venueOrder, this`published
      ensures Valid()
      ensures venues == old(venues)["OKX" := OkxSnapshot(draws, now)]
      ensures venueOrder == if "OKX" in old(venues) then old(venueOrder) else old(venueOrder) + ["OKX"]
      ensures PublishedToAll(old(published), published, subscribers, venues)
    {
      UpdateVenueData("OKX", OkxSnapshot(draws, now));
    }

    method OnBybitTick(draws: seq<real>, now: int)
      requires Valid()
      requires |draws| >= 25
      modifies this`venues, this`venueOrder, this`published
      ensures Valid()
      ensures venues == old(venues)["Bybit" := BybitSnapshot(draws, now)]
      ensures venueOrder == if "Bybit" in old(venues) then old(venueOrder) else old(venueOrder) + ["Bybit"]
      ensures PublishedToAll(old(published), published, subscribers, venues)
    {
      UpdateVenueData("Bybit", BybitSnapshot(draws, now));
    }

    /** `subscribe(callback)`: appends; the function it returns is `Unsubscribe(callback)`. */
    method Subscribe(callback: C)
      modifies this`subscribers
      ensures subscribers == old(subscribers) + [callback]
    {
      subscribers := subscribers + [callback];
    }

    /** The function `subscribe` returns: removes the first occurrence of its callback, if any. */
    method Unsubscribe(callback: C)
      modifies this`subscribers
      ensures subscribers == RemoveFirst(old(subscribers), callback)
    {
      var index := IndexOf(subscribers, callback);
      if index > -1 {
        RemoveFirstAt(subscribers, callback, index);
        subscribers := subscribers[..index] + subscribers[index + 1..];
      }
    }

    /** `getVenueData(venue)`: the stored snapshot, present exactly for venues that have reported. */
    function GetVenueData(venue: string): (r: Option<VenueData>)
      reads this
      requires Valid()
      ensures r.Some? <==> venue in venueOrder
      ensures r.Some? ==> r.value == venues[venue]
    {
      if venue in venues then Some(venues[venue]) else None
    }

    /** `getAllVenues()`: each venue that has reported, once, in first-report order. */
    function GetAllVenues(): (r: seq<string>)
      reads this
      requires Valid()
      ensures Distinct(r)
      ensures forall v :: v in r <==> v in venues
    {
      venueOrder
    }

    /** `getLatency(venue)`: the stored latency; `None` for an unknown venue or one that reports none. */
    function GetLatency(venue: string): (r: Option<real>)
      reads this
      ensures venue !in venues ==> r == None
      ensures venue in venues ==> r == venues[venue].latency
    {
      if venue in venues then venues[venue].latency else None
    }

    /** `close()`: runs every cleanup in order, then empties connections, venues and subscribers. */
    method Close()
      requires Valid()
      modifies this`connections, this`venues, this`venueOrder, this`subscribers, this`stopped
      ensures Valid()
      ensures stopped == old(stopped) + old(connections)
      ensures connections == [] && venues == map[] && venueOrder == [] && subscribers == []
    {
      var cleanups, ran := connections, stopped;
      for k := 0 to |cleanups|
        invariant ran == stopped + cleanups[..k]
      {
        assert cleanups[..k + 1] == cleanups[..k] + [cleanups[k]];
        ran := ran + [cleanups[k]];
      }
      assert cleanups[..|cleanups|] == cleanups;
      stopped := ran;
      connections := [];
      venues, venueOrder := map[], [];
      subscribers := [];
    }
  }
}
