/**
 * The reconnecting socket client of src/lib/enhancedWebSocket.ts:13-169.
 * Socket and timer callbacks (`onopen`, `onmessage`, `onclose`, `onerror`, the
 * reconnect timer firing) are methods the environment calls one at a time.
 * Whether `new WebSocket(url)` succeeded is a parameter of the calls that dial.
 * The callbacks the client reports to, and the message handlers it fans out
 * to, are recorded in the append-only fields `log` and `deliveries`.
 */
module EnhancedSocket {
  import opened Wrappers

  /** A value `JSON.parse` can return. */
  datatype Json =
    | JNull
    | JBool(b: bool)
    | JNumber(n: real)
    | JString(s: string)
    | JArray(items: seq<Json>)
    | JObject(fields: map<string, Json>)

  /** `WebSocket.readyState` values. */
  const Connecting: int := 0
  const Open: int := 1
  const Closing: int := 2
  const Closed: int := 3

  /** What the client reports, in order: the config callbacks, each dial and the give-up error. */
  datatype Notice =
    | Connected
    | Disconnected
    | Errored
    | Reconnecting(attempt: int)
    | Dialled(created: bool)
    | GaveUp

  /** `getConnectionStatus()` for a given ready state. */
  function ConnectionStatus(readyState: int): (r: string)
    ensures r == "Connected" <==> readyState == Open
    ensures r == "Connecting" <==> readyState == Connecting
    ensures r == "Closing" <==> readyState == Closing
    ensures r == "Closed" <==> readyState == Closed
    ensures r == "Unknown" <==> !(Connecting <= readyState <= Closed)
  {
    if readyState == Connecting then "Connecting"
    else if readyState == Open then "Connected"
    else if readyState == Closing then "Closing"
    else if readyState == Closed then "Closed"
    else "Unknown"
  }

  class EnhancedWebSocket<H> {
    const url: string
    const reconnectInterval: int
    const maxReconnectAttempts: int
    var reconnectAttempts: int
    /** A reconnect timer has been set and has neither fired nor been cleared. */
    var reconnectPending: bool
    var isIntentionallyClosed: bool
    /** Ready state of `this.ws`; `None` while no socket was ever created. */
    var socket: Option<int>
    /** Keys of `messageHandlers` in the Map's iteration (insertion) order. */
    var handlerIds: seq<string>
    var handlers: map<string, H>
    var log: seq<Notice>
    /** Every (handler, parsed message) call made so far. */
    var deliveries: seq<(H, Json)>

    ghost predicate Valid()
      reads this
    {
      && 0 <= reconnectAttempts
      && (reconnectAttempts <= maxReconnectAttempts || reconnectAttempts == 0)
      && (reconnectPending ==> reconnectAttempts < maxReconnectAttempts && !isIntentionallyClosed)
      && (reconnectPending ==> socket == None || socket == Some(Closed))
      && Distinct(handlerIds)
      && (forall id :: id in handlers <==> id in handlerIds)
    }

    /** `new EnhancedWebSocket(config)`: stores the config and dials at once. */
    constructor (url: string, reconnectInterval: int, maxReconnectAttempts: int, created: bool)
      ensures Valid()
      ensures this.url == url && this.reconnectInterval == reconnectInterval
      ensures this.maxReconnectAttempts == maxReconnectAttempts
      ensures reconnectAttempts == 0 && !isIntentionallyClosed
      ensures handlerIds == [] && handlers == map[] && deliveries == []
      ensures socket == (if created then Some(Connecting) else None)
      ensures reconnectPending == (!created && 0 < maxReconnectAttempts)
      ensures log == [Dialled(created)] + (if !created && maxReconnectAttempts <= 0 then [GaveUp] else [])
    {
      this.url := url;
      this.reconnectInterval := reconnectInterval;
      this.maxReconnectAttempts := maxReconnectAttempts;
      reconnectAttempts := 0;
      reconnectPending := false;
      isIntentionallyClosed := false;
      socket := None;
      handlerIds, handlers := [], map[];
      log, deliveries := [], [];
      new;
      Connect(created);
    }

    /** `connect()`: a new socket starts connecting; if creating it throws, a reconnect is scheduled. */
    method Connect(created: bool)
      requires Valid()
      requires !reconnectPending && !isIntentionallyClosed
      requires socket == None || socket == Some(Closed)
      modifies this
      ensures Valid()
      ensures socket == if created then Some(Connecting) else old(socket)
      ensures reconnectPending == (!created && reconnectAttempts < maxReconnectAttempts)
      ensures log == old(log) + [Dialled(created)]
                   + (if !created && reconnectAttempts >= maxReconnectAttempts then [GaveUp] else [])
      ensures reconnectAttempts == old(reconnectAttempts) && isIntentionallyClosed == old(isIntentionallyClosed)
      ensures handlerIds == old(handlerIds) && handlers == old(handlers) && deliveries == old(deliveries)
    {
      log := log + [Dialled(created)];
      if created {
        socket := Some(Connecting);
      } else {
        ScheduleReconnect();
      }
    }

    /** `scheduleReconnect()`: arms the timer unless the attempt cap is reached, which is reported. */
    method ScheduleReconnect()
      requires Valid()
      requires !isIntentionallyClosed || reconnectAttempts >= maxReconnectAttempts
      requires socket == None || socket == Some(Closed)
      modifies this`reconnectPending, this`log
      ensures Valid()
      ensures reconnectPending == (reconnectAttempts < maxReconnectAttempts || old(reconnectPending))
      ensures log == old(log) + (if reconnectAttempts >= maxReconnectAttempts then [GaveUp] else [])
    {
      if reconnectAttempts >= maxReconnectAttempts {
        log := log + [GaveUp];
        return;
      }
      reconnectPending := true;
    }

    /** `onopen`: the attempt counter goes back to 0 and `onConnect` runs. */
    method OnOpen()
      requires Valid()
      requires socket == Some(Connecting)
      modifies this
      ensures Valid()
      ensures reconnectAttempts == 0 && socket == Some(Open)
      ensures log == old(log) + [Connected]
      ensures reconnectPending == old(reconnectPending) && isIntentionallyClosed == old(isIntentionallyClosed)
      ensures handlerIds == old(handlerIds) && handlers == old(handlers) && deliveries == old(deliveries)
    {
      socket := Some(Open);
      reconnectAttempts := 0;
      log := log + [Connected];
    }

    /** `onclose`: `onDisconnect` runs; a reconnect is scheduled unless the close was requested. */
    method OnClose()
      requires Valid()
      requires socket.Some? && socket.value != Closed
      modifies this
      ensures Valid()
      ensures socket == Some(Closed)
      ensures reconnectPending == (!isIntentionallyClosed && reconnectAttempts < maxReconnectAttempts)
      ensures log == old(log) + [Disconnected]
                   + (if !isIntentionallyClosed && reconnectAttempts >= maxReconnectAttempts then [GaveUp] else [])
      ensures reconnectAttempts == old(reconnectAttempts) && isIntentionallyClosed == old(isIntentionallyClosed)
      ensures handlerIds == old(handlerIds) && handlers == old(handlers) && deliveries == old(deliveries)
    {
      socket := Some(Closed);
      log := log + [Disconnected];
      if !isIntentionallyClosed {
        ScheduleReconnect();
      }
    }

    /** `onerror`: only `onError` runs; an error never schedules a reconnect by itself. */
    method OnError()
      requires Valid()
      modifies this`log
      ensures Valid()
      ensures log == old(log) + [Errored]
    {
      log := log + [Errored];
    }

    /**
     * The reconnect timer fires: the counter rises by one, `onReconnect` gets
     * the new value, and only then `connect()` dials again.
     */
    method OnReconnectTimer(created: bool)
      requires Valid()
      requires reconnectPending
      modifies this
      ensures Valid()
      ensures reconnectAttempts == old(reconnectAttempts) + 1 <= maxReconnectAttempts
      ensures log == old(log) + [Reconnecting(reconnectAttempts), Dialled(created)]
                   + (if !created && reconnectAttempts >= maxReconnectAttempts then [GaveUp] else [])
      ensures reconnectPending == (!created && reconnectAttempts < maxReconnectAttempts)
      ensures socket == if created then Some(Connecting) else old(socket)
      ensures isIntentionallyClosed == old(isIntentionallyClosed)
      ensures handlerIds == old(handlerIds) && handlers == old(handlers) && deliveries == old(deliveries)
    {
      reconnectPending := false;
      reconnectAttempts := reconnectAttempts + 1;
      log := log + [Reconnecting(reconnectAttempts)];
      Connect(created);
    }

    /** `close()`: marks the close as intentional, clears the pending timer and closes the socket. */
    method Close()
      requires Valid()
      modifies this
      ensures Valid()
      ensures isIntentionallyClosed && !reconnectPending
      ensures socket == if old(socket).Some? && old(socket).value < Closing then Some(Closing) else old(socket)
      ensures reconnectAttempts == old(reconnectAttempts) && log == old(log)
      ensures handlerIds == old(handlerIds) && handlers == old(handlers) && deliveries == old(deliveries)
    {
      isIntentionallyClosed := true;
      reconnectPending := false;
      if socket.Some? && socket.value < Closing {
        socket := Some(Closing);
      }
    }

    /** `getReadyState()`: the socket's state, or CLOSED when there is none. */
    function GetReadyState(): (r: int)
      reads this
      ensures socket == None ==> r == Closed
      ensures socket.Some? ==> Some(r) == socket
    {
      if socket.Some? then socket.value else Closed
    }

    /** `addMessageHandler(id, handler)`: a new id joins the end; an existing id keeps its place, with the new handler. */
    method AddMessageHandler(id: string, handler: H)
      requires Valid()
      modifies this`handlerIds, this`handlers
      ensures Valid()
      ensures handlers == old(handlers)[id := handler]
      ensures handlerIds == if id in old(handlers) then old(handlerIds) else old(handlerIds) + [id]
    {
      if id !in handlers {
        handlerIds := handlerIds + [id];
      }
      handlers := handlers[id := handler];
    }

    /** `removeMessageHandler(id)`: deletes that id only. */
    method RemoveMessageHandler(id: string)
      requires Valid()
      modifies this`handlerIds, this`handlers
      ensures Valid()
      ensures handlers == old(handlers) - {id}
      ensures handlerIds == Without(old(handlerIds), id)
    {
      WithoutKeepsDistinct(handlerIds, id);
      handlers := handlers - {id};
      handlerIds := Without(handlerIds, id);
    }

    /**
     * `onmessage`: a payload that parsed (`Some`) reaches every registered
     * handler once, in the Map's order; one that did not parse (`None`) reaches none.
     */
    method OnMessage(parsed: Option<Json>)
      requires Valid()
      modifies this`deliveries
      ensures Valid()
      ensures parsed == None ==> deliveries == old(deliveries)
      ensures parsed.Some? ==>
        && |deliveries| == |old(deliveries)| + |handlerIds|
        && deliveries[..|old(deliveries)|] == old(deliveries)
        && forall k :: 0 <= k < |handlerIds| ==>
             deliveries[|old(deliveries)| + k] == (handlers[handlerIds[k]], parsed.value)
    {
      if parsed.Some? {
        var data := parsed.value;
        ghost var before := deliveries;
        for k := 0 to |handlerIds|
          invariant |deliveries| == |before| + k
          invariant deliveries[..|before|] == before
          invariant forall j :: 0 <= j < k ==> deliveries[|before| + j] == (handlers[handlerIds[j]], data)
        {
          deliveries := deliveries + [(handlers[handlerIds[k]], data)];
        }
      }
    }
  }

  predicate Distinct(ids: seq<string>) {
    forall a, b :: 0 <= a < b < |ids| ==> ids[a] != ids[b]
  }

  /** The id list with `id` deleted. */
  function Without(ids: seq<string>, id: string): (r: seq<string>)
    ensures forall x :: x in r <==> x in ids && x != id
    decreases |ids|
  {
    if ids == [] then []
    else if ids[0] == id then Without(ids[1..], id)
    else [ids[0]] + Without(ids[1..], id)
  }

  lemma {:induction false} WithoutKeepsDistinct(ids: seq<string>, id: string)
    requires Distinct(ids)
    ensures Distinct(Without(ids, id))
    decreases |ids|
  {
    if ids != [] {
      assert Distinct(ids[1..]) by {
        forall a, b | 0 <= a < b < |ids[1..]| ensures ids[1..][a] != ids[1..][b] {
          assert ids[1..][a] == ids[a + 1] && ids[1..][b] == ids[b + 1];
        }
      }
      WithoutKeepsDistinct(ids[1..], id);
      if ids[0] != id {
        assert ids[0] !in ids[1..];
      }
    }
  }

  /** The message handed to `onUpdate`: each side's first 20 levels. */
  datatype BookUpdate = BookUpdate(bids: seq<Json>, asks: seq<Json>)

  /** Levels forwarded per side. */
  const DepthLimit: nat := 20

  function Take(s: seq<Json>, n: nat): seq<Json> {
    if |s| <= n then s else s[..n]
  }

  /**
   * The handler registered under "orderbook" (lines 151-166): `onUpdate` is
   * called exactly when the data is a non-null object whose `bids` and `asks`
   * are both arrays, with the first 20 entries of each in their original order.
   */
  function OrderbookUpdate(data: Json): (r: Option<BookUpdate>)
    ensures r.Some? <==>
      && data.JObject? && "bids" in data.fields && "asks" in data.fields
      && data.fields["bids"].JArray? && data.fields["asks"].JArray?
    ensures r.Some? ==>
      var bids, asks := data.fields["bids"].items, data.fields["asks"].items;
      && r.value.bids <= bids && r.value.asks <= asks
      && |r.value.bids| == (if |bids| < DepthLimit then |bids| else DepthLimit)
      && |r.value.asks| == (if |asks| < DepthLimit then |asks| else DepthLimit)
  {
    match data
    case JObject(fields) =>
      if "bids" in fields && "asks" in fields && fields["bids"].JArray? && fields["asks"].JArray? then
        Some(BookUpdate(Take(fields["bids"].items, DepthLimit), Take(fields["asks"].items, DepthLimit)))
      else None
    case _ => None
  }

  /** The one handler `createEnhancedBinanceConnection` registers. */
  datatype BinanceHandler = OrderbookHandler

  /**
   * `createEnhancedBinanceConnection`: a client for the Binance depth stream,
   * retrying every 3000 ms at most 10 times, with the "orderbook" handler
   * registered. The returned cleanup is the client's `Close`.
   */
  method CreateEnhancedBinanceConnection(created: bool) returns (ws: EnhancedWebSocket<BinanceHandler>)
    ensures fresh(ws) && ws.Valid()
    ensures ws.url == "wss://stream.binance.com:9443/ws/btcusdt@depth20@100ms"
    ensures ws.reconnectInterval == 3000 && ws.maxReconnectAttempts == 10
    ensures ws.handlerIds == ["orderbook"] && ws.handlers == map["orderbook" := OrderbookHandler]
    ensures ws.reconnectAttempts == 0 && ws.reconnectPending == !created
  {
    ws := new EnhancedWebSocket("wss://stream.binance.com:9443/ws/btcusdt@depth20@100ms", 3000, 10, created);
    ws.AddMessageHandler("orderbook", OrderbookHandler);
  }
}
