# STOCK_Polygon.io server core in Dafny

This project models the two Node.js servers of STOCK_Polygon.io and proves
properties of the model. The repository's React viewer is not modelled.

- **The live server**, `server/polygon-server.js`:
  - It receives trade events from the Polygon.io feed.
  - It keeps one trade buffer per registry symbol (JOBY, ACHR, SVIX, UVIX,
    VXX, WULF).
  - It turns the trades into 30-second OHLCV candles: a live candle
    (`isLive`) after every trade, preceded by a finalized candle when the
    period changes from a truthy (non-null, non-zero) period start.
  - It sends the candles to the viewers subscribed to the symbol.
- **The simulated-data server**, `server/server.js`:
  - Per symbol it runs a random walk that builds one 30-second candle.
  - Each tick either updates that candle or replaces it when the period
    changes.
  - It sends the completed or updated candle to the symbol's viewers.
  - A new subscriber gets the current candle once, as a catch-up.

Both servers use the same subscription-directory code, each on a directory
of its own (polygon-server.js:15, server.js:12). `stockRooms` maps each symbol
to its room, the connections subscribed to it in joining order. Each
connection also has a `currentStock`. A candle goes only to the room members
whose socket is OPEN.

Modules, one per file:

| module | file | contents |
|---|---|---|
| `Market` | `market.dfy` | registry, period alignment, fixed-point prices, `toFixed(2)` rounding, the candle record |
| `Ohlcv` | `ohlcv.dfy` | trades and the open/high/low/close/volume of a trade list |
| `Aggregator` | `aggregator.dfy` | the trade buffer, the step one trade makes on it, the `TradeBuffer` class |
| `Subscriptions` | `subscriptions.dfy` | rooms, OPEN fan-out, subscribe/close, the `Directory` class |
| `Upstream` | `upstream.dfy` | upstream messages, the `ev` dispatch, `subscribeToStocks` |
| `PolygonServer` | `polygon_server.dfy` | the live server as a class over buffer objects |
| `Synthetic` | `synthetic.dfy` | the generator step, base prices, the simulated server as a class |

How the model represents the source:

- **Prices** are fixed point: 1 unit is 1/10000 of a currency unit, so 6.50
  is `65000`.
- **`parseFloat(x.toFixed(2))`** is `Round2`, which rounds half up to a
  multiple of 100 units.
- **Timestamps and the clock** are `nat` milliseconds.
- **`null`** is `None`. **JavaScript truthiness** of a period start is
  `Truthy`: present and non-zero.
- **Connections** are `ConnId` numbers. The connections whose `readyState` is
  OPEN are a set passed to each sending operation.
- **Sends are returned** in send order: each `ws.send` of a candle is a
  `Delivery`, and each upstream request is a `Request`.
- **`Math.random()`** is a draw `u` with `0 <= u < 10000`, standing for
  `u / 10000`.
- **Mutable objects are classes**: a trade buffer, a stock record, the
  directory and each server. Their methods update fields in place, as the
  JavaScript does. Each method is proved equal to a value-level step
  function (`IngestStep`, `TradeStep`, `RunEffects`, `GenerateStep`,
  `SubscribeRooms`, `DetachAll`), and the properties are proved as lemmas
  about those functions.

The model keeps these behaviours of the code:

- A trade from a period older than the buffer's resets the buffer to that
  trade, because the test at polygon-server.js:137 is `!==`.
- The finalized candle includes the trade that starts the new period, because
  the push at :126 comes before the test at :137.
- A buffer whose period starts at 0 is never finalized, because the test at
  :139 is on truthiness. With trades at 0 s, 10 s and 35 s, the third trade
  sends only the new live candle (`Aggregator.ScenarioFromPeriodZero`). The
  same trades one period later send the finalized 30 s candle, which already
  holds the third trade, and then the live candle
  (`Aggregator.ScenarioFromLaterPeriod`).
- A viewer's `error` event (polygon-server.js:271-273, server.js:163-165)
  only logs; the viewer stays in its room until its `close` event.
- In server.js the high and low take the new price unrounded, while the close
  takes it rounded. A candle can therefore close above its high
  (`Synthetic.CloseMayExceedHigh`).

## Model

| member | source | states |
|---|---|---|
| Market.PeriodStart | server/polygon-server.js:135 | the aligned period start is a multiple of 30000 and the timestamp lies in [start, start + 30000) |
| Market.PeriodStartUnique | server/server.js:45 | any multiple of 30000 within 30000 below a time is that time's period start |
| Market.Round2 | server/polygon-server.js:171-174 | the rounded price is a whole number of cents and lies within half a cent of the price |
| Market.Round2Monotone | server/polygon-server.js:171-174 | rounding keeps the order of prices, so rounded extremes bound all rounded prices |
| Market.Round2OfCents | server/server.js:69-72 | a price already in whole cents is unchanged by rounding |
| Ohlcv.MaxPrice | server/polygon-server.js:164 | `Math.max(...prices)` of a non-empty list is at least every price and equal to one of them |
| Ohlcv.MinPrice | server/polygon-server.js:165 | `Math.min(...prices)` of a non-empty list is at most every price and equal to one of them |
| Ohlcv.TotalVolume | server/polygon-server.js:166 | no contract of its own: the `reduce` sum of the trades' sizes; its properties are in TotalVolumeConcat and CandleOfTrades |
| Ohlcv.TotalVolumeConcat | server/polygon-server.js:166 | the `reduce` sum of volumes over two lists joined is the sum of the two sums |
| Ohlcv.Summarize | server/polygon-server.js:157-176 | no contract of its own: the candle `createCandlestick` computes (and, flagged live, `updateCurrentCandle` at :182-201); its properties are in CandleOfTrades |
| Ohlcv.CandleOfTrades | server/polygon-server.js:157-176 | no candle for an empty list; otherwise open = first price, close = last price, high and low the rounded extreme prices (each attained, every rounded price between them, low <= open, close <= high), volume = sum of sizes, symbol, period and live flag as given |
| Aggregator.IngestTrades | server/polygon-server.js:126-150 | after a trade the buffer's period is the trade's period; a same-period trade is appended after the unchanged earlier trades; a trade of any other period, older or newer, leaves exactly itself |
| Aggregator.IngestKeepsBuffer | server/polygon-server.js:126-150 | after every trade the running volume equals the sum of the stored trades' sizes, every stored trade lies in the buffer's period, and that period is the trade's |
| Aggregator.IngestEmits | server/polygon-server.js:137-154 | one or two candles per trade; the last is the one live candle, for the trade's period, over the buffer afterwards; a first, non-live candle comes exactly when the period changes from a truthy start, stamped with the old period and computed over the old trades plus the new one |
| Aggregator.FinalizedCoversTrigger | server/polygon-server.js:126-141 | a finalized candle closes at the triggering trade's price and counts the old volume plus the triggering trade's size |
| Aggregator.SamePeriodTrades | server/polygon-server.js:126-151 | a run of trades in one new period leaves exactly that run in the buffer, in order, with that period |
| Aggregator.SamePeriodLive | server/polygon-server.js:182-204 | after such a run the last candle sent is the live candle over exactly its trades |
| Aggregator.EmptyBufferValid | server/polygon-server.js:23-29 | the initial empty buffer satisfies the buffer invariant |
| Aggregator.ScenarioFromPeriodZero | server/polygon-server.js:137-154 | trades at 0 s, 10 s and 35 s send live candles only: period 0 is never finalized |
| Aggregator.ScenarioFromLaterPeriod | server/polygon-server.js:126-154 | the same trades at 30 s, 40 s and 65 s send the finalized 30 s candle (close 6.60, volume 350, including the third trade), then the live 60 s candle |
| Aggregator.TradeBuffer.constructor | server/polygon-server.js:24-28 | a new buffer has no trades, a null period and volume 0 |
| Aggregator.IngestStep | server/polygon-server.js:125-154 | no contract of its own: one trade's push, period test, finalize-and-reset and live candle; its properties are in IngestTrades, IngestKeepsBuffer, IngestEmits and FinalizedCoversTrigger, and TakeTrade is proved equal to it |
| Subscriptions.OpenSendsCount | server/polygon-server.js:212-216 | each OPEN room member gets the candle as often as it is in the room, a closed one never, and nobody outside the room gets anything |
| Subscriptions.OpenSends | server/polygon-server.js:212-216 | no contract of its own: the OPEN filter over a room in room order; its properties are in OpenSendsCount and OpenSendsConcat |
| Subscriptions.FanOut | server/polygon-server.js:207-216 | no contract of its own: `sendToClients`, nothing without a room; Directory.SendToClients is proved equal to it |
| Subscriptions.OpenSendsConcat | server/polygon-server.js:212-216 | sends follow room order: a room split in two sends to the first part, then the second |
| Subscriptions.FanOutAllConcat | server/polygon-server.js:139-154 | candles sent one after another yield their sends one after another |
| Subscriptions.FanOutAll | server/polygon-server.js:139-154 | no contract of its own: the candles of one trade sent one after another; its property is FanOutAllConcat |
| Subscriptions.IndexOf | server/polygon-server.js:235 | `indexOf` gives -1 exactly when the connection is absent, and otherwise its first position |
| Subscriptions.RemoveAt | server/polygon-server.js:237 | no contract of its own: `splice(index, 1)`; its property is SpliceIsWithout |
| Subscriptions.SpliceIsWithout | server/polygon-server.js:235-237 | splicing out the found position of a connection that occurs once removes that connection and keeps the rest in order |
| Subscriptions.Detach | server/polygon-server.js:233-240 | no contract of its own: the unsubscribe step as written; DetachIsDetachAll proves it equal to DetachAll |
| Subscriptions.DetachAll | server/polygon-server.js:259-269 | no contract of its own: the connection taken out of every room; its properties are in CloseRemovesOnlyIt and DetachIsDetachAll, and Directory.OnClose is proved equal to it |
| Subscriptions.DetachIsDetachAll | server/polygon-server.js:233-240 | under the directory invariant, removing the connection from its current room removes it from every room |
| Subscriptions.CloseRemovesOnlyIt | server/server.js:150-161 | a close keeps the invariant and the room keys, leaves the connection in no room, keeps the other entries of its room in order, and changes no other room |
| Subscriptions.Attach | server/polygon-server.js:242-249 | no contract of its own: a registry symbol gets a room if needed and the connection is appended; its properties are in SubscribeRoomsAt and SubscribeMoves |
| Subscriptions.SubscribeRooms | server/polygon-server.js:231-252 | no contract of its own: unsubscribe then subscribe; its properties are in SubscribeRoomsAt, SubscribeMoves and SubscribeIdempotent, and Directory.OnMessage is proved equal to it |
| Subscriptions.SubscribeRoomsAt | server/polygon-server.js:242-249 | after a subscribe to a registry symbol, that room is its old entries without the connection, then the connection; every other room is its old entries without the connection |
| Subscriptions.SubscribeMoves | server/polygon-server.js:231-252 | a subscribe keeps the invariant; the connection ends up last and only in the requested room if the symbol is in the registry, and in no room otherwise; a room is created only for a registry symbol; every other entry stays in order |
| Subscriptions.SubscribeIdempotent | server/server.js:116-134 | for any rooms, subscribing twice to the same symbol leaves the rooms as one subscribe does, so the connection is there once |
| Subscriptions.Directory.constructor | server/polygon-server.js:15 | the directory starts with no rooms and no current symbols |
| Subscriptions.Directory.OnMessage | server/polygon-server.js:231-252 | a subscribe moves the connection as `SubscribeRooms` describes and records the requested symbol even if it is rejected; any other action changes nothing; the invariant is kept |
| Subscriptions.Directory.OnClose | server/polygon-server.js:259-269 | a close takes the connection out of every room (`DetachAll`) and keeps the invariant |
| Subscriptions.Directory.SendToClients | server/polygon-server.js:207-220 | one send per OPEN room member in room order, nothing when the symbol has no room |
| Upstream.TradeSubscription | server/polygon-server.js:98-101 | no contract of its own: the request `{action: 'subscribe', params: 'T.<symbol>'}` |
| Upstream.SubscribeToStocks | server/polygon-server.js:95-103 | no contract of its own: SubscribeAll over the registry; DispatchCases states its six requests in registry order |
| Upstream.SubscribeAll | server/polygon-server.js:97-103 | one `subscribe` request `T.<symbol>` per symbol, in order |
| Upstream.SendAll | server/polygon-server.js:97-101 | the requests become upstream sends, one each, in order |
| Upstream.Dispatch | server/polygon-server.js:55-77 | no contract of its own: the `switch (message.ev)` as a list of effects; its properties are in DispatchCases |
| Upstream.DispatchBatch | server/polygon-server.js:54-78 | no contract of its own: the `forEach` over a batch; its properties are in BatchInOrder and BatchRequests |
| Upstream.DispatchCases | server/polygon-server.js:54-77 | an `auth_success` status sends `subscribe T.<sym>` for the six registry symbols in registry order; any other status, a quote and an unknown tag do nothing; a trade is handed on unchanged |
| Upstream.BatchInOrder | server/polygon-server.js:54-78 | over a batch the aggregator receives exactly the batch's trades in batch order, and six requests are sent per successful login |
| Upstream.BatchRequests | server/polygon-server.js:54-103 | the requests sent for a batch are the six `subscribe T.<symbol>` in registry order, repeated once per successful login, in batch order |
| PolygonServer.InitialBuffersValid | server/polygon-server.js:19-29 | the initial buffers exist for exactly the registry symbols and each is valid |
| PolygonServer.TradeStep | server/polygon-server.js:114-155 | no contract of its own: `handleTradeData` on the table of buffers; its properties are in UnknownSymbolIgnored and TradeStepKeepsBuffers, and Server.HandleTradeData is proved equal to it |
| PolygonServer.UnknownSymbolIgnored | server/polygon-server.js:120-123 | a trade for a symbol outside the registry changes no buffer and sends nothing |
| PolygonServer.TradeStepKeepsBuffers | server/polygon-server.js:114-155 | a trade keeps every buffer valid, changes only its own symbol's buffer, sets that buffer's period to the trade's period, and sends at least the live candle |
| PolygonServer.ApplyEffect | server/polygon-server.js:55-77 | no contract of its own: one effect on the buffers, requests and sends |
| PolygonServer.RunEffects | server/polygon-server.js:54-78 | no contract of its own: effects applied in order; its properties are in HandleBatch, and Server.OnUpstreamMessage and Server.HandleMessage are proved equal to it |
| PolygonServer.HandleBatch | server/polygon-server.js:49-78 | a batch keeps every buffer valid, and the upstream requests are exactly the dispatched ones: the six subscriptions in registry order, repeated once per successful login |
| PolygonServer.NewBuffers | server/polygon-server.js:23-29 | one fresh empty buffer object per registry symbol, no object shared |
| PolygonServer.Server.constructor | server/polygon-server.js:14-29 | the server starts valid, with empty buffers for the registry symbols and no viewers |
| PolygonServer.Server.CreateCandlestick | server/polygon-server.js:157-180 | sends the finalized candle over the buffer's trades to the room's OPEN members, nothing for an empty buffer |
| PolygonServer.Server.UpdateCurrentCandle | server/polygon-server.js:182-205 | sends the live candle over the buffer's trades to the room's OPEN members, nothing for an empty buffer |
| PolygonServer.Server.HandleTradeData | server/polygon-server.js:114-155 | updates the buffers in place exactly as `TradeStep` and sends its candles, in order, to the OPEN members of the symbol's room |
| PolygonServer.Server.TakeTrade | server/polygon-server.js:125-154 | the push, the period test, the finalize-and-reset and the live update leave the buffer as `IngestStep` does and send its candles |
| PolygonServer.Server.SubscribeToStocks | server/polygon-server.js:95-103 | the `forEach` sends `subscribe T.<symbol>` for each registry symbol in registry order |
| PolygonServer.Server.OnUpstreamMessage | server/polygon-server.js:54-78 | the messages of a batch are handled in order and keep the server valid; the buffers, requests and sends are those of running `DispatchBatch` |
| PolygonServer.Server.HandleMessage | server/polygon-server.js:55-77 | one message extends the buffers, requests and sends as its dispatched effects do, and keeps the server valid |
| Synthetic.BasePriceForStock | server/server.js:27-37 | every starting price is a whole number of cents, at least 0.10, and 10.00 for a symbol outside the table |
| Synthetic.RegistryHasBasePrices | server/server.js:28-35 | every registry symbol has its own entry in the table |
| Synthetic.RolloverDelta | server/server.js:63 | no contract of its own: `(Math.random() - 0.5) * 4` on the price grid; its range is in DrawRanges |
| Synthetic.RolloverVolume | server/server.js:73 | no contract of its own: `Math.floor(Math.random() * 10000) + 1000`; its range is in DrawRanges |
| Synthetic.IntraDelta | server/server.js:79 | no contract of its own: `(Math.random() - 0.5) * 2` on the price grid; its range is in DrawRanges |
| Synthetic.IntraVolume | server/server.js:85 | no contract of its own: `Math.floor(Math.random() * 500)`; its range is in DrawRanges |
| Synthetic.DrawRanges | server/server.js:63-85 | the draws give a change in [-2.00, 2.00) and a volume in [1000, 10999] on a new candle, and a change in [-1.00, 1.00) and an added volume in [0, 499] within a period |
| Synthetic.NextPrice | server/server.js:64 | the new price is at least 0.10, and it is either the floor or the old price plus the change |
| Synthetic.InitialStockValid | server/server.js:20-24 | a symbol's initial record satisfies the record invariant |
| Synthetic.RollsOver | server/server.js:48 | no contract of its own: no truthy start, or a start other than the clock's period; PeriodZeroAlwaysRollsOver shows a start of 0 always rolls over |
| Synthetic.GenerateStep | server/server.js:44-98 | no contract of its own: one tick on a symbol's record; its properties are in GenerateKeepsInv, RolloverStep, IntraStep and CloseMayExceedHigh, and Server.Advance is proved equal to it |
| Synthetic.GenerateKeepsInv | server/server.js:44-98 | after every tick the record invariant holds (low <= open <= high, low at least 0.10, close = rounded base price); the period start is the clock's period; the base price is the generated price, at least 0.10 |
| Synthetic.RolloverStep | server/server.js:48-75 | on a period change the completed candle, if any, is sent unchanged, and the new candle is not sent; the new candle has the new period, open = high = low = close = the rounded new price, and a volume in [1000, 10999]; the price moves by less than 2.00 unless floored |
| Synthetic.IntraStep | server/server.js:76-97 | within a period open, timestamp and symbol stay; close is the rounded new price; high and low become the max and min with the new price; volume grows by [0, 499]; the updated candle is sent; the price moves by less than 1.00 unless floored |
| Synthetic.PeriodZeroAlwaysRollsOver | server/server.js:45-48 | in the first period (start 0, falsy) every tick rolls over and sends the previous candle |
| Synthetic.CloseMayExceedHigh | server/server.js:82-84 | a valid candle moved by +0.0076 gets high 6.5076 and close 6.51, so its close exceeds its high |
| Synthetic.InitialStocksValid | server/server.js:19-25 | the initial records exist for exactly the registry symbols and each is valid |
| Synthetic.Generate | server/server.js:40-42 | no contract of its own: a symbol without data is a no-op, otherwise GenerateStep; its properties are in GenerateKeepsStocks |
| Synthetic.Apply | server/server.js:62-86 | no contract of its own: the tick's record written back for its symbol; its properties are in GenerateKeepsStocks |
| Synthetic.GenerateKeepsStocks | server/server.js:40-42 | a symbol without data changes nothing and sends nothing; any tick keeps every record valid and changes only its own symbol's record |
| Synthetic.CatchUp | server/server.js:136-140 | no contract of its own: the one-off send of the current candle to a new subscriber; its properties are in CatchUpOnlyToSubscriber, and Server.OnClientMessage is proved to send it |
| Synthetic.CatchUpOnlyToSubscriber | server/server.js:136-140 | the catch-up is at most one send, only to the subscriber, carrying the symbol's current candle; it is sent exactly when the subscribe is to a registry symbol with a candle, and never for an unknown symbol |
| Synthetic.StockData.constructor | server/server.js:20-24 | a new record has no candle, a null start and the symbol's base price |
| Synthetic.NewStocks | server/server.js:19-25 | one fresh record object per registry symbol, each initial, no object shared |
| Synthetic.Server.constructor | server/server.js:12-25 | the server starts valid, with initial records for the registry symbols and no viewers |
| Synthetic.Server.GenerateCandlestickData | server/server.js:40-99 | updates the records in place exactly as `Generate` and sends the tick's candle, if any, to the room's OPEN members |
| Synthetic.Server.Advance | server/server.js:44-98 | the field-by-field rollover or update leaves the record as `GenerateStep` does and sends its candle |
| Synthetic.Server.OnClientMessage | server/server.js:116-143 | a subscribe moves the connection as `SubscribeRooms` describes; the catch-up is `CatchUp` of the current records; any other action changes nothing |

## Left out

- WebSockets, `JSON.parse`/`JSON.stringify` and the `catch` blocks around parsing are left out. Messages in and sends out are already-parsed values.
- The upstream `open` handler's `auth` request (polygon-server.js:39-47), the `close` handler's 5-second reconnect and the `error` log are left out. They are connection lifecycle and timers.
- The `setInterval` drivers (server.js:102-105) and the stats log (server.js:169-178) are left out. Each tick is one call of `GenerateCandlestickData` with the clock value as a parameter.
- `Math.random()` is left out. Each call is a draw parameter at 1/10000 resolution, not a real in [0, 1).
- Floating point is left out. Prices are exact at 1/10000, and `toFixed(2)` is round half up on that grid. The binary rounding of floats and their sums of fractions are not modelled.
- Environment variables, the API-key choice, the `require('./server.js')` fallback and the signal handlers are left out. They are process start-up and shutdown.
- Console logging is left out.
- src/App.js is not part of this model. It is the viewer UI.
- `BasePriceForStock`: a lookup of an inherited object key such as `toString` is not modelled. Any symbol outside the table gets 10.00.
- Synthetic.Server.Advance: the in-place writes to the fields of `currentCandle` are modelled as replacing the candle value. Connections hold no reference to a candle, because they receive serialized copies.
- PolygonServer.Server.HandleTradeData: it requires only that the buffer objects be distinct, not the whole server invariant. Its callers (`HandleMessage`) keep the invariant through `TradeStepKeepsBuffers`.
- Synthetic.Server.GenerateCandlestickData: it requires the two draws to be in range and the records to be distinct. The record invariant is kept through `GenerateKeepsStocks`.
- Connection identity is modelled, but a reused `ConnId` after close is not distinguished from the old connection.
