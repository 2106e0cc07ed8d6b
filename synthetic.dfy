/** The simulated-data server (server/server.js): per registry symbol a
    random-walk price and a 30-second candle that is updated every tick, sent
    to the symbol's OPEN viewers, and replaced when the period changes; plus
    the subscribe handler's one-off catch-up send. The clock value and the two
    `Math.random()` draws are parameters. */
module Synthetic {
  import opened Market
  import opened Sequences
  import opened Subscriptions

  /** The price floor of the random walk, 0.10. */
  const MIN_PRICE: Price := 1000

  /** The base price of a symbol outside the table, 10.00. */
  const DEFAULT_BASE_PRICE: Price := 100000

  /** `getBasePriceForStock`: the table of starting prices, 10.00 otherwise. */
  function BasePriceForStock(stock: string): (p: Price)
    ensures p >= MIN_PRICE && p % CENT == 0
    ensures !IsAvailable(stock) ==> p == DEFAULT_BASE_PRICE
  {
    if stock == "JOBY" then 65000
    else if stock == "ACHR" then 42500
    else if stock == "SVIX" then 458000
    else if stock == "UVIX" then 234000
    else if stock == "VXX" then 389000
    else if stock == "WULF" then 87500
    else DEFAULT_BASE_PRICE
  }

  /** Every registry symbol has a starting price of its own in the table. */
  lemma RegistryHasBasePrices()
    ensures forall i :: 0 <= i < |AVAILABLE_STOCKS| ==> BasePriceForStock(AVAILABLE_STOCKS[i]) != DEFAULT_BASE_PRICE
  {
  }

  /** `Math.random()` is a draw `u` standing for `u / RANDOM_SCALE`: the
      model samples the unit interval in steps of 1/10000. */
  const RANDOM_SCALE: nat := 10000

  predicate IsDraw(u: nat) {
    u < RANDOM_SCALE
  }

  /** `(Math.random() - 0.5) * 4` in price units; a draw step and a price unit
      are both 1/10000, so the scaling is exact. */
  function RolloverDelta(u: nat): int {
    (u - RANDOM_SCALE / 2) * 4 * DOLLAR / RANDOM_SCALE
  }

  /** `(Math.random() - 0.5) * 2` in price units. */
  function IntraDelta(u: nat): int {
    (u - RANDOM_SCALE / 2) * 2 * DOLLAR / RANDOM_SCALE
  }

  /** `Math.floor(Math.random() * 10000) + 1000`. */
  function RolloverVolume(u: nat): nat {
    u * 10000 / RANDOM_SCALE + 1000
  }

  /** `Math.floor(Math.random() * 500)`. */
  function IntraVolume(u: nat): nat {
    u * 500 / RANDOM_SCALE
  }

  /** The draws give a change of less than 2.00 either way and a volume in
      [1000, 10999] on a new candle, and a change of less than 1.00 either way
      and an added volume in [0, 499] within a period. */
  lemma DrawRanges(u: nat)
    requires IsDraw(u)
    ensures -2 * DOLLAR <= RolloverDelta(u) < 2 * DOLLAR
    ensures -(DOLLAR as int) <= IntraDelta(u) < DOLLAR
    ensures 1000 <= RolloverVolume(u) <= 10999
    ensures IntraVolume(u) <= 499
  {
  }

  /** `Math.max(0.1, base + change)`. */
  function NextPrice(base: Price, delta: int): (p: Price)
    ensures p >= MIN_PRICE
    ensures p == MIN_PRICE || p == base + delta
    ensures p >= base + delta
  {
    if base + delta < MIN_PRICE then MIN_PRICE else base + delta
  }

  /** `{currentCandle, candleStartTime, basePrice}` of one symbol. */
  datatype StockState = StockState(currentCandle: Option<Candle>, candleStartTime: Option<nat>, basePrice: Price)

  function InitialStock(symbol: string): StockState {
    StockState(None, None, BasePriceForStock(symbol))
  }

  /** `!candleStartTime || currentMinute !== candleStartTime`. */
  predicate RollsOver(start: Option<nat>, minute: nat) {
    !Truthy(start) || start.value != minute
  }

  /** The state after one tick and the candle sent to the room, if any. */
  datatype Tick = Tick(stock: StockState, broadcast: Option<Candle>)

  function Max(a: Price, b: Price): Price {
    if a >= b then a else b
  }

  function Min(a: Price, b: Price): Price {
    if a <= b then a else b
  }

  /** `generateCandlestickData` for a symbol that has data, at clock `now`
      with draws `u1` (price) and `u2` (volume). On a change of period the
      completed candle, if there is one, is sent as it is, and a new flat
      candle replaces it without being sent; within a period the candle moves
      to the new price and is sent. The high and low take the new price
      unrounded while the close takes it rounded. */
  function GenerateStep(symbol: string, st: StockState, now: nat, u1: nat, u2: nat): Tick {
    var minute := PeriodStart(now);
    if RollsOver(st.candleStartTime, minute) then
      var price := NextPrice(st.basePrice, RolloverDelta(u1));
      var flat := Candle(symbol, minute, Round2(price), Round2(price), Round2(price), Round2(price),
                          RolloverVolume(u2), false);
      Tick(StockState(Some(flat), Some(minute), price), st.currentCandle)
    else if st.currentCandle.Some? then
      var price := NextPrice(st.basePrice, IntraDelta(u1));
      var c := st.currentCandle.value;
      var moved := c.(close := Round2(price), high := Max(c.high, price), low := Min(c.low, price),
                      volume := c.volume + IntraVolume(u2));
      Tick(StockState(Some(moved), st.candleStartTime, price), Some(moved))
    else Tick(st, None)
  }

  /** What every tick keeps: the base price is at least the floor; there is a
      candle exactly when there is a period start; the candle belongs to the
      symbol, is stamped with the period start, opens between its low and
      high, has a low at least the floor, and closes at the rounded base
      price. */
  predicate StockInv(symbol: string, st: StockState) {
    && st.basePrice >= MIN_PRICE
    && (st.currentCandle.Some? <==> st.candleStartTime.Some?)
    && (st.currentCandle.Some? ==>
          var c := st.currentCandle.value;
          && c.symbol == symbol
          && c.timestamp == st.candleStartTime.value
          && c.timestamp % CANDLE_INTERVAL == 0
          && MIN_PRICE <= c.low <= c.open <= c.high
          && c.close == Round2(st.basePrice))
  }

  lemma InitialStockValid(symbol: string)
    ensures StockInv(symbol, InitialStock(symbol))
  {
  }

  lemma Round2AtLeastFloor(p: Price)
    requires p >= MIN_PRICE
    ensures Round2(p) >= MIN_PRICE
  {
    Round2Monotone(MIN_PRICE, p);
    Round2OfCents(MIN_PRICE);
  }

  /** After every tick the invariant holds, the period start is the start of
      the clock's period, and the base price is the price just generated, at
      least the floor, whose rounding is the candle's close. */
  lemma GenerateKeepsInv(symbol: string, st: StockState, now: nat, u1: nat, u2: nat)
    requires StockInv(symbol, st)
    ensures var r := GenerateStep(symbol, st, now, u1, u2).stock;
      && StockInv(symbol, r)
      && r.candleStartTime == Some(PeriodStart(now))
      && r.basePrice >= MIN_PRICE
      && r.currentCandle.Some? && r.currentCandle.value.close == Round2(r.basePrice)
  {
    var minute := PeriodStart(now);
    if RollsOver(st.candleStartTime, minute) {
      Round2AtLeastFloor(NextPrice(st.basePrice, RolloverDelta(u1)));
    } else {
      var price := NextPrice(st.basePrice, IntraDelta(u1));
      assert st.currentCandle.Some?;
    }
  }

  /** On a change of period the completed candle is sent unchanged (nothing
      when there was none), and the new candle is flat at the rounded new
      price, stamped with the new period, with a volume in [1000, 10999], and
      the price moved by less than 2.00 unless the floor was hit. */
  lemma RolloverStep(symbol: string, st: StockState, now: nat, u1: nat, u2: nat)
    requires IsDraw(u1) && IsDraw(u2)
    requires RollsOver(st.candleStartTime, PeriodStart(now))
    ensures var t := GenerateStep(symbol, st, now, u1, u2);
      var c := t.stock.currentCandle.value;
      && t.stock.currentCandle.Some?
      && t.broadcast == st.currentCandle
      && c.symbol == symbol && c.timestamp == PeriodStart(now) && !c.isLive
      && c.open == c.high && c.high == c.low && c.low == c.close && c.close == Round2(t.stock.basePrice)
      && 1000 <= c.volume <= 10999
      && (t.stock.basePrice == MIN_PRICE || st.basePrice - 2 * DOLLAR <= t.stock.basePrice < st.basePrice + 2 * DOLLAR)
  {
    DrawRanges(u1);
    DrawRanges(u2);
  }

  /** Within a period the candle keeps its open and timestamp, closes at the
      rounded new price, stretches its high and low to the new price, gains
      [0, 499] in volume, and is sent; the price moved by less than 1.00
      unless the floor was hit. */
  lemma IntraStep(symbol: string, st: StockState, now: nat, u1: nat, u2: nat)
    requires IsDraw(u1) && IsDraw(u2)
    requires !RollsOver(st.candleStartTime, PeriodStart(now)) && st.currentCandle.Some?
    ensures var t := GenerateStep(symbol, st, now, u1, u2);
      var c, c' := st.currentCandle.value, t.stock.currentCandle.value;
      var price := t.stock.basePrice;
      && t.stock.currentCandle.Some?
      && t.broadcast == Some(c')
      && c'.open == c.open && c'.timestamp == c.timestamp && c'.symbol == c.symbol
      && c'.close == Round2(price)
      && c'.high >= c.high && c'.high >= price && (c'.high == c.high || c'.high == price)
      && c'.low <= c.low && c'.low <= price && (c'.low == c.low || c'.low == price)
      && c.volume <= c'.volume <= c.volume + 499
      && t.stock.candleStartTime == st.candleStartTime
      && (price == MIN_PRICE || st.basePrice - DOLLAR <= price < st.basePrice + DOLLAR)
  {
    DrawRanges(u1);
    DrawRanges(u2);
  }

  /** A clock in the first period (start 0) rolls over on every tick, since a
      zero start is falsy: each tick sends the previous candle and starts a new
      one. */
  lemma PeriodZeroAlwaysRollsOver(symbol: string, st: StockState, now: nat, u1: nat, u2: nat)
    requires now < CANDLE_INTERVAL
    ensures RollsOver(st.candleStartTime, PeriodStart(now))
    ensures GenerateStep(symbol, st, now, u1, u2).broadcast == st.currentCandle
  {
    assert PeriodStart(now) == 0;
  }

  /** Because the close is rounded but the high is not, a sent candle can
      close above its high: a candle with high 6.50 and base 6.50 that moves
      by +0.0076 gets high 6.5076 and close 6.51. */
  lemma CloseMayExceedHigh()
    ensures var st := StockState(Some(Candle("JOBY", 30000, 65000, 65000, 65000, 65000, 1000, false)),
                                 Some(30000), 65000);
      var t := GenerateStep("JOBY", st, 30000, 5038, 0);
      && StockInv("JOBY", st)
      && t.broadcast.Some?
      && t.broadcast.value.high == 65076
      && t.broadcast.value.close == 65100
      && t.broadcast.value.close > t.broadcast.value.high
  {
    assert IntraDelta(5038) == 76 by {
      assert (5038 - 5000) * 2 * 10000 == 760000;
    }
    Round2OfCents(65000);
    assert Round2(65076) == 65100;
  }

  /** `candlestickData`: symbol to state. */
  type StockMap = map<string, StockState>

  function InitialStocks(): StockMap {
    map s | s in AVAILABLE_STOCKS :: InitialStock(s)
  }

  /** There is data for exactly the registry symbols, each keeping `StockInv`. */
  predicate StocksInv(st: StockMap) {
    && st.Keys == set s | s in AVAILABLE_STOCKS
    && (forall s :: s in st ==> StockInv(s, st[s]))
  }

  lemma InitialStocksValid()
    ensures StocksInv(InitialStocks())
  {
    forall s | s in InitialStocks()
      ensures StockInv(s, InitialStocks()[s])
    {
      InitialStockValid(s);
    }
  }

  /** `generateCandlestickData` on values: a symbol without data is a no-op. */
  function Generate(st: StockMap, symbol: string, now: nat, u1: nat, u2: nat): Tick {
    if symbol in st then GenerateStep(symbol, st[symbol], now, u1, u2) else Tick(InitialStock(symbol), None)
  }

  function Apply(st: StockMap, symbol: string, t: Tick): StockMap {
    if symbol in st then st[symbol := t.stock] else st
  }

  /** A symbol without data changes nothing and sends nothing; any tick keeps
      every symbol's invariant and changes only its own symbol. */
  lemma GenerateKeepsStocks(st: StockMap, symbol: string, now: nat, u1: nat, u2: nat)
    requires StocksInv(st)
    ensures var t := Generate(st, symbol, now, u1, u2);
      var r := Apply(st, symbol, t);
      && StocksInv(r)
      && (symbol !in st ==> r == st && t.broadcast.None?)
      && (forall s :: s in st && s != symbol ==> r[s] == st[s])
  {
    if symbol in st {
      GenerateKeepsInv(symbol, st[symbol], now, u1, u2);
    }
  }

  /** The catch-up send of the subscribe handler: the symbol's current candle
      to the subscribing connection alone, when the request is a subscribe to
      a registry symbol that has data and a candle. */
  function CatchUp(st: StockMap, c: ConnId, req: ClientRequest): seq<Delivery> {
    if req.action == "subscribe" && IsAvailable(req.symbol) && req.symbol in st
       && st[req.symbol].currentCandle.Some?
    then [Delivery(c, st[req.symbol].currentCandle.value)]
    else []
  }

  /** The catch-up goes to the subscriber only, at most once, and carries the
      current candle; an unknown symbol gets nothing. */
  lemma CatchUpOnlyToSubscriber(st: StockMap, c: ConnId, req: ClientRequest)
    ensures var out := CatchUp(st, c, req);
      && |out| <= 1
      && (forall d :: d in out ==> d.to == c && req.symbol in st && st[req.symbol].currentCandle == Some(d.candle))
      && (!IsAvailable(req.symbol) || req.action != "subscribe" ==> out == [])
      && (req.action == "subscribe" && req.symbol in st && IsAvailable(req.symbol) && st[req.symbol].currentCandle.Some? ==> |out| == 1)
  {
  }

  /** The mutable `stockData` record of one symbol. */
  class StockData {
    var currentCandle: Option<Candle>
    var candleStartTime: Option<nat>
    var basePrice: Price

    function Value(): StockState
      reads this
    {
      StockState(currentCandle, candleStartTime, basePrice)
    }

    constructor (symbol: string)
      ensures Value() == InitialStock(symbol)
    {
      currentCandle, candleStartTime, basePrice := None, None, BasePriceForStock(symbol);
    }
  }

  /** The `forEach` over the registry that gives every symbol a fresh record
      of its own. */
  method NewStocks() returns (m: map<string, StockData>)
    ensures forall s :: s in m <==> s in AVAILABLE_STOCKS
    ensures forall s :: s in m ==> fresh(m[s]) && m[s].Value() == InitialStock(s)
    ensures forall s, t :: s in m && t in m && s != t ==> m[s] != m[t]
  {
    m := map[];
    for i := 0 to |AVAILABLE_STOCKS|
      invariant forall s :: s in m <==> s in AVAILABLE_STOCKS[..i]
      invariant forall s :: s in m ==> fresh(m[s]) && m[s].Value() == InitialStock(s)
      invariant forall s, t :: s in m && t in m && s != t ==> m[s] != m[t]
    {
      var d := new StockData(AVAILABLE_STOCKS[i]);
      PrefixStep(AVAILABLE_STOCKS, i);
      m := m[AVAILABLE_STOCKS[i] := d];
    }
    assert AVAILABLE_STOCKS[..|AVAILABLE_STOCKS|] == AVAILABLE_STOCKS;
  }

  class Server {
    const data: map<string, StockData>
    const directory: Directory

    function Snapshot(): StockMap
      reads this, data.Values
    {
      map s | s in data :: data[s].Value()
    }

    /** Each symbol has a record of its own. */
    ghost predicate Distinct()
      reads this
    {
      forall s, t :: s in data && t in data && s != t ==> data[s] != data[t]
    }

    ghost predicate Valid()
      reads this, data.Values, directory
    {
      && Distinct()
      && StocksInv(Snapshot())
      && directory.Valid()
    }

    /** One fresh record per registry symbol, and no viewer yet. */
    constructor ()
      ensures Valid()
      ensures Snapshot() == InitialStocks()
      ensures directory.rooms == map[] && directory.current == map[]
    {
      var m := NewStocks();
      data := m;
      directory := new Directory();
      new;
      assert Snapshot() == InitialStocks();
      InitialStocksValid();
    }

    /** `generateCandlestickData(symbol)` with the clock reading `now` and the
        draws `u1`, `u2`: updates the symbol's record in place and sends the
        tick's candle, if any, to the OPEN viewers of the symbol's room. */
    method GenerateCandlestickData(symbol: string, now: nat, u1: nat, u2: nat, open: set<ConnId>)
      returns (sent: seq<Delivery>)
      requires IsDraw(u1) && IsDraw(u2)
      requires Distinct()
      modifies data.Values
      ensures var t := Generate(old(Snapshot()), symbol, now, u1, u2);
        && Snapshot() == Apply(old(Snapshot()), symbol, t)
        && sent == (if t.broadcast.Some? then FanOut(directory.rooms, open, symbol, t.broadcast.value) else [])
    {
      if symbol !in data {
        return [];
      }
      var stockData := data[symbol];
      ghost var snap0 := Snapshot();
      ghost var t := GenerateStep(symbol, snap0[symbol], now, u1, u2);
      sent := Advance(symbol, stockData, now, u1, u2, open);
      ghost var snap := Snapshot();
      forall s | s in snap0 && s != symbol
        ensures snap[s] == snap0[s]
      {
        assert data[s] != stockData;
      }
      UpdateOneKey(snap0, snap, symbol, t.stock);
    }

    /** The body of `generateCandlestickData` once the record is found. */
    method Advance(symbol: string, stockData: StockData, now: nat, u1: nat, u2: nat, open: set<ConnId>)
      returns (sent: seq<Delivery>)
      modifies stockData
      ensures var t := GenerateStep(symbol, old(stockData.Value()), now, u1, u2);
        && stockData.Value() == t.stock
        && sent == (if t.broadcast.Some? then FanOut(directory.rooms, open, symbol, t.broadcast.value) else [])
    {
      var currentMinute := (now / CANDLE_INTERVAL) * CANDLE_INTERVAL;
      sent := [];
      if !Truthy(stockData.candleStartTime) || currentMinute != stockData.candleStartTime.value {
        if stockData.currentCandle.Some? {
          // Send the completed candle.
          sent := directory.SendToClients(symbol, stockData.currentCandle.value, open);
        }
        // Start a new candle.
        stockData.candleStartTime := Some(currentMinute);
        var newPrice := NextPrice(stockData.basePrice, RolloverDelta(u1));
        stockData.currentCandle := Some(Candle(symbol, currentMinute, Round2(newPrice), Round2(newPrice),
                                               Round2(newPrice), Round2(newPrice), RolloverVolume(u2), false));
        stockData.basePrice := newPrice;
      } else if stockData.currentCandle.Some? {
        // Update the current candle.
        var newPrice := NextPrice(stockData.basePrice, IntraDelta(u1));
        var c := stockData.currentCandle.value;
        c := c.(close := Round2(newPrice));
        c := c.(high := Max(c.high, newPrice));
        c := c.(low := Min(c.low, newPrice));
        c := c.(volume := c.volume + IntraVolume(u2));
        stockData.currentCandle := Some(c);
        stockData.basePrice := newPrice;
        // Send the updated candle.
        sent := directory.SendToClients(symbol, c, open);
      }
    }

    /** The `message` handler of server/server.js: the directory update of
        `Directory.OnMessage`, then the catch-up send to the subscriber. */
    method OnClientMessage(c: ConnId, req: ClientRequest) returns (catchUp: seq<Delivery>)
      requires Valid()
      modifies directory
      ensures Valid()
      ensures req.action == "subscribe" ==>
        directory.rooms == SubscribeRooms(old(directory.rooms), c, req.symbol)
        && directory.current == old(directory.current)[c := req.symbol]
      ensures req.action != "subscribe" ==>
        directory.rooms == old(directory.rooms) && directory.current == old(directory.current)
      ensures catchUp == CatchUp(Snapshot(), c, req)
    {
      directory.OnMessage(c, req);
      catchUp := [];
      if req.action == "subscribe" && IsAvailable(req.symbol) {
        if req.symbol in data && data[req.symbol].currentCandle.Some? {
          catchUp := [Delivery(c, data[req.symbol].currentCandle.value)];
        }
      }
    }
  }
}
