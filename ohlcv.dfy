/** Open/high/low/close/volume of a list of trades, as `createCandlestick` and
    `updateCurrentCandle` compute it (server/polygon-server.js). */
module Ohlcv {
  import opened Market
  import opened Sequences

  /** A trade as the buffer stores it: `{price, volume, timestamp}`. */
  datatype Trade = Trade(price: Price, volume: nat, timestamp: nat)

  /** `Math.max(...prices)`, folded left to right. */
  function MaxPrice(ts: seq<Trade>): (m: Price)
    requires |ts| > 0
    ensures forall i :: 0 <= i < |ts| ==> ts[i].price <= m
    ensures exists i :: 0 <= i < |ts| && ts[i].price == m
    decreases |ts|
  {
    if |ts| == 1 then ts[0].price
    else
      var rest := MaxPrice(ts[..|ts| - 1]);
      var last := ts[|ts| - 1].price;
      if last > rest then last else rest
  }

  /** `Math.min(...prices)`, folded left to right. */
  function MinPrice(ts: seq<Trade>): (m: Price)
    requires |ts| > 0
    ensures forall i :: 0 <= i < |ts| ==> m <= ts[i].price
    ensures exists i :: 0 <= i < |ts| && ts[i].price == m
    decreases |ts|
  {
    if |ts| == 1 then ts[0].price
    else
      var rest := MinPrice(ts[..|ts| - 1]);
      var last := ts[|ts| - 1].price;
      if last < rest then last else rest
  }

  /** `trades.reduce((sum, t) => sum + t.volume, 0)`. */
  function TotalVolume(ts: seq<Trade>): nat
    decreases |ts|
  {
    if ts == [] then 0 else TotalVolume(ts[..|ts| - 1]) + ts[|ts| - 1].volume
  }

  /** The volume of a concatenation is the sum of the volumes. */
  lemma {:induction false} TotalVolumeConcat(a: seq<Trade>, b: seq<Trade>)
    ensures TotalVolume(a + b) == TotalVolume(a) + TotalVolume(b)
    decreases |b|
  {
    if b == [] {
      assert a + b == a;
    } else {
      var b' := b[..|b| - 1];
      ConcatInitLast(a, b);
      TotalVolumeConcat(a, b');
    }
  }

  /** The candle over `ts` stamped `candleTime`; `live` is the `isLive` flag
      (false for `createCandlestick`, true for `updateCurrentCandle`). An empty
      trade list yields no candle. */
  function Summarize(symbol: string, ts: seq<Trade>, candleTime: nat, live: bool): Option<Candle> {
    if |ts| == 0 then None
    else
      var open := ts[0].price;
      var close := ts[|ts| - 1].price;
      Some(Candle(symbol, candleTime, Round2(open), Round2(MaxPrice(ts)), Round2(MinPrice(ts)),
                  Round2(close), TotalVolume(ts), live))
  }

  /** What a candle over a trade list says about it: there is one exactly when
      the list is non-empty; it opens at the first price and closes at the last
      (rounded); its high and low are the rounded extreme prices, so every
      rounded price lies between them and in particular low <= open, close <= high;
      its volume is the sum of the trades' volumes. */
  lemma CandleOfTrades(symbol: string, ts: seq<Trade>, candleTime: nat, live: bool)
    ensures var r := Summarize(symbol, ts, candleTime, live);
      && (r.None? <==> ts == [])
      && (r.Some? ==>
            && r.value.symbol == symbol && r.value.timestamp == candleTime && r.value.isLive == live
            && r.value.open == Round2(ts[0].price) && r.value.close == Round2(ts[|ts| - 1].price)
            && r.value.volume == TotalVolume(ts)
            && WellFormed(r.value)
            && (forall i :: 0 <= i < |ts| ==> r.value.low <= Round2(ts[i].price) <= r.value.high)
            && (exists i :: 0 <= i < |ts| && r.value.high == Round2(ts[i].price))
            && (exists i :: 0 <= i < |ts| && r.value.low == Round2(ts[i].price)))
  {
    if ts != [] {
      Round2IsMonotone();
      var hi := MaxPrice(ts);
      var lo := MinPrice(ts);
      var ih :| 0 <= ih < |ts| && ts[ih].price == hi;
      var il :| 0 <= il < |ts| && ts[il].price == lo;
      assert Round2(hi) == Round2(ts[ih].price);
      assert Round2(lo) == Round2(ts[il].price);
    }
  }
}
