/** The per-symbol trade buffer of the live server and what one trade does to
    it (`handleTradeData`, server/polygon-server.js), as a value-level step
    function with its properties. `PolygonServer.Server.HandleTradeData`
    performs the same step in place and is proved against `IngestStep`. */
module Aggregator {
  import opened Market
  import opened Sequences
  import opened Ohlcv

  /** `{trades, lastCandleTime, volume}`; `lastCandleTime` None is JS `null`. */
  datatype BufferState = BufferState(trades: seq<Trade>, lastCandleTime: Option<nat>, volume: nat)

  const EMPTY_BUFFER: BufferState := BufferState([], None, 0)

  /** The buffer after one trade and the candles sent for it, in sending order. */
  datatype Ingested = Ingested(buffer: BufferState, emitted: seq<Candle>)

  /** What the buffer keeps true between trades: the running volume is the sum
      over the stored trades, and every stored trade lies in the current period. */
  predicate BufferInv(b: BufferState) {
    && b.volume == TotalVolume(b.trades)
    && (b.lastCandleTime.None? <==> b.trades == [])
    && (b.lastCandleTime.Some? ==>
          forall i :: 0 <= i < |b.trades| ==> PeriodStart(b.trades[i].timestamp) == b.lastCandleTime.value)
  }

  function Emit(c: Option<Candle>): seq<Candle> {
    if c.Some? then [c.value] else []
  }

  /** One trade for `symbol`. The trade is appended before the period test, so
      a finalized candle also covers the trade that closes the period; the
      period test is `!==`, so a trade of an older period also starts a new
      one; and the old period is finalized only when its start is truthy. */
  function IngestStep(b: BufferState, symbol: string, tr: Trade): Ingested {
    var pushed := b.trades + [tr];
    var candleTime := PeriodStart(tr.timestamp);
    if b.lastCandleTime != Some(candleTime) then
      var finalized :=
        if Truthy(b.lastCandleTime) && |pushed| > 0
        then Emit(Summarize(symbol, pushed, b.lastCandleTime.value, false))
        else [];
      var reset := BufferState([tr], Some(candleTime), tr.volume);
      Ingested(reset, finalized + Emit(Summarize(symbol, reset.trades, candleTime, true)))
    else
      var grown := BufferState(pushed, b.lastCandleTime, b.volume + tr.volume);
      Ingested(grown, Emit(Summarize(symbol, grown.trades, candleTime, true)))
  }

  /** The trade list and period after one trade: a trade of the buffer's own
      period is appended after the unchanged earlier trades; a trade of any
      other period, older or newer, leaves exactly itself in the buffer. */
  lemma IngestTrades(b: BufferState, symbol: string, tr: Trade)
    ensures var r := IngestStep(b, symbol, tr).buffer;
      && r.lastCandleTime == Some(PeriodStart(tr.timestamp))
      && (b.lastCandleTime == Some(PeriodStart(tr.timestamp)) ==> r.trades == b.trades + [tr])
      && (b.lastCandleTime != Some(PeriodStart(tr.timestamp)) ==> r.trades == [tr])
  {
  }

  /** After every trade the running volume equals the sum of the stored
      trades' volumes, and every stored trade lies in the trade's period. */
  lemma IngestKeepsBuffer(b: BufferState, symbol: string, tr: Trade)
    requires BufferInv(b)
    ensures var r := IngestStep(b, symbol, tr).buffer;
      && BufferInv(r)
      && r.volume == TotalVolume(r.trades)
      && r.lastCandleTime == Some(PeriodStart(tr.timestamp))
  {
    IngestTrades(b, symbol, tr);
    var pushed := b.trades + [tr];
    assert pushed[..|pushed| - 1] == b.trades;
    assert TotalVolume(pushed) == TotalVolume(b.trades) + tr.volume;
    assert TotalVolume([tr]) == tr.volume by {
      assert [tr][..0] == [];
    }
  }

  /** Exactly one live candle is sent per trade, last, stamped with the trade's
      period and computed over the buffer as it is afterwards. Before it, and
      only on a change of period from a truthy old period start, comes one
      finalized candle stamped with the old period and computed over the old
      trades followed by the new one. */
  lemma IngestEmits(b: BufferState, symbol: string, tr: Trade)
    ensures var r := IngestStep(b, symbol, tr);
      var em := r.emitted;
      var p := PeriodStart(tr.timestamp);
      && 1 <= |em| <= 2
      && (forall i :: 0 <= i < |em| ==> (em[i].isLive <==> i == |em| - 1))
      && (forall i :: 0 <= i < |em| ==> em[i].symbol == symbol)
      && Some(em[|em| - 1]) == Summarize(symbol, r.buffer.trades, p, true)
      && em[|em| - 1].timestamp == p
      && (|em| == 2 <==> b.lastCandleTime != Some(p) && Truthy(b.lastCandleTime))
      && (|em| == 2 ==>
            && Some(em[0]) == Summarize(symbol, b.trades + [tr], b.lastCandleTime.value, false)
            && em[0].timestamp == b.lastCandleTime.value)
  {
    var p := PeriodStart(tr.timestamp);
    var pushed := b.trades + [tr];
    var r := IngestStep(b, symbol, tr);
    if b.lastCandleTime != Some(p) {
      assert r.buffer.trades == [tr];
      var live := Summarize(symbol, [tr], p, true);
      assert live.Some?;
      if Truthy(b.lastCandleTime) {
        var fin := Summarize(symbol, pushed, b.lastCandleTime.value, false);
        assert fin.Some?;
        assert r.emitted == [fin.value, live.value];
      } else {
        assert r.emitted == [live.value];
      }
    } else {
      var live := Summarize(symbol, pushed, p, true);
      assert live.Some?;
      assert r.emitted == [live.value];
    }
  }

  /** The finalized candle closes at the price of the trade that opened the new
      period and counts that trade's volume too. */
  lemma FinalizedCoversTrigger(b: BufferState, symbol: string, tr: Trade)
    requires BufferInv(b)
    requires |IngestStep(b, symbol, tr).emitted| == 2
    ensures var fin := IngestStep(b, symbol, tr).emitted[0];
      && fin.close == Round2(tr.price)
      && fin.volume == b.volume + tr.volume
      && fin.open == Round2((b.trades + [tr])[0].price)
      && Round2(tr.price) <= fin.high
  {
    var pushed := b.trades + [tr];
    var p := PeriodStart(tr.timestamp);
    assert b.lastCandleTime != Some(p) && Truthy(b.lastCandleTime);
    var fin := Summarize(symbol, pushed, b.lastCandleTime.value, false);
    assert IngestStep(b, symbol, tr).emitted[0] == fin.value;
    CandleOfTrades(symbol, pushed, b.lastCandleTime.value, false);
    assert pushed[..|pushed| - 1] == b.trades && pushed[|pushed| - 1] == tr;
  }

  /** A sequence of trades for one symbol, each handled in turn. */
  function IngestAll(b: BufferState, symbol: string, ts: seq<Trade>): (r: Ingested)
    decreases |ts|
  {
    if ts == [] then Ingested(b, [])
    else
      var prev := IngestAll(b, symbol, ts[..|ts| - 1]);
      var step := IngestStep(prev.buffer, symbol, ts[|ts| - 1]);
      Ingested(step.buffer, prev.emitted + step.emitted)
  }

  /** Trades that all fall in one period `p`, the first of which opens it,
      leave exactly those trades in the buffer. */
  lemma {:induction false} SamePeriodTrades(b: BufferState, symbol: string, ts: seq<Trade>, p: nat)
    requires |ts| > 0
    requires b.lastCandleTime != Some(p)
    requires forall i {:trigger PeriodStart(ts[i].timestamp)} :: 0 <= i < |ts| ==> PeriodStart(ts[i].timestamp) == p
    ensures IngestAll(b, symbol, ts).buffer.trades == ts
    ensures IngestAll(b, symbol, ts).buffer.lastCandleTime == Some(p)
    decreases |ts|
  {
    var init := ts[..|ts| - 1];
    var last := ts[|ts| - 1];
    assert PeriodStart(ts[|ts| - 1].timestamp) == p;
    var prev := IngestAll(b, symbol, init);
    if init == [] {
      assert prev.buffer == b;
    } else {
      forall i | 0 <= i < |init|
        ensures PeriodStart(init[i].timestamp) == p
      {
        assert init[i] == ts[i];
      }
      SamePeriodTrades(b, symbol, init, p);
    }
    IngestTrades(prev.buffer, symbol, last);
    SplitLast(ts);
  }

  /** So the last candle sent for such a run is the live candle over exactly
      those trades: the first price as open, the last as close, the extreme
      prices as high and low and the summed volume. */
  lemma SamePeriodLive(b: BufferState, symbol: string, ts: seq<Trade>, p: nat)
    requires |ts| > 0
    requires b.lastCandleTime != Some(p)
    requires forall i {:trigger PeriodStart(ts[i].timestamp)} :: 0 <= i < |ts| ==> PeriodStart(ts[i].timestamp) == p
    ensures var em := IngestAll(b, symbol, ts).emitted;
      |em| > 0 && Some(em[|em| - 1]) == Summarize(symbol, ts, p, true)
  {
    var init := ts[..|ts| - 1];
    var last := ts[|ts| - 1];
    var prev := IngestAll(b, symbol, init);
    var step := IngestStep(prev.buffer, symbol, last);
    assert IngestAll(b, symbol, ts) == Ingested(step.buffer, prev.emitted + step.emitted);
    SamePeriodTrades(b, symbol, ts, p);
    assert PeriodStart(last.timestamp) == p;
    IngestEmits(prev.buffer, symbol, last);
  }

  /** The buffer as the live server starts it, for every symbol. */
  lemma EmptyBufferValid()
    ensures BufferInv(EMPTY_BUFFER)
  {
  }

  /** Three trades for JOBY at 0 s, 10 s and 35 s (6.50 x 100, 6.55 x 50,
      6.60 x 200). Because period 0 is falsy, the third trade sends no finalized
      candle for the first period, only the new live one. */
  lemma ScenarioFromPeriodZero()
    ensures var s1 := IngestStep(EMPTY_BUFFER, "JOBY", Trade(65000, 100, 0));
      var s2 := IngestStep(s1.buffer, "JOBY", Trade(65500, 50, 10000));
      var s3 := IngestStep(s2.buffer, "JOBY", Trade(66000, 200, 35000));
      && s1.emitted == [Candle("JOBY", 0, 65000, 65000, 65000, 65000, 100, true)]
      && s2.emitted == [Candle("JOBY", 0, 65000, 65500, 65000, 65500, 150, true)]
      && s3.emitted == [Candle("JOBY", 30000, 66000, 66000, 66000, 66000, 200, true)]
  {
    var t1, t2, t3 := Trade(65000, 100, 0), Trade(65500, 50, 10000), Trade(66000, 200, 35000);
    Round2OfCents(65000);
    Round2OfCents(65500);
    Round2OfCents(66000);
    var s1 := IngestStep(EMPTY_BUFFER, "JOBY", t1);
    assert s1.buffer == BufferState([t1], Some(0), 100);
    var s2 := IngestStep(s1.buffer, "JOBY", t2);
    assert s2.buffer.trades == [t1, t2];
    assert MaxPrice([t1, t2]) == 65500 by { assert [t1, t2][..1] == [t1]; }
    assert MinPrice([t1, t2]) == 65000 by { assert [t1, t2][..1] == [t1]; }
    assert TotalVolume([t1, t2]) == 150 by { assert [t1, t2][..1] == [t1]; assert [t1][..0] == []; }
    assert TotalVolume([t3]) == 200 by { assert [t3][..0] == []; }
  }

  /** The same trades one period later (30 s, 40 s, 65 s): now the third trade
      first sends the finalized candle for period 30 s, which already contains
      the third trade (close 6.60, volume 350), then the live candle for 60 s. */
  lemma ScenarioFromLaterPeriod()
    ensures var s1 := IngestStep(EMPTY_BUFFER, "JOBY", Trade(65000, 100, 30000));
      var s2 := IngestStep(s1.buffer, "JOBY", Trade(65500, 50, 40000));
      var s3 := IngestStep(s2.buffer, "JOBY", Trade(66000, 200, 65000));
      s3.emitted == [Candle("JOBY", 30000, 65000, 66000, 65000, 66000, 350, false),
                     Candle("JOBY", 60000, 66000, 66000, 66000, 66000, 200, true)]
  {
    LaterPeriodBuffer();
    LaterPeriodThirdTrade();
  }

  /** The third trade of `ScenarioFromLaterPeriod` on the buffer the first two leave. */
  lemma LaterPeriodThirdTrade()
    ensures var t1, t2, t3 := Trade(65000, 100, 30000), Trade(65500, 50, 40000), Trade(66000, 200, 65000);
      IngestStep(BufferState([t1, t2], Some(30000), 150), "JOBY", t3).emitted
        == [Candle("JOBY", 30000, 65000, 66000, 65000, 66000, 350, false),
            Candle("JOBY", 60000, 66000, 66000, 66000, 66000, 200, true)]
  {
    var t1, t2, t3 := Trade(65000, 100, 30000), Trade(65500, 50, 40000), Trade(66000, 200, 65000);
    LaterPeriodCandles();
    assert [t1, t2] + [t3] == [t1, t2, t3];
  }

  /** The buffer after the first two trades of `ScenarioFromLaterPeriod`. */
  lemma LaterPeriodBuffer()
    ensures var t1, t2 := Trade(65000, 100, 30000), Trade(65500, 50, 40000);
      IngestStep(IngestStep(EMPTY_BUFFER, "JOBY", t1).buffer, "JOBY", t2).buffer == BufferState([t1, t2], Some(30000), 150)
  {
    var t1, t2 := Trade(65000, 100, 30000), Trade(65500, 50, 40000);
    var s1 := IngestStep(EMPTY_BUFFER, "JOBY", t1);
    assert s1.buffer == BufferState([t1], Some(30000), 100);
  }

  /** The two candles the third trade of `ScenarioFromLaterPeriod` sends. */
  lemma LaterPeriodCandles()
    ensures var t1, t2, t3 := Trade(65000, 100, 30000), Trade(65500, 50, 40000), Trade(66000, 200, 65000);
      && Summarize("JOBY", [t1, t2, t3], 30000, false) == Some(Candle("JOBY", 30000, 65000, 66000, 65000, 66000, 350, false))
      && Summarize("JOBY", [t3], 60000, true) == Some(Candle("JOBY", 60000, 66000, 66000, 66000, 66000, 200, true))
  {
    var t1, t2, t3 := Trade(65000, 100, 30000), Trade(65500, 50, 40000), Trade(66000, 200, 65000);
    Round2OfCents(65000);
    Round2OfCents(66000);
    var all := [t1, t2, t3];
    assert all[..2] == [t1, t2] && [t1, t2][..1] == [t1] && [t1][..0] == [];
    assert MaxPrice([t1, t2]) == 65500;
    assert MaxPrice(all) == 66000;
    assert MinPrice([t1, t2]) == 65000;
    assert MinPrice(all) == 65000;
    assert TotalVolume([t1]) == 100;
    assert TotalVolume([t1, t2]) == 150;
    assert TotalVolume(all) == 350;
    assert TotalVolume([t3]) == 200 by { assert [t3][..0] == []; }
  }

  /** The mutable buffer object; `PolygonServer.Server` updates its fields. */
  class TradeBuffer {
    var trades: seq<Trade>
    var lastCandleTime: Option<nat>
    var volume: nat

    function Value(): BufferState
      reads this
    {
      BufferState(trades, lastCandleTime, volume)
    }

    constructor ()
      ensures Value() == EMPTY_BUFFER
    {
      trades, lastCandleTime, volume := [], None, 0;
    }
  }
}
