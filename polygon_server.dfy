/** The live server (server/polygon-server.js): one trade buffer per registry
    symbol, the viewer directory, and the handling of upstream batches. The
    class performs the steps in place, as the JavaScript does; each method is
    proved against the value-level step (`TradeStep`, `RunEffects`) whose
    properties are proved here and in the aggregator and dispatch modules. */
module PolygonServer {
  import opened Market
  import opened Sequences
  import opened Ohlcv
  import opened Aggregator
  import opened Subscriptions
  import opened Upstream

  /** `tradeBuffer`: symbol to buffer. */
  type BufferMap = map<string, BufferState>

  /** One empty buffer per registry symbol, as the server starts. */
  function InitialBuffers(): BufferMap {
    map s | s in AVAILABLE_STOCKS :: EMPTY_BUFFER
  }

  /** There is a buffer for exactly the registry symbols, and each keeps its
      invariant. */
  predicate BuffersInv(st: BufferMap) {
    && st.Keys == set s | s in AVAILABLE_STOCKS
    && (forall s :: s in st ==> BufferInv(st[s]))
  }

  lemma InitialBuffersValid()
    ensures BuffersInv(InitialBuffers())
  {
  }

  /** The new buffers and the candles sent for one trade event. */
  datatype Step = Step(buffers: BufferMap, emitted: seq<Candle>)

  /** `handleTradeData` on values: a symbol outside the registry, or one
      without a buffer, changes nothing and sends nothing; otherwise the
      symbol's buffer takes the trade. */
  function TradeStep(st: BufferMap, ev: TradeEvent): Step {
    if !IsAvailable(ev.sym) || ev.sym !in st then Step(st, [])
    else
      var r := IngestStep(st[ev.sym], ev.sym, Trade(ev.p, ev.s, ev.t));
      Step(st[ev.sym := r.buffer], r.emitted)
  }

  /** A trade for a symbol outside the registry changes no buffer and sends
      nothing. */
  lemma UnknownSymbolIgnored(st: BufferMap, ev: TradeEvent)
    requires !IsAvailable(ev.sym)
    ensures TradeStep(st, ev) == Step(st, [])
  {
  }

  /** A trade keeps every buffer's invariant, touches only its own symbol's
      buffer, leaves that buffer in the trade's period, and sends at least the
      live candle. */
  lemma TradeStepKeepsBuffers(st: BufferMap, ev: TradeEvent)
    requires BuffersInv(st)
    ensures var r := TradeStep(st, ev);
      && BuffersInv(r.buffers)
      && (forall s :: s in st && s != ev.sym ==> r.buffers[s] == st[s])
      && (IsAvailable(ev.sym) ==>
            r.buffers[ev.sym].lastCandleTime == Some(PeriodStart(ev.t)) && |r.emitted| > 0)
  {
    if IsAvailable(ev.sym) {
      var tr := Trade(ev.p, ev.s, ev.t);
      IngestKeepsBuffer(st[ev.sym], ev.sym, tr);
      IngestEmits(st[ev.sym], ev.sym, tr);
    }
  }

  /** Everything the live server has done: its buffers, the requests sent
      upstream and the candles sent to viewers, each in order. */
  datatype World = World(buffers: BufferMap, requests: seq<Request>, sent: seq<Delivery>)

  function ApplyEffect(w: World, rooms: Rooms, open: set<ConnId>, e: Effect): World {
    match e
    case SendUpstream(r) => w.(requests := w.requests + [r])
    case Ingest(ev) =>
      var step := TradeStep(w.buffers, ev);
      World(step.buffers, w.requests, w.sent + FanOutAll(rooms, open, ev.sym, step.emitted))
  }

  function RunEffects(w: World, rooms: Rooms, open: set<ConnId>, es: seq<Effect>): World
    decreases |es|
  {
    if es == [] then w
    else ApplyEffect(RunEffects(w, rooms, open, es[..|es| - 1]), rooms, open, es[|es| - 1])
  }

  lemma {:induction false} RunEffectsConcat(w: World, rooms: Rooms, open: set<ConnId>, a: seq<Effect>, b: seq<Effect>)
    ensures RunEffects(w, rooms, open, a + b) == RunEffects(RunEffects(w, rooms, open, a), rooms, open, b)
    decreases |b|
  {
    if b == [] {
      assert a + b == a;
    } else {
      var b' := b[..|b| - 1];
      ConcatInitLast(a, b);
      RunEffectsConcat(w, rooms, open, a, b');
    }
  }

  /** A single trade effect is one `ApplyEffect`. */
  lemma RunOneIngest(w: World, rooms: Rooms, open: set<ConnId>, ev: TradeEvent)
    ensures RunEffects(w, rooms, open, [Ingest(ev)])
      == World(TradeStep(w.buffers, ev).buffers, w.requests,
               w.sent + FanOutAll(rooms, open, ev.sym, TradeStep(w.buffers, ev).emitted))
  {
    assert [Ingest(ev)][..0] == [];
  }

  /** Sending requests upstream appends them and changes nothing else. */
  lemma {:induction false} RunSends(w: World, rooms: Rooms, open: set<ConnId>, requests: seq<Request>)
    ensures RunEffects(w, rooms, open, SendAll(requests)) == w.(requests := w.requests + requests)
    decreases |requests|
  {
    if requests == [] {
      assert w.requests + requests == w.requests;
    } else {
      var init := requests[..|requests| - 1];
      var es := SendAll(requests);
      assert es[..|es| - 1] == SendAll(init);
      RunSends(w, rooms, open, init);
      assert requests == init + [requests[|requests| - 1]];
    }
  }

  /** Running effects keeps the buffer invariants, and the requests sent are
      exactly the requests among the effects, in order. */
  lemma {:induction false} RunEffectsFacts(w: World, rooms: Rooms, open: set<ConnId>, es: seq<Effect>)
    requires BuffersInv(w.buffers)
    ensures BuffersInv(RunEffects(w, rooms, open, es).buffers)
    ensures RunEffects(w, rooms, open, es).requests == w.requests + Requests(es)
    decreases |es|
  {
    if es == [] {
      assert w.requests + [] == w.requests;
    } else {
      var init := es[..|es| - 1];
      RunEffectsFacts(w, rooms, open, init);
      var prev := RunEffects(w, rooms, open, init);
      match es[|es| - 1]
      case SendUpstream(r) =>
      case Ingest(ev) =>
        TradeStepKeepsBuffers(prev.buffers, ev);
    }
  }

  /** A batch handled by the live server keeps every buffer valid, and sends
      upstream exactly the dispatched requests: the six subscriptions, in
      registry order, repeated once for each successful login. */
  lemma HandleBatch(w: World, rooms: Rooms, open: set<ConnId>, batch: seq<Message>)
    requires BuffersInv(w.buffers)
    ensures var r := RunEffects(w, rooms, open, DispatchBatch(batch));
      && BuffersInv(r.buffers)
      && r.requests == w.requests + Requests(DispatchBatch(batch))
      && r.requests == w.requests + Repeat(Upstream.SubscribeToStocks(), AuthSuccesses(batch))
      && |r.requests| == |w.requests| + |AVAILABLE_STOCKS| * AuthSuccesses(batch)
  {
    RunEffectsFacts(w, rooms, open, DispatchBatch(batch));
    BatchInOrder(batch);
    BatchRequests(batch);
  }

  /** The `forEach` over the registry that gives every symbol a fresh empty
      buffer object of its own. */
  method NewBuffers() returns (m: map<string, TradeBuffer>)
    ensures forall s :: s in m <==> s in AVAILABLE_STOCKS
    ensures forall s :: s in m ==> fresh(m[s]) && m[s].Value() == EMPTY_BUFFER
    ensures forall s, t :: s in m && t in m && s != t ==> m[s] != m[t]
  {
    m := map[];
    for i := 0 to |AVAILABLE_STOCKS|
      invariant forall s :: s in m <==> s in AVAILABLE_STOCKS[..i]
      invariant forall s :: s in m ==> fresh(m[s]) && m[s].Value() == EMPTY_BUFFER
      invariant forall s, t :: s in m && t in m && s != t ==> m[s] != m[t]
    {
      var b := new TradeBuffer();
      PrefixStep(AVAILABLE_STOCKS, i);
      m := m[AVAILABLE_STOCKS[i] := b];
    }
    assert AVAILABLE_STOCKS[..|AVAILABLE_STOCKS|] == AVAILABLE_STOCKS;
  }

  class Server {
    const buffers: map<string, TradeBuffer>
    const directory: Directory

    /** The buffers' current values. */
    function Snapshot(): BufferMap
      reads this, buffers.Values
    {
      map s | s in buffers :: buffers[s].Value()
    }

    /** Each symbol has a buffer object of its own. */
    ghost predicate Distinct()
      reads this
    {
      forall s, t :: s in buffers && t in buffers && s != t ==> buffers[s] != buffers[t]
    }

    ghost predicate Valid()
      reads this, buffers.Values, directory
    {
      && Distinct()
      && BuffersInv(Snapshot())
      && directory.Valid()
    }

    /** One empty buffer per registry symbol, and no viewer yet. */
    constructor ()
      ensures Valid()
      ensures Snapshot() == InitialBuffers()
      ensures directory.rooms == map[] && directory.current == map[]
    {
      var m := NewBuffers();
      buffers := m;
      directory := new Directory();
      new;
      assert Snapshot() == InitialBuffers();
      InitialBuffersValid();
    }

    /** `createCandlestick`: the finalized candle over the buffer's trades,
        sent to the symbol's OPEN viewers; nothing for an empty buffer. */
    method CreateCandlestick(symbol: string, buffer: TradeBuffer, candleTime: nat, open: set<ConnId>)
      returns (sent: seq<Delivery>)
      ensures sent == FanOutAll(directory.rooms, open, symbol, Emit(Summarize(symbol, buffer.trades, candleTime, false)))
    {
      if |buffer.trades| == 0 {
        return [];
      }
      var candle := Summarize(symbol, buffer.trades, candleTime, false).value;
      sent := directory.SendToClients(symbol, candle, open);
      FanOutAllOne(directory.rooms, open, symbol, candle);
    }

    /** `updateCurrentCandle`: the same over the current period, flagged live. */
    method UpdateCurrentCandle(symbol: string, buffer: TradeBuffer, candleTime: nat, open: set<ConnId>)
      returns (sent: seq<Delivery>)
      ensures sent == FanOutAll(directory.rooms, open, symbol, Emit(Summarize(symbol, buffer.trades, candleTime, true)))
    {
      if |buffer.trades| == 0 {
        return [];
      }
      var candle := Summarize(symbol, buffer.trades, candleTime, true).value;
      sent := directory.SendToClients(symbol, candle, open);
      FanOutAllOne(directory.rooms, open, symbol, candle);
    }

    /** `handleTradeData`: update the symbol's buffer in place and send the
        candles of `TradeStep` to the OPEN viewers of the symbol's room. */
    method HandleTradeData(trade: TradeEvent, open: set<ConnId>) returns (sent: seq<Delivery>)
      requires Distinct()
      modifies buffers.Values
      ensures Snapshot() == TradeStep(old(Snapshot()), trade).buffers
      ensures sent == FanOutAll(directory.rooms, open, trade.sym, TradeStep(old(Snapshot()), trade).emitted)
    {
      var symbol := trade.sym;
      if !IsAvailable(symbol) {
        return [];
      }
      if symbol !in buffers {
        return [];
      }
      var buffer := buffers[symbol];
      ghost var snap0 := Snapshot();
      ghost var step := IngestStep(snap0[symbol], symbol, Trade(trade.p, trade.s, trade.t));
      sent := TakeTrade(symbol, buffer, trade, open);
      ghost var snap := Snapshot();
      forall s | s in snap0 && s != symbol
        ensures snap[s] == snap0[s]
      {
        assert buffers[s] != buffer;
      }
      UpdateOneKey(snap0, snap, symbol, step.buffer);
    }

    /** The body of `handleTradeData` once the buffer is found: push the
        trade, test the period, finalize and reset on a change, then send the
        live candle. */
    method TakeTrade(symbol: string, buffer: TradeBuffer, trade: TradeEvent, open: set<ConnId>)
      returns (sent: seq<Delivery>)
      modifies buffer
      ensures var step := IngestStep(old(buffer.Value()), symbol, Trade(trade.p, trade.s, trade.t));
        && buffer.Value() == step.buffer
        && sent == FanOutAll(directory.rooms, open, symbol, step.emitted)
    {
      var price, size, timestamp := trade.p, trade.s, trade.t;
      ghost var before := buffer.Value();
      // Add the trade to the buffer.
      buffer.trades := buffer.trades + [Trade(price, size, timestamp)];
      buffer.volume := buffer.volume + size;
      var candleTime := (timestamp / CANDLE_INTERVAL) * CANDLE_INTERVAL;
      sent := [];
      ghost var finalized: seq<Candle> := [];
      if buffer.lastCandleTime != Some(candleTime) {
        // Finalize the previous period when it has a truthy start.
        if Truthy(buffer.lastCandleTime) && |buffer.trades| > 0 {
          sent := CreateCandlestick(symbol, buffer, buffer.lastCandleTime.value, open);
          finalized := Emit(Summarize(symbol, buffer.trades, buffer.lastCandleTime.value, false));
        }
        // Start the new period.
        buffer.lastCandleTime := Some(candleTime);
        buffer.trades := [Trade(price, size, timestamp)];
        buffer.volume := size;
      }
      var live := UpdateCurrentCandle(symbol, buffer, candleTime, open);
      ghost var step := IngestStep(before, symbol, Trade(price, size, timestamp));
      assert buffer.Value() == step.buffer;
      assert step.emitted == finalized + Emit(Summarize(symbol, buffer.trades, candleTime, true));
      sent := sent + live;
      FanOutAllConcat(directory.rooms, open, symbol, finalized, Emit(Summarize(symbol, buffer.trades, candleTime, true)));
    }

    /** `subscribeToStocks`: one trade subscription per registry symbol, in
        registry order. */
    method SubscribeToStocks() returns (requests: seq<Request>)
      ensures |requests| == |AVAILABLE_STOCKS|
      ensures forall i :: 0 <= i < |requests| ==> requests[i] == Request("subscribe", "T." + AVAILABLE_STOCKS[i])
      ensures requests == Upstream.SubscribeToStocks()
    {
      requests := [];
      for j := 0 to |AVAILABLE_STOCKS|
        invariant requests == SubscribeAll(AVAILABLE_STOCKS[..j])
      {
        assert AVAILABLE_STOCKS[..j + 1][..j] == AVAILABLE_STOCKS[..j];
        requests := requests + [Request("subscribe", "T." + AVAILABLE_STOCKS[j])];
      }
      assert AVAILABLE_STOCKS[..|AVAILABLE_STOCKS|] == AVAILABLE_STOCKS;
    }

    /** The upstream `message` handler on an already parsed batch: every
        message in turn, as `DispatchBatch` describes. */
    method OnUpstreamMessage(batch: seq<Message>, open: set<ConnId>) returns (requests: seq<Request>, sent: seq<Delivery>)
      requires Valid()
      modifies buffers.Values
      ensures Valid()
      ensures World(Snapshot(), requests, sent)
        == RunEffects(World(old(Snapshot()), [], []), directory.rooms, open, DispatchBatch(batch))
    {
      ghost var w0 := World(Snapshot(), [], []);
      requests, sent := [], [];
      for i := 0 to |batch|
        invariant Valid()
        invariant World(Snapshot(), requests, sent) == RunEffects(w0, directory.rooms, open, DispatchBatch(batch[..i]))
      {
        assert batch[..i + 1][..i] == batch[..i];
        RunEffectsConcat(w0, directory.rooms, open, DispatchBatch(batch[..i]), Dispatch(batch[i]));
        requests, sent := HandleMessage(batch[i], open, requests, sent);
      }
      assert batch[..|batch|] == batch;
    }

    /** The `switch (message.ev)` for one message, extending the requests
        and sends made so far. */
    method HandleMessage(message: Message, open: set<ConnId>, requests0: seq<Request>, sent0: seq<Delivery>)
      returns (requests: seq<Request>, sent: seq<Delivery>)
      requires Valid()
      modifies buffers.Values
      ensures Valid()
      ensures World(Snapshot(), requests, sent)
        == RunEffects(World(old(Snapshot()), requests0, sent0), directory.rooms, open, Dispatch(message))
    {
      ghost var w := World(Snapshot(), requests0, sent0);
      requests, sent := requests0, sent0;
      match message
      case Status(status) =>
        if status == "auth_success" {
          var subscriptions := SubscribeToStocks();
          RunSends(w, directory.rooms, open, subscriptions);
          requests := requests + subscriptions;
        }
      case TradeMsg(trade) =>
        TradeStepKeepsBuffers(Snapshot(), trade);
        RunOneIngest(w, directory.rooms, open, trade);
        var out := HandleTradeData(trade, open);
        sent := sent + out;
      case Quote =>
      case Other(_) =>
    }
  }
}
