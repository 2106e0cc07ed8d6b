/** The messages of the upstream market-data feed and what the live server
    does with each (`connectToPolygon`'s `message` handler and
    `subscribeToStocks`, server/polygon-server.js), as a function from a batch
    of parsed messages to the effects it causes, in order. */
module Upstream {
  import opened Market
  import opened Sequences

  /** A trade event `{ev: 'T', sym, p, s, t}`: symbol, price, size, timestamp. */
  datatype TradeEvent = TradeEvent(sym: string, p: Price, s: nat, t: nat)

  /** A parsed upstream message, by its `ev` tag: `status`, `T`, `Q`, or any
      other tag. `Other(ev)` stands only for a tag `ev` outside
      `{"status", "T", "Q"}`; those three tags are always parsed into their
      own constructors. */
  datatype Message =
    | Status(status: string)
    | TradeMsg(trade: TradeEvent)
    | Quote
    | Other(ev: string)

  /** A request sent upstream, `{action, params}`. */
  datatype Request = Request(action: string, params: string)

  /** What handling a message does: send a request upstream, or hand a trade
      to the aggregator. */
  datatype Effect = SendUpstream(request: Request) | Ingest(trade: TradeEvent)

  /** The trade-channel subscription for one symbol. */
  function TradeSubscription(symbol: string): Request {
    Request("subscribe", "T." + symbol)
  }

  /** One subscription per symbol, in the given order. */
  function SubscribeAll(symbols: seq<string>): (r: seq<Request>)
    ensures |r| == |symbols|
    ensures forall i :: 0 <= i < |symbols| ==> r[i] == TradeSubscription(symbols[i])
    decreases |symbols|
  {
    if symbols == [] then []
    else SubscribeAll(symbols[..|symbols| - 1]) + [TradeSubscription(symbols[|symbols| - 1])]
  }

  /** `subscribeToStocks`: the requests sent after a successful login. */
  function SubscribeToStocks(): seq<Request> {
    SubscribeAll(AVAILABLE_STOCKS)
  }

  /** The requests as effects, order kept. */
  function SendAll(requests: seq<Request>): (r: seq<Effect>)
    ensures |r| == |requests|
    ensures forall i :: 0 <= i < |requests| ==> r[i] == SendUpstream(requests[i])
    decreases |requests|
  {
    if requests == [] then []
    else SendAll(requests[..|requests| - 1]) + [SendUpstream(requests[|requests| - 1])]
  }

  /** The `switch (message.ev)`. */
  function Dispatch(m: Message): seq<Effect> {
    match m
    case Status(status) => if status == "auth_success" then SendAll(SubscribeToStocks()) else []
    case TradeMsg(trade) => [Ingest(trade)]
    case Quote => []
    case Other(_) => []
  }

  /** `messages.forEach(...)`: the messages of a batch one after another. */
  function DispatchBatch(batch: seq<Message>): seq<Effect>
    decreases |batch|
  {
    if batch == [] then []
    else DispatchBatch(batch[..|batch| - 1]) + Dispatch(batch[|batch| - 1])
  }

  /** The trades handed to the aggregator by a run of effects, in order. */
  function Ingested(es: seq<Effect>): seq<TradeEvent>
    decreases |es|
  {
    if es == [] then []
    else Ingested(es[..|es| - 1]) + (if es[|es| - 1].Ingest? then [es[|es| - 1].trade] else [])
  }

  /** The requests sent upstream by a run of effects, in order. */
  function Requests(es: seq<Effect>): seq<Request>
    decreases |es|
  {
    if es == [] then []
    else Requests(es[..|es| - 1]) + (if es[|es| - 1].SendUpstream? then [es[|es| - 1].request] else [])
  }

  /** The trade events of a batch, in order. */
  function TradesOf(batch: seq<Message>): seq<TradeEvent>
    decreases |batch|
  {
    if batch == [] then []
    else TradesOf(batch[..|batch| - 1]) + (if batch[|batch| - 1].TradeMsg? then [batch[|batch| - 1].trade] else [])
  }

  /** How many messages of a batch report a successful login. */
  function AuthSuccesses(batch: seq<Message>): nat
    decreases |batch|
  {
    if batch == [] then 0
    else AuthSuccesses(batch[..|batch| - 1]) + (if batch[|batch| - 1] == Status("auth_success") then 1 else 0)
  }

  /** A successful login subscribes to the trades of every registry symbol,
      once each and in registry order; any other status, a quote and an
      unknown tag do nothing; a trade is handed on unchanged. */
  lemma DispatchCases(m: Message)
    ensures m == Status("auth_success") ==>
      var es := Dispatch(m);
      && |es| == |AVAILABLE_STOCKS|
      && forall i :: 0 <= i < |es| ==> es[i] == SendUpstream(Request("subscribe", "T." + AVAILABLE_STOCKS[i]))
    ensures m.Status? && m.status != "auth_success" ==> Dispatch(m) == []
    ensures m.TradeMsg? ==> Dispatch(m) == [Ingest(m.trade)]
    ensures m.Quote? || m.Other? ==> Dispatch(m) == []
  {
  }

  lemma {:induction false} IngestedConcat(a: seq<Effect>, b: seq<Effect>)
    ensures Ingested(a + b) == Ingested(a) + Ingested(b)
    decreases |b|
  {
    if b == [] {
      assert a + b == a;
    } else {
      var b' := b[..|b| - 1];
      ConcatInitLast(a, b);
      IngestedConcat(a, b');
    }
  }

  lemma {:induction false} RequestsConcat(a: seq<Effect>, b: seq<Effect>)
    ensures Requests(a + b) == Requests(a) + Requests(b)
    decreases |b|
  {
    if b == [] {
      assert a + b == a;
    } else {
      var b' := b[..|b| - 1];
      ConcatInitLast(a, b);
      RequestsConcat(a, b');
    }
  }

  /** Sends hand nothing to the aggregator and send exactly their requests. */
  lemma {:induction false} SendAllEffects(requests: seq<Request>)
    ensures Ingested(SendAll(requests)) == []
    ensures Requests(SendAll(requests)) == requests
    decreases |requests|
  {
    if requests != [] {
      var init := requests[..|requests| - 1];
      SendAllEffects(init);
      var es := SendAll(requests);
      assert es[..|es| - 1] == SendAll(init);
      assert requests == init + [requests[|requests| - 1]];
    }
  }

  /** A batch is handled in order: the aggregator receives exactly the batch's
      trades in batch order, and every successful login in it sends the six
      subscriptions, so the upstream requests number six per login. */
  lemma {:induction false} BatchInOrder(batch: seq<Message>)
    ensures Ingested(DispatchBatch(batch)) == TradesOf(batch)
    ensures |Requests(DispatchBatch(batch))| == |AVAILABLE_STOCKS| * AuthSuccesses(batch)
    decreases |batch|
  {
    if batch != [] {
      var init, m := batch[..|batch| - 1], batch[|batch| - 1];
      BatchInOrder(init);
      IngestedConcat(DispatchBatch(init), Dispatch(m));
      RequestsConcat(DispatchBatch(init), Dispatch(m));
      match m
      case Status(status) =>
        SendAllEffects(SubscribeToStocks());
        if status != "auth_success" {
          assert Dispatch(m) == [];
        }
      case TradeMsg(trade) =>
        assert [Ingest(trade)][..0] == [];
      case Quote =>
      case Other(_) =>
    }
  }

  /** `n` copies of `xs`, one after another. */
  function Repeat<T>(xs: seq<T>, n: nat): (r: seq<T>)
    ensures |r| == n * |xs|
  {
    if n == 0 then [] else Repeat(xs, n - 1) + xs
  }

  /** The requests a batch sends upstream, content and order: the six
      subscriptions in registry order, once for each successful login, in
      batch order. */
  lemma {:induction false} BatchRequests(batch: seq<Message>)
    ensures Requests(DispatchBatch(batch)) == Repeat(SubscribeToStocks(), AuthSuccesses(batch))
    decreases |batch|
  {
    if batch != [] {
      var init, m := batch[..|batch| - 1], batch[|batch| - 1];
      BatchRequests(init);
      RequestsConcat(DispatchBatch(init), Dispatch(m));
      var before := Repeat(SubscribeToStocks(), AuthSuccesses(init));
      if m == Status("auth_success") {
        SendAllEffects(SubscribeToStocks());
      } else {
        assert Requests(Dispatch(m)) == [] by {
          match m
          case Status(_) =>
          case TradeMsg(trade) =>
            assert [Ingest(trade)][..0] == [];
          case Quote =>
          case Other(_) =>
        }
        assert before + [] == before;
      }
    }
  }
}
