/** The subscription directory shared by both servers (`stockRooms` plus each
    connection's `currentStock`) and the fan-out of a candle to the OPEN
    members of a room (`sendToClients`, and the same loop inlined in
    server/server.js). */
module Subscriptions {
  import opened Market
  import opened Sequences

  /** A viewer connection, by identity. */
  type ConnId = nat

  /** `stockRooms`: symbol to the connections in that room, in joining order. */
  type Rooms = map<string, seq<ConnId>>

  /** One `ws.send` of a candle to a viewer. */
  datatype Delivery = Delivery(to: ConnId, candle: Candle)

  /** A parsed viewer message `{action, symbol}`. */
  datatype ClientRequest = ClientRequest(action: string, symbol: string)

  // ------------------------------------------------------------------
  // Fan-out
  // ------------------------------------------------------------------

  /** The sends of `candle` to the connections of `room` whose ready state is
      OPEN (`open`), in room order. */
  function OpenSends(room: seq<ConnId>, open: set<ConnId>, candle: Candle): seq<Delivery>
    decreases |room|
  {
    if room == [] then []
    else
      var last := room[|room| - 1];
      OpenSends(room[..|room| - 1], open, candle) + (if last in open then [Delivery(last, candle)] else [])
  }

  /** `sendToClients`: nobody when the symbol has no room. */
  function FanOut(rooms: Rooms, open: set<ConnId>, symbol: string, candle: Candle): seq<Delivery> {
    if symbol in rooms then OpenSends(rooms[symbol], open, candle) else []
  }

  /** Several candles sent one after another. */
  function FanOutAll(rooms: Rooms, open: set<ConnId>, symbol: string, candles: seq<Candle>): seq<Delivery>
    decreases |candles|
  {
    if candles == [] then []
    else FanOutAll(rooms, open, symbol, candles[..|candles| - 1]) + FanOut(rooms, open, symbol, candles[|candles| - 1])
  }

  /** Every OPEN member receives the candle as many times as it is in the
      room, and nobody else receives anything. */
  lemma {:induction false} OpenSendsCount(room: seq<ConnId>, open: set<ConnId>, candle: Candle, x: ConnId)
    ensures multiset(OpenSends(room, open, candle))[Delivery(x, candle)] == if x in open then multiset(room)[x] else 0
    ensures forall d :: d in OpenSends(room, open, candle) ==> d.candle == candle && d.to in room && d.to in open
    decreases |room|
  {
    if room != [] {
      var init, last := room[..|room| - 1], room[|room| - 1];
      assert room == init + [last];
      OpenSendsCount(init, open, candle, x);
    }
  }

  /** The sends follow room order: the sends for a room split in two are the
      sends for the first part followed by those for the second. */
  lemma {:induction false} OpenSendsConcat(a: seq<ConnId>, b: seq<ConnId>, open: set<ConnId>, candle: Candle)
    ensures OpenSends(a + b, open, candle) == OpenSends(a, open, candle) + OpenSends(b, open, candle)
    decreases |b|
  {
    if b == [] {
      assert a + b == a;
    } else {
      var b' := b[..|b| - 1];
      ConcatInitLast(a, b);
      OpenSendsConcat(a, b', open, candle);
    }
  }

  /** Candles sent one run after another make their sends one after another. */
  lemma {:induction false} FanOutAllConcat(rooms: Rooms, open: set<ConnId>, symbol: string, a: seq<Candle>, b: seq<Candle>)
    ensures FanOutAll(rooms, open, symbol, a + b) == FanOutAll(rooms, open, symbol, a) + FanOutAll(rooms, open, symbol, b)
    decreases |b|
  {
    if b == [] {
      assert a + b == a;
    } else {
      var ab, b', last := a + b, b[..|b| - 1], b[|b| - 1];
      ConcatInitLast(a, b);
      FanOutAllConcat(rooms, open, symbol, a, b');
      var send := FanOut(rooms, open, symbol, last);
      assert FanOutAll(rooms, open, symbol, ab) == FanOutAll(rooms, open, symbol, a + b') + send;
      assert FanOutAll(rooms, open, symbol, b) == FanOutAll(rooms, open, symbol, b') + send;
    }
  }

  /** A single candle is sent as `FanOut` sends it. */
  lemma FanOutAllOne(rooms: Rooms, open: set<ConnId>, symbol: string, candle: Candle)
    ensures FanOutAll(rooms, open, symbol, [candle]) == FanOut(rooms, open, symbol, candle)
  {
    assert [candle][..0] == [];
  }

  // ------------------------------------------------------------------
  // Room membership
  // ------------------------------------------------------------------

  /** No connection occurs twice. */
  predicate NoDup(xs: seq<ConnId>)
    decreases |xs|
  {
    xs == [] || (xs[0] !in xs[1..] && NoDup(xs[1..]))
  }

  /** Appending a new connection keeps the entries distinct. */
  lemma {:induction false} NoDupAppend(xs: seq<ConnId>, c: ConnId)
    requires NoDup(xs) && c !in xs
    ensures NoDup(xs + [c])
    decreases |xs|
  {
    if xs != [] {
      assert (xs + [c])[1..] == xs[1..] + [c];
      NoDupAppend(xs[1..], c);
    }
  }

  /** What the handlers keep true: rooms exist only for registry symbols, hold
      each connection at most once, and a connection is only in the room of
      its current symbol. */
  ghost predicate DirInv(rooms: Rooms, current: map<ConnId, string>) {
    && (forall s :: s in rooms ==> IsAvailable(s) && NoDup(rooms[s]))
    && (forall s, x :: s in rooms && x in rooms[s] ==> x in current && current[x] == s)
  }

  /** `xs` with every entry `c` dropped, order kept. */
  function Without(xs: seq<ConnId>, c: ConnId): seq<ConnId>
    decreases |xs|
  {
    if xs == [] then [] else (if xs[0] == c then [] else [xs[0]]) + Without(xs[1..], c)
  }

  lemma {:induction false} WithoutCount(xs: seq<ConnId>, c: ConnId)
    ensures multiset(Without(xs, c)) == multiset(xs)[c := 0]
    decreases |xs|
  {
    if xs != [] {
      WithoutCount(xs[1..], c);
      assert xs == [xs[0]] + xs[1..];
    }
  }

  lemma {:induction false} WithoutConcat(a: seq<ConnId>, b: seq<ConnId>, c: ConnId)
    ensures Without(a + b, c) == Without(a, c) + Without(b, c)
    decreases |a|
  {
    if a == [] {
      assert a + b == b;
    } else {
      assert (a + b)[1..] == a[1..] + b;
      WithoutConcat(a[1..], b, c);
    }
  }

  lemma {:induction false} WithoutAbsent(xs: seq<ConnId>, c: ConnId)
    requires c !in xs
    ensures Without(xs, c) == xs
    decreases |xs|
  {
    if xs != [] {
      WithoutAbsent(xs[1..], c);
    }
  }

  /** Dropping `c` leaves exactly the other entries, and no entry twice when
      there was none twice before. */
  lemma {:induction false} WithoutFacts(xs: seq<ConnId>, c: ConnId)
    ensures c !in Without(xs, c)
    ensures forall x :: x in Without(xs, c) <==> x in xs && x != c
    ensures NoDup(xs) ==> NoDup(Without(xs, c))
    ensures Without(Without(xs, c), c) == Without(xs, c)
    decreases |xs|
  {
    if xs != [] {
      WithoutFacts(xs[1..], c);
      var w := Without(xs[1..], c);
      assert Without(xs, c) == (if xs[0] == c then [] else [xs[0]]) + w;
      if xs[0] == c {
        assert Without(xs, c) == [] + w == w;
      } else {
        var r := Without(xs, c);
        assert r == [xs[0]] + w;
        assert r[0] == xs[0] && r[1..] == w;
        assert NoDup(xs) ==> NoDup(r);
      }
    }
    WithoutAbsent(Without(xs, c), c);
  }

  /** `Array.prototype.indexOf`: the first position of `x`, or -1. */
  function IndexOf(xs: seq<ConnId>, x: ConnId): (i: int)
    ensures -1 <= i < |xs|
    ensures i == -1 <==> x !in xs
    ensures 0 <= i ==> xs[i] == x && x !in xs[..i]
    decreases |xs|
  {
    if xs == [] then -1
    else if xs[0] == x then 0
    else
      var j := IndexOf(xs[1..], x);
      assert j >= 0 ==> xs[1..][..j] == xs[1..j + 1];
      if j < 0 then -1 else j + 1
  }

  /** `splice(i, 1)`. */
  function RemoveAt(xs: seq<ConnId>, i: nat): seq<ConnId>
    requires i < |xs|
  {
    xs[..i] + xs[i + 1..]
  }

  /** Removing the found position of a connection that occurs once removes
      that connection and nothing else. */
  lemma {:induction false} SpliceIsWithout(xs: seq<ConnId>, c: ConnId)
    requires NoDup(xs) && c in xs
    ensures RemoveAt(xs, IndexOf(xs, c)) == Without(xs, c)
    decreases |xs|
  {
    if xs[0] == c {
      WithoutAbsent(xs[1..], c);
    } else {
      var j := IndexOf(xs[1..], c);
      SpliceIsWithout(xs[1..], c);
      assert RemoveAt(xs, j + 1) == [xs[0]] + RemoveAt(xs[1..], j);
    }
  }

  /** The handlers' unsubscribe step as written: take the connection out of
      the room of its current symbol, when that symbol is truthy and has a room
      and the connection is found there. */
  function Detach(rooms: Rooms, current: map<ConnId, string>, c: ConnId): Rooms {
    if c in current && current[c] != "" && current[c] in rooms then
      var clients := rooms[current[c]];
      var index := IndexOf(clients, c);
      if index > -1 then rooms[current[c] := RemoveAt(clients, index)] else rooms
    else rooms
  }

  /** The connection taken out of every room. */
  function DetachAll(rooms: Rooms, c: ConnId): Rooms {
    map s | s in rooms :: Without(rooms[s], c)
  }

  /** The subscribe step: a registry symbol gets a room if it has none and the
      connection is appended to it; any other symbol changes nothing. */
  function Attach(rooms: Rooms, symbol: string, c: ConnId): Rooms {
    if IsAvailable(symbol) then
      rooms[symbol := (if symbol in rooms then rooms[symbol] else []) + [c]]
    else rooms
  }

  function SubscribeRooms(rooms: Rooms, c: ConnId, symbol: string): Rooms {
    Attach(DetachAll(rooms, c), symbol, c)
  }

  /** Under the invariant, the splice of the current room is the removal of
      the connection from every room: no other room held it. */
  lemma DetachIsDetachAll(rooms: Rooms, current: map<ConnId, string>, c: ConnId)
    requires DirInv(rooms, current)
    ensures Detach(rooms, current, c) == DetachAll(rooms, c)
  {
    var d := Detach(rooms, current, c);
    assert d.Keys == rooms.Keys;
    forall s | s in rooms
      ensures d[s] == Without(rooms[s], c)
    {
      if c in rooms[s] {
        assert current[c] == s;
        assert NoDup(rooms[s]);
        SpliceIsWithout(rooms[s], c);
      } else {
        WithoutAbsent(rooms[s], c);
        if c in current && current[c] == s {
          assert IndexOf(rooms[s], c) == -1;
        }
      }
    }
  }

  /** Closing a connection takes it out of its room and changes no other
      entry: every other room is untouched, and its own room keeps the other
      entries in order. */
  lemma CloseRemovesOnlyIt(rooms: Rooms, current: map<ConnId, string>, c: ConnId)
    requires DirInv(rooms, current)
    ensures var r := DetachAll(rooms, c);
      && DirInv(r, current)
      && r.Keys == rooms.Keys
      && (forall s :: s in r ==> c !in r[s] && r[s] == Without(rooms[s], c))
      && (forall s :: s in rooms && (c !in current || s != current[c]) ==> r[s] == rooms[s])
  {
    var r := DetachAll(rooms, c);
    forall s | s in rooms
      ensures c !in r[s] && NoDup(r[s])
      ensures forall x :: x in r[s] ==> x in current && current[x] == s
      ensures (c !in current || s != current[c]) ==> r[s] == rooms[s]
    {
      CloseRemovesAt(rooms, current, c, s);
    }
  }

  /** `CloseRemovesOnlyIt` for one room. */
  lemma CloseRemovesAt(rooms: Rooms, current: map<ConnId, string>, c: ConnId, s: string)
    requires DirInv(rooms, current) && s in rooms
    ensures var r := Without(rooms[s], c);
      && c !in r && NoDup(r)
      && (forall x :: x in r ==> x in current && current[x] == s)
      && ((c !in current || s != current[c]) ==> r == rooms[s])
  {
    var xs := rooms[s];
    var r := Without(xs, c);
    WithoutFacts(xs, c);
    assert NoDup(xs);
    assert NoDup(r);
    assert c !in r;
    forall x | x in r
      ensures x in current && current[x] == s
    {
      InRoomIsCurrent(rooms, current, s, x);
    }
    if c !in current || s != current[c] {
      NotInOtherRooms(rooms, current, c, s);
      WithoutAbsent(xs, c);
    }
  }

  lemma InRoomIsCurrent(rooms: Rooms, current: map<ConnId, string>, s: string, x: ConnId)
    requires DirInv(rooms, current) && s in rooms && x in rooms[s]
    ensures x in current && current[x] == s
  {
  }

  /** Under the invariant a connection is in no room but its current one. */
  lemma NotInOtherRooms(rooms: Rooms, current: map<ConnId, string>, c: ConnId, s: string)
    requires DirInv(rooms, current) && s in rooms
    requires c !in current || s != current[c]
    ensures c !in rooms[s]
  {
  }

  /** The rooms after a subscribe, room by room. */
  lemma SubscribeRoomsAt(rooms: Rooms, c: ConnId, symbol: string, s: string)
    requires s in SubscribeRooms(rooms, c, symbol)
    ensures var r := SubscribeRooms(rooms, c, symbol);
      && (s == symbol && IsAvailable(symbol) ==>
            r[s] == (if s in rooms then Without(rooms[s], c) else []) + [c])
      && (s != symbol || !IsAvailable(symbol) ==> s in rooms && r[s] == Without(rooms[s], c))
  {
  }

  /** A subscribe moves the connection: afterwards it is in the room of the
      requested symbol, once and last, when that symbol is in the registry,
      and in no other room; an unknown symbol leaves it in no room and creates
      no room. Every other entry of every room stays, in order. */
  lemma SubscribeMoves(rooms: Rooms, current: map<ConnId, string>, c: ConnId, symbol: string)
    requires DirInv(rooms, current)
    ensures var r := SubscribeRooms(rooms, c, symbol);
      && DirInv(r, current[c := symbol])
      && r.Keys == rooms.Keys + (if IsAvailable(symbol) then {symbol} else {})
      && (forall s :: s in r ==> (c in r[s] <==> s == symbol && IsAvailable(symbol)))
      && (IsAvailable(symbol) ==> r[symbol][|r[symbol]| - 1] == c)
      && (forall s :: s in rooms ==> Without(r[s], c) == Without(rooms[s], c))
  {
    var r := SubscribeRooms(rooms, c, symbol);
    var cur := current[c := symbol];
    forall s | s in r
      ensures IsAvailable(s) && NoDup(r[s])
      ensures c in r[s] <==> s == symbol && IsAvailable(symbol)
      ensures forall x :: x in r[s] ==> x in cur && cur[x] == s
      ensures s in rooms ==> Without(r[s], c) == Without(rooms[s], c)
    {
      SubscribeMovesAt(rooms, current, c, symbol, s);
    }
  }

  /** `SubscribeMoves` for one room. */
  lemma SubscribeMovesAt(rooms: Rooms, current: map<ConnId, string>, c: ConnId, symbol: string, s: string)
    requires DirInv(rooms, current)
    requires s in SubscribeRooms(rooms, c, symbol)
    ensures var r := SubscribeRooms(rooms, c, symbol);
      && IsAvailable(s) && NoDup(r[s])
      && (c in r[s] <==> s == symbol && IsAvailable(symbol))
      && (forall x :: x in r[s] ==> x in current[c := symbol] && current[c := symbol][x] == s)
      && (s in rooms ==> Without(r[s], c) == Without(rooms[s], c))
  {
    var r := SubscribeRooms(rooms, c, symbol);
    SubscribeRoomsAt(rooms, c, symbol, s);
    var old_s: seq<ConnId> := if s in rooms then rooms[s] else [];
    var kept: seq<ConnId> := Without(old_s, c);
    WithoutFacts(old_s, c);
    assert NoDup(old_s);
    if s == symbol && IsAvailable(symbol) {
      assert r[s] == kept + [c];
      NoDupAppend(kept, c);
      WithoutConcat(kept, [c], c);
      assert Without([c], c) == [] by {
        assert [c][1..] == [];
      }
      assert Without(r[s], c) == kept + [];
    } else {
      assert r[s] == kept;
    }
  }

  /** Subscribing twice to the same symbol leaves the rooms as one subscribe
      does, for any rooms: the connection is in that room exactly once. */
  lemma SubscribeIdempotent(rooms: Rooms, c: ConnId, symbol: string)
    ensures SubscribeRooms(SubscribeRooms(rooms, c, symbol), c, symbol) == SubscribeRooms(rooms, c, symbol)
  {
    var once := SubscribeRooms(rooms, c, symbol);
    var twice := SubscribeRooms(once, c, symbol);
    assert twice.Keys == once.Keys;
    forall s | s in once
      ensures twice[s] == once[s]
    {
      SubscribeRoomsAt(rooms, c, symbol, s);
      SubscribeRoomsAt(once, c, symbol, s);
      var old_s: seq<ConnId> := if s in rooms then rooms[s] else [];
      WithoutFacts(old_s, c);
      if s == symbol && IsAvailable(symbol) {
        var kept: seq<ConnId> := Without(old_s, c);
        WithoutConcat(kept, [c], c);
        assert Without([c], c) == [] by {
          assert [c][1..] == [];
        }
        assert Without(once[s], c) == kept + [];
      } else {
        WithoutFacts(rooms[s], c);
      }
    }
  }

  /** The directory object of one server. */
  class Directory {
    var rooms: Rooms
    /** `currentStock` of each connection that has sent a subscribe; it keeps
        the requested symbol even when that symbol was rejected. */
    var current: map<ConnId, string>

    ghost predicate Valid()
      reads this
    {
      DirInv(rooms, current)
    }

    constructor ()
      ensures Valid() && rooms == map[] && current == map[]
    {
      rooms, current := map[], map[];
    }

    /** The `message` handler without the catch-up send: a subscribe request
        moves the connection; any other action is ignored. */
    method OnMessage(c: ConnId, req: ClientRequest)
      requires Valid()
      modifies this
      ensures Valid()
      ensures req.action == "subscribe" ==>
        rooms == SubscribeRooms(old(rooms), c, req.symbol) && current == old(current)[c := req.symbol]
      ensures req.action != "subscribe" ==> rooms == old(rooms) && current == old(current)
    {
      if req.action == "subscribe" {
        var r := rooms;
        // Unsubscribe from the previous stock.
        if c in current && current[c] != "" && current[c] in r {
          var prev := current[c];
          var clients := r[prev];
          var index := IndexOf(clients, c);
          if index > -1 {
            r := r[prev := RemoveAt(clients, index)];
          }
        }
        assert r == Detach(rooms, current, c);
        DetachIsDetachAll(rooms, current, c);
        // Subscribe to the new stock.
        if IsAvailable(req.symbol) {
          if req.symbol !in r {
            r := r[req.symbol := []];
          }
          r := r[req.symbol := r[req.symbol] + [c]];
        }
        assert r == SubscribeRooms(rooms, c, req.symbol);
        SubscribeMoves(rooms, current, c, req.symbol);
        rooms, current := r, current[c := req.symbol];
      }
    }

    /** The `close` handler: take the connection out of its current room. */
    method OnClose(c: ConnId)
      requires Valid()
      modifies this
      ensures Valid()
      ensures rooms == DetachAll(old(rooms), c) && current == old(current)
    {
      if c in current && current[c] != "" && current[c] in rooms {
        var clients := rooms[current[c]];
        var index := IndexOf(clients, c);
        if index > -1 {
          rooms := rooms[current[c] := RemoveAt(clients, index)];
        }
      }
      assert rooms == Detach(old(rooms), current, c);
      DetachIsDetachAll(old(rooms), current, c);
      CloseRemovesOnlyIt(old(rooms), current, c);
    }

    /** `sendToClients`: one send per OPEN member of the symbol's room, in
        room order; nothing when the symbol has no room. */
    method SendToClients(symbol: string, candle: Candle, open: set<ConnId>) returns (sent: seq<Delivery>)
      ensures sent == FanOut(rooms, open, symbol, candle)
    {
      sent := [];
      if symbol in rooms {
        var clients := rooms[symbol];
        for i := 0 to |clients|
          invariant sent == OpenSends(clients[..i], open, candle)
        {
          assert clients[..i + 1][..i] == clients[..i];
          if clients[i] in open {
            sent := sent + [Delivery(clients[i], candle)];
          }
        }
        assert clients[..|clients|] == clients;
      }
    }
  }
}
