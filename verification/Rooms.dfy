// The rooms of the websocket server and the listeners behind them
// (internal/ws/wsServer.go). A room is created with its listener by the first client
// of a market and cancelled by the last; the listener notices the cancellation only
// some time later, and may until then take messages for a room that nobody is in.

module Rooms {
  import opened Models

  type Conn = nat

  // A room is named by its place in the order of creation, a message by its place in
  // the order of publication.
  type RoomId = nat
  type MessageId = nat

  datatype Phase = Starting | Subscribed | Stopped

  datatype RoomState = RoomState(
    marketId: MarketId,
    clients: set<Conn>,
    cancelled: bool,
    phase: Phase,
    inbox: seq<MessageId>)

  datatype Delivery = Delivery(conn: Conn, marketId: MarketId, room: RoomId, message: MessageId)

  datatype Server = Server(
    registry: map<MarketId, RoomId>,
    rooms: seq<RoomState>,
    published: MessageId,
    log: seq<Delivery>)

  datatype Event =
    | Join(conn: Conn, marketId: MarketId)
    | Leave(conn: Conn, marketId: MarketId)
    | Publish(marketId: MarketId)
    | Subscribe(room: RoomId)
    | Broadcast(room: RoomId, order: seq<Conn>)
    | Stop(room: RoomId)

  // --- The steps ----------------------------------------------------------------------

  function NewRoom(marketId: MarketId): RoomState { RoomState(marketId, {}, false, Starting, []) }

  function WithRoom(s: Server, id: RoomId, room: RoomState): Server
    requires id < |s.rooms|
  {
    s.(rooms := s.rooms[id := room])
  }

  function Opened(s: Server, marketId: MarketId): Server {
    if marketId in s.registry then s
    else s.(registry := s.registry[marketId := |s.rooms|], rooms := s.rooms + [NewRoom(marketId)])
  }

  function JoinRoom(s: Server, conn: Conn, marketId: MarketId): Server {
    var t := Opened(s, marketId);
    var id := t.registry[marketId];
    if id >= |t.rooms| then s
    else WithRoom(t, id, t.rooms[id].(clients := t.rooms[id].clients + {conn}))
  }

  function LeaveRoom(s: Server, conn: Conn, marketId: MarketId): Server {
    if marketId !in s.registry || s.registry[marketId] >= |s.rooms| then s
    else
      var id := s.registry[marketId];
      var room := s.rooms[id].(clients := s.rooms[id].clients - {conn});
      if room.clients == {} then WithRoom(s, id, room.(cancelled := true)).(registry := s.registry - {marketId})
      else WithRoom(s, id, room)
  }

  // A message reaches every subscription to its market, cancelled or not.
  function Received(room: RoomState, marketId: MarketId, message: MessageId): RoomState {
    if room.marketId == marketId && room.phase == Subscribed then room.(inbox := room.inbox + [message]) else room
  }

  function PublishTo(s: Server, marketId: MarketId): Server {
    s.(published := s.published + 1,
       rooms := seq(|s.rooms|, i requires 0 <= i < |s.rooms| => Received(s.rooms[i], marketId, s.published)))
  }

  // A pass over the clients, in whatever order the map yields them.
  predicate Enumerates(order: seq<Conn>, clients: set<Conn>) {
    && (forall i :: 0 <= i < |order| ==> order[i] in clients)
    && (forall c :: c in clients ==> c in order)
    && (forall i, j :: 0 <= i < j < |order| ==> order[i] != order[j])
  }

  lemma {:induction false} EachOnce(order: seq<Conn>, clients: set<Conn>)
    requires Enumerates(order, clients)
    ensures |order| == |clients|
    decreases |order|
  {
    if order == [] {
      assert clients == {};
    } else {
      var rest := order[1..];
      forall c | c in clients - {order[0]} ensures c in rest {
        var i :| 0 <= i < |order| && order[i] == c;
        assert rest[i - 1] == c;
      }
      forall i | 0 <= i < |rest| ensures rest[i] in clients - {order[0]} {
        assert rest[i] == order[i + 1];
      }
      EachOnce(rest, clients - {order[0]});
    }
  }

  function Sent(order: seq<Conn>, marketId: MarketId, id: RoomId, message: MessageId): seq<Delivery> {
    seq(|order|, i requires 0 <= i < |order| => Delivery(order[i], marketId, id, message))
  }

  // The select loop may still choose a message when its context is done.
  function BroadcastNext(s: Server, id: RoomId, order: seq<Conn>): Server {
    if id >= |s.rooms| then s
    else
      var room := s.rooms[id];
      if room.phase != Subscribed || room.inbox == [] || !Enumerates(order, room.clients) then s
      else
        WithRoom(s, id, room.(inbox := room.inbox[1..]))
        .(log := s.log + Sent(order, room.marketId, id, room.inbox[0]))
  }

  function Step(s: Server, e: Event): Server {
    match e
    case Join(conn, marketId) => JoinRoom(s, conn, marketId)
    case Leave(conn, marketId) => LeaveRoom(s, conn, marketId)
    case Publish(marketId) => PublishTo(s, marketId)
    case Subscribe(id) =>
      if id < |s.rooms| && s.rooms[id].phase == Starting then WithRoom(s, id, s.rooms[id].(phase := Subscribed)) else s
    case Broadcast(id, order) => BroadcastNext(s, id, order)
    case Stop(id) =>
      if id < |s.rooms| && s.rooms[id].cancelled then WithRoom(s, id, s.rooms[id].(phase := Stopped)) else s
  }

  function Run(s: Server, events: seq<Event>): Server
    decreases |events|
  {
    if events == [] then s else Run(Step(s, events[0]), events[1..])
  }

  // --- What always holds -----------------------------------------------------------------

  predicate Registered(s: Server, id: RoomId) {
    id < |s.rooms| && s.rooms[id].marketId in s.registry && s.registry[s.rooms[id].marketId] == id
  }

  // A registered room has a client and a listener that has not been cancelled; any
  // other room is cancelled and empty.
  predicate RoomOk(s: Server, id: RoomId)
    requires id < |s.rooms|
  {
    var room := s.rooms[id];
    if Registered(s, id) then room.clients != {} && !room.cancelled && room.phase != Stopped
    else room.clients == {} && room.cancelled
  }

  ghost predicate RegistryOk(s: Server) {
    && (forall m :: m in s.registry ==> s.registry[m] < |s.rooms| && s.rooms[s.registry[m]].marketId == m)
    && (forall id :: 0 <= id < |s.rooms| ==> RoomOk(s, id))
  }

  // What a live listener has yet to deliver is in order and newer than anything that
  // has been delivered in its market.
  ghost predicate InboxOk(s: Server, room: RoomState) {
    && (forall i, j :: 0 <= i < j < |room.inbox| ==> room.inbox[i] < room.inbox[j])
    && (forall i :: 0 <= i < |room.inbox| ==> room.inbox[i] < s.published)
    && (forall d, i :: d in s.log && d.marketId == room.marketId && 0 <= i < |room.inbox| ==> d.message < room.inbox[i])
  }

  // Of two deliveries in one market the later one is of a newer message, or of the same
  // message by the same listener to another client.
  predicate Later(a: Delivery, b: Delivery) {
    a.marketId == b.marketId ==>
      a.message < b.message || (a.message == b.message && a.room == b.room && a.conn != b.conn)
  }

  ghost predicate LogOk(s: Server) {
    && (forall i, j :: 0 <= i < j < |s.log| ==> Later(s.log[i], s.log[j]))
    && (forall d :: d in s.log ==> d.message < s.published)
  }

  ghost predicate Valid(s: Server) {
    && RegistryOk(s)
    && LogOk(s)
    && (forall id :: 0 <= id < |s.rooms| && !s.rooms[id].cancelled ==> InboxOk(s, s.rooms[id]))
  }

  lemma JoinKeepsValid(s: Server, conn: Conn, marketId: MarketId)
    requires Valid(s)
    ensures Valid(JoinRoom(s, conn, marketId))
  {
    var t := JoinRoom(s, conn, marketId);
    var at := t.registry[marketId];
    forall id | 0 <= id < |t.rooms| ensures RoomOk(t, id) {
      if id != at { assert RoomOk(s, id); } else if id < |s.rooms| { assert RoomOk(s, id); }
    }
  }

  lemma LeaveKeepsValid(s: Server, conn: Conn, marketId: MarketId)
    requires Valid(s)
    ensures Valid(LeaveRoom(s, conn, marketId))
  {
    var t := LeaveRoom(s, conn, marketId);
    forall id | 0 <= id < |t.rooms| ensures RoomOk(t, id) {
      assert RoomOk(s, id);
    }
  }

  lemma PublishKeepsValid(s: Server, marketId: MarketId)
    requires Valid(s)
    ensures Valid(PublishTo(s, marketId))
  {
    var t := PublishTo(s, marketId);
    forall id | 0 <= id < |t.rooms| ensures RoomOk(t, id) {
      assert RoomOk(s, id);
    }
  }

  lemma SomebodyThere(order: seq<Conn>, clients: set<Conn>)
    requires Enumerates(order, clients) && order != []
    ensures clients != {}
  {
    assert order[0] in clients;
  }

  lemma BroadcastKeepsValid(s: Server, id: RoomId, order: seq<Conn>)
    requires Valid(s)
    ensures Valid(BroadcastNext(s, id, order))
  {
    var t := BroadcastNext(s, id, order);
    if t != s {
      var room := s.rooms[id];
      forall k | 0 <= k < |t.rooms| ensures RoomOk(t, k) {
        assert RoomOk(s, k);
      }
      assert RoomOk(s, id);
      if room.cancelled {
        if order != [] { SomebodyThere(order, room.clients); }
        assert t.log == s.log;
      } else {
        assert InboxOk(s, room);
        BroadcastExtends(s, t, id, order);
      }
    }
  }

  // The state after a message has been taken from an inbox and sent.
  ghost predicate Passed(s: Server, t: Server, id: RoomId, order: seq<Conn>) {
    && id < |s.rooms| && !s.rooms[id].cancelled && s.rooms[id].inbox != []
    && Enumerates(order, s.rooms[id].clients)
    && t.log == s.log + Sent(order, s.rooms[id].marketId, id, s.rooms[id].inbox[0])
    && t.published == s.published && t.rooms == s.rooms[id := s.rooms[id].(inbox := s.rooms[id].inbox[1..])]
  }

  lemma PassedLog(s: Server, t: Server, id: RoomId, order: seq<Conn>)
    requires Passed(s, t, id, order) && LogOk(s) && InboxOk(s, s.rooms[id])
    ensures LogOk(t)
    ensures forall d :: d in t.log ==>
      d in s.log || (d.marketId == s.rooms[id].marketId && d.message == s.rooms[id].inbox[0])
  {
    forall i, j | 0 <= i < j < |t.log| ensures Later(t.log[i], t.log[j]) {
      if i < |s.log| { assert t.log[i] in s.log; }
    }
  }

  lemma BroadcastExtends(s: Server, t: Server, id: RoomId, order: seq<Conn>)
    requires Valid(s) && Passed(s, t, id, order)
    ensures LogOk(t)
    ensures forall k :: 0 <= k < |t.rooms| && !t.rooms[k].cancelled ==> InboxOk(t, t.rooms[k])
  {
    PassedLog(s, t, id, order);
    forall k | 0 <= k < |t.rooms| && !t.rooms[k].cancelled ensures InboxOk(t, t.rooms[k]) {
      assert InboxOk(s, s.rooms[k]);
      assert RoomOk(s, k) && RoomOk(s, id);
    }
  }

  lemma StepKeepsValid(s: Server, e: Event)
    requires Valid(s)
    ensures Valid(Step(s, e))
  {
    match e
    case Join(conn, marketId) => JoinKeepsValid(s, conn, marketId);
    case Leave(conn, marketId) => LeaveKeepsValid(s, conn, marketId);
    case Publish(marketId) => PublishKeepsValid(s, marketId);
    case Broadcast(id, order) => BroadcastKeepsValid(s, id, order);
    case Subscribe(id) =>
      var t := Step(s, e);
      forall k | 0 <= k < |t.rooms| ensures RoomOk(t, k) { assert RoomOk(s, k); }
    case Stop(id) =>
      var t := Step(s, e);
      forall k | 0 <= k < |t.rooms| ensures RoomOk(t, k) { assert RoomOk(s, k); }
  }

  // --- Runs, under any interleaving ----------------------------------------------------------

  const EMPTY := Server(map[], [], 0, [])

  ghost predicate HasClient(s: Server, marketId: MarketId) {
    exists id :: 0 <= id < |s.rooms| && s.rooms[id].marketId == marketId && s.rooms[id].clients != {}
  }

  lemma {:induction false} RunKeepsValid(s: Server, events: seq<Event>)
    requires Valid(s)
    ensures Valid(Run(s, events))
    decreases |events|
  {
    if events != [] {
      StepKeepsValid(s, events[0]);
      RunKeepsValid(Step(s, events[0]), events[1..]);
    }
  }

  // After any run a market has a room exactly when somebody is in it; the listeners that
  // have not been cancelled are those of the registered rooms, one for each, and none of
  // them has stopped; every other room is empty.
  lemma RunRegistersRooms(events: seq<Event>)
    ensures var t := Run(EMPTY, events);
      && (forall m :: m in t.registry <==> HasClient(t, m))
      && (forall m :: m in t.registry ==>
            t.registry[m] < |t.rooms| && t.rooms[t.registry[m]].marketId == m
            && forall id :: 0 <= id < |t.rooms| && t.rooms[id].marketId == m ==>
                 (!t.rooms[id].cancelled <==> id == t.registry[m]))
      && (forall id :: 0 <= id < |t.rooms| ==>
            if t.rooms[id].cancelled then t.rooms[id].clients == {} else t.rooms[id].phase != Stopped)
  {
    RunKeepsValid(EMPTY, events);
    ValidRooms(Run(EMPTY, events));
  }

  lemma ValidRooms(t: Server)
    requires RegistryOk(t)
    ensures forall m :: m in t.registry <==> HasClient(t, m)
    ensures forall m, id :: m in t.registry && 0 <= id < |t.rooms| && t.rooms[id].marketId == m ==>
              (!t.rooms[id].cancelled <==> id == t.registry[m])
    ensures forall id :: 0 <= id < |t.rooms| ==>
              if t.rooms[id].cancelled then t.rooms[id].clients == {} else t.rooms[id].phase != Stopped
  {
    forall id | 0 <= id < |t.rooms|
      ensures t.rooms[id].cancelled <==> !Registered(t, id)
      ensures t.rooms[id].cancelled <==> t.rooms[id].clients == {}
      ensures !t.rooms[id].cancelled ==> t.rooms[id].phase != Stopped
    {
      assert RoomOk(t, id);
    }
    forall m ensures m in t.registry <==> HasClient(t, m) {
      if m in t.registry { assert Registered(t, t.registry[m]); }
      if HasClient(t, m) {
        var id :| 0 <= id < |t.rooms| && t.rooms[id].marketId == m && t.rooms[id].clients != {};
        assert Registered(t, id);
      }
    }
  }

  // After any run each client has been sent the messages of a market in the order in
  // which they were published, and none of them twice, however many listeners of that
  // market were still running.
  lemma RunDeliversInOrder(events: seq<Event>)
    ensures var log := Run(EMPTY, events).log;
      forall i, j :: 0 <= i < j < |log| && log[i].conn == log[j].conn && log[i].marketId == log[j].marketId ==>
        log[i].message < log[j].message
  {
    RunKeepsValid(EMPTY, events);
    var log := Run(EMPTY, events).log;
    forall i, j | 0 <= i < j < |log| && log[i].conn == log[j].conn && log[i].marketId == log[j].marketId
      ensures log[i].message < log[j].message
    {
      assert Later(log[i], log[j]);
    }
  }

  lemma StepStaysSilent(s: Server, e: Event, id: RoomId)
    requires RegistryOk(s) && id < |s.rooms| && s.rooms[id].cancelled
    ensures var t := Step(s, e);
      && id < |t.rooms| && t.rooms[id].cancelled && s.log <= t.log
      && (forall i :: |s.log| <= i < |t.log| ==> t.log[i].room != id)
  {
    assert RoomOk(s, id);
    if e.Broadcast? && e.room == id {
      EmptyRoomIsSilent(s, id, e.order);
    }
  }

  lemma EmptyRoomIsSilent(s: Server, id: RoomId, order: seq<Conn>)
    requires id < |s.rooms| && s.rooms[id].clients == {}
    ensures BroadcastNext(s, id, order).log == s.log
  {
    if order != [] { assert order[0] !in s.rooms[id].clients; }
  }

  // A listener that has been cancelled: its room stays empty and it sends nothing more.
  lemma {:induction false} CancelledStaysSilent(s: Server, events: seq<Event>, id: RoomId)
    requires Valid(s) && id < |s.rooms| && s.rooms[id].cancelled
    ensures var t := Run(s, events);
      && id < |t.rooms| && t.rooms[id].cancelled && t.rooms[id].clients == {}
      && s.log <= t.log
      && (forall i :: |s.log| <= i < |t.log| ==> t.log[i].room != id)
    decreases |events|
  {
    assert RoomOk(s, id);
    if events != [] {
      StepKeepsValid(s, events[0]);
      StepStaysSilent(s, events[0], id);
      CancelledStaysSilent(Step(s, events[0]), events[1..], id);
    }
  }

  // --- Nothing is lost ---------------------------------------------------------------------------

  ghost predicate WasSent(s: Server, conn: Conn, id: RoomId, message: MessageId) {
    exists i :: 0 <= i < |s.log| && s.log[i].conn == conn && s.log[i].room == id && s.log[i].message == message
  }

  // The client is in the room, and the message is on its way to it or has been sent.
  ghost predicate Awaits(s: Server, conn: Conn, id: RoomId, message: MessageId) {
    && Registered(s, id) && conn in s.rooms[id].clients
    && (message in s.rooms[id].inbox || WasSent(s, conn, id, message))
  }

  lemma SentStays(s: Server, t: Server, conn: Conn, id: RoomId, message: MessageId)
    requires WasSent(s, conn, id, message) && s.log <= t.log
    ensures WasSent(t, conn, id, message)
  {
    var i :| 0 <= i < |s.log| && s.log[i].conn == conn && s.log[i].room == id && s.log[i].message == message;
    assert t.log[i] == s.log[i];
  }

  lemma BroadcastSends(s: Server, id: RoomId, order: seq<Conn>, conn: Conn)
    requires BroadcastNext(s, id, order) != s && conn in s.rooms[id].clients
    ensures s.rooms[id].inbox != [] && WasSent(BroadcastNext(s, id, order), conn, id, s.rooms[id].inbox[0])
  {
    var t := BroadcastNext(s, id, order);
    var i :| 0 <= i < |order| && order[i] == conn;
    assert t.log[|s.log| + i].conn == conn;
  }

  lemma JoinStillAwaits(s: Server, joining: Conn, marketId: MarketId, conn: Conn, id: RoomId, message: MessageId)
    requires RegistryOk(s) && Awaits(s, conn, id, message)
    ensures Awaits(JoinRoom(s, joining, marketId), conn, id, message)
    ensures JoinRoom(s, joining, marketId).rooms[id].marketId == s.rooms[id].marketId
  {
    var t := JoinRoom(s, joining, marketId);
    assert t.log == s.log && t.rooms[id].inbox == s.rooms[id].inbox;
    if WasSent(s, conn, id, message) { SentStays(s, t, conn, id, message); }
  }

  lemma LeaveStillAwaits(s: Server, leaving: Conn, marketId: MarketId, conn: Conn, id: RoomId, message: MessageId)
    requires RegistryOk(s) && Awaits(s, conn, id, message) && !(leaving == conn && marketId == s.rooms[id].marketId)
    ensures Awaits(LeaveRoom(s, leaving, marketId), conn, id, message)
    ensures LeaveRoom(s, leaving, marketId).rooms[id].marketId == s.rooms[id].marketId
  {
    var t := LeaveRoom(s, leaving, marketId);
    assert leaving != conn ==> conn in s.rooms[id].clients - {leaving};
    if WasSent(s, conn, id, message) { SentStays(s, t, conn, id, message); }
  }

  lemma PublishStillAwaits(s: Server, marketId: MarketId, conn: Conn, id: RoomId, message: MessageId)
    requires Awaits(s, conn, id, message)
    ensures Awaits(PublishTo(s, marketId), conn, id, message)
    ensures PublishTo(s, marketId).rooms[id].marketId == s.rooms[id].marketId
  {
    if WasSent(s, conn, id, message) { SentStays(s, PublishTo(s, marketId), conn, id, message); }
  }

  lemma BroadcastStillAwaits(s: Server, room: RoomId, order: seq<Conn>, conn: Conn, id: RoomId, message: MessageId)
    requires Awaits(s, conn, id, message)
    ensures Awaits(BroadcastNext(s, room, order), conn, id, message)
    ensures BroadcastNext(s, room, order).rooms[id].marketId == s.rooms[id].marketId
  {
    var t := BroadcastNext(s, room, order);
    assert s.log <= t.log;
    if WasSent(s, conn, id, message) {
      SentStays(s, t, conn, id, message);
    } else if room == id && t != s {
      BroadcastSends(s, id, order, conn);
      assert message != s.rooms[id].inbox[0] ==> message in s.rooms[id].inbox[1..];
    }
  }

  // The listener's own steps: subscribing, and stopping once it is cancelled.
  lemma ListenerStillAwaits(s: Server, e: Event, conn: Conn, id: RoomId, message: MessageId)
    requires RegistryOk(s) && Awaits(s, conn, id, message) && (e.Subscribe? || e.Stop?)
    ensures Awaits(Step(s, e), conn, id, message)
    ensures Step(s, e).rooms[id].marketId == s.rooms[id].marketId
  {
    assert RoomOk(s, id);
    if WasSent(s, conn, id, message) { SentStays(s, Step(s, e), conn, id, message); }
  }

  lemma StepStillAwaits(s: Server, e: Event, conn: Conn, id: RoomId, message: MessageId)
    requires Valid(s) && Awaits(s, conn, id, message) && e != Leave(conn, s.rooms[id].marketId)
    ensures Awaits(Step(s, e), conn, id, message)
    ensures Step(s, e).rooms[id].marketId == s.rooms[id].marketId
  {
    match e
    case Join(joining, marketId) => JoinStillAwaits(s, joining, marketId, conn, id, message);
    case Leave(leaving, marketId) => LeaveStillAwaits(s, leaving, marketId, conn, id, message);
    case Publish(marketId) => PublishStillAwaits(s, marketId, conn, id, message);
    case Broadcast(room, order) => BroadcastStillAwaits(s, room, order, conn, id, message);
    case _ => ListenerStillAwaits(s, e, conn, id, message);
  }

  lemma {:induction false} RunStillAwaits(s: Server, events: seq<Event>, conn: Conn, id: RoomId, message: MessageId)
    requires Valid(s) && Awaits(s, conn, id, message) && Leave(conn, s.rooms[id].marketId) !in events
    ensures Awaits(Run(s, events), conn, id, message)
    decreases |events|
  {
    if events != [] {
      assert events[0] in events;
      StepKeepsValid(s, events[0]);
      StepStillAwaits(s, events[0], conn, id, message);
      RunStillAwaits(Step(s, events[0]), events[1..], conn, id, message);
    }
  }

  // A message published while the listener of a room is subscribed is sent to everybody
  // who was in the room and has not left, once the listener has worked off its inbox,
  // whatever else happens in between.
  lemma PublishedIsSent(before: seq<Event>, after: seq<Event>, conn: Conn, marketId: MarketId)
    requires var s := Run(EMPTY, before);
      marketId in s.registry && s.registry[marketId] < |s.rooms|
      && s.rooms[s.registry[marketId]].phase == Subscribed && conn in s.rooms[s.registry[marketId]].clients
    requires Leave(conn, marketId) !in after
    ensures var s := Run(EMPTY, before);
      var id := s.registry[marketId];
      var t := Run(Step(s, Publish(marketId)), after);
      && Registered(t, id) && conn in t.rooms[id].clients
      && (t.rooms[id].inbox == [] ==> WasSent(t, conn, id, s.published))
  {
    var s := Run(EMPTY, before);
    RunKeepsValid(EMPTY, before);
    var id := s.registry[marketId];
    assert RoomOk(s, id);
    var t := Step(s, Publish(marketId));
    StepKeepsValid(s, Publish(marketId));
    assert t.rooms[id].inbox == s.rooms[id].inbox + [s.published];
    RunStillAwaits(t, after, conn, id, s.published);
  }

  // --- Who is in a room, told from the events ------------------------------------------------------

  lemma {:induction false} RunThen(s: Server, events: seq<Event>, e: Event)
    ensures Run(s, events + [e]) == Step(Run(s, events), e)
    decreases |events|
  {
    if events == [] {
      assert events + [e] == [e];
    } else {
      assert (events + [e])[0] == events[0] && (events + [e])[1..] == events[1..] + [e];
      RunThen(Step(s, events[0]), events[1..], e);
    }
  }

  // The client has joined the market's room and has not left it since.
  ghost predicate Present(events: seq<Event>, conn: Conn, marketId: MarketId) {
    exists i :: 0 <= i < |events| && events[i] == Join(conn, marketId)
             && forall j :: i < j < |events| ==> events[j] != Leave(conn, marketId)
  }

  lemma PresentThen(events: seq<Event>, e: Event, conn: Conn, marketId: MarketId)
    ensures Present(events + [e], conn, marketId) <==>
      e == Join(conn, marketId) || (Present(events, conn, marketId) && e != Leave(conn, marketId))
  {
    var all, n := events + [e], |events|;
    assert all[n] == e && forall i :: 0 <= i < n ==> all[i] == events[i];
    if Present(all, conn, marketId) {
      var i :| 0 <= i < |all| && all[i] == Join(conn, marketId)
            && forall j :: i < j < |all| ==> all[j] != Leave(conn, marketId);
      if i < n { assert events[i] == Join(conn, marketId); }
    }
    if e == Join(conn, marketId) {
      assert all[n] == Join(conn, marketId);
    } else if Present(events, conn, marketId) && e != Leave(conn, marketId) {
      var i :| 0 <= i < n && events[i] == Join(conn, marketId)
            && forall j :: i < j < n ==> events[j] != Leave(conn, marketId);
      assert all[i] == Join(conn, marketId);
    }
  }

  ghost predicate InRoom(s: Server, conn: Conn, marketId: MarketId) {
    && marketId in s.registry && s.registry[marketId] < |s.rooms|
    && conn in s.rooms[s.registry[marketId]].clients
  }

  lemma StepMoves(s: Server, e: Event, conn: Conn, marketId: MarketId)
    requires RegistryOk(s)
    ensures InRoom(Step(s, e), conn, marketId) <==>
      e == Join(conn, marketId) || (InRoom(s, conn, marketId) && e != Leave(conn, marketId))
  {
    match e
    case Join(joining, m) => JoinMoves(s, joining, m, conn, marketId);
    case Leave(leaving, m) => LeaveMoves(s, leaving, m, conn, marketId);
    case _ =>
  }

  lemma JoinMoves(s: Server, joining: Conn, m: MarketId, conn: Conn, marketId: MarketId)
    requires RegistryOk(s)
    ensures InRoom(JoinRoom(s, joining, m), conn, marketId) <==>
      (joining == conn && m == marketId) || InRoom(s, conn, marketId)
  {
    if marketId in s.registry && m in s.registry && m != marketId {
      assert s.rooms[s.registry[m]].marketId != s.rooms[s.registry[marketId]].marketId;
    }
  }

  lemma LeaveMoves(s: Server, leaving: Conn, m: MarketId, conn: Conn, marketId: MarketId)
    requires RegistryOk(s)
    ensures InRoom(LeaveRoom(s, leaving, m), conn, marketId) <==>
      InRoom(s, conn, marketId) && !(leaving == conn && m == marketId)
  {
    if marketId in s.registry && m in s.registry && m != marketId {
      assert s.rooms[s.registry[m]].marketId != s.rooms[s.registry[marketId]].marketId;
    }
    if marketId == m && InRoom(s, conn, m) && leaving != conn {
      assert conn in s.rooms[s.registry[m]].clients - {leaving};
    }
  }

  lemma {:induction false} RunMoves(events: seq<Event>, conn: Conn, marketId: MarketId)
    ensures InRoom(Run(EMPTY, events), conn, marketId) <==> Present(events, conn, marketId)
    decreases |events|
  {
    if events != [] {
      var before, e := events[..|events| - 1], events[|events| - 1];
      assert events == before + [e];
      RunMoves(before, conn, marketId);
      RunKeepsValid(EMPTY, before);
      RunThen(EMPTY, before, e);
      StepMoves(Run(EMPTY, before), e, conn, marketId);
      PresentThen(before, e, conn, marketId);
    }
  }

  // After any run the room of a market holds exactly the clients whose last word on that
  // market was to join, and there is a room exactly when there is such a client.
  lemma RunHoldsPresent(events: seq<Event>)
    ensures var t := Run(EMPTY, events);
      && (forall m :: m in t.registry ==> t.registry[m] < |t.rooms|)
      && (forall m, conn :: m in t.registry && conn in t.rooms[t.registry[m]].clients <==> Present(events, conn, m))
      && (forall m :: m in t.registry <==> exists conn :: Present(events, conn, m))
  {
    var t := Run(EMPTY, events);
    RunKeepsValid(EMPTY, events);
    forall m, conn ensures InRoom(t, conn, m) <==> Present(events, conn, m) { RunMoves(events, conn, m); }
    forall m ensures m in t.registry <==> exists conn :: Present(events, conn, m) {
      if m in t.registry {
        assert RoomOk(t, t.registry[m]);
        var conn :| conn in t.rooms[t.registry[m]].clients;
        assert InRoom(t, conn, m);
      }
      if conn :| Present(events, conn, m) { assert InRoom(t, conn, m); }
    }
  }

  // --- To whom a message goes -------------------------------------------------------------------------

  // What a step adds to the log.
  ghost predicate SendsOnly(s: Server, t: Server) {
    && s.log <= t.log
    && forall i :: |s.log| <= i < |t.log| ==> InRoom(s, t.log[i].conn, t.log[i].marketId)
  }

  lemma StepSends(s: Server, e: Event)
    requires RegistryOk(s)
    ensures SendsOnly(s, Step(s, e))
  {
    if e.Broadcast? && BroadcastNext(s, e.room, e.order) != s {
      assert RoomOk(s, e.room);
      if s.rooms[e.room].clients == {} { EmptyRoomIsSilent(s, e.room, e.order); }
    }
  }

  // Each message is sent to clients that are in the room when it is sent.
  lemma SentToPresent(before: seq<Event>, e: Event)
    ensures var s, t := Run(EMPTY, before), Run(EMPTY, before + [e]);
      && s.log <= t.log
      && forall i :: |s.log| <= i < |t.log| ==> Present(before, t.log[i].conn, t.log[i].marketId)
  {
    var s, t := Run(EMPTY, before), Run(EMPTY, before + [e]);
    RunKeepsValid(EMPTY, before);
    RunThen(EMPTY, before, e);
    StepSends(s, e);
    forall i | |s.log| <= i < |t.log| ensures Present(before, t.log[i].conn, t.log[i].marketId) {
      RunMoves(before, t.log[i].conn, t.log[i].marketId);
    }
  }

  // A client that is not in the room, and does not join it, is sent nothing.
  lemma {:induction false} AbsentIsSentNothing(s: Server, events: seq<Event>, conn: Conn, marketId: MarketId)
    requires Valid(s) && !InRoom(s, conn, marketId) && Join(conn, marketId) !in events
    ensures var t := Run(s, events);
      && s.log <= t.log
      && forall i :: |s.log| <= i < |t.log| ==> !(t.log[i].conn == conn && t.log[i].marketId == marketId)
    decreases |events|
  {
    if events != [] {
      assert events[0] in events;
      var next := Step(s, events[0]);
      StepKeepsValid(s, events[0]);
      StepSends(s, events[0]);
      StepMoves(s, events[0], conn, marketId);
      AbsentIsSentNothing(next, events[1..], conn, marketId);
    }
  }

  // So between leaving a room and joining it again a client is sent nothing of its market.
  lemma GoneIsSentNothing(before: seq<Event>, after: seq<Event>, conn: Conn, marketId: MarketId)
    requires Join(conn, marketId) !in after
    ensures var s := Step(Run(EMPTY, before), Leave(conn, marketId));
      var t := Run(s, after);
      && s.log <= t.log
      && forall i :: |s.log| <= i < |t.log| ==> !(t.log[i].conn == conn && t.log[i].marketId == marketId)
  {
    var s := Run(EMPTY, before);
    RunKeepsValid(EMPTY, before);
    StepKeepsValid(s, Leave(conn, marketId));
    StepMoves(s, Leave(conn, marketId), conn, marketId);
    AbsentIsSentNothing(Step(s, Leave(conn, marketId)), after, conn, marketId);
  }

  // The markets of the messages, in the order in which they were published.
  function Topics(events: seq<Event>): seq<MarketId>
    decreases |events|
  {
    if events == [] then []
    else
      var last := events[|events| - 1];
      Topics(events[..|events| - 1]) + if last.Publish? then [last.marketId] else []
  }

  ghost predicate OfTopic(topics: seq<MarketId>, message: MessageId, marketId: MarketId) {
    message < |topics| && topics[message] == marketId
  }

  // Whatever waits or has been sent belongs to the market it waits for or was sent in.
  ghost predicate Sourced(s: Server, topics: seq<MarketId>) {
    && s.published == |topics|
    && (forall id, i :: 0 <= id < |s.rooms| && 0 <= i < |s.rooms[id].inbox| ==>
          OfTopic(topics, s.rooms[id].inbox[i], s.rooms[id].marketId))
    && (forall i :: 0 <= i < |s.log| ==> OfTopic(topics, s.log[i].message, s.log[i].marketId))
  }

  lemma StepSources(s: Server, e: Event, topics: seq<MarketId>)
    requires Sourced(s, topics)
    ensures Sourced(Step(s, e), topics + if e.Publish? then [e.marketId] else [])
  {
    if e.Publish? {
      var t, more := Step(s, e), topics + [e.marketId];
      forall id, i | 0 <= id < |t.rooms| && 0 <= i < |t.rooms[id].inbox|
        ensures OfTopic(more, t.rooms[id].inbox[i], t.rooms[id].marketId)
      {
        if i < |s.rooms[id].inbox| {
          assert OfTopic(topics, s.rooms[id].inbox[i], s.rooms[id].marketId);
        }
      }
      forall i | 0 <= i < |t.log| ensures OfTopic(more, t.log[i].message, t.log[i].marketId) {
        assert OfTopic(topics, s.log[i].message, s.log[i].marketId);
      }
    } else {
      assert topics + [] == topics;
      OtherStepSources(s, e, topics);
    }
  }

  lemma OtherStepSources(s: Server, e: Event, topics: seq<MarketId>)
    requires Sourced(s, topics) && !e.Publish?
    ensures Sourced(Step(s, e), topics)
  {
    if e.Broadcast? && BroadcastNext(s, e.room, e.order) != s {
      var room, rest := s.rooms[e.room], s.rooms[e.room].inbox[1..];
      assert OfTopic(topics, room.inbox[0], room.marketId);
      forall i | 0 <= i < |rest| ensures OfTopic(topics, rest[i], room.marketId) {
        assert rest[i] == room.inbox[i + 1];
      }
    }
  }

  lemma {:induction false} RunSources(events: seq<Event>)
    ensures Sourced(Run(EMPTY, events), Topics(events))
    decreases |events|
  {
    if events != [] {
      var before, e := events[..|events| - 1], events[|events| - 1];
      assert events == before + [e];
      RunSources(before);
      RunThen(EMPTY, before, e);
      StepSources(Run(EMPTY, before), e, Topics(before));
    }
  }

  // Over any run every delivery is of a message that was published in its market.
  lemma RunDeliversPublished(events: seq<Event>)
    ensures var t, topics := Run(EMPTY, events), Topics(events);
      && t.published == |topics|
      && forall i :: 0 <= i < |t.log| ==>
           t.log[i].message < |topics| && topics[t.log[i].message] == t.log[i].marketId
  {
    RunSources(events);
    var t, topics := Run(EMPTY, events), Topics(events);
    forall i | 0 <= i < |t.log|
      ensures t.log[i].message < |topics| && topics[t.log[i].message] == t.log[i].marketId
    {
      assert OfTopic(topics, t.log[i].message, t.log[i].marketId);
    }
  }

  // A listener that has not subscribed has nothing to send and has sent nothing.
  ghost predicate Unsubscribed(s: Server, id: RoomId) {
    && (id < |s.rooms| ==> s.rooms[id].phase != Subscribed && s.rooms[id].inbox == [])
    && (forall i :: 0 <= i < |s.log| ==> s.log[i].room != id)
  }

  lemma StepUnsubscribed(s: Server, e: Event, id: RoomId)
    requires Unsubscribed(s, id) && e != Event.Subscribe(id)
    ensures Unsubscribed(Step(s, e), id)
  {
  }

  lemma {:induction false} RunUnsubscribed(events: seq<Event>, id: RoomId)
    requires Event.Subscribe(id) !in events
    ensures Unsubscribed(Run(EMPTY, events), id)
    decreases |events|
  {
    if events != [] {
      var before, e := events[..|events| - 1], events[|events| - 1];
      assert events == before + [e] && e in events;
      RunUnsubscribed(before, id);
      RunThen(EMPTY, before, e);
      StepUnsubscribed(Run(EMPTY, before), e, id);
    }
  }

  // All that a listener has to send or has sent was published no earlier than this message.
  ghost predicate NoneOlder(s: Server, id: RoomId, message: MessageId) {
    && message <= s.published
    && (forall i :: id < |s.rooms| && 0 <= i < |s.rooms[id].inbox| ==> s.rooms[id].inbox[i] >= message)
    && (forall i :: 0 <= i < |s.log| && s.log[i].room == id ==> s.log[i].message >= message)
  }

  lemma StepNoneOlder(s: Server, e: Event, id: RoomId, message: MessageId)
    requires NoneOlder(s, id, message)
    ensures NoneOlder(Step(s, e), id, message)
  {
  }

  lemma {:induction false} RunNoneOlder(s: Server, events: seq<Event>, id: RoomId, message: MessageId)
    requires NoneOlder(s, id, message)
    ensures NoneOlder(Run(s, events), id, message)
    decreases |events|
  {
    if events != [] {
      StepNoneOlder(s, events[0], id, message);
      RunNoneOlder(Step(s, events[0]), events[1..], id, message);
    }
  }

  // What was published before a listener subscribed is never sent by it.
  lemma UnsubscribedMisses(before: seq<Event>, after: seq<Event>, id: RoomId)
    requires Event.Subscribe(id) !in before
    ensures var s := Run(EMPTY, before);
      var t := Run(s, after);
      forall i :: 0 <= i < |t.log| && t.log[i].room == id ==> t.log[i].message >= s.published
  {
    RunUnsubscribed(before, id);
    RunNoneOlder(Run(EMPTY, before), after, id, Run(EMPTY, before).published);
  }

  // --- The server ---------------------------------------------------------------------------------

  // phase and inbox are the state of the listener started with the room: its place in
  // listenRedis and the messages its subscription holds for it.
  class Room {
    const marketId: MarketId
    const id: RoomId
    var clients: set<Conn>
    var cancelled: bool
    var phase: Phase
    var inbox: seq<MessageId>

    constructor (marketId: MarketId, id: RoomId)
      ensures this.id == id && State() == NewRoom(marketId)
    {
      this.marketId := marketId;
      this.id := id;
      clients, cancelled, phase, inbox := {}, false, Starting, [];
    }

    function State(): RoomState
      reads this
    {
      RoomState(marketId, clients, cancelled, phase, inbox)
    }

    // The clients in the order in which the data is sent to them.
    method BroadcastData() returns (order: seq<Conn>)
      ensures Enumerates(order, clients)
    {
      order := [];
      var left := clients;
      while left != {}
        invariant left <= clients
        invariant forall c :: c in order <==> c in clients - left
        invariant forall i, j :: 0 <= i < j < |order| ==> order[i] != order[j]
        decreases left
      {
        var conn :| conn in left;
        assert forall i :: 0 <= i < |order| ==> order[i] in order && order[i] != conn;
        order := order + [conn];
        left := left - {conn};
      }
      assert forall i :: 0 <= i < |order| ==> order[i] in order;
    }
  }

  class WSServer {
    var rooms: map<MarketId, Room>
    var log: seq<Delivery>
    var created: seq<Room>
    ghost var published: MessageId

    ghost predicate Valid()
      reads this
    {
      && (forall i :: 0 <= i < |created| ==> created[i].id == i)
      && (forall m :: m in rooms ==> rooms[m] in created && rooms[m].marketId == m)
    }

    ghost function Contents(): Server
      reads this, created
    {
      Server(map m | m in rooms :: rooms[m].id,
             seq(|created|, i requires 0 <= i < |created| reads this, created => created[i].State()),
             published,
             log)
    }

    constructor ()
      ensures Valid() && Contents() == EMPTY
    {
      rooms, log, created, published := map[], [], [], 0;
    }

    // The first client of a market: its room, and the listener that starts with it.
    method CreateRoom(marketId: MarketId) returns (room: Room)
      requires Valid() && marketId !in rooms
      modifies this
      ensures Valid() && fresh(room) && rooms == old(rooms)[marketId := room] && created == old(created) + [room]
      ensures Contents() == old(Opened(Contents(), marketId)) && room.clients == {}
    {
      room := new Room(marketId, |created|);
      rooms := rooms[marketId := room];
      created := created + [room];
    }

    method JoinRoom(conn: Conn, marketId: MarketId) returns (room: Room)
      requires Valid()
      modifies this, created
      ensures Valid()
      ensures Contents() == old(Step(Contents(), Join(conn, marketId)))
      ensures marketId in rooms && rooms[marketId] == room
      ensures room.clients == (if marketId in old(rooms) then old(rooms[marketId].clients) else {}) + {conn}
    {
      if marketId in rooms {
        room := rooms[marketId];
      } else {
        room := CreateRoom(marketId);
      }
      assert room in created && created[room.id] == room;
      room.clients := room.clients + {conn};
    }

    method LeaveRoom(conn: Conn, marketId: MarketId)
      requires Valid()
      modifies this, created
      ensures Valid()
      ensures Contents() == old(Step(Contents(), Leave(conn, marketId)))
      ensures marketId in old(rooms) ==>
        var room := old(rooms[marketId]);
        && room.clients == old(room.clients) - {conn}
        && room.cancelled == (room.clients == {} || old(room.cancelled))
        && rooms == if room.clients == {} then old(rooms) - {marketId} else old(rooms)
    {
      if marketId !in rooms { return; }
      var room := rooms[marketId];
      room.clients := room.clients - {conn};
      var count := |room.clients|;
      if count == 0 {
        room.cancelled := true;
        rooms := rooms - {marketId};
      }
    }

    // The first thing listenRedis does.
    method Subscribe(room: Room)
      requires Valid() && room in created && room.phase == Starting
      modifies room
      ensures Valid()
      ensures Contents() == old(Step(Contents(), Event.Subscribe(room.id)))
      ensures room.State() == old(room.State()).(phase := Subscribed)
    {
      room.phase := Subscribed;
    }

    // The log has grown by one delivery of the message to each of the clients.
    twostate predicate SentToAll(room: Room, message: MessageId)
      reads this, room
    {
      && |log| == |old(log)| + |room.clients| && log[..|old(log)|] == old(log)
      && (forall i :: |old(log)| <= i < |log| ==>
            log[i] == Delivery(log[i].conn, room.marketId, room.id, message) && log[i].conn in room.clients)
      && (forall i, j :: |old(log)| <= i < j < |log| ==> log[i].conn != log[j].conn)
    }

    // One turn of the select loop of listenRedis. With a message at hand and the
    // context done it may take either branch; with neither it waits.
    method Select(room: Room, preferDone: bool) returns (ghost event: Option<Event>)
      requires Valid() && room in created
      modifies this, room
      ensures Valid()
      ensures Contents() == if event.Some? then Step(old(Contents()), event.value) else old(Contents())
      ensures rooms == old(rooms) && created == old(created)
      ensures
        if old(room.phase == Subscribed && room.inbox != [] && !(room.cancelled && preferDone)) then
          && room.State() == old(room.State()).(inbox := old(room.inbox)[1..]) && SentToAll(room, old(room.inbox[0]))
          && event.Some? && event.value.Broadcast? && event.value.room == room.id
          && Enumerates(event.value.order, room.clients)
        else if old(room.cancelled) then
          && room.State() == old(room.State()).(phase := Stopped) && log == old(log)
          && event == Some(Event.Stop(room.id))
        else room.State() == old(room.State()) && log == old(log) && event == None
    {
      if room.phase == Subscribed && room.inbox != [] && !(room.cancelled && preferDone) {
        var message := room.inbox[0];
        var order := room.BroadcastData();
        EachOnce(order, room.clients);
        room.inbox := room.inbox[1..];
        log := log + Sent(order, room.marketId, room.id, message);
        event := Some(Event.Broadcast(room.id, order));
      } else if room.cancelled {
        room.phase := Stopped;
        event := Some(Event.Stop(room.id));
      } else {
        event := None;
      }
    }
  }
}
