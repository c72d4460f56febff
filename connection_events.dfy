/** The gateway's socket event handlers. Each inbound event either writes the
    shared user-to-socket hash `userSocketMap` (connect and disconnect) or
    publishes one message on the topic named after the event. The hash is a
    map here and publishing appends to an outbox; the gateway keeps no room
    state and checks no field. */
module ConnectionEvents {

  type UserId = string
  type SocketId = string

  /** A field of an event as the client sent it; the gateway never inspects it. */
  type Value = string

  datatype Option<T> = None | Some(value: T)

  /** The events a socket can send, with the fields their listener destructures. */
  datatype Event =
    | ClientConnected(socketId: SocketId, userId: UserId)
    | ClientDisconnected(userId: UserId)
    | FindMatch(difficulty: Value, userId: UserId)
    | SendLanguage(roomId: Value, language: Value)
    | SendCurrentCode(roomId: Value, code: Value)
    | SendDrawing(roomId: Value, strokeData: Value)
    | SendUndoDrawing(roomId: Value)
    | SendRedoDrawing(roomId: Value)
    | SendClearDrawing(roomId: Value)
    | SendMessage(roomId: Value, messageId: Value, name: Value, message: Value, time: Value)
    | SendLeaveRoom(roomId: Value)

  /** A JSON object as a list of key/value pairs in insertion order. */
  datatype Payload = Payload(fields: seq<(string, Value)>)

  /** One message handed to the pub/sub client. */
  datatype Message = Message(topic: string, payload: Payload)

  /** The name each listener is registered under. */
  function EventName(e: Event): string
  {
    match e
    case ClientConnected(_, _) => "clientConnected"
    case ClientDisconnected(_) => "clientDisconnected"
    case FindMatch(_, _) => "findMatch"
    case SendLanguage(_, _) => "sendLanguage"
    case SendCurrentCode(_, _) => "sendCurrentCode"
    case SendDrawing(_, _) => "sendDrawing"
    case SendUndoDrawing(_) => "sendUndoDrawing"
    case SendRedoDrawing(_) => "sendRedoDrawing"
    case SendClearDrawing(_) => "sendClearDrawing"
    case SendMessage(_, _, _, _, _) => "sendMessage"
    case SendLeaveRoom(_) => "sendLeaveRoom"
  }

  /** The events whose handler publishes rather than writing the hash. */
  predicate Publishes(e: Event)
  {
    !e.ClientConnected? && !e.ClientDisconnected?
  }

  function Keys(p: Payload): (ks: seq<string>)
    ensures |ks| == |p.fields|
  {
    seq(|p.fields|, i requires 0 <= i < |p.fields| => p.fields[i].0)
  }

  /** How a subscriber reads a message back: the topic picks the event kind,
      and the payload must hold exactly that event's keys, in order. */
  function Decode(m: Message): Option<Event>
  {
    var f := m.payload.fields;
    var ks := Keys(m.payload);
    if m.topic == "findMatch" && ks == ["difficulty", "userId"] then
      Some(FindMatch(f[0].1, f[1].1))
    else if m.topic == "sendLanguage" && ks == ["roomId", "language"] then
      Some(SendLanguage(f[0].1, f[1].1))
    else if m.topic == "sendCurrentCode" && ks == ["roomId", "code"] then
      Some(SendCurrentCode(f[0].1, f[1].1))
    else if m.topic == "sendDrawing" && ks == ["roomId", "strokeData"] then
      Some(SendDrawing(f[0].1, f[1].1))
    else if m.topic == "sendUndoDrawing" && ks == ["roomId"] then
      Some(SendUndoDrawing(f[0].1))
    else if m.topic == "sendRedoDrawing" && ks == ["roomId"] then
      Some(SendRedoDrawing(f[0].1))
    else if m.topic == "sendClearDrawing" && ks == ["roomId"] then
      Some(SendClearDrawing(f[0].1))
    else if m.topic == "sendMessage" && ks == ["roomId", "messageId", "name", "message", "time"] then
      Some(SendMessage(f[0].1, f[1].1, f[2].1, f[3].1, f[4].1))
    else if m.topic == "sendLeaveRoom" && ks == ["roomId"] then
      Some(SendLeaveRoom(f[0].1))
    else
      None
  }

  /** The message a publishing handler hands to the pub/sub client: its topic is
      the event's own name and its payload carries exactly the event's fields,
      so a subscriber recovers the event unchanged. */
  function Publication(e: Event): (m: Message)
    requires Publishes(e)
    ensures m.topic == EventName(e)
    ensures Decode(m) == Some(e)
  {
    match e
    case FindMatch(difficulty, userId) =>
      Message("findMatch", Payload([("difficulty", difficulty), ("userId", userId)]))
    case SendLanguage(roomId, language) =>
      Message("sendLanguage", Payload([("roomId", roomId), ("language", language)]))
    case SendCurrentCode(roomId, code) =>
      Message("sendCurrentCode", Payload([("roomId", roomId), ("code", code)]))
    case SendDrawing(roomId, strokeData) =>
      Message("sendDrawing", Payload([("roomId", roomId), ("strokeData", strokeData)]))
    case SendUndoDrawing(roomId) =>
      Message("sendUndoDrawing", Payload([("roomId", roomId)]))
    case SendRedoDrawing(roomId) =>
      Message("sendRedoDrawing", Payload([("roomId", roomId)]))
    case SendClearDrawing(roomId) =>
      Message("sendClearDrawing", Payload([("roomId", roomId)]))
    case SendMessage(roomId, messageId, name, message, time) =>
      Message("sendMessage", Payload([("roomId", roomId), ("messageId", messageId), ("name", name),
                                      ("message", message), ("time", time)]))
    case SendLeaveRoom(roomId) =>
      Message("sendLeaveRoom", Payload([("roomId", roomId)]))
  }

  /** Distinct events never produce the same message. */
  lemma PublicationInjective(e1: Event, e2: Event)
    requires Publishes(e1) && Publishes(e2) && Publication(e1) == Publication(e2)
    ensures e1 == e2
  {
    assert Some(e1) == Decode(Publication(e1)) == Decode(Publication(e2)) == Some(e2);
  }

  /** What the handlers can touch: the shared hash and the messages published so far. */
  datatype GatewayState = GatewayState(userSocketMap: map<UserId, SocketId>, outbox: seq<Message>)

  /** The effect of handling one event. */
  function Step(s: GatewayState, e: Event): (t: GatewayState)
    ensures Publishes(e) ==> t == s.(outbox := s.outbox + [Publication(e)])
    ensures !Publishes(e) ==> t.outbox == s.outbox
    ensures e.ClientConnected? ==>
              t.userSocketMap.Keys == s.userSocketMap.Keys + {e.userId} &&
              t.userSocketMap[e.userId] == e.socketId &&
              forall u :: u in s.userSocketMap && u != e.userId ==> t.userSocketMap[u] == s.userSocketMap[u]
    ensures e.ClientDisconnected? ==>
              t.userSocketMap.Keys == s.userSocketMap.Keys - {e.userId} &&
              forall u :: u in t.userSocketMap ==> t.userSocketMap[u] == s.userSocketMap[u]
  {
    match e
    case ClientConnected(socketId, userId) => s.(userSocketMap := s.userSocketMap[userId := socketId])
    case ClientDisconnected(userId) => s.(userSocketMap := s.userSocketMap - {userId})
    case _ => s.(outbox := s.outbox + [Publication(e)])
  }

  /** Handling a sequence of events one at a time, in arrival order. */
  function Run(s: GatewayState, es: seq<Event>): GatewayState
    decreases |es|
  {
    if es == [] then s else Run(Step(s, es[0]), es[1..])
  }

  /** The messages a sequence of events publishes, in order. */
  function Publications(es: seq<Event>): seq<Message>
  {
    if es == [] then []
    else (if Publishes(es[0]) then [Publication(es[0])] else []) + Publications(es[1..])
  }

  /** The connect and disconnect events of a sequence, in order. */
  function RegistryEvents(es: seq<Event>): seq<Event>
  {
    if es == [] then []
    else (if Publishes(es[0]) then [] else [es[0]]) + RegistryEvents(es[1..])
  }

  lemma {:induction false} RunAppend(s: GatewayState, es: seq<Event>, e: Event)
    ensures Run(s, es + [e]) == Step(Run(s, es), e)
    decreases |es|
  {
    if es != [] {
      assert (es + [e])[0] == es[0];
      assert (es + [e])[1..] == es[1..] + [e];
      RunAppend(Step(s, es[0]), es[1..], e);
    }
  }

  /** Every publishing event appends its own message to the outbox, in arrival
      order, and nothing else ever reaches it. */
  lemma {:induction false} RunOutbox(s: GatewayState, es: seq<Event>)
    ensures Run(s, es).outbox == s.outbox + Publications(es)
    decreases |es|
  {
    if es != [] {
      var t := Step(s, es[0]);
      var head := if Publishes(es[0]) then [Publication(es[0])] else [];
      assert t.outbox == s.outbox + head;
      assert Run(s, es) == Run(t, es[1..]);
      RunOutbox(t, es[1..]);
      assert Publications(es) == head + Publications(es[1..]);
      assert (s.outbox + head) + Publications(es[1..]) == s.outbox + (head + Publications(es[1..]));
    }
  }

  /** Publishing events never touch the hash: dropping them from a run leaves
      the final hash as it was. */
  lemma {:induction false} RunRegistry(s: GatewayState, es: seq<Event>)
    ensures Run(s, es).userSocketMap == Run(s, RegistryEvents(es)).userSocketMap
    decreases |es|
  {
    if es != [] {
      var t := Step(s, es[0]);
      RunRegistry(t, es[1..]);
      if Publishes(es[0]) {
        assert RegistryEvents(es) == RegistryEvents(es[1..]);
        RunIgnoresOutbox(s, t, RegistryEvents(es[1..]));
      } else {
        assert RegistryEvents(es) == [es[0]] + RegistryEvents(es[1..]);
      }
    }
  }

  /** The hash a run leaves depends on the starting hash and the events only. */
  lemma {:induction false} RunIgnoresOutbox(s: GatewayState, t: GatewayState, es: seq<Event>)
    requires s.userSocketMap == t.userSocketMap
    ensures Run(s, es).userSocketMap == Run(t, es).userSocketMap
    decreases |es|
  {
    if es != [] {
      RunIgnoresOutbox(Step(s, es[0]), Step(t, es[0]), es[1..]);
    }
  }

  /** The entry for `u` in a hash, if any. */
  function Lookup(m: map<UserId, SocketId>, u: UserId): Option<SocketId>
  {
    if u in m then Some(m[u]) else None
  }

  /** The last connect or disconnect about `u` in a sequence, as the entry it
      leaves: Some(Some(socket)) for a connect, Some(None) for a disconnect,
      None when no event in the sequence is about `u`. */
  function LastWrite(es: seq<Event>, u: UserId): Option<Option<SocketId>>
  {
    if es == [] then None
    else
      var e := es[|es| - 1];
      if e.ClientConnected? && e.userId == u then Some(Some(e.socketId))
      else if e.ClientDisconnected? && e.userId == u then Some(None)
      else LastWrite(es[..|es| - 1], u)
  }

  /** Last write wins, per user: after any run, the entry for `u` is the one the
      last connect or disconnect about `u` left, or the original one if there
      was none. The hash never holds two sockets for one user. */
  lemma {:induction false} RunLookup(s: GatewayState, es: seq<Event>, u: UserId)
    ensures Lookup(Run(s, es).userSocketMap, u) ==
              match LastWrite(es, u)
              case None => Lookup(s.userSocketMap, u)
              case Some(entry) => entry
    decreases |es|
  {
    if es != [] {
      var init, e := es[..|es| - 1], es[|es| - 1];
      assert es == init + [e];
      RunAppend(s, init, e);
      RunLookup(s, init, u);
    }
  }

  /** Two connects for the same user: the second socket wins and the first
      leaves no trace. */
  lemma LastConnectWins(s: GatewayState, u: UserId, first: SocketId, second: SocketId)
    ensures Step(Step(s, ClientConnected(first, u)), ClientConnected(second, u)) == Step(s, ClientConnected(second, u))
    ensures Step(Step(s, ClientConnected(first, u)), ClientConnected(second, u)).userSocketMap[u] == second
  {
    assert s.userSocketMap[u := first][u := second] == s.userSocketMap[u := second];
  }

  /** Disconnecting a user with no entry changes nothing. */
  lemma DisconnectAbsentIsNoOp(s: GatewayState, u: UserId)
    requires u !in s.userSocketMap
    ensures Step(s, ClientDisconnected(u)) == s
  {
    assert s.userSocketMap - {u} == s.userSocketMap;
  }

  /** A connect followed by a disconnect of a user that had no entry restores the state. */
  lemma ConnectThenDisconnect(s: GatewayState, u: UserId, socket: SocketId)
    requires u !in s.userSocketMap
    ensures Step(Step(s, ClientConnected(socket, u)), ClientDisconnected(u)) == s
  {
    assert s.userSocketMap[u := socket] - {u} == s.userSocketMap;
  }

  /** The gateway as its handlers see it: the `userSocketMap` hash and the
      messages handed to the pub/sub client so far. */
  class Gateway {
    var userSocketMap: map<UserId, SocketId>
    var outbox: seq<Message>

    function State(): GatewayState
      reads this
    {
      GatewayState(userSocketMap, outbox)
    }

    /** The hash lives in Redis and outlasts any gateway instance, so a new
        gateway starts from whatever hash is there and has published nothing. */
    constructor (registry: map<UserId, SocketId>)
      ensures userSocketMap == registry && outbox == []
    {
      userSocketMap := registry;
      outbox := [];
    }

    /** `hSet("userSocketMap", userId, socketId)`. */
    method ClientConnectedEvent(socketId: SocketId, userId: UserId)
      modifies this
      ensures userSocketMap == old(userSocketMap)[userId := socketId]
      ensures outbox == old(outbox)
    {
      userSocketMap := userSocketMap[userId := socketId];
    }

    /** `hDel("userSocketMap", userId)`. */
    method ClientDisconnectedEvent(userId: UserId)
      modifies this
      ensures userSocketMap == old(userSocketMap) - {userId}
      ensures outbox == old(outbox)
    {
      userSocketMap := userSocketMap - {userId};
    }

    /** `publish(topic, data)`. */
    method Publish(m: Message)
      modifies this
      ensures outbox == old(outbox) + [m]
      ensures userSocketMap == old(userSocketMap)
    {
      outbox := outbox + [m];
    }

    method FindMatchEvent(difficulty: Value, userId: UserId)
      modifies this
      ensures outbox == old(outbox) + [Publication(FindMatch(difficulty, userId))]
      ensures userSocketMap == old(userSocketMap)
    {
      Publish(Publication(FindMatch(difficulty, userId)));
    }

    method SendLanguage(roomId: Value, language: Value)
      modifies this
      ensures outbox == old(outbox) + [Publication(Event.SendLanguage(roomId, language))]
      ensures userSocketMap == old(userSocketMap)
    {
      Publish(Publication(Event.SendLanguage(roomId, language)));
    }

    method SendCollaborationCode(roomId: Value, code: Value)
      modifies this
      ensures outbox == old(outbox) + [Publication(SendCurrentCode(roomId, code))]
      ensures userSocketMap == old(userSocketMap)
    {
      Publish(Publication(SendCurrentCode(roomId, code)));
    }

    method SendDrawing(roomId: Value, strokeData: Value)
      modifies this
      ensures outbox == old(outbox) + [Publication(Event.SendDrawing(roomId, strokeData))]
      ensures userSocketMap == old(userSocketMap)
    {
      Publish(Publication(Event.SendDrawing(roomId, strokeData)));
    }

    method SendUndoDrawing(roomId: Value)
      modifies this
      ensures outbox == old(outbox) + [Publication(Event.SendUndoDrawing(roomId))]
      ensures userSocketMap == old(userSocketMap)
    {
      Publish(Publication(Event.SendUndoDrawing(roomId)));
    }

    method SendRedoDrawing(roomId: Value)
      modifies this
      ensures outbox == old(outbox) + [Publication(Event.SendRedoDrawing(roomId))]
      ensures userSocketMap == old(userSocketMap)
    {
      Publish(Publication(Event.SendRedoDrawing(roomId)));
    }

    method SendClearDrawing(roomId: Value)
      modifies this
      ensures outbox == old(outbox) + [Publication(Event.SendClearDrawing(roomId))]
      ensures userSocketMap == old(userSocketMap)
    {
      Publish(Publication(Event.SendClearDrawing(roomId)));
    }

    method SendMessageEvent(roomId: Value, messageId: Value, name: Value, message: Value, time: Value)
      modifies this
      ensures outbox == old(outbox) + [Publication(SendMessage(roomId, messageId, name, message, time))]
      ensures userSocketMap == old(userSocketMap)
    {
      Publish(Publication(SendMessage(roomId, messageId, name, message, time)));
    }

    method SendLeaveRoom(roomId: Value)
      modifies this
      ensures outbox == old(outbox) + [Publication(Event.SendLeaveRoom(roomId))]
      ensures userSocketMap == old(userSocketMap)
    {
      Publish(Publication(Event.SendLeaveRoom(roomId)));
    }

    /** The listener table of `registerConnectionHandlers`: each event goes to
        exactly one handler, with the fields it was sent with. */
    method Dispatch(e: Event)
      modifies this
      ensures State() == Step(old(State()), e)
    {
      match e
      case ClientConnected(socketId, userId) => ClientConnectedEvent(socketId, userId);
      case ClientDisconnected(userId) => ClientDisconnectedEvent(userId);
      case FindMatch(difficulty, userId) => FindMatchEvent(difficulty, userId);
      case SendLanguage(roomId, language) => SendLanguage(roomId, language);
      case SendCurrentCode(roomId, code) => SendCollaborationCode(roomId, code);
      case SendDrawing(roomId, strokeData) => SendDrawing(roomId, strokeData);
      case SendUndoDrawing(roomId) => SendUndoDrawing(roomId);
      case SendRedoDrawing(roomId) => SendRedoDrawing(roomId);
      case SendClearDrawing(roomId) => SendClearDrawing(roomId);
      case SendMessage(roomId, messageId, name, message, time) =>
        SendMessageEvent(roomId, messageId, name, message, time);
      case SendLeaveRoom(roomId) => SendLeaveRoom(roomId);
    }
  }
}
