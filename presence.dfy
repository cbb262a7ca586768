/** The connection supervisor of the relay server: the token gate in front of
    every connection, the presence registry (user id -> socket id), the
    roster broadcast after every registry change, and the queue consumer that
    turns relay envelopes into `receive-message` pushes.

    Events the server emits are collected in an outbox; an emit is addressed
    to one socket, to a room, or to every connected socket. A socket joins the
    room named after its own verified user id and, as in socket.io, is also
    reachable through the room named by its socket id. */
module Presence {
  import opened Common
  import opened Records

  /** Where an emitted event goes: `socket.emit`, `io.to(room).emit`, `io.emit`. */
  datatype Target = ToSocket(sid: string) | ToRoom(room: string) | ToAll

  /** The events the server side sends to clients. */
  datatype ServerEvent =
    | UserIdEvent(userId: string)
    | UsersOnline(ids: seq<string>)
    | ReceiveMessage(from: string, message: Option<string>, timestamp: int)
    | TypingEvent(from: string)
    | StopTypingEvent(from: string)
    | MessageAck(status: string)
    | CallUserEvent(signalFrom: Option<string>, offer: Option<string>, kind: Option<string>, callerName: Option<string>)
    | AnswerEvent(signalFrom: Option<string>, answer: Option<string>)
    | IceEvent(signalFrom: Option<string>, candidate: Option<string>)
    | CallRejectedEvent(signalFrom: Option<string>)
    | EndCallEvent(signalFrom: Option<string>)

  datatype Emit = Emit(target: Target, event: ServerEvent)

  /** The unit placed on the `chat_messages` queue. */
  datatype Envelope = Envelope(from: string, to: string, message: Option<string>, kind: string, fileUrl: string, timestamp: int)

  /** A live socket: the user id its verified token carried, and its own
      `userId` property, which no handler ever assigns. */
  datatype SocketInfo = SocketInfo(userId: string, userIdProp: Option<string>)

  /** Outcome of the connection middleware. Both rejection causes produce the
      same error. */
  datatype AuthResult = Accepted(userId: string) | AuthenticationError

  /** The registry: a JavaScript `Map` from user id to socket id, with its keys
      in insertion order (`Array.from(map.keys())`). */
  datatype Registry = Registry(order: seq<string>, sid: map<string, string>) {

    ghost predicate Valid() {
      Distinct(order) && (forall k :: k in order <==> k in sid)
    }

    /** `map.set(k, v)`: a new key goes last, an existing key keeps its place. */
    function Set(k: string, v: string): (r: Registry)
      requires Valid()
      ensures r.Valid()
      ensures r.sid == sid[k := v]
      ensures k in sid ==> r.order == order
      ensures k !in sid ==> r.order == order + [k]
    {
      if k in sid then Registry(order, sid[k := v])
      else
        assert Distinct(order + [k]) by {
          assert forall i :: 0 <= i < |order| ==> (order + [k])[i] == order[i];
        }
        Registry(order + [k], sid[k := v])
    }

    /** `map.delete(k)`: removes the key if present, keeps the others in order. */
    function Delete(k: string): (r: Registry)
      requires Valid()
      ensures r.Valid()
      ensures r.sid == sid - {k}
      ensures k !in sid ==> r == this
    {
      if k !in sid then this
      else
        DeleteValid(order, sid, k);
        Registry(Filter(order, x => x != k), sid - {k})
    }
  }

  /** Filtering a key out of a valid registry's key order leaves a valid
      registry without that key. */
  lemma DeleteValid(order: seq<string>, sid: map<string, string>, k: string)
    requires Registry(order, sid).Valid()
    ensures Registry(Filter(order, x => x != k), sid - {k}).Valid()
  {
    var o := Filter(order, y => y != k);
    FilterDistinct(order, y => y != k);
    forall x | x in o ensures x in order && x != k {
      var i :| 0 <= i < |o| && o[i] == x;
    }
    forall x | x in order && x != k ensures x in o {
      var i :| 0 <= i < |order| && order[i] == x;
    }
  }

  const EmptyRegistry: Registry := Registry([], map[])

  /** The connection middleware: a missing or empty token, or one that the
      abstract verifier rejects, is an authentication error; otherwise the
      identity is the `userId` claim the verifier returns. */
  function Authenticate(token: Option<string>, verify: string -> Option<string>): (r: AuthResult)
    ensures r.AuthenticationError? <==> !Truthy(token) || verify(token.value).None?
    ensures r.Accepted? ==> Truthy(token) && verify(token.value) == Some(r.userId)
  {
    if !Truthy(token) then AuthenticationError
    else match verify(token.value)
      case None => AuthenticationError
      case Some(u) => Accepted(u)
  }

  /** The sockets an emit reaches, given the live sockets. */
  function Receivers(conns: map<string, SocketInfo>, t: Target): (r: set<string>)
    ensures r <= conns.Keys
    ensures t.ToAll? ==> r == conns.Keys
  {
    match t
    case ToSocket(s) => if s in conns then {s} else {}
    case ToRoom(room) => set s | s in conns && (s == room || conns[s].userId == room)
    case ToAll => conns.Keys
  }

  /** The `receive-message` push the consumer makes for one envelope: to the
      recipient's room, with only the sender, text and timestamp. */
  function Delivery(e: Envelope): (r: Emit)
    ensures r.target == ToRoom(e.to)
    ensures r.event == ReceiveMessage(e.from, e.message, e.timestamp)
  {
    Emit(ToRoom(e.to), ReceiveMessage(e.from, e.message, e.timestamp))
  }

  class Relay {
    /** The presence registry (`onlineUsers`). */
    var registry: Registry
    /** Live sockets by socket id. */
    var conns: map<string, SocketInfo>
    /** Every event emitted so far, in order. */
    var outbox: seq<Emit>
    /** Envelopes published and not yet acknowledged, oldest first. */
    var queue: seq<Envelope>
    /** Whether the broker channel exists. */
    var channelUp: bool
    /** Whether a consumer was registered; decided once, when the socket layer
        starts, by whether the channel existed then. */
    const consuming: bool
    /** The message collection. */
    var store: seq<StoredMessage>

    ghost predicate Valid()
      reads this
    {
      && registry.Valid()
      && (forall s :: s in conns ==> conns[s].userIdProp == None)
      && (forall k :: k in registry.sid ==>
            registry.sid[k] in conns && conns[registry.sid[k]].userId == k)
    }

    constructor (channelAtStart: bool, initialStore: seq<StoredMessage>)
      ensures Valid()
      ensures registry == EmptyRegistry && conns == map[] && outbox == [] && queue == []
      ensures channelUp == channelAtStart && consuming == channelAtStart
      ensures store == initialStore
    {
      registry := EmptyRegistry;
      conns := map[];
      outbox := [];
      queue := [];
      channelUp := channelAtStart;
      consuming := channelAtStart;
      store := initialStore;
    }

    /** A client connects with a handshake token on a fresh socket id. A
        rejected connection changes nothing and emits nothing. An accepted one
        joins its user room, (over)writes the registry entry, sends `user-id`
        back to that socket, and broadcasts the new roster to everyone. */
    method Connect(token: Option<string>, verify: string -> Option<string>, sid: string)
      returns (accepted: bool)
      requires Valid() && sid !in conns
      modifies this
      ensures Valid()
      ensures accepted <==> Authenticate(token, verify).Accepted?
      ensures !accepted ==> registry == old(registry) && conns == old(conns) && outbox == old(outbox)
      ensures accepted ==>
        var u := Authenticate(token, verify).userId;
        && registry == old(registry).Set(u, sid)
        && conns == old(conns)[sid := SocketInfo(u, None)]
        && outbox == old(outbox) + [Emit(ToSocket(sid), UserIdEvent(u)), Emit(ToAll, UsersOnline(registry.order))]
      ensures queue == old(queue) && store == old(store) && channelUp == old(channelUp)
    {
      var auth := Authenticate(token, verify);
      if auth.AuthenticationError? {
        return false;
      }
      var room := auth.userId;
      conns := conns[sid := SocketInfo(room, None)];
      registry := registry.Set(room, sid);
      outbox := outbox + [Emit(ToSocket(sid), UserIdEvent(room))];
      outbox := outbox + [Emit(ToAll, UsersOnline(registry.order))];
      accepted := true;
    }

    /** A socket disconnects: the registry entry for its USER id is deleted
        (whichever socket it currently names) and the roster is broadcast. */
    method Disconnect(sid: string)
      requires Valid()
      modifies this
      ensures Valid()
      ensures sid !in old(conns) ==> registry == old(registry) && conns == old(conns) && outbox == old(outbox)
      ensures sid in old(conns) ==>
        && registry == old(registry).Delete(old(conns)[sid].userId)
        && conns == old(conns) - {sid}
        && outbox == old(outbox) + [Emit(ToAll, UsersOnline(registry.order))]
      ensures queue == old(queue) && store == old(store) && channelUp == old(channelUp)
    {
      if sid !in conns {
        return;
      }
      var room := conns[sid].userId;
      registry := registry.Delete(room);
      conns := conns - {sid};
      outbox := outbox + [Emit(ToAll, UsersOnline(registry.order))];
    }

    /** `publishMessage('chat_messages', env)`: dropped when there is no channel. */
    method Publish(env: Envelope)
      modifies this`queue
      ensures queue == if channelUp then old(queue) + [env] else old(queue)
    {
      if channelUp {
        queue := queue + [env];
      }
    }

    /** The consumer takes the oldest envelope, pushes it to the recipient's
        room, and only then acknowledges it. Nothing happens without a
        registered consumer or without a pending envelope. */
    method ConsumeOne()
      modifies this`queue, this`outbox
      ensures !consuming || old(queue) == [] ==> queue == old(queue) && outbox == old(outbox)
      ensures consuming && old(queue) != [] ==>
        && outbox == old(outbox) + [Delivery(old(queue)[0])]
        && queue == old(queue)[1..]
    {
      if consuming && queue != [] {
        outbox := outbox + [Delivery(queue[0])];
        queue := queue[1..];
      }
    }

    /** The consumer pushes the oldest envelope and the process dies before the
        acknowledgement: the envelope stays queued and will be pushed again.
        The message store is not touched. */
    method ConsumeCrashBeforeAck()
      modifies this`outbox
      ensures !consuming || queue == [] ==> outbox == old(outbox)
      ensures consuming && queue != [] ==> outbox == old(outbox) + [Delivery(queue[0])]
    {
      if consuming && queue != [] {
        outbox := outbox + [Delivery(queue[0])];
      }
    }
  }

  /** A repeat connection for the same user replaces the registry entry, and
      when the superseded socket later disconnects it removes the NEW entry:
      the user is then absent from the registry although the newer socket is
      still live and still reached through the user's room. */
  lemma SupersededDisconnectDropsLiveUser(r: Registry, conns: map<string, SocketInfo>, u: string, s1: string, s2: string)
    requires r.Valid() && s1 != s2 && s1 !in conns && s2 !in conns
    ensures
      var after := r.Set(u, s1).Set(u, s2).Delete(u);
      var live := (conns[s1 := SocketInfo(u, None)][s2 := SocketInfo(u, None)]) - {s1};
      && u !in after.sid
      && u !in after.order
      && s2 in Receivers(live, ToRoom(u))
  {
  }

  /** Removing a user keeps every other user's entry and relative order. */
  lemma DeleteKeepsOthers(r: Registry, k: string)
    requires r.Valid()
    ensures r.Delete(k).order == Filter(r.order, x => x != k)
    ensures forall j :: j in r.sid && j != k ==> j in r.Delete(k).sid && r.Delete(k).sid[j] == r.sid[j]
  {
    if k !in r.sid {
      FilterAll(r.order, x => x != k);
    }
  }
}
