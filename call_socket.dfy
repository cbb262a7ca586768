/** The call signalling forwarder attached to every accepted socket. The relay
    keeps no call state: it forwards `call-user`, `webrtc-answer`,
    `ice-candidate`, `call-rejected` and `end-call` to the room named by the
    payload's `to`, and after forwarding `end-call` writes a call record. */
module CallSocket {
  import opened Common
  import opened Records
  import opened Presence

  /** `/^[a-f\d]{24}$/i`: exactly 24 hexadecimal digits, either case. */
  function IsObjectId(s: string): (r: bool)
    ensures r <==> |s| == 24 && forall i :: 0 <= i < |s| ==> IsHexDigit(s[i])
  {
    |s| == 24 && AllHex(s)
  }

  function AllHex(s: string): (r: bool)
    ensures r <==> forall i :: 0 <= i < |s| ==> IsHexDigit(s[i])
  {
    if s == [] then true
    else IsHexDigit(s[0]) && AllHex(s[1..])
  }

  /** `emitToUser(target, ev)`: nothing for a falsy target, otherwise one emit
      to the room named by the target. */
  function ToUser(target: Option<string>, ev: ServerEvent): (r: seq<Emit>)
    ensures |r| == if Truthy(target) then 1 else 0
    ensures Truthy(target) ==> r[0] == Emit(ToRoom(target.value), ev)
  {
    if Truthy(target) then [Emit(ToRoom(target.value), ev)] else []
  }

  /** The first registry key (in insertion order) whose socket id is `v`. */
  function FirstKeyFor(order: seq<string>, sid: map<string, string>, v: string): (r: Option<string>)
    ensures r.Some? ==> r.value in order && r.value in sid && sid[r.value] == v
    ensures r.None? ==> forall k :: k in order && k in sid ==> sid[k] != v
  {
    if order == [] then None
    else if order[0] in sid && sid[order[0]] == v then Some(order[0])
    else FirstKeyFor(order[1..], sid, v)
  }

  /** What `resolveMongoId(value)` returns: null for a falsy value, the value
      itself when it is shaped like an ObjectId, else the user whose registry
      entry names socket `value`, else the `userId` property of the live
      socket with that id (or null when that is falsy). */
  function Resolve(registry: Registry, conns: map<string, SocketInfo>, value: Option<string>): (r: Option<string>)
    ensures !Truthy(value) ==> r == None
    ensures Truthy(value) && IsObjectId(value.value) ==> r == value
    ensures Truthy(value) && !IsObjectId(value.value) && registry.Valid() &&
            (exists k :: k in registry.sid && registry.sid[k] == value.value) ==>
              r.Some? && r.value in registry.sid && registry.sid[r.value] == value.value
    ensures Truthy(value) && !IsObjectId(value.value) && registry.Valid() &&
            (forall k :: k in registry.sid ==> registry.sid[k] != value.value) ==>
              r == (if value.value in conns && Truthy(conns[value.value].userIdProp)
                    then conns[value.value].userIdProp else None)
  {
    if !Truthy(value) then None
    else if IsObjectId(value.value) then value
    else match FirstKeyFor(registry.order, registry.sid, value.value)
      case Some(k) => Some(k)
      case None =>
        if value.value in conns && Truthy(conns[value.value].userIdProp)
        then conns[value.value].userIdProp else None
  }

  /** In a consistent relay two users never name the same socket, so a socket
      id resolves to THE user registered on it. */
  lemma ResolveSocketIdIsOwner(registry: Registry, conns: map<string, SocketInfo>, u: string)
    requires registry.Valid()
    requires forall k :: k in registry.sid ==> registry.sid[k] in conns && conns[registry.sid[k]].userId == k
    requires u in registry.sid && registry.sid[u] != "" && !IsObjectId(registry.sid[u])
    ensures Resolve(registry, conns, Some(registry.sid[u])) == Some(u)
  {
  }

  /** Because no handler assigns a socket's `userId` property, the last
      fallback of `resolveMongoId` never yields an id: a value that is neither
      ObjectId-shaped nor a registered socket id resolves to null. */
  lemma ResolveFallbackIsDead(srvRegistry: Registry, conns: map<string, SocketInfo>, v: string)
    requires srvRegistry.Valid()
    requires forall s :: s in conns ==> conns[s].userIdProp == None
    requires v != "" && !IsObjectId(v)
    requires forall k :: k in srvRegistry.sid ==> srvRegistry.sid[k] != v
    ensures Resolve(srvRegistry, conns, Some(v)) == None
  {
  }

  /** The search loop of `resolveMongoId` over the registry entries, with its
      early return. */
  method ResolveMongoId(srv: Relay, value: Option<string>) returns (r: Option<string>)
    ensures r == Resolve(srv.registry, srv.conns, value)
  {
    if !Truthy(value) {
      return None;
    }
    var v := value.value;
    if IsObjectId(v) {
      return value;
    }
    var order := srv.registry.order;
    var sid := srv.registry.sid;
    var i := 0;
    while i < |order|
      invariant 0 <= i <= |order|
      invariant FirstKeyFor(order[i..], sid, v) == FirstKeyFor(order, sid, v)
    {
      if order[i] in sid && sid[order[i]] == v {
        return Some(order[i]);
      }
      assert order[i..][1..] == order[i + 1..];
      i := i + 1;
    }
    if v in srv.conns && Truthy(srv.conns[v].userIdProp) {
      return srv.conns[v].userIdProp;
    }
    return None;
  }

  datatype CallUserPayload = CallUserPayload(from: Option<string>, to: Option<string>, offer: Option<string>,
                                             kind: Option<string>, callerName: Option<string>)
  datatype AnswerPayload = AnswerPayload(from: Option<string>, to: Option<string>, answer: Option<string>)
  datatype IcePayload = IcePayload(from: Option<string>, to: Option<string>, candidate: Option<string>)
  datatype RejectPayload = RejectPayload(from: Option<string>, to: Option<string>)
  datatype EndCallPayload = EndCallPayload(from: Option<string>, to: Option<string>, callType: Option<string>,
                                           duration: Option<int>)

  /** `call-user`: forwards exactly sender, offer, media type and caller name. */
  method CallUser(srv: Relay, p: CallUserPayload)
    modifies srv`outbox
    ensures srv.outbox == old(srv.outbox) + ToUser(p.to, CallUserEvent(p.from, p.offer, p.kind, p.callerName))
  {
    srv.outbox := srv.outbox + ToUser(p.to, CallUserEvent(p.from, p.offer, p.kind, p.callerName));
  }

  /** `webrtc-answer`: forwards exactly sender and answer. */
  method WebrtcAnswer(srv: Relay, p: AnswerPayload)
    modifies srv`outbox
    ensures srv.outbox == old(srv.outbox) + ToUser(p.to, AnswerEvent(p.from, p.answer))
  {
    srv.outbox := srv.outbox + ToUser(p.to, AnswerEvent(p.from, p.answer));
  }

  /** `ice-candidate`: forwards exactly sender and candidate, immediately. */
  method IceCandidate(srv: Relay, p: IcePayload)
    modifies srv`outbox
    ensures srv.outbox == old(srv.outbox) + ToUser(p.to, IceEvent(p.from, p.candidate))
  {
    srv.outbox := srv.outbox + ToUser(p.to, IceEvent(p.from, p.candidate));
  }

  /** `call-rejected`: forwards only the sender. */
  method CallRejected(srv: Relay, p: RejectPayload)
    modifies srv`outbox
    ensures srv.outbox == old(srv.outbox) + ToUser(p.to, CallRejectedEvent(p.from))
  {
    srv.outbox := srv.outbox + ToUser(p.to, CallRejectedEvent(p.from));
  }

  /** `data.duration || 0` */
  function DurationOrZero(d: Option<int>): (r: int)
    ensures d.Some? ==> r == d.value
    ensures d.None? ==> r == 0
  {
    if d.Some? && d.value != 0 then d.value else 0
  }

  /** The call record `end-call` writes. */
  function CallRecord(sender: string, receiver: string, callType: Option<string>, duration: Option<int>, now: int): (m: StoredMessage)
  {
    var audio := callType == Some("audio");
    StoredMessage(sender, receiver,
                  if audio then "Audio call ended" else "Video call ended",
                  Some(if audio then "audio_call" else "video_call"),
                  None, Some(DurationOrZero(duration)), None, now)
  }

  /** The record is an audio record exactly when the payload says 'audio';
      every other value, absent included, gives a video record. Its duration
      is the payload's or 0. */
  lemma CallRecordShape(sender: string, receiver: string, callType: Option<string>, duration: Option<int>, now: int)
    ensures var m := CallRecord(sender, receiver, callType, duration, now);
      && (m.kind == Some("audio_call") <==> callType == Some("audio"))
      && (m.kind == Some("video_call") <==> callType != Some("audio"))
      && (m.content == "Audio call ended" <==> callType == Some("audio"))
      && (m.content == "Video call ended" <==> callType != Some("audio"))
      && m.callDuration == Some(if duration.Some? then duration.value else 0)
      && m.sender == sender && m.receiver == receiver
  {
  }

  /** `end-call` on socket `sid`: the forward of `{from}` happens first and
      unconditionally. The sender id is the socket's own `userId` property if
      set, else the resolved `from`; the receiver is the resolved `to`. When
      either is unresolved nothing is written; otherwise the record is written
      if the store accepts it (`dbOk`), and a failed write has no effect. */
  method EndCall(srv: Relay, sid: string, p: EndCallPayload, dbOk: bool, now: int)
    requires sid in srv.conns
    modifies srv`outbox, srv`store
    ensures srv.outbox == old(srv.outbox) + ToUser(p.to, EndCallEvent(p.from))
    ensures
      var sender := if Truthy(srv.conns[sid].userIdProp) then srv.conns[sid].userIdProp
                    else Resolve(srv.registry, srv.conns, p.from);
      var receiver := Resolve(srv.registry, srv.conns, p.to);
      srv.store == old(srv.store) +
        (if Truthy(sender) && Truthy(receiver) && dbOk
         then [CallRecord(sender.value, receiver.value, p.callType, p.duration, now)] else [])
  {
    srv.outbox := srv.outbox + ToUser(p.to, EndCallEvent(p.from));
    var sender: Option<string>;
    if Truthy(srv.conns[sid].userIdProp) {
      sender := srv.conns[sid].userIdProp;
    } else {
      sender := ResolveMongoId(srv, p.from);
    }
    var receiver := ResolveMongoId(srv, p.to);
    if !Truthy(sender) || !Truthy(receiver) {
      return;
    }
    if dbOk {
      srv.store := srv.store + [CallRecord(sender.value, receiver.value, p.callType, p.duration, now)];
    }
  }
}
