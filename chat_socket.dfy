/** The text relay handlers attached to every accepted socket: `send-message`
    (validate, persist, publish, acknowledge) and the typing indicators. */
module ChatSocket {
  import opened Common
  import opened Records
  import opened Presence

  /** The `send-message` payload. `from` is what the client claims; the relay
      never reads it. */
  datatype SendPayload = SendPayload(
    from: Option<string>,
    to: Option<string>,
    message: Option<string>,
    kind: Option<string>,
    fileUrl: Option<string>)

  /** Destructuring defaults: they apply only when the field is absent. */
  function KindOf(p: SendPayload): string {
    match p.kind
    case None => "text"
    case Some(k) => k
  }

  function FileUrlOf(p: SendPayload): string {
    match p.fileUrl
    case None => ""
    case Some(f) => f
  }

  /** The receiver check: present, non-empty, and accepted by the (abstract)
      ObjectId validator. */
  predicate TargetAccepted(p: SendPayload, isValidObjectId: string -> bool) {
    Truthy(p.to) && isValidObjectId(p.to.value)
  }

  /** The message record written for a send. */
  function SentRecord(from: string, p: SendPayload, now: int): (m: StoredMessage)
    requires Truthy(p.to)
  {
    StoredMessage(from, p.to.value, OrElse(p.message, "Image"), Some(KindOf(p)), Some(FileUrlOf(p)), None, Some(true), now)
  }

  /** The envelope published for a send. */
  function SentEnvelope(from: string, p: SendPayload, now: int): (e: Envelope)
    requires Truthy(p.to)
  {
    Envelope(from, p.to.value, p.message, KindOf(p), FileUrlOf(p), now)
  }

  const SentAck: ServerEvent := MessageAck("sent")
  const ErrorAck: ServerEvent := MessageAck("error")

  /** One `send-message` event on socket `sid`. The sender is the socket's
      verified user id. An unacceptable receiver ends the handler with no
      effect at all. If writing the log line for the send throws (`logThrows`),
      the handler replies with an error acknowledgement and nothing is stored
      or published. Otherwise the record is stored when the store accepts it
      (`dbOk`); a failed write is swallowed, and the envelope is published and
      the 'sent' acknowledgement emitted either way. */
  method SendMessage(srv: Relay, sid: string, p: SendPayload, isValidObjectId: string -> bool,
                     logThrows: bool, dbOk: bool, now: int)
    requires srv.Valid() && sid in srv.conns
    modifies srv`store, srv`queue, srv`outbox
    ensures !TargetAccepted(p, isValidObjectId) ==>
      srv.store == old(srv.store) && srv.queue == old(srv.queue) && srv.outbox == old(srv.outbox)
    ensures TargetAccepted(p, isValidObjectId) && logThrows ==>
      && srv.store == old(srv.store) && srv.queue == old(srv.queue)
      && srv.outbox == old(srv.outbox) + [Emit(ToSocket(sid), ErrorAck)]
    ensures TargetAccepted(p, isValidObjectId) && !logThrows ==>
      var from := srv.conns[sid].userId;
      && srv.store == old(srv.store) + (if dbOk then [SentRecord(from, p, now)] else [])
      && srv.queue == old(srv.queue) + (if srv.channelUp then [SentEnvelope(from, p, now)] else [])
      && srv.outbox == old(srv.outbox) + [Emit(ToSocket(sid), SentAck)]
  {
    var from := srv.conns[sid].userId;
    if !TargetAccepted(p, isValidObjectId) {
      return;
    }
    if logThrows {
      srv.outbox := srv.outbox + [Emit(ToSocket(sid), ErrorAck)];
      return;
    }
    if dbOk {
      srv.store := srv.store + [SentRecord(from, p, now)];
    }
    srv.Publish(SentEnvelope(from, p, now));
    srv.outbox := srv.outbox + [Emit(ToSocket(sid), SentAck)];
  }

  /** `typing`: forwarded to room `to` carrying only the verified sender. */
  method Typing(srv: Relay, sid: string, to: string)
    requires sid in srv.conns
    modifies srv`outbox
    ensures srv.outbox == old(srv.outbox) + [Emit(ToRoom(to), TypingEvent(srv.conns[sid].userId))]
  {
    srv.outbox := srv.outbox + [Emit(ToRoom(to), TypingEvent(srv.conns[sid].userId))];
  }

  /** `stop-typing`: the same, with the stop event. */
  method StopTyping(srv: Relay, sid: string, to: string)
    requires sid in srv.conns
    modifies srv`outbox
    ensures srv.outbox == old(srv.outbox) + [Emit(ToRoom(to), StopTypingEvent(srv.conns[sid].userId))]
  {
    srv.outbox := srv.outbox + [Emit(ToRoom(to), StopTypingEvent(srv.conns[sid].userId))];
  }

  /** The stored record and the published envelope carry the verified sender
      whatever `from` the payload claims; the stored text is the message, or
      'Image' when there is none, and the record is marked delivered. */
  lemma SendUsesVerifiedSender(from: string, p: SendPayload, claimed: Option<string>, now: int)
    requires Truthy(p.to)
    ensures SentRecord(from, p.(from := claimed), now) == SentRecord(from, p, now)
    ensures SentEnvelope(from, p.(from := claimed), now) == SentEnvelope(from, p, now)
    ensures SentRecord(from, p, now).sender == from && SentEnvelope(from, p, now).from == from
    ensures SentRecord(from, p, now).content == (if Truthy(p.message) then p.message.value else "Image")
    ensures SentRecord(from, p, now).delivered == Some(true)
  {
  }

  /** The push that the consumer later makes for a published send carries the
      payload's own text (not the 'Image' fallback) to the receiver's room.
      Together with `SendMessage`, a relayed text reaches exactly the
      receiver's room once per consumption. */
  lemma RelayedPushMatchesSend(from: string, p: SendPayload, now: int)
    requires Truthy(p.to)
    ensures Delivery(SentEnvelope(from, p, now)) == Emit(ToRoom(p.to.value), ReceiveMessage(from, p.message, now))
  {
  }
}
