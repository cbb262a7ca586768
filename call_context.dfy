/** The client side of call signalling: one call session per page, holding
    the current peer connection, the remote and local ICE candidate buffers,
    the "remote description set" flag, the pending incoming offer, and the
    call state shown to the user. Each socket event, user action and peer
    event is one atomic step, except that answering a call is split at its
    wait for the remote description, so that remote candidates can arrive
    in between.

    The peer connection is a black box that holds descriptions and the
    candidates offered to it; a candidate it rejects is caught per candidate
    and changes nothing else, so the model records every candidate offered.
    Events the session sends go to an outbox. */
module CallContext {
  import opened Common

  datatype Signaling = Stable | HaveLocalOffer | HaveRemoteOffer | Closed

  /** A peer connection: its number (one per `new RTCPeerConnection`), the
      user it was created for, its signalling state, its descriptions, and
      the remote candidates offered to it in order. */
  datatype Peer = Peer(id: nat, remote: Option<string>, signaling: Signaling,
                       localDesc: Option<string>, remoteDesc: Option<string>, offered: seq<string>)

  /** The candidates offered to the current peer, if any. */
  function Offered(peer: Option<Peer>): seq<string> {
    if peer.Some? then peer.value.offered else []
  }

  /** The three buffering refs: `remoteIceBuffer`, `localIceBuffer` and
      `isRemoteDescSetRef`. */
  datatype IceState = IceState(remoteBuf: seq<string>, localBuf: seq<string>, remoteDescSet: bool)

  /** Both buffers empty and the flag clear. */
  const NoIce: IceState := IceState([], [], false)

  /** Bookkeeping since the buffers were last cleared: the local candidates
      the peer gathered, those of them already emitted, and the remote
      candidates received. */
  datatype Ledger = Ledger(localGathered: seq<string>, localSent: seq<string>, remoteReceived: seq<string>)

  const NoLedger: Ledger := Ledger([], [], [])

  /** Events the client emits on its socket. */
  datatype Outgoing =
    | CallUserOut(from: Option<string>, to: Option<string>, kind: string, offer: string, callerName: string)
    | AnswerOut(from: Option<string>, to: Option<string>, answer: string)
    | IceOut(from: Option<string>, to: Option<string>, candidate: string)
    | EndCallOut(from: Option<string>, to: Option<string>)

  /** The `call` state: `{}` or an incoming call. */
  datatype IncomingCall = NoCall | Ringing(from: Option<string>, kind: Option<string>, callerName: Option<string>)

  /** `pendingOfferRef`: the offer of the last incoming call. */
  datatype PendingOffer = PendingOffer(sender: Option<string>, offer: Option<string>, kind: Option<string>)

  /** An answer waiting for its remote description: the peer it created and
      the offer it captured. */
  datatype AnswerJob = AnswerJob(peerId: nat, sender: Option<string>, offer: string)

  /** The React state of the call. */
  datatype CallUi = CallUi(call: IncomingCall, callAccepted: bool, callEnded: bool, isCalling: bool,
                           callType: string, callTo: Option<string>)

  const InitialUi: CallUi := CallUi(NoCall, false, false, false, "video", None)

  /** One `ice-candidate` emit per candidate, in order. */
  function IceOuts(from: Option<string>, to: Option<string>, cands: seq<string>): (r: seq<Outgoing>)
    ensures |r| == |cands|
    ensures forall i :: 0 <= i < |cands| ==> r[i] == IceOut(from, to, cands[i])
  {
    if cands == [] then [] else [IceOut(from, to, cands[0])] + IceOuts(from, to, cands[1..])
  }

  /** The `forEach` of `flushLocalIce`: an `ice-candidate` emit per buffered
      candidate, in buffer order. */
  method EmitEach(from: Option<string>, to: Option<string>, buf: seq<string>) returns (emitted: seq<Outgoing>)
    ensures emitted == IceOuts(from, to, buf)
  {
    emitted := [];
    var i := 0;
    while i < |buf|
      invariant 0 <= i <= |buf|
      invariant |emitted| == i
      invariant forall k :: 0 <= k < i ==> emitted[k] == IceOut(from, to, buf[k])
    {
      emitted := emitted + [IceOut(from, to, buf[i])];
      i := i + 1;
    }
  }

  /** `call.from || callTo` */
  function LeaveTarget(ui: CallUi): (r: Option<string>)
    ensures ui.call.Ringing? && Truthy(ui.call.from) ==> r == ui.call.from
    ensures !(ui.call.Ringing? && Truthy(ui.call.from)) ==> r == ui.callTo
  {
    if ui.call.Ringing? && Truthy(ui.call.from) then ui.call.from else ui.callTo
  }

  /** What closing the current peer adds to the closed list. */
  function Closing(peer: Option<Peer>): seq<Peer> {
    if peer.Some? then [peer.value.(signaling := Closed)] else []
  }

  class CallSession {
    /** `myMongoIdRef`: the id the server announced with `user-id`. */
    var myId: Option<string>
    /** `connectionRef`: the current peer connection. */
    var peer: Option<Peer>
    /** Every peer that has been closed, in order. */
    var closedPeers: seq<Peer>
    var nextPeerId: nat
    var ice: IceState
    var pending: Option<PendingOffer>
    var answering: Option<AnswerJob>
    var remoteUserId: Option<string>
    var ui: CallUi
    var outbox: seq<Outgoing>
    ghost var ledger: Ledger

    /** The buffering invariant: once the remote description is set both
        buffers are empty; every gathered local candidate is either emitted or
        still buffered, in gathering order, exactly once; and every received
        remote candidate is either offered to the peer or still buffered, in
        arrival order, exactly once. */
    ghost predicate Valid()
      reads this
    {
      && (ice.remoteDescSet ==> peer.Some? && ice.remoteBuf == [] && ice.localBuf == [])
      && (peer.Some? ==> peer.value.signaling != Closed && peer.value.id < nextPeerId
                         && remoteUserId == peer.value.remote)
      && (answering.Some? ==> answering.value.peerId < nextPeerId)
      && ledger.localSent + ice.localBuf == ledger.localGathered
      && Offered(peer) + ice.remoteBuf == ledger.remoteReceived
    }

    constructor ()
      ensures Valid()
      ensures myId == None && peer == None && closedPeers == [] && ice == NoIce
      ensures pending == None && answering == None && remoteUserId == None
      ensures ui == InitialUi && outbox == []
    {
      myId := None;
      peer := None;
      closedPeers := [];
      nextPeerId := 0;
      ice := NoIce;
      pending := None;
      answering := None;
      remoteUserId := None;
      ui := InitialUi;
      outbox := [];
      ledger := NoLedger;
    }

    /** `flushLocalIce(to)`: one `ice-candidate` to `to` per buffered local
        candidate, in buffer order, then the buffer is empty. */
    method FlushLocalIce(to: Option<string>)
      requires ledger.localSent + ice.localBuf == ledger.localGathered
      modifies this`outbox, this`ice, this`ledger
      ensures outbox == old(outbox) + IceOuts(myId, to, old(ice.localBuf))
      ensures ice == old(ice).(localBuf := [])
      ensures ledger == old(ledger).(localSent := old(ledger.localSent) + old(ice.localBuf))
      ensures ledger.localSent + ice.localBuf == ledger.localGathered
    {
      var buf := ice.localBuf;
      if |buf| > 0 {
        var emitted := EmitEach(myId, to, buf);
        outbox := outbox + emitted;
        ice := ice.(localBuf := []);
        ledger := ledger.(localSent := ledger.localSent + buf);
      } else {
        assert ledger.localSent + buf == ledger.localSent;
      }
    }

    /** `drainRemoteIce(peer)`: every buffered remote candidate is offered to
        the peer, in arrival order, whatever the peer makes of each, and then
        the buffer is empty. */
    method DrainRemoteIce()
      requires peer.Some?
      modifies this`peer, this`ice
      ensures peer == Some(old(peer).value.(offered := old(peer).value.offered + old(ice.remoteBuf)))
      ensures ice == old(ice).(remoteBuf := [])
    {
      var queue := ice.remoteBuf;
      var p := peer.value;
      if |queue| > 0 {
        var i := 0;
        assert p.offered + queue[..0] == p.offered;
        while i < |queue|
          invariant 0 <= i <= |queue|
          invariant peer == Some(p.(offered := p.offered + queue[..i]))
          invariant ice == old(ice)
        {
          assert p.offered + queue[..i + 1] == p.offered + queue[..i] + [queue[i]];
          peer := Some(peer.value.(offered := peer.value.offered + [queue[i]]));
          i := i + 1;
        }
        assert queue[..|queue|] == queue;
        ice := ice.(remoteBuf := []);
      } else {
        assert p.offered + queue == p.offered;
        ice := ice.(remoteBuf := []);
      }
    }

    /** `user-id`: remembers the announced id. */
    method OnUserId(userId: Option<string>)
      requires Valid()
      modifies this`myId
      ensures Valid() && myId == userId
    {
      myId := userId;
    }

    /** `call-user` received: shows the incoming call and keeps its offer;
        the peer and the buffers are untouched. */
    method OnCallUser(from: Option<string>, offer: Option<string>, kind: Option<string>, callerName: Option<string>)
      requires Valid()
      modifies this`ui, this`pending
      ensures Valid()
      ensures ui == old(ui).(callEnded := false, callType := OrElse(kind, "video"), call := Ringing(from, kind, callerName))
      ensures pending == Some(PendingOffer(from, offer, kind))
    {
      ui := ui.(callEnded := false, callType := OrElse(kind, "video"), call := Ringing(from, kind, callerName));
      pending := Some(PendingOffer(from, offer, kind));
    }

    /** `createPeerConnection(remote)`: closes the previous peer, empties both
        buffers, clears the flag, and starts a fresh peer for `remote`. */
    method CreatePeerConnection(remote: Option<string>)
      requires Valid()
      modifies this`peer, this`closedPeers, this`nextPeerId, this`ice, this`remoteUserId, this`ledger
      ensures Valid()
      ensures peer == Some(Peer(old(nextPeerId), remote, Stable, None, None, []))
      ensures closedPeers == old(closedPeers) + Closing(old(peer))
      ensures nextPeerId == old(nextPeerId) + 1
      ensures ice == NoIce && remoteUserId == remote
    {
      closedPeers := closedPeers + Closing(peer);
      remoteUserId := remote;
      ice := NoIce;
      peer := Some(Peer(nextPeerId, remote, Stable, None, None, []));
      nextPeerId := nextPeerId + 1;
      ledger := NoLedger;
    }

    /** `webrtc-answer` received. The call is marked accepted in every case.
        With no peer, or a peer in state stable or closed, nothing else
        happens; a rejected remote description (`srdOk` false) also changes
        nothing else. Otherwise the answer is installed, the flag set, the
        remote buffer drained into the peer, and the local buffer flushed to
        the answer's sender. */
    method OnWebrtcAnswer(from: Option<string>, answer: Option<string>, srdOk: bool)
      requires Valid()
      modifies this`ui, this`peer, this`ice, this`outbox, this`ledger
      ensures Valid()
      ensures ui == old(ui).(callAccepted := true)
      ensures old(peer).None? || old(peer).value.signaling in {Stable, Closed} || !srdOk ==>
        peer == old(peer) && ice == old(ice) && outbox == old(outbox)
      ensures old(peer).Some? && old(peer).value.signaling !in {Stable, Closed} && srdOk ==>
        && ice == IceState([], [], true)
        && peer == Some(old(peer).value.(signaling := Stable, remoteDesc := answer,
                                         offered := old(peer).value.offered + old(ice.remoteBuf)))
        && outbox == old(outbox) + IceOuts(myId, from, old(ice.localBuf))
    {
      ui := ui.(callAccepted := true);
      if peer.None? {
        return;
      }
      if peer.value.signaling == Stable || peer.value.signaling == Closed {
        return;
      }
      if !srdOk {
        return;
      }
      peer := Some(peer.value.(signaling := Stable, remoteDesc := answer));
      ice := ice.(remoteDescSet := true);
      DrainRemoteIce();
      FlushLocalIce(from);
    }

    /** `ice-candidate` received. An absent candidate is ignored. With no
        peer, or before the remote description is set, it is buffered;
        otherwise it is offered to the peer at once. */
    method OnIceCandidate(candidate: Option<string>)
      requires Valid()
      modifies this`ice, this`peer, this`ledger
      ensures Valid()
      ensures candidate.None? ==> ice == old(ice) && peer == old(peer)
      ensures candidate.Some? && (old(peer).None? || !old(ice).remoteDescSet) ==>
        ice == old(ice).(remoteBuf := old(ice.remoteBuf) + [candidate.value]) && peer == old(peer)
      ensures candidate.Some? && old(peer).Some? && old(ice).remoteDescSet ==>
        ice == old(ice) && peer == Some(old(peer).value.(offered := old(peer).value.offered + [candidate.value]))
    {
      if candidate.None? {
        return;
      }
      ledger := ledger.(remoteReceived := ledger.remoteReceived + [candidate.value]);
      if peer.None? || !ice.remoteDescSet {
        ice := ice.(remoteBuf := ice.remoteBuf + [candidate.value]);
        return;
      }
      peer := Some(peer.value.(offered := peer.value.offered + [candidate.value]));
    }

    /** The current peer gathered a local candidate (`onicecandidate`); an
        absent candidate marks the end of gathering and is ignored. Once the
        remote description is set the candidate goes straight to the user the
        peer was created for; before that it is buffered. */
    method OnLocalCandidate(candidate: Option<string>)
      requires Valid() && peer.Some?
      modifies this`outbox, this`ice, this`ledger
      ensures Valid()
      ensures candidate.None? ==> outbox == old(outbox) && ice == old(ice)
      ensures candidate.Some? && ice.remoteDescSet ==>
        outbox == old(outbox) + [IceOut(myId, peer.value.remote, candidate.value)] && ice == old(ice)
      ensures candidate.Some? && !ice.remoteDescSet ==>
        outbox == old(outbox) && ice == old(ice).(localBuf := old(ice.localBuf) + [candidate.value])
    {
      if candidate.None? {
        return;
      }
      ledger := ledger.(localGathered := ledger.localGathered + [candidate.value]);
      if ice.remoteDescSet {
        outbox := outbox + [IceOut(myId, peer.value.remote, candidate.value)];
        ledger := ledger.(localSent := ledger.localSent + [candidate.value]);
      } else {
        ice := ice.(localBuf := ice.localBuf + [candidate.value]);
      }
    }

    /** `callUser(id, callerName)`. Without an announced own id, or with an
        empty target, nothing happens. Otherwise the call is marked as
        outgoing video to `id`, a fresh peer is created for `id` and given the
        local offer, and `call-user` is emitted with the caller's name or ''. */
    method CallUser(id: Option<string>, callerName: Option<string>, offer: string)
      requires Valid()
      modifies this`ui, this`peer, this`closedPeers, this`nextPeerId, this`ice, this`remoteUserId,
               this`ledger, this`outbox
      ensures Valid()
      ensures !Truthy(myId) || !Truthy(id) ==>
        && ui == old(ui) && peer == old(peer) && outbox == old(outbox) && ice == old(ice)
        && closedPeers == old(closedPeers) && remoteUserId == old(remoteUserId) && nextPeerId == old(nextPeerId)
      ensures Truthy(myId) && Truthy(id) ==>
        && ui == old(ui).(callEnded := false, isCalling := true, callType := "video", callTo := id)
        && peer == Some(Peer(old(nextPeerId), id, HaveLocalOffer, Some(offer), None, []))
        && closedPeers == old(closedPeers) + Closing(old(peer))
        && ice == NoIce
        && outbox == old(outbox) + [CallUserOut(myId, id, "video", offer, OrElse(callerName, ""))]
    {
      if !Truthy(myId) {
        return;
      }
      if !Truthy(id) {
        return;
      }
      ui := ui.(callEnded := false, isCalling := true, callType := "video", callTo := id);
      CreatePeerConnection(id);
      peer := Some(peer.value.(signaling := HaveLocalOffer, localDesc := Some(offer)));
      outbox := outbox + [CallUserOut(myId, id, "video", offer, OrElse(callerName, ""))];
    }

    /** `answerCall()` up to its wait for the remote description. Without a
        pending offer nothing happens. Otherwise the call is marked accepted
        with the offer's media type (default 'video'), a fresh peer is created
        for the caller, and the answer waits for that peer. */
    method BeginAnswer()
      requires Valid()
      modifies this`ui, this`peer, this`closedPeers, this`nextPeerId, this`ice, this`remoteUserId,
               this`ledger, this`answering
      ensures Valid()
      ensures old(pending).None? || old(pending).value.offer.None? ==>
        && ui == old(ui) && peer == old(peer) && answering == old(answering) && ice == old(ice)
        && closedPeers == old(closedPeers) && remoteUserId == old(remoteUserId) && nextPeerId == old(nextPeerId)
      ensures old(pending).Some? && old(pending).value.offer.Some? ==>
        var p := old(pending).value;
        && ui == old(ui).(callType := OrElse(p.kind, "video"), callAccepted := true)
        && peer == Some(Peer(old(nextPeerId), p.sender, Stable, None, None, []))
        && closedPeers == old(closedPeers) + Closing(old(peer))
        && answering == Some(AnswerJob(old(nextPeerId), p.sender, p.offer.value))
        && ice == NoIce
    {
      if pending.None? || pending.value.offer.None? {
        return;
      }
      var p := pending.value;
      ui := ui.(callType := OrElse(p.kind, "video"), callAccepted := true);
      CreatePeerConnection(p.sender);
      answering := Some(AnswerJob(peer.value.id, p.sender, p.offer.value));
    }

    /** The rest of `answerCall()`, once the remote description settles. If
        the peer it created is no longer current (replaced or closed
        meanwhile) or the description was rejected, the answer stops there.
        Otherwise the flag is set and the remote buffer drained BEFORE the
        answer is emitted to the caller, the local buffer is flushed to the
        caller AFTER it, and the pending offer is cleared. */
    method CompleteAnswer(srdOk: bool, answer: string)
      requires Valid()
      modifies this`answering, this`peer, this`ice, this`outbox, this`ledger, this`pending
      ensures Valid()
      ensures answering == None
      ensures old(answering).None? || old(peer).None? || old(peer).value.id != old(answering).value.peerId || !srdOk ==>
        peer == old(peer) && pending == old(pending) && outbox == old(outbox) && ice == old(ice)
      ensures old(answering).Some? && old(peer).Some? && old(peer).value.id == old(answering).value.peerId && srdOk ==>
        var job := old(answering).value;
        && ice == IceState([], [], true) && pending == None
        && peer == Some(old(peer).value.(signaling := Stable, remoteDesc := Some(job.offer), localDesc := Some(answer),
                                         offered := old(peer).value.offered + old(ice.remoteBuf)))
        && outbox == old(outbox) + [AnswerOut(myId, job.sender, answer)] + IceOuts(myId, job.sender, old(ice.localBuf))
    {
      if answering.None? {
        return;
      }
      var job := answering.value;
      answering := None;
      if peer.None? || peer.value.id != job.peerId || !srdOk {
        return;
      }
      peer := Some(peer.value.(signaling := HaveRemoteOffer, remoteDesc := Some(job.offer)));
      ice := ice.(remoteDescSet := true);
      DrainRemoteIce();
      peer := Some(peer.value.(signaling := Stable, localDesc := Some(answer)));
      outbox := outbox + [AnswerOut(myId, job.sender, answer)];
      FlushLocalIce(job.sender);
      pending := None;
    }

    /** `resetCall()` (also the handler of a received `end-call`): the call
        ends, both buffers, the flag, the pending offer and the remote user
        are cleared, and the peer is closed and dropped. The media type is
        kept. */
    method ResetCall()
      requires Valid()
      modifies this`ui, this`pending, this`ice, this`remoteUserId, this`closedPeers, this`peer, this`ledger
      ensures Valid()
      ensures ui == CallUi(NoCall, false, true, false, old(ui).callType, None)
      ensures pending == None && ice == NoIce && remoteUserId == None && peer == None
      ensures closedPeers == old(closedPeers) + Closing(old(peer))
    {
      ui := CallUi(NoCall, false, true, false, ui.callType, None);
      pending := None;
      ice := NoIce;
      remoteUserId := None;
      closedPeers := closedPeers + Closing(peer);
      peer := None;
      ledger := NoLedger;
    }

    /** `leaveCall()`: `end-call` with only `{from, to}` goes to the caller of
        the incoming call, else to the callee of the outgoing one, when there
        is such a user; then the call is reset. */
    method LeaveCall()
      requires Valid()
      modifies this`ui, this`pending, this`ice, this`remoteUserId, this`closedPeers, this`peer, this`ledger,
               this`outbox
      ensures Valid()
      ensures var to := LeaveTarget(old(ui));
        outbox == old(outbox) + (if Truthy(to) then [EndCallOut(myId, to)] else [])
      ensures ui == CallUi(NoCall, false, true, false, old(ui).callType, None)
      ensures pending == None && ice == NoIce && remoteUserId == None && peer == None
      ensures closedPeers == old(closedPeers) + Closing(old(peer))
    {
      var to := LeaveTarget(ui);
      if Truthy(to) {
        outbox := outbox + [EndCallOut(myId, to)];
      }
      ResetCall();
    }
  }
}
