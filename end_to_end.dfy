/** How the pieces fit at the end of a call: the page's `end-call` emit
    carries only `from` and `to`, so the server records a video call with a
    zero duration, and that record appears in both participants' call logs
    under the label "Video Call". */
module EndToEnd {
  import opened Common
  import opened Records
  import CallContext
  import CallSocket
  import ChatController
  import ChatList

  /** The payload the server receives for an `end-call` emit of the page. */
  function ServerPayload(e: CallContext.Outgoing): (p: CallSocket.EndCallPayload)
    requires e.EndCallOut?
    ensures p.from == e.from && p.to == e.to && p.callType.None? && p.duration.None?
  {
    CallSocket.EndCallPayload(e.from, e.to, None, None)
  }

  /** The record written for a page-ended call, once appended to the store, is
      among the call records of both parties and reads as a video call of
      length 0. */
  lemma PageEndedCallLogged(e: CallContext.Outgoing, store: seq<StoredMessage>, sender: string, receiver: string, now: int)
    requires e.EndCallOut?
    ensures var p := ServerPayload(e);
      var m := CallSocket.CallRecord(sender, receiver, p.callType, p.duration, now);
      && m.kind == Some("video_call") && m.content == "Video call ended" && m.callDuration == Some(0)
      && ChatList.CallLabel(m.kind) == "Video Call"
      && m in ChatController.CallsOf(store + [m], sender)
      && m in ChatController.CallsOf(store + [m], receiver)
  {
    var p := ServerPayload(e);
    var m := CallSocket.CallRecord(sender, receiver, p.callType, p.duration, now);
    var s := store + [m];
    assert s[|store|] == m;
    forall u | u == sender || u == receiver ensures m in ChatController.CallsOf(s, u) {
      var f := Filter(s, x => ChatController.IsCallRecord(x) && ChatController.Involves(x, u));
      assert m in f;
      ChatController.CallsOfIsExact(s, u);
      assert m in multiset(f);
    }
  }
}
