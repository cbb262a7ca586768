/** The chat page's state: the open conversation, its messages, the online
    list, and who is typing, kept up to date by socket events and by the
    user's own sends. The directory of all users is the list the users
    endpoint returned. */
module ChatPage {
  import opened Common

  /** A message as the page shows it. */
  datatype ChatEntry = ChatEntry(from: string, message: Option<string>, timestamp: int, isMe: bool)

  /** What the page emits on its socket. */
  datatype PageEmit =
    | SendMessageOut(from: string, to: string, message: string)
    | TypingOut(from: string, to: string)
    | StopTypingOut(from: string, to: string)

  /** A directory entry and the row derived from it. */
  datatype DirectoryUser = DirectoryUser(id: string, name: string)
  datatype DisplayUser = DisplayUser(id: string, name: string, isOnline: bool)

  /** `userIds.filter(id => id !== userId)`: the announced roster without
      oneself, in roster order. */
  function OnlineList(ids: seq<string>, me: string): (r: seq<string>)
    ensures forall x :: x in r <==> x in ids && x != me
    ensures |r| == CountKept(ids, OtherId(me))
    ensures forall i :: 0 <= i < |ids| && ids[i] != me ==>
      CountKept(ids[..i], OtherId(me)) < |r| && r[CountKept(ids[..i], OtherId(me))] == ids[i]
  {
    FilterPlaces(ids, OtherId(me));
    Filter(ids, OtherId(me))
  }

  /** Ids other than one's own, as a filter predicate. */
  function OtherId(me: string): string -> bool {
    (id: string) => id != me
  }

  /** `activeChat ? typingUsers[activeChat] : false`, with an unset flag
      read as false. */
  function ActiveTyping(activeChat: Option<string>, typing: map<string, bool>): (r: bool)
    ensures !Truthy(activeChat) ==> !r
    ensures Truthy(activeChat) ==> (r <==> activeChat.value in typing && typing[activeChat.value])
  {
    Truthy(activeChat) && activeChat.value in typing && typing[activeChat.value]
  }

  /** The directory users other than oneself, as a filter predicate. */
  function NotMe(me: string): DirectoryUser -> bool {
    (u: DirectoryUser) => u.id != me
  }

  /** The row shown for a directory user. */
  function RowOf(u: DirectoryUser, online: seq<string>): DisplayUser {
    DisplayUser(u.id, u.name, u.id in online)
  }

  /** `displayUsers`: every directory user except oneself, in directory
      order, marked online exactly when the online list has them. There is
      one row per such user, and the user at index `i` is shown at the
      position given by the number of such users before it. */
  function DisplayUsers(all: seq<DirectoryUser>, me: string, online: seq<string>): (r: seq<DisplayUser>)
    ensures |r| == CountKept(all, NotMe(me))
    ensures forall i :: 0 <= i < |all| && all[i].id != me ==>
      CountKept(all[..i], NotMe(me)) < |r| && r[CountKept(all[..i], NotMe(me))] == RowOf(all[i], online)
    ensures forall i :: 0 <= i < |r| ==> r[i].id != me && (r[i].isOnline <==> r[i].id in online)
    ensures forall i :: 0 <= i < |r| ==> DirectoryUser(r[i].id, r[i].name) in all
    ensures forall u :: u in all && u.id != me ==> DisplayUser(u.id, u.name, u.id in online) in r
  {
    var others := Filter(all, NotMe(me));
    FilterPlaces(all, NotMe(me));
    var r := seq(|others|, k requires 0 <= k < |others| => RowOf(others[k], online));
    assert forall u :: u in all && u.id != me ==> RowOf(u, online) in r by {
      forall u | u in all && u.id != me ensures RowOf(u, online) in r {
        var k :| 0 <= k < |others| && others[k] == u;
        assert r[k] == RowOf(u, online);
      }
    }
    r
  }

  class ChatView {
    /** The signed-in user (`userId` prop). */
    const me: string
    var activeChat: Option<string>
    var messages: seq<ChatEntry>
    var onlineUsers: seq<string>
    var typing: map<string, bool>
    /** Whether a socket exists. */
    var socketUp: bool
    var outbox: seq<PageEmit>
    /** History requests made, by conversation, in order. */
    var historyRequests: seq<string>

    constructor (userId: string, socketExists: bool)
      ensures me == userId && socketUp == socketExists
      ensures activeChat == None && messages == [] && onlineUsers == [] && typing == map[]
      ensures outbox == [] && historyRequests == []
    {
      me := userId;
      socketUp := socketExists;
      activeChat := None;
      messages := [];
      onlineUsers := [];
      typing := map[];
      outbox := [];
      historyRequests := [];
    }

    /** `users-online` received. */
    method OnUsersOnline(ids: seq<string>)
      modifies this`onlineUsers
      ensures onlineUsers == OnlineList(ids, me)
    {
      onlineUsers := Filter(ids, id => id != me);
    }

    /** `receive-message` received: it joins the conversation only when it is
        from the open chat; the sender's typing flag is cleared either way. */
    method OnReceiveMessage(from: string, message: Option<string>, timestamp: int)
      modifies this`messages, this`typing
      ensures messages == old(messages) + (if activeChat == Some(from) then [ChatEntry(from, message, timestamp, false)] else [])
      ensures typing == old(typing)[from := false]
    {
      if activeChat == Some(from) {
        messages := messages + [ChatEntry(from, message, timestamp, false)];
      }
      typing := typing[from := false];
    }

    /** `typing` received. */
    method OnTyping(from: string)
      modifies this`typing
      ensures typing == old(typing)[from := true]
    {
      typing := typing[from := true];
    }

    /** `stop-typing` received. */
    method OnStopTyping(from: string)
      modifies this`typing
      ensures typing == old(typing)[from := false]
    {
      typing := typing[from := false];
    }

    /** A different conversation is opened (or closed with null). Opening one
        clears the messages and requests its history; closing keeps them and
        requests nothing. Re-selecting the open conversation does nothing. */
    method SelectChat(v: Option<string>)
      modifies this`activeChat, this`messages, this`historyRequests
      ensures activeChat == v
      ensures v == old(activeChat) || !Truthy(v) ==>
        messages == old(messages) && historyRequests == old(historyRequests)
      ensures v != old(activeChat) && Truthy(v) ==>
        messages == [] && historyRequests == old(historyRequests) + [v.value]
    {
      if v == activeChat {
        return;
      }
      activeChat := v;
      if !Truthy(v) {
        return;
      }
      messages := [];
      historyRequests := historyRequests + [v.value];
    }

    /** A history response arrives and replaces the messages. */
    method OnHistory(entries: seq<ChatEntry>)
      modifies this`messages
      ensures messages == entries
    {
      messages := entries;
    }

    /** `handleSendMessage(text)`: without an open chat or a socket nothing
        happens; otherwise `send-message` then `stop-typing` are emitted to the
        open chat and the text is shown as one's own. */
    method HandleSendMessage(text: string, now: int)
      modifies this`outbox, this`messages
      ensures !Truthy(activeChat) || !socketUp ==> outbox == old(outbox) && messages == old(messages)
      ensures Truthy(activeChat) && socketUp ==>
        && outbox == old(outbox) + [SendMessageOut(me, activeChat.value, text), StopTypingOut(me, activeChat.value)]
        && messages == old(messages) + [ChatEntry(me, Some(text), now, true)]
    {
      if !Truthy(activeChat) {
        return;
      }
      if !socketUp {
        return;
      }
      outbox := outbox + [SendMessageOut(me, activeChat.value, text)];
      outbox := outbox + [StopTypingOut(me, activeChat.value)];
      messages := messages + [ChatEntry(me, Some(text), now, true)];
    }

    /** `handleTyping(isTyping)`: the matching indicator goes to the open
        chat; nothing without an open chat or a socket. */
    method HandleTyping(isTyping: bool)
      modifies this`outbox
      ensures !Truthy(activeChat) || !socketUp ==> outbox == old(outbox)
      ensures Truthy(activeChat) && socketUp ==>
        outbox == old(outbox) + [if isTyping then TypingOut(me, activeChat.value) else StopTypingOut(me, activeChat.value)]
    {
      if !Truthy(activeChat) || !socketUp {
        return;
      }
      if isTyping {
        outbox := outbox + [TypingOut(me, activeChat.value)];
      } else {
        outbox := outbox + [StopTypingOut(me, activeChat.value)];
      }
    }
  }

  /** Once a message from the open chat arrives, its partner is no longer
      shown as typing, whatever the flag was before. */
  lemma ReceiveClearsTyping(activeChat: Option<string>, typing: map<string, bool>, from: string)
    requires activeChat == Some(from)
    ensures !ActiveTyping(activeChat, typing[from := false])
  {
  }

  /** Typing signals from anyone but the open chat's partner do not change
      the indicator. */
  lemma OthersTypingInvisible(activeChat: Option<string>, typing: map<string, bool>, from: string, b: bool)
    requires activeChat != Some(from)
    ensures ActiveTyping(activeChat, typing[from := b]) == ActiveTyping(activeChat, typing)
  {
  }
}
