/** The REST queries over the message and user collections: conversation
    history, call logs, the user directory and the (empty) chat list. Each is
    a filter, a sort by creation time and a map to the response shape. */
module ChatController {
  import opened Common
  import opened Records

  // ---------------------------------------------------------------- sorting

  /** `a` may come before `b` under `.sort({ createdAt: 1 })` (ascending) or
      `.sort({ createdAt: -1 })` (descending). */
  predicate InOrder(a: StoredMessage, b: StoredMessage, ascending: bool) {
    if ascending then a.createdAt <= b.createdAt else a.createdAt >= b.createdAt
  }

  predicate SortedByTime(s: seq<StoredMessage>, ascending: bool) {
    forall i, j :: 0 <= i < j < |s| ==> InOrder(s[i], s[j], ascending)
  }

  function Insert(m: StoredMessage, s: seq<StoredMessage>, ascending: bool): (r: seq<StoredMessage>)
    ensures multiset(r) == multiset(s) + multiset{m}
    ensures |r| == |s| + 1
  {
    if s == [] then [m]
    else if InOrder(m, s[0], ascending) then [m] + s
    else
      assert s == [s[0]] + s[1..];
      [s[0]] + Insert(m, s[1..], ascending)
  }

  lemma {:induction false} InsertSorted(m: StoredMessage, s: seq<StoredMessage>, ascending: bool)
    requires SortedByTime(s, ascending)
    ensures SortedByTime(Insert(m, s, ascending), ascending)
  {
    if s != [] && !InOrder(m, s[0], ascending) {
      var t := s[1..];
      assert SortedByTime(t, ascending) by {
        forall i, j | 0 <= i < j < |t| ensures InOrder(t[i], t[j], ascending) {
          assert t[i] == s[i + 1] && t[j] == s[j + 1];
        }
      }
      InsertSorted(m, t, ascending);
      var r := Insert(m, t, ascending);
      forall i | 0 <= i < |r| ensures InOrder(s[0], r[i], ascending) {
        assert r[i] in multiset(r);
        if r[i] != m {
          assert r[i] in multiset(t);
          var k :| 0 <= k < |t| && t[k] == r[i];
          assert s[k + 1] == r[i];
        }
      }
      ConsSorted(s[0], r, ascending);
    }
  }

  /** An element placed in front of a sorted sequence whose every element may
      follow it gives a sorted sequence. */
  lemma ConsSorted(a: StoredMessage, r: seq<StoredMessage>, ascending: bool)
    requires SortedByTime(r, ascending)
    requires forall i :: 0 <= i < |r| ==> InOrder(a, r[i], ascending)
    ensures SortedByTime([a] + r, ascending)
  {
    var full := [a] + r;
    forall i, j | 0 <= i < j < |full| ensures InOrder(full[i], full[j], ascending) {
      assert full[j] == r[j - 1];
      if i > 0 {
        assert full[i] == r[i - 1];
      }
    }
  }

  /** A stable insertion sort by creation time. */
  function SortByTime(s: seq<StoredMessage>, ascending: bool): (r: seq<StoredMessage>)
    ensures multiset(r) == multiset(s)
    ensures |r| == |s|
  {
    if s == [] then []
    else
      assert s == [s[0]] + s[1..];
      Insert(s[0], SortByTime(s[1..], ascending), ascending)
  }

  lemma {:induction false} SortByTimeSorted(s: seq<StoredMessage>, ascending: bool)
    ensures SortedByTime(SortByTime(s, ascending), ascending)
  {
    if s != [] {
      SortByTimeSorted(s[1..], ascending);
      InsertSorted(s[0], SortByTime(s[1..], ascending), ascending);
    }
  }

  // ---------------------------------------------------------------- history

  /** The pair filter: sent by either user to the other. */
  predicate Between(m: StoredMessage, a: string, b: string) {
    (m.sender == a && m.receiver == b) || (m.sender == b && m.receiver == a)
  }

  /** The messages of one conversation, oldest first. */
  function Conversation(store: seq<StoredMessage>, userId: string, myId: string): seq<StoredMessage> {
    SortByTime(Filter(store, m => Between(m, myId, userId)), true)
  }

  /** A history entry as the endpoint formats it. */
  datatype HistoryEntry = HistoryEntry(
    senderId: string,
    message: string,
    kind: string,
    fileUrl: string,
    timestamp: int,
    isMe: bool,
    from: string)

  function FormatHistory(m: StoredMessage, myId: string): HistoryEntry {
    HistoryEntry(m.sender, m.content, OrElse(m.kind, "text"), OrElse(m.fileUrl, ""), m.createdAt, m.sender == myId, m.sender)
  }

  /** `GET /history/:userId?from=myId`. `findOk` says whether the query runs;
      it fails (a cast error) when an id cannot be read as an ObjectId, and
      the reply is then 500. */
  function GetHistory(store: seq<StoredMessage>, userId: Option<string>, myId: Option<string>, findOk: bool)
    : (r: Reply<seq<HistoryEntry>>)
    ensures !Truthy(userId) || !Truthy(myId) ==> r == Fail(400, "Missing user IDs")
    ensures Truthy(userId) && Truthy(myId) && !findOk ==> r == Fail(500, "Internal server error")
    ensures Truthy(userId) && Truthy(myId) && findOk ==>
      var conv := Conversation(store, userId.value, myId.value);
      && r.Ok? && r.status == 200 && |r.body| == |conv|
      && forall i :: 0 <= i < |conv| ==>
           && r.body[i].message == conv[i].content
           && r.body[i].kind == (if Truthy(conv[i].kind) then conv[i].kind.value else "text")
           && r.body[i].fileUrl == (if Truthy(conv[i].fileUrl) then conv[i].fileUrl.value else "")
           && r.body[i].timestamp == conv[i].createdAt
           && (r.body[i].isMe <==> conv[i].sender == myId.value)
           && r.body[i].from == conv[i].sender && r.body[i].senderId == conv[i].sender
  {
    if !Truthy(userId) || !Truthy(myId) then Fail(400, "Missing user IDs")
    else if !findOk then Fail(500, "Internal server error")
    else
      var conv := Conversation(store, userId.value, myId.value);
      Ok(200, seq(|conv|, i requires 0 <= i < |conv| => FormatHistory(conv[i], myId.value)))
  }

  /** The history holds every message between the two users, in either
      direction, each as often as it is stored, nothing else, oldest first. */
  lemma ConversationIsExact(store: seq<StoredMessage>, userId: string, myId: string)
    ensures var conv := Conversation(store, userId, myId);
      && SortedByTime(conv, true)
      && multiset(conv) == multiset(Filter(store, m => Between(m, myId, userId)))
      && (forall m :: m in conv <==> m in store && Between(m, myId, userId))
  {
    var f := Filter(store, m => Between(m, myId, userId));
    SortByTimeSorted(f, true);
    var conv := Conversation(store, userId, myId);
    forall m | m in conv ensures m in store && Between(m, myId, userId) {
      assert m in multiset(f);
    }
    forall m | m in store && Between(m, myId, userId) ensures m in conv {
      var k :| 0 <= k < |store| && store[k] == m;
      assert m in f;
      assert m in multiset(conv);
    }
  }

  /** The two users are interchangeable: asking from either side gives the
      same messages. */
  lemma ConversationSymmetric(store: seq<StoredMessage>, a: string, b: string)
    ensures Conversation(store, a, b) == Conversation(store, b, a)
  {
    FilterExt(store, m => Between(m, b, a), m => Between(m, a, b));
  }

  // ---------------------------------------------------------------- call logs

  predicate IsCallRecord(m: StoredMessage) {
    m.kind == Some("video_call") || m.kind == Some("audio_call")
  }

  predicate Involves(m: StoredMessage, u: string) {
    m.sender == u || m.receiver == u
  }

  /** The call records a user took part in, newest first. */
  function CallsOf(store: seq<StoredMessage>, u: string): seq<StoredMessage> {
    SortByTime(Filter(store, m => IsCallRecord(m) && Involves(m, u)), false)
  }

  datatype Direction = Outgoing | Incoming
  datatype OtherUser = OtherUser(id: string, name: string, avatar: string)
  datatype CallLogEntry = CallLogEntry(kind: Option<string>, direction: Direction, date: int, otherUser: OtherUser)

  /** The other party of a call, from the user's side. */
  function OtherParty(m: StoredMessage, u: string): string {
    if m.sender == u then m.receiver else m.sender
  }

  /** One call formatted with both parties looked up (`populate`). A missing
      sender, or a missing receiver when the user placed the call, makes the
      formatting throw. */
  function FormatCall(m: StoredMessage, users: seq<UserDoc>, u: string): (r: Option<CallLogEntry>)
    ensures r.Some? ==> r.value.direction == (if m.sender == u then Outgoing else Incoming)
    ensures r.Some? ==> r.value.otherUser.id == OtherParty(m, u)
    ensures r.Some? ==> r.value.date == m.createdAt && r.value.kind == m.kind
    ensures r.Some? ==>
      && FindById(users, OtherParty(m, u)).Some?
      && r.value.otherUser.name == FindById(users, OtherParty(m, u)).value.fullName
      && r.value.otherUser.avatar == FindById(users, OtherParty(m, u)).value.avatar
    ensures r.None? <==> FindById(users, m.sender).None? || (m.sender == u && FindById(users, m.receiver).None?)
  {
    match FindById(users, m.sender)
    case None => None
    case Some(s) =>
      var isCaller := s.id == u;
      var other := if isCaller then FindById(users, m.receiver) else Some(s);
      match other
      case None => None
      case Some(o) => Some(CallLogEntry(m.kind, if isCaller then Outgoing else Incoming, m.createdAt,
                                        OtherUser(o.id, o.fullName, o.avatar)))
  }

  function FormatCalls(calls: seq<StoredMessage>, users: seq<UserDoc>, u: string): (r: Option<seq<CallLogEntry>>)
    ensures r.Some? <==> forall i :: 0 <= i < |calls| ==> FormatCall(calls[i], users, u).Some?
    ensures r.Some? ==> |r.value| == |calls|
    ensures r.Some? ==> forall i :: 0 <= i < |calls| ==> r.value[i] == FormatCall(calls[i], users, u).value
  {
    if calls == [] then Some([])
    else match (FormatCall(calls[0], users, u), FormatCalls(calls[1..], users, u))
      case (Some(e), Some(rest)) =>
        assert forall i :: 1 <= i < |calls| ==> calls[i] == calls[1..][i - 1];
        Some([e] + rest)
      case _ =>
        assert forall i :: 1 <= i < |calls| ==> calls[i] == calls[1..][i - 1];
        None
  }

  /** `GET /calls?userId=u`. `findOk` says whether the query runs, as for
      the history. */
  function GetCallLogs(store: seq<StoredMessage>, users: seq<UserDoc>, userId: Option<string>, findOk: bool)
    : (r: Reply<seq<CallLogEntry>>)
    ensures !Truthy(userId) ==> r == Fail(400, "Missing user ID")
    ensures Truthy(userId) && (!findOk || FormatCalls(CallsOf(store, userId.value), users, userId.value).None?) ==>
      r == Fail(500, "Error fetching call logs")
    ensures r.Ok? <==> Truthy(userId) && findOk && FormatCalls(CallsOf(store, userId.value), users, userId.value).Some?
    ensures r.Ok? ==> r.status == 200
    ensures r.Ok? ==>
      var calls := CallsOf(store, userId.value);
      && |r.body| == |calls|
      && forall i :: 0 <= i < |calls| ==>
           && r.body[i].kind == calls[i].kind
           && (r.body[i].direction == Outgoing <==> calls[i].sender == userId.value)
           && r.body[i].otherUser.id == OtherParty(calls[i], userId.value)
           && r.body[i].date == calls[i].createdAt
           && FindById(users, OtherParty(calls[i], userId.value)).Some?
           && r.body[i].otherUser.name == FindById(users, OtherParty(calls[i], userId.value)).value.fullName
           && r.body[i].otherUser.avatar == FindById(users, OtherParty(calls[i], userId.value)).value.avatar
  {
    if !Truthy(userId) then Fail(400, "Missing user ID")
    else if !findOk then Fail(500, "Error fetching call logs")
    else match FormatCalls(CallsOf(store, userId.value), users, userId.value)
      case None => Fail(500, "Error fetching call logs")
      case Some(entries) => Ok(200, entries)
  }

  /** The call log lists exactly the call records the user took part in,
      newest first. */
  lemma CallsOfIsExact(store: seq<StoredMessage>, u: string)
    ensures var calls := CallsOf(store, u);
      && SortedByTime(calls, false)
      && multiset(calls) == multiset(Filter(store, m => IsCallRecord(m) && Involves(m, u)))
      && (forall m :: m in calls ==> m in store && IsCallRecord(m) && Involves(m, u))
  {
    var f := Filter(store, m => IsCallRecord(m) && Involves(m, u));
    SortByTimeSorted(f, false);
    forall m | m in CallsOf(store, u) ensures m in store && IsCallRecord(m) && Involves(m, u) {
      assert m in multiset(f);
    }
  }

  // ---------------------------------------------------------------- users, chats

  datatype UserSummary = UserSummary(id: string, name: string, username: string, email: string, avatar: string, status: string)

  /** `GET /users`: every account, in collection order, with `fullName`
      published as `name`. */
  function GetUsers(users: seq<UserDoc>): (r: Reply<seq<UserSummary>>)
    ensures r.Ok? && r.status == 200 && |r.body| == |users|
    ensures forall i :: 0 <= i < |users| ==>
      r.body[i] == UserSummary(users[i].id, users[i].fullName, users[i].username, users[i].email, users[i].avatar, users[i].status)
  {
    Ok(200, seq(|users|, i requires 0 <= i < |users| =>
      UserSummary(users[i].id, users[i].fullName, users[i].username, users[i].email, users[i].avatar, users[i].status)))
  }

  /** `GET /chats`: always an empty list, whatever the query. */
  function GetChats(userId: Option<string>): (r: Reply<seq<string>>)
    ensures r.Ok? && r.status == 200 && r.body == []
  {
    Ok(200, [])
  }
}
