/** The side list: the search filter over the page's users, the call-log
    tab's fetch rule and labels, and the empty-list text. */
module ChatList {
  import opened Common
  import opened ChatPage

  /** A user is listed when it has a name that contains the search term,
      both lower-cased. */
  predicate Matches(u: DisplayUser, term: string) {
    u.name != "" && Contains(Lower(u.name), Lower(term))
  }

  /** The search test for one term, as a filter predicate. */
  function Matcher(term: string): DisplayUser -> bool {
    u => Matches(u, term)
  }

  /** `usersList`: the matching users in their original order. There is one
      entry per matching user, and a matching user at index `i` is listed at
      the position given by the number of matching users before it, so order
      and duplicates are kept. */
  function UsersList(users: seq<DisplayUser>, term: string): (r: seq<DisplayUser>)
    ensures forall u :: u in r <==> u in users && Matches(u, term)
    ensures |r| == CountKept(users, Matcher(term))
    ensures forall i :: 0 <= i < |users| && Matches(users[i], term) ==>
      CountKept(users[..i], Matcher(term)) < |r| && r[CountKept(users[..i], Matcher(term))] == users[i]
  {
    FilterPlaces(users, Matcher(term));
    Filter(users, Matcher(term))
  }

  /** With an empty search term exactly the named users are listed, in
      order. */
  lemma EmptyTermKeepsNamed(users: seq<DisplayUser>)
    ensures UsersList(users, "") == Filter(users, (u: DisplayUser) => u.name != "")
  {
    forall i | 0 <= i < |users| ensures Matches(users[i], "") == (users[i].name != "") {
      ContainsEmpty(Lower(users[i].name));
    }
    FilterExt(users, u => Matches(u, ""), (u: DisplayUser) => u.name != "");
  }

  /** The label of a call-log row. */
  function CallLabel(kind: Option<string>): (r: string)
    ensures r == "Video Call" <==> kind == Some("video_call")
    ensures r == "Audio Call" <==> kind != Some("video_call")
  {
    if kind == Some("video_call") then "Video Call" else "Audio Call"
  }

  /** The text of an empty user list. */
  function EmptyText(term: string): (r: string)
    ensures r == "No users found" <==> term != ""
    ensures r == "No active users" <==> term == ""
  {
    if term != "" then "No users found" else "No active users"
  }

  /** The tab effect: it runs when the list first renders (no previous tab)
      and whenever the active tab changes, and fetches the call logs when the
      tab it finds is 'Calls'. */
  function FetchOnTabChange(previous: Option<string>, current: string): (r: bool)
    ensures r <==> current == "Calls" && previous != Some("Calls")
  {
    previous != Some(current) && current == "Calls"
  }

  /** The user id of the call-log request: `myId`, else the stored user's id;
      None means no request is made. */
  function CallLogsUser(myId: Option<string>, storedId: Option<string>): (r: Option<string>)
    ensures Truthy(myId) ==> r == myId
    ensures !Truthy(myId) && Truthy(storedId) ==> r == storedId
    ensures !Truthy(myId) && !Truthy(storedId) ==> r.None?
  {
    if Truthy(myId) then myId
    else if Truthy(storedId) then storedId
    else None
  }
}
