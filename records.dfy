/** The persisted records the core reads and writes: chat messages (text,
    media and call records) and user accounts. The store itself is a
    foreign collaborator; here it is a sequence of records in insertion
    order. */
module Records {
  import opened Common

  /** A stored chat message. `kind` and `fileUrl` may be unset (the call
      record writer never sets `fileUrl`); `callDuration` is set only on call
      records and `delivered` only by the text relay. */
  datatype StoredMessage = StoredMessage(
    sender: string,
    receiver: string,
    content: string,
    kind: Option<string>,
    fileUrl: Option<string>,
    callDuration: Option<int>,
    delivered: Option<bool>,
    createdAt: int)

  /** A user account. */
  datatype UserDoc = UserDoc(
    id: string,
    username: string,
    fullName: string,
    email: string,
    phone: string,
    password: string,
    avatar: string,
    bio: string,
    status: string)

  /** Defaults the user schema supplies for fields a new account does not set. */
  const DefaultAvatar: string := ""
  const DefaultBio: string := "Hey there! I am using ChatApp"

  /** The first user with the given id, as `findById` returns it. */
  function FindById(users: seq<UserDoc>, id: string): (r: Option<UserDoc>)
    ensures r.Some? ==> r.value in users && r.value.id == id
    ensures r.None? ==> forall u :: u in users ==> u.id != id
  {
    if users == [] then None
    else if users[0].id == id then Some(users[0])
    else FindById(users[1..], id)
  }
}
