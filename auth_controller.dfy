/** Account registration, login and profile update. Registration and login
    are validation chains that stop at the first failed check; the profile
    update overwrites the truthy fields of the stored account in place.
    Password hashing and comparison and token signing are abstract
    functions; the user collection is a sequence of accounts. */
module AuthController {
  import opened Common
  import opened Records

  const AllFieldsRequired := "All fields are required"
  const InvalidEmailFormat := "Invalid email format"
  const PasswordTooShort := "Password must be at least 6 characters long"
  const UserExists := "User already exists (email or username)"
  const RegistrationFailed := "Registration failed"
  const CredentialsRequired := "Email and password are required"
  const InvalidCredentials := "Invalid credentials"
  const UserNotFound := "User not found"
  const ProfileUpdated := "Profile updated successfully"
  const ProfileUpdateFailed := "Failed to update profile"

  /** The shortest password either side accepts. */
  const MinPasswordLength := 6

  datatype RegisterBody = RegisterBody(
    username: Option<string>,
    fullName: Option<string>,
    email: Option<string>,
    phone: Option<string>,
    password: Option<string>)

  predicate AllFieldsPresent(b: RegisterBody) {
    Truthy(b.username) && Truthy(b.fullName) && Truthy(b.email) && Truthy(b.password) && Truthy(b.phone)
  }

  /** `User.findOne({ $or: [{ email }, { username }] })` finds someone. */
  predicate Taken(users: seq<UserDoc>, email: string, username: string) {
    exists i :: 0 <= i < |users| && (users[i].email == email || users[i].username == username)
  }

  /** The message of the first registration check that fails, in the order
      fields, e-mail shape, password length, uniqueness; None when all pass. */
  function RegisterError(b: RegisterBody, users: seq<UserDoc>): (r: Option<string>)
    ensures r == Some(AllFieldsRequired) <==> !AllFieldsPresent(b)
    ensures r == Some(InvalidEmailFormat) <==> AllFieldsPresent(b) && !EmailValid(b.email.value)
    ensures r == Some(PasswordTooShort) <==>
      AllFieldsPresent(b) && EmailValid(b.email.value) && Utf16Length(b.password.value) < MinPasswordLength
    ensures r == Some(UserExists) <==>
      AllFieldsPresent(b) && EmailValid(b.email.value) && Utf16Length(b.password.value) >= MinPasswordLength
      && Taken(users, b.email.value, b.username.value)
    ensures r.None? <==>
      AllFieldsPresent(b) && EmailValid(b.email.value) && Utf16Length(b.password.value) >= MinPasswordLength
      && !Taken(users, b.email.value, b.username.value)
  {
    if !AllFieldsPresent(b) then Some(AllFieldsRequired)
    else if !EmailValid(b.email.value) then Some(InvalidEmailFormat)
    else if Utf16Length(b.password.value) < MinPasswordLength then Some(PasswordTooShort)
    else if Taken(users, b.email.value, b.username.value) then Some(UserExists)
    else None
  }

  /** The length check counts UTF-16 code units as `password.length` does:
      three characters outside the Basic Multilingual Plane make a password
      of length 6, which passes, while three plain letters do not. */
  lemma PasswordLengthInCodeUnits()
    ensures Utf16Length("\U{1F600}\U{1F600}\U{1F600}") == MinPasswordLength
    ensures Utf16Length("abc") < MinPasswordLength
  {
    assert "\U{1F600}\U{1F600}\U{1F600}"[1..] == "\U{1F600}\U{1F600}";
    assert "\U{1F600}\U{1F600}"[1..] == "\U{1F600}";
    assert "\U{1F600}"[1..] == "";
  }

  /** What a successful register or login returns. */
  datatype Session = Session(userId: string, username: string, token: string)

  /** The account a successful registration creates: the HASHED password,
      status 'online', and the schema defaults for avatar and bio. */
  function NewAccount(b: RegisterBody, id: string, hash: string -> string): (u: UserDoc)
    requires AllFieldsPresent(b)
    ensures u.id == id && u.username == b.username.value && u.email == b.email.value
    ensures u.fullName == b.fullName.value && u.phone == b.phone.value
    ensures u.password == hash(b.password.value)
    ensures u.status == "online" && u.avatar == DefaultAvatar && u.bio == DefaultBio
  {
    UserDoc(id, b.username.value, b.fullName.value, b.email.value, b.phone.value,
            hash(b.password.value), DefaultAvatar, DefaultBio, "online")
  }

  datatype LoginBody = LoginBody(email: Option<string>, password: Option<string>)

  /** `User.findOne({ email })`: the first account with that e-mail. */
  function FindByEmail(users: seq<UserDoc>, email: string): (r: Option<UserDoc>)
    ensures r.Some? ==> r.value in users && r.value.email == email
    ensures r.None? <==> forall u :: u in users ==> u.email != email
  {
    if users == [] then None
    else if users[0].email == email then Some(users[0])
    else FindByEmail(users[1..], email)
  }

  /** A stored password matches when the hash comparison succeeds OR the
      stored value equals the plain text. */
  predicate PasswordMatches(plain: string, stored: string, compare: (string, string) -> bool) {
    compare(plain, stored) || stored == plain
  }

  /** `POST /login`. */
  function Login(b: LoginBody, users: seq<UserDoc>, compare: (string, string) -> bool,
                 sign: (string, string) -> string): (r: Reply<Session>)
    ensures !Truthy(b.email) || !Truthy(b.password) ==> r == Fail(400, CredentialsRequired)
    ensures Truthy(b.email) && Truthy(b.password) && FindByEmail(users, b.email.value).None? ==>
      r == Fail(400, InvalidCredentials)
    ensures r.Ok? ==>
      && Truthy(b.email) && Truthy(b.password) && FindByEmail(users, b.email.value).Some?
      && var u := FindByEmail(users, b.email.value).value;
      && PasswordMatches(b.password.value, u.password, compare)
      && r == Ok(200, Session(u.id, u.username, sign(u.id, u.username)))
  {
    if !Truthy(b.email) || !Truthy(b.password) then Fail(400, CredentialsRequired)
    else match FindByEmail(users, b.email.value)
      case None => Fail(400, InvalidCredentials)
      case Some(u) =>
        if !PasswordMatches(b.password.value, u.password, compare) then Fail(400, InvalidCredentials)
        else Ok(200, Session(u.id, u.username, sign(u.id, u.username)))
  }

  /** An unknown e-mail and a wrong password give the very same reply, so a
      caller cannot tell which accounts exist. */
  lemma LoginFailuresIndistinguishable(users: seq<UserDoc>, compare: (string, string) -> bool,
                                       sign: (string, string) -> string,
                                       unknown: string, known: string, plain: string, wrong: string)
    requires unknown != "" && known != "" && plain != "" && wrong != ""
    requires forall u :: u in users ==> u.email != unknown
    requires FindByEmail(users, known).Some?
    requires !PasswordMatches(wrong, FindByEmail(users, known).value.password, compare)
    ensures Login(LoginBody(Some(unknown), Some(plain)), users, compare, sign)
         == Login(LoginBody(Some(known), Some(wrong)), users, compare, sign)
         == Fail(400, InvalidCredentials)
  {
  }

  /** Login succeeds exactly when both fields are given, an account has that
      e-mail, and either the hash comparison or plain equality holds. */
  lemma LoginSucceedsIff(b: LoginBody, users: seq<UserDoc>, compare: (string, string) -> bool,
                         sign: (string, string) -> string)
    ensures Login(b, users, compare, sign).Ok? <==>
      && Truthy(b.email) && Truthy(b.password)
      && (exists u :: u in users && u.email == b.email.value)
      && PasswordMatches(b.password.value, FindByEmail(users, b.email.value).value.password, compare)
  {
    if Truthy(b.email) && Truthy(b.password) && (exists u :: u in users && u.email == b.email.value) {
      assert FindByEmail(users, b.email.value).Some?;
    }
  }

  /** The fields `PUT /profile/:userId` reads from the body. */
  datatype ProfileUpdate = ProfileUpdate(fullName: Option<string>, bio: Option<string>,
                                         status: Option<string>, avatar: Option<string>)

  /** `if (field) user.field = field` for the four editable fields. */
  function MergeProfile(u: UserDoc, p: ProfileUpdate): (r: UserDoc)
    ensures r.fullName == (if Truthy(p.fullName) then p.fullName.value else u.fullName)
    ensures r.bio == (if Truthy(p.bio) then p.bio.value else u.bio)
    ensures r.status == (if Truthy(p.status) then p.status.value else u.status)
    ensures r.avatar == (if Truthy(p.avatar) then p.avatar.value else u.avatar)
    ensures r.(fullName := u.fullName, bio := u.bio, status := u.status, avatar := u.avatar) == u
  {
    u.(fullName := OrElse(p.fullName, u.fullName), bio := OrElse(p.bio, u.bio),
       status := OrElse(p.status, u.status), avatar := OrElse(p.avatar, u.avatar))
  }

  /** Applying the same update twice is applying it once. */
  lemma MergeIdempotent(u: UserDoc, p: ProfileUpdate)
    ensures MergeProfile(MergeProfile(u, p), p) == MergeProfile(u, p)
  {
  }

  /** An update whose four fields are all falsy leaves the account as it was. */
  lemma MergeEmptyIsIdentity(u: UserDoc, p: ProfileUpdate)
    requires !Truthy(p.fullName) && !Truthy(p.bio) && !Truthy(p.status) && !Truthy(p.avatar)
    ensures MergeProfile(u, p) == u
  {
  }

  /** The public view of an account that the profile reply carries. */
  datatype ProfileView = ProfileView(id: string, username: string, fullName: string, email: string,
                                     avatar: string, bio: string, status: string)
  datatype ProfileReply = ProfileReply(message: string, user: ProfileView)

  function ViewOf(u: UserDoc): (v: ProfileView)
    ensures v.id == u.id && v.username == u.username && v.fullName == u.fullName && v.email == u.email
    ensures v.avatar == u.avatar && v.bio == u.bio && v.status == u.status
  {
    ProfileView(u.id, u.username, u.fullName, u.email, u.avatar, u.bio, u.status)
  }

  /** The user collection. */
  class UserStore {
    var users: seq<UserDoc>

    /** Account ids are unique. */
    ghost predicate Valid()
      reads this
    {
      forall i, j :: 0 <= i < j < |users| ==> users[i].id != users[j].id
    }

    constructor (initial: seq<UserDoc>)
      requires forall i, j :: 0 <= i < j < |initial| ==> initial[i].id != initial[j].id
      ensures Valid() && users == initial
    {
      users := initial;
    }

    /** `POST /register`. A failed check replies 400 with its message and
        changes nothing. When all pass, the account is created under the
        fresh id the store assigns, unless the store refuses the write
        (`createOk`), which replies 500 and changes nothing. */
    method Register(b: RegisterBody, newId: string, hash: string -> string,
                    sign: (string, string) -> string, createOk: bool)
      returns (reply: Reply<Session>)
      requires Valid()
      requires forall u :: u in users ==> u.id != newId
      modifies this
      ensures Valid()
      ensures RegisterError(b, old(users)).Some? ==>
        users == old(users) && reply == Fail(400, RegisterError(b, old(users)).value)
      ensures RegisterError(b, old(users)).None? && !createOk ==>
        users == old(users) && reply == Fail(500, RegistrationFailed)
      ensures RegisterError(b, old(users)).None? && createOk ==>
        && users == old(users) + [NewAccount(b, newId, hash)]
        && reply == Ok(201, Session(newId, b.username.value, sign(newId, b.username.value)))
    {
      var err := RegisterError(b, users);
      if err.Some? {
        return Fail(400, err.value);
      }
      if !createOk {
        return Fail(500, RegistrationFailed);
      }
      var account := NewAccount(b, newId, hash);
      users := users + [account];
      reply := Ok(201, Session(account.id, account.username, sign(account.id, account.username)));
    }

    /** `PUT /profile/:userId`. If the lookup fails (`findOk` false: an id
        that cannot be read as an ObjectId makes `findById` throw), the reply
        is 500. An unknown id replies 404. Otherwise the account is merged
        with the update; if the store refuses the save (`saveOk`), the reply
        is 500 and the collection is unchanged. */
    method UpdateProfile(userId: string, p: ProfileUpdate, findOk: bool, saveOk: bool) returns (reply: Reply<ProfileReply>)
      requires Valid()
      modifies this
      ensures Valid()
      ensures !findOk ==> users == old(users) && reply == Fail(500, ProfileUpdateFailed)
      ensures findOk && FindById(old(users), userId).None? ==> users == old(users) && reply == Fail(404, UserNotFound)
      ensures findOk && FindById(old(users), userId).Some? && !saveOk ==>
        users == old(users) && reply == Fail(500, ProfileUpdateFailed)
      ensures findOk && FindById(old(users), userId).Some? && saveOk ==>
        && |users| == |old(users)|
        && (forall i :: 0 <= i < |users| ==>
              users[i] == if old(users)[i].id == userId then MergeProfile(old(users)[i], p) else old(users)[i])
        && reply == Ok(200, ProfileReply(ProfileUpdated, ViewOf(MergeProfile(FindById(old(users), userId).value, p))))
    {
      if !findOk {
        return Fail(500, ProfileUpdateFailed);
      }
      var found := FindById(users, userId);
      if found.None? {
        return Fail(404, UserNotFound);
      }
      var merged := MergeProfile(found.value, p);
      if !saveOk {
        return Fail(500, ProfileUpdateFailed);
      }
      var i :| 0 <= i < |users| && users[i] == found.value;
      users := users[i := merged];
      reply := Ok(200, ProfileReply(ProfileUpdated, ViewOf(merged)));
    }
  }
}
