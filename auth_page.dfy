/** The sign-in / sign-up form: its client-side checks, the request it sends,
    and how it reacts to the reply. The checks mirror the registration checks
    of the server. */
module AuthPage {
  import opened Common
  import Records
  import AuthController

  /** The form fields; every one starts as "". */
  datatype AuthForm = AuthForm(email: string, password: string, fullName: string, username: string, phone: string)

  const EmptyForm: AuthForm := AuthForm("", "", "", "", "")

  datatype Field = EmailField | PasswordField | FullNameField | UsernameField | PhoneField

  /** `setFormData({ ...formData, [name]: value })` */
  function SetField(f: AuthForm, name: Field, value: string): (r: AuthForm)
    ensures name == EmailField ==> r == f.(email := value)
    ensures name == PasswordField ==> r == f.(password := value)
    ensures name == FullNameField ==> r == f.(fullName := value)
    ensures name == UsernameField ==> r == f.(username := value)
    ensures name == PhoneField ==> r == f.(phone := value)
  {
    match name
    case EmailField => f.(email := value)
    case PasswordField => f.(password := value)
    case FullNameField => f.(fullName := value)
    case UsernameField => f.(username := value)
    case PhoneField => f.(phone := value)
  }

  /** The message of the first client check that fails: e-mail and password
      present, e-mail shape, password length, then (registering only) the
      other three fields; None when the form may be sent. */
  function ClientError(f: AuthForm, isLogin: bool): (r: Option<string>)
    ensures f.email == "" || f.password == "" ==> r == Some(AuthController.CredentialsRequired)
    ensures f.email != "" && f.password != "" && !EmailValid(f.email) ==> r == Some(AuthController.InvalidEmailFormat)
    ensures f.email != "" && f.password != "" && EmailValid(f.email) && Utf16Length(f.password) < AuthController.MinPasswordLength ==>
      r == Some(AuthController.PasswordTooShort)
    ensures r.None? <==>
      && f.email != "" && f.password != "" && EmailValid(f.email) && Utf16Length(f.password) >= AuthController.MinPasswordLength
      && (isLogin || (f.fullName != "" && f.username != "" && f.phone != ""))
    ensures r == Some(AuthController.AllFieldsRequired) <==>
      && !isLogin && f.email != "" && f.password != "" && EmailValid(f.email)
      && Utf16Length(f.password) >= AuthController.MinPasswordLength
      && (f.fullName == "" || f.username == "" || f.phone == "")
  {
    if f.email == "" || f.password == "" then Some(AuthController.CredentialsRequired)
    else if !EmailValid(f.email) then Some(AuthController.InvalidEmailFormat)
    else if Utf16Length(f.password) < AuthController.MinPasswordLength then Some(AuthController.PasswordTooShort)
    else if !isLogin && (f.fullName == "" || f.username == "" || f.phone == "") then Some(AuthController.AllFieldsRequired)
    else None
  }

  /** What is posted: to the login endpoint only e-mail and password, to the
      register endpoint the whole form. */
  datatype AuthRequest = LoginRequest(body: AuthController.LoginBody) | RegisterRequest(form: AuthController.RegisterBody)

  function RequestFor(f: AuthForm, isLogin: bool): (r: AuthRequest)
    ensures isLogin <==> r.LoginRequest?
    ensures isLogin ==> r.body == AuthController.LoginBody(Some(f.email), Some(f.password))
    ensures !isLogin ==> r.form == AuthController.RegisterBody(Some(f.username), Some(f.fullName), Some(f.email),
                                                               Some(f.phone), Some(f.password))
  {
    if isLogin then LoginRequest(AuthController.LoginBody(Some(f.email), Some(f.password)))
    else RegisterRequest(AuthController.RegisterBody(Some(f.username), Some(f.fullName), Some(f.email),
                                                     Some(f.phone), Some(f.password)))
  }

  /** A form the page sends for registration passes the server's field,
      e-mail and password checks, so the server can only refuse it as a
      duplicate. */
  lemma ClientRegisterPassesServerChecks(f: AuthForm, users: seq<Records.UserDoc>)
    requires ClientError(f, false).None?
    ensures var b := RequestFor(f, false).form;
      AuthController.RegisterError(b, users).None? ||
      AuthController.RegisterError(b, users) == Some(AuthController.UserExists)
  {
  }

  /** A form the page sends for login is never refused for missing fields. */
  lemma ClientLoginHasCredentials(f: AuthForm, users: seq<Records.UserDoc>, compare: (string, string) -> bool,
                                  sign: (string, string) -> string)
    requires ClientError(f, true).None?
    ensures AuthController.Login(RequestFor(f, true).body, users, compare, sign)
         != Common.Fail(400, AuthController.CredentialsRequired)
  {
  }

  const FallbackError := "Something went wrong"

  class AuthView {
    var isLogin: bool
    var form: AuthForm
    var error: string
    var loading: bool
    /** Requests posted so far, in order. */
    var requests: seq<AuthRequest>
    /** What a successful login saved (`token`, `userId`) and reported. */
    var saved: Option<(string, string)>

    constructor ()
      ensures isLogin && form == EmptyForm && error == "" && !loading && requests == [] && saved == None
    {
      isLogin := true;
      form := EmptyForm;
      error := "";
      loading := false;
      requests := [];
      saved := None;
    }

    method Change(name: Field, value: string)
      modifies this`form
      ensures form == SetField(old(form), name, value)
    {
      form := SetField(form, name, value);
    }

    /** The Login / Register toggle. */
    method SetMode(login: bool)
      modifies this`isLogin, this`error
      ensures isLogin == login && error == ""
    {
      isLogin := login;
      error := "";
    }

    /** The link under the form: flips the mode and, unlike the toggle,
        leaves the error message shown. */
    method ToggleMode()
      modifies this`isLogin
      ensures isLogin == !old(isLogin)
    {
      isLogin := !isLogin;
    }

    /** `handleSubmit`: a failed check shows its message and sends nothing;
        otherwise the request for the current mode is posted and the form
        waits for the reply. */
    method Submit()
      modifies this`error, this`loading, this`requests
      ensures ClientError(form, isLogin).Some? ==>
        error == ClientError(form, isLogin).value && !loading && requests == old(requests)
      ensures ClientError(form, isLogin).None? ==>
        error == "" && loading && requests == old(requests) + [RequestFor(form, isLogin)]
    {
      error := "";
      loading := true;
      var e := ClientError(form, isLogin);
      if e.Some? {
        error := e.value;
        loading := false;
        return;
      }
      requests := requests + [RequestFor(form, isLogin)];
    }

    /** The reply to `req` arrives. A failure shows the server's message, or a
        fallback. A login success saves the token and user id; a register
        success switches the form to login mode. The mode that counts is the
        one the request was sent in. */
    method OnReply(req: AuthRequest, ok: bool, message: Option<string>, token: string, userId: string)
      modifies this`error, this`loading, this`isLogin, this`saved
      ensures !loading
      ensures !ok ==> error == OrElse(message, FallbackError) && isLogin == old(isLogin) && saved == old(saved)
      ensures ok && req.LoginRequest? ==> saved == Some((token, userId)) && isLogin == old(isLogin) && error == old(error)
      ensures ok && req.RegisterRequest? ==> isLogin && error == "" && saved == old(saved)
    {
      if !ok {
        error := OrElse(message, FallbackError);
      } else if req.LoginRequest? {
        saved := Some((token, userId));
      } else {
        isLogin := true;
        error := "";
      }
      loading := false;
    }
  }
}
