/** The authentication context: the role permission table, the `login` and
    `logout` transitions of the signed-in user and token, and the login
    form's submit handler. */
module Auth {
  import opened Wrappers
  import opened Text

  /** The signed-in user as the context stores it. */
  datatype User = User(id: string, email: string, name: string, role: string)

  const CreateBookings := "create_bookings"
  const ViewBookings := "view_bookings"
  const EditBookings := "edit_bookings"
  const ExportExcel := "export_excel"
  const AppControl := "app_control"

  /** The `permissions` table: the permissions of a role, if the role is listed. */
  function RolePermissions(role: string): (r: Option<seq<string>>)
    ensures role != "ADMIN" && role != "PARENT" ==> r.None?
  {
    if role == "ADMIN" then Some([CreateBookings, ViewBookings, EditBookings])
    else if role == "PARENT" then Some([CreateBookings, ViewBookings, EditBookings, ExportExcel, AppControl])
    else None
  }

  /** `hasPermission`: no user has no permission; otherwise the user's role
      must list the permission. */
  function HasPermission(user: Option<User>, permission: string): (r: bool)
    ensures user.None? ==> !r
    ensures r ==> RolePermissions(user.value.role).Some? && permission in RolePermissions(user.value.role).value
  {
    match user
    case None => false
    case Some(u) =>
      match RolePermissions(u.role)
      case None => false
      case Some(ps) => permission in ps
  }

  /** ADMIN holds exactly the three booking permissions. */
  lemma AdminPermissions(u: User, p: string)
    requires u.role == "ADMIN"
    ensures HasPermission(Some(u), p) <==> p == CreateBookings || p == ViewBookings || p == EditBookings
  {
  }

  /** PARENT holds what ADMIN holds, plus the export and app-control permissions. */
  lemma ParentPermissions(u: User, p: string)
    requires u.role == "PARENT"
    ensures HasPermission(Some(u), p)
        <==> HasPermission(Some(u.(role := "ADMIN")), p) || p == ExportExcel || p == AppControl
  {
  }

  /** A role outside the table has no permission. */
  lemma UnknownRoleHasNone(u: User, p: string)
    requires u.role != "ADMIN" && u.role != "PARENT"
    ensures !HasPermission(Some(u), p)
  {
  }

  /** What the login endpoint answered: the HTTP status was ok or not, and
      the parsed body's `success`, `user`, `token` and `message`. A failed
      request or an unparsable body is `Unreachable`. */
  datatype LoginReply =
    | Answered(ok: bool, success: bool, user: Option<User>, token: Option<string>, message: Option<string>)
    | Unreachable

  /** What `login` returns to the form. */
  datatype LoginResult = LoginResult(success: bool, error: Option<string>)

  const InvalidCredentials := "Invalid credentials"
  const NetworkError := "Network error. Please check your connection."

  /** The signed-in state a reply establishes: only an ok response whose
      body has `success` and a `user` signs in (reading `data.user.id` of a
      missing user throws, which lands in the network-error branch). */
  function SignedIn(reply: LoginReply): (r: Option<(User, Option<string>)>)
    ensures r.Some? <==> reply.Answered? && reply.ok && reply.success && reply.user.Some?
    ensures r.Some? ==> r.value == (reply.user.value, reply.token)
  {
    if reply.Answered? && reply.ok && reply.success && reply.user.Some? then Some((reply.user.value, reply.token))
    else None
  }

  /** The result `login` returns for a reply. */
  function LoginResultOf(reply: LoginReply): (r: LoginResult)
    ensures r.success <==> SignedIn(reply).Some?
    ensures r.success ==> r.error.None?
    ensures reply.Answered? && !(reply.ok && reply.success) ==> r.error == Some(OrElse(reply.message, InvalidCredentials))
    ensures reply.Unreachable? || (reply.ok && reply.success && reply.user.None?) ==> r.error == Some(NetworkError)
  {
    match reply
    case Unreachable => LoginResult(false, Some(NetworkError))
    case Answered(ok, success, user, _, message) =>
      if ok && success then
        if user.Some? then LoginResult(true, None) else LoginResult(false, Some(NetworkError))
      else LoginResult(false, Some(OrElse(message, InvalidCredentials)))
  }

  /** A failed login always carries a message for the form to show. */
  lemma FailureHasMessage(reply: LoginReply)
    ensures !LoginResultOf(reply).success ==> LoginResultOf(reply).error.Some? && LoginResultOf(reply).error.value != ""
  {
  }

  class AuthState {
    var user: Option<User>
    var token: Option<string>

    constructor ()
      ensures user.None? && token.None?
    {
      user := None;
      token := None;
    }

    /** `login`: a successful reply sets the user and the token; any other
        reply leaves both as they were. */
    method Login(reply: LoginReply) returns (r: LoginResult)
      modifies this`user, this`token
      ensures r == LoginResultOf(reply)
      ensures SignedIn(reply).Some? ==> user == Some(SignedIn(reply).value.0) && token == SignedIn(reply).value.1
      ensures SignedIn(reply).None? ==> user == old(user) && token == old(token)
    {
      match reply
      case Unreachable =>
        r := LoginResult(false, Some(NetworkError));
      case Answered(ok, success, u, t, message) =>
        if ok && success {
          if u.Some? {
            user := u;
            token := t;
            r := LoginResult(true, None);
          } else {
            r := LoginResult(false, Some(NetworkError));
          }
        } else {
          r := LoginResult(false, Some(OrElse(message, InvalidCredentials)));
        }
    }

    /** `logout` clears the user and the token. */
    method Logout()
      modifies this`user, this`token
      ensures user.None? && token.None?
    {
      user := None;
      token := None;
    }

    /** The context's `hasPermission`, on the current user. */
    function Can(permission: string): (r: bool)
      reads this
      ensures r ==> user.Some?
    {
      HasPermission(user, permission)
    }
  }

  /** After a logout nothing is permitted. */
  lemma LoggedOutHasNoPermission(p: string)
    ensures !HasPermission(None, p)
  {
  }

  const FillAllFields := "Please fill in all fields"

  class LoginForm {
    var email: string
    var password: string
    var loading: bool
    var error: string

    constructor ()
      ensures email == "" && password == "" && !loading && error == ""
    {
      email := "";
      password := "";
      loading := false;
      error := "";
    }

    /** The inputs' `handleChange`. */
    method SetFields(email: string, password: string)
      modifies this`email, this`password
      ensures this.email == email && this.password == password
    {
      this.email := email;
      this.password := password;
    }

    /** `handleSubmit`: a blank e-mail or password sets the fill-in message
        and does not log in; otherwise `login` runs and a failure's message
        is shown. `attempted` tells whether `login` was called. */
    method HandleSubmit(auth: AuthState, reply: LoginReply) returns (attempted: bool)
      modifies this`loading, this`error, auth`user, auth`token
      ensures attempted <==> !IsBlank(old(email)) && !IsBlank(old(password))
      ensures !attempted ==> error == FillAllFields && auth.user == old(auth.user) && auth.token == old(auth.token)
      ensures attempted ==>
        var result := LoginResultOf(reply);
        error == (if result.success then "" else result.error.value)
        && (SignedIn(reply).Some? ==> auth.user == Some(SignedIn(reply).value.0) && auth.token == SignedIn(reply).value.1)
        && (SignedIn(reply).None? ==> auth.user == old(auth.user) && auth.token == old(auth.token))
      ensures !loading
    {
      var e, p := email, password;
      loading := true;
      error := "";
      if IsBlank(e) || IsBlank(p) {
        error := FillAllFields;
        loading := false;
        return false;
      }
      var result := auth.Login(reply);
      FailureHasMessage(reply);
      if !result.success {
        error := result.error.value;
      }
      loading := false;
      attempted := true;
    }
  }
}
