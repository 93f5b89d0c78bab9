/**
 * How the client's `login` (src/contexts/AuthContext.tsx) reads the answer of
 * the `/login` handler (python/app.py), and what that means for the admin
 * guard (src/routes/AdminRoute.tsx).
 */
module LoginFlow {
  import opened Wrappers
  import opened UserRecord
  import UsersApi
  import AuthContext
  import AdminRoute

  function DigitChar(d: nat): char
    requires d < 10
  {
    "0123456789"[d]
  }

  /** The decimal text of a number, standing for the id as the client holds it. */
  function DecimalText(n: nat): (r: string)
    ensures r != []
  {
    if n < 10 then [DigitChar(n)] else DecimalText(n / 10) + [DigitChar(n % 10)]
  }

  /** The client's copy of the user a successful login returns: it carries no role. */
  function ToClientUser(u: UsersApi.PublicUser): (c: User)
    ensures c.role == None
    ensures c.id == DecimalText(u.id)
    ensures c.name == u.name && c.email == u.email
  {
    User(DecimalText(u.id), u.name, u.email, None)
  }

  /** `response.ok`: a status in 200..299. */
  predicate ResponseOk(resp: UsersApi.Response) {
    200 <= resp.status < 300
  }

  /**
   * What the client's `login` sees in the handler's response: `data.user`
   * when `response.ok`, otherwise `data.error`. The `/login` handler answers
   * an ok status only with a user.
   */
  function ToReply(resp: UsersApi.Response): (r: AuthContext.LoginReply)
    requires ResponseOk(resp) ==> resp.body.LoginSuccess?
    ensures r.Accepted? <==> ResponseOk(resp)
    ensures r.Accepted? ==> r.user == ToClientUser(resp.body.user)
    ensures !ResponseOk(resp) ==> r == AuthContext.Refused(if resp.body.Error? then resp.body.error else "")
  {
    if ResponseOk(resp) then AuthContext.Accepted(ToClientUser(resp.body.user))
    else match resp.body
      case Error(e) => AuthContext.Refused(e)
      case _ => AuthContext.Refused("")
  }

  /** A user who logged in through this handler is never admitted by the admin guard. */
  lemma BackendUserNeverAdmin(u: UsersApi.PublicUser, isLoading: bool, isAuthenticated: bool, location: AdminRoute.Location)
    ensures !AdminRoute.Decide(isLoading, isAuthenticated, Some(ToClientUser(u)), location).RenderChildren?
  {
  }

  /**
   * The whole sign-in: the handler checks the credentials, the provider
   * stores the session, the guard decides. The login succeeds exactly when
   * the table holds the credentials, and after a success the guard redirects.
   */
  method SignIn(
    db: UsersApi.UsersTable, p: AuthContext.AuthProvider,
    email: string, password: string, dbError: Option<string>,
    tokenSuffix: string, location: AdminRoute.Location)
    returns (result: Outcome<string>, route: AdminRoute.Rendered)
    requires db.Valid()
    modifies p
    ensures result.Pass? <==>
      && email != "" && password != "" && dbError.None?
      && exists row :: row in db.rows && row.email == email && row.password == password
    ensures result.Pass? ==> p.isAuthenticated && p.user.Some? && p.user.value.role == None
    ensures result.Pass? ==> route == AdminRoute.Redirect(AdminRoute.UnauthorizedPath, location, true)
    ensures p.store == old(p.store) || result.Pass?
  {
    var resp := db.Login(Some(email), Some(password), dbError);
    var reply := ToReply(resp);
    result := p.Login(reply, tokenSuffix);
    route := AdminRoute.Guard(p, location);
    if result.Pass? {
      BackendUserNeverAdmin(resp.body.user, p.isLoading, p.isAuthenticated, location);
    }
  }
}
