/**
 * The session provider of src/contexts/AuthContext.tsx: three pieces of
 * in-memory state (`user`, `isLoading`, `isAuthenticated`) and the browser's
 * durable key/value store, of which it uses the keys `auth_token` and `user`.
 * Each operation runs to completion before the next starts.
 */
module AuthContext {
  import opened Wrappers
  import opened UserRecord

  const TokenKey := "auth_token"
  const UserKey := "user"
  /** Every token minted by `login` starts with this text. */
  const TokenPrefix := "demo_token_"
  const MissingProviderError := "useAuth must be used within an AuthProvider"
  const DefaultLoginError := "Login failed"

  /** The durable store (`localStorage`). */
  type Store = map<string, string>

  /** `localStorage.getItem(key)` is truthy: the key is present and its text is not empty. */
  predicate Truthy(store: Store, key: string) {
    key in store && store[key] != ""
  }

  /** The store with both session keys removed, everything else kept. */
  function Cleared(store: Store): (r: Store)
    ensures TokenKey !in r && UserKey !in r
    ensures forall k :: k in store && k != TokenKey && k != UserKey ==> k in r && r[k] == store[k]
    ensures forall k :: k in r ==> k in store
  {
    store - {TokenKey, UserKey}
  }

  /** The store after a successful login wrote a token with `suffix` and the user `u`. */
  function LoggedIn(store: Store, u: User, suffix: string): (r: Store)
    ensures TokenKey in r && r[TokenKey] == TokenPrefix + suffix
    ensures UserKey in r && r[UserKey] == Serialize(u)
    ensures forall k :: k in store && k != TokenKey && k != UserKey ==> k in r && r[k] == store[k]
    ensures forall k :: k in r ==> k in store || k == TokenKey || k == UserKey
  {
    store[TokenKey := TokenPrefix + suffix][UserKey := Serialize(u)]
  }

  /** The four ways `checkAuth` can read the store. */
  datatype Verdict =
    | NoToken                         // no truthy `auth_token`
    | NoStoredUser                    // a token, but no truthy `user`
    | Corrupt                         // a token, and a `user` that does not parse
    | Restored(user: Option<User>)    // a token, and a `user` that parses (`null` gives None)

  /** How `checkAuth` classifies the durable store. */
  function Classify(store: Store): (v: Verdict)
    ensures v.NoToken? <==> !Truthy(store, TokenKey)
    ensures v.NoStoredUser? <==> Truthy(store, TokenKey) && !Truthy(store, UserKey)
    ensures v.Corrupt? <==> Truthy(store, TokenKey) && Truthy(store, UserKey) && Parse(store[UserKey]).None?
    ensures v.Restored? ==>
      Truthy(store, UserKey) && Parse(store[UserKey]) == Some(if v.user.Some? then JsonUser(v.user.value) else JsonNull)
  {
    if !Truthy(store, TokenKey) then NoToken
    else if !Truthy(store, UserKey) then NoStoredUser
    else match Parse(store[UserKey])
      case None => Corrupt
      case Some(JsonNull) => Restored(None)
      case Some(JsonUser(u)) => Restored(Some(u))
  }

  /** After a successful login, the store is read back as that same user. */
  lemma {:induction false} ClassifyAfterLogin(store: Store, u: User, suffix: string)
    ensures Classify(LoggedIn(store, u, suffix)) == Restored(Some(u))
  {
    var s := LoggedIn(store, u, suffix);
    assert s[TokenKey] != "" by { assert |TokenPrefix + suffix| >= |TokenPrefix|; }
    ParseSerialize(u);
  }

  /** After the session keys are cleared, the store holds no token. */
  lemma ClassifyAfterClear(store: Store)
    ensures Classify(Cleared(store)) == NoToken
  {
  }

  /** Clearing twice is clearing once. */
  lemma ClearedIdempotent(store: Store)
    ensures Cleared(Cleared(store)) == Cleared(store)
  {
  }

  /** The answer to `POST /login`, as the client receives it. */
  datatype LoginReply =
    | Accepted(user: User)            // `response.ok`, with `data.user`
    | Refused(error: string)          // not `response.ok`; `error` is `data.error` ("" when absent)
    | Unreachable(reason: string)     // `fetch` or `response.json()` threw

  /** The error `login` re-raises for a reply other than Accepted. */
  function LoginError(reply: LoginReply): (e: string)
    requires !reply.Accepted?
    ensures e != "" || reply.Unreachable?
    ensures reply.Refused? ==> e == (if reply.error != "" then reply.error else DefaultLoginError)
    ensures reply.Unreachable? ==> e == reply.reason
  {
    match reply
    case Refused(error) => if error != "" then error else DefaultLoginError
    case Unreachable(reason) => reason
  }

  class AuthProvider {
    var user: Option<User>
    var isLoading: bool
    var isAuthenticated: bool
    var store: Store

    /** Mounting the provider over whatever the durable store already holds. */
    constructor (persisted: Store)
      ensures user == None && isLoading && !isAuthenticated && store == persisted
    {
      user := None;
      isLoading := true;
      isAuthenticated := false;
      store := persisted;
    }

    /** The state `checkAuth` leaves behind for verdict `v` on the store it read. */
    twostate predicate Adopted(v: Verdict)
      reads this
    {
      match v
      case NoToken =>
        user == None && !isAuthenticated && store == old(store)
      case NoStoredUser =>
        user == old(user) && isAuthenticated == old(isAuthenticated) && store == old(store)
      case Corrupt =>
        user == None && !isAuthenticated && store == Cleared(old(store))
      case Restored(u) =>
        user == u && isAuthenticated && store == old(store)
    }

    /**
     * `checkAuth`: trusts a locally present token and adopts the stored user
     * without asking the server. Only an unparseable stored user clears the store.
     */
    method CheckAuth() returns (ok: bool)
      modifies this
      ensures ok <==> Classify(old(store)).Restored?
      ensures Adopted(Classify(old(store)))
      ensures isLoading == old(isLoading)
    {
      if !Truthy(store, TokenKey) {
        user := None;
        isAuthenticated := false;
        return false;
      }
      if !Truthy(store, UserKey) {
        return false;
      }
      var parsed := Parse(store[UserKey]);
      match parsed {
        case None =>
          store := store - {TokenKey};
          store := store - {UserKey};
          user := None;
          isAuthenticated := false;
          ok := false;
        case Some(JsonNull) =>
          user := None;
          isAuthenticated := true;
          ok := true;
        case Some(JsonUser(u)) =>
          user := Some(u);
          isAuthenticated := true;
          ok := true;
      }
    }

    /** `initAuth`, run once on mount: check the store, then stop loading. */
    method InitAuth()
      modifies this
      ensures Adopted(Classify(old(store)))
      ensures !isLoading
    {
      var _ := CheckAuth();
      isLoading := false;
    }

    /**
     * `login`, given the server's reply and the random suffix of the new token.
     * Only an accepted reply touches the store; any other reply is re-raised.
     */
    method Login(reply: LoginReply, tokenSuffix: string) returns (result: Outcome<string>)
      modifies this
      ensures !isLoading
      ensures reply.Accepted? ==>
        && result == Pass
        && store == LoggedIn(old(store), reply.user, tokenSuffix)
        && user == Some(reply.user)
        && isAuthenticated
      ensures !reply.Accepted? ==>
        && result == Fail(LoginError(reply))
        && store == old(store)
        && user == old(user)
        && isAuthenticated == old(isAuthenticated)
    {
      isLoading := true;
      match reply {
        case Accepted(u) =>
          store := store[TokenKey := TokenPrefix + tokenSuffix];
          store := store[UserKey := Serialize(u)];
          user := Some(u);
          isAuthenticated := true;
          result := Pass;
        case Refused(_) =>
          result := Fail(LoginError(reply));
        case Unreachable(_) =>
          result := Fail(LoginError(reply));
      }
      isLoading := false;
    }

    /** `register`: waits, then reports success; the session is left as it was. */
    method Register(name: string, email: string, password: string)
      modifies this
      ensures !isLoading
      ensures user == old(user) && isAuthenticated == old(isAuthenticated) && store == old(store)
    {
      isLoading := true;
      isLoading := false;
    }

    /** `logout`: removes both keys and forgets the user, whatever the state. */
    method Logout()
      modifies this
      ensures store == Cleared(old(store))
      ensures user == None && !isAuthenticated && isLoading == old(isLoading)
    {
      store := store - {TokenKey};
      store := store - {UserKey};
      user := None;
      isAuthenticated := false;
    }
  }

  /** `useAuth`: the provider in scope, or the error raised when there is none. */
  function UseAuth(context: Option<AuthProvider>): (r: Result<AuthProvider, string>)
    ensures r.Success? <==> context.Some?
    ensures r.Success? ==> r.value == context.value
    ensures r.Failure? ==> r.error == MissingProviderError
  {
    match context
    case Some(p) => Success(p)
    case None => Failure(MissingProviderError)
  }

  /** A successful login followed by `checkAuth` restores the same user. */
  method LoginThenCheckAuth(p: AuthProvider, u: User, tokenSuffix: string) returns (ok: bool)
    modifies p
    ensures ok && p.user == Some(u) && p.isAuthenticated && !p.isLoading
    ensures p.store == LoggedIn(old(p.store), u, tokenSuffix)
  {
    ghost var before := p.store;
    var _ := p.Login(Accepted(u), tokenSuffix);
    ClassifyAfterLogin(before, u, tokenSuffix);
    ok := p.CheckAuth();
  }

  /** A failed login followed by `checkAuth` answers as `checkAuth` alone would have. */
  method FailedLoginThenCheckAuth(p: AuthProvider, reply: LoginReply, tokenSuffix: string)
    returns (result: Outcome<string>, ok: bool)
    requires !reply.Accepted?
    modifies p
    ensures result.Fail?
    ensures ok <==> Classify(old(p.store)).Restored?
  {
    result := p.Login(reply, tokenSuffix);
    ok := p.CheckAuth();
  }

  /** After `logout`, `checkAuth` answers false, and a second `logout` changes nothing. */
  method LogoutThenCheckAuth(p: AuthProvider) returns (ok: bool)
    modifies p
    ensures !ok && p.user == None && !p.isAuthenticated
    ensures p.store == Cleared(old(p.store))
  {
    p.Logout();
    ghost var once := p.store;
    p.Logout();
    ClearedIdempotent(old(p.store));
    assert p.store == once;
    ClassifyAfterClear(old(p.store));
    ok := p.CheckAuth();
  }
}
