/** The session store (`AuthProvider`): the signed-in user, the `loading`
    flag for start-up resolution, the last error, and the two pieces of
    process-wide state it writes: the token kept in browser storage and the
    `Authorization` header attached to every request. */
module Session {
  import opened Common

  /** The user record the server sends. Every field may be missing: a
      profile edit made while signed out produces a record with only a name
      and an e-mail. */
  datatype User = User(id: Option<string>, name: Option<string>, email: Option<string>, role: Option<string>)

  /** Body of a successful login or registration. */
  datatype AuthPayload = AuthPayload(token: string, user: User)

  /** Body of `POST /api/auth/register`. */
  datatype RegisterBody = RegisterBody(name: string, email: string, password: string, role: string)

  /** The state the provider exposes, as one value. */
  datatype SessionState = SessionState(
    user: Option<User>,
    loading: bool,
    error: Option<string>,
    storedToken: Option<string>,
    authHeader: Option<string>)

  /** `if (token)`: a stored empty string counts as no token. */
  predicate Truthy(t: Option<string>) {
    t.Some? && t.value != ""
  }

  function BearerHeader(token: string): (h: string)
    ensures |h| == 7 + |token| && h[..7] == "Bearer " && h[7..] == token
  {
    "Bearer " + token
  }

  // ---------------------------------------------------------------------
  // Derived flags

  /** `isAuthenticated: !!user` */
  predicate IsAuthenticated(user: Option<User>) { user.Some? }

  /** `isLibrarian: user?.role === 'librarian'` */
  predicate IsLibrarian(user: Option<User>) { user.Some? && user.value.role == Some("librarian") }

  /** `isBorrower: user?.role === 'borrower'` */
  predicate IsBorrower(user: Option<User>) { user.Some? && user.value.role == Some("borrower") }

  lemma RolesExclusive(user: Option<User>)
    ensures !(IsLibrarian(user) && IsBorrower(user))
    ensures IsLibrarian(user) || IsBorrower(user) ==> IsAuthenticated(user)
  {
  }

  // ---------------------------------------------------------------------
  // Transitions, as functions of the state before

  /** Mount: the first effect attaches a stored token to the transport. */
  function Initial(persisted: Option<string>): (s: SessionState)
    ensures s.user == None && s.loading && s.error == None && s.storedToken == persisted
    ensures Truthy(persisted) <==> s.authHeader.Some?
    ensures Truthy(persisted) ==> s.authHeader == Some(BearerHeader(persisted.value))
  {
    SessionState(None, true, None, persisted,
                 if Truthy(persisted) then Some(BearerHeader(persisted.value)) else None)
  }

  /** `checkAuth`: with a stored token, `/api/auth/me` decides between
      signing the user in and discarding the token; without one, nothing is
      asked. `loading` ends false in every case. */
  function AfterCheckAuth(s: SessionState, me: Response<User>): (t: SessionState)
    ensures !t.loading && t.error == s.error
    ensures !Truthy(s.storedToken) ==> t == s.(loading := false)
    ensures Truthy(s.storedToken) && me.Ok? ==> t == s.(loading := false, user := Some(me.payload))
    ensures Truthy(s.storedToken) && me.Err? ==>
              t == s.(loading := false, storedToken := None, authHeader := None)
  {
    if Truthy(s.storedToken) then
      if me.Ok? then s.(user := Some(me.payload), loading := false)
      else s.(storedToken := None, authHeader := None, loading := false)
    else s.(loading := false)
  }

  /** The message of a failed login or registration:
      `error.response?.data?.message || error.message || fallback`. */
  function FailureMessage<T>(resp: Response<T>, fallback: string): (m: string)
    requires resp.Err?
    ensures fallback != "" ==> m != ""
    ensures m == fallback || (resp.serverMsg.Some? && m == resp.serverMsg.value) ||
            (resp.transportMsg.Some? && m == resp.transportMsg.value)
    ensures OrElse(resp.serverMsg, "") != "" ==> m == resp.serverMsg.value
    ensures OrElse(resp.serverMsg, "") == "" && OrElse(resp.transportMsg, "") != "" ==>
              m == resp.transportMsg.value
    ensures OrElse(resp.serverMsg, "") == "" && OrElse(resp.transportMsg, "") == "" ==> m == fallback
  {
    OrElse(resp.serverMsg, OrElse(resp.transportMsg, fallback))
  }

  /** A login or registration answer: on success the token is stored and
      attached and the user signed in; on failure only the error changes. */
  function AfterAuth(s: SessionState, resp: Response<AuthPayload>, fallback: string): (t: SessionState)
    ensures t.loading == s.loading
    ensures resp.Ok? ==>
              t.user == Some(resp.payload.user) && t.error == None &&
              t.storedToken == Some(resp.payload.token) &&
              t.authHeader == Some(BearerHeader(resp.payload.token))
    ensures resp.Err? ==>
              t.user == s.user && t.storedToken == s.storedToken &&
              t.authHeader == s.authHeader && t.error == Some(FailureMessage(resp, fallback))
  {
    if resp.Ok? then
      s.(error := None, storedToken := Some(resp.payload.token),
         authHeader := Some(BearerHeader(resp.payload.token)), user := Some(resp.payload.user))
    else s.(error := Some(FailureMessage(resp, fallback)))
  }

  /** `logout`: token, header, user and error all cleared. */
  function AfterLogout(s: SessionState): (t: SessionState)
    ensures t.user == None && t.error == None && t.storedToken == None && t.authHeader == None
    ensures t.loading == s.loading
  {
    s.(storedToken := None, authHeader := None, user := None, error := None)
  }

  /** `updateProfile(name, email)`: `{ ...user, name, email }`, locally
      only. Spreading a missing user gives a record with just the two
      fields. */
  function AfterUpdateProfile(s: SessionState, name: string, email: string): (t: SessionState)
    ensures t.user.Some? && t.user.value.name == Some(name) && t.user.value.email == Some(email)
    ensures s.user.Some? ==>
              t.user.value.id == s.user.value.id && t.user.value.role == s.user.value.role
    ensures s.user.None? ==> t.user.value.id == None && t.user.value.role == None
    ensures t.error == None && t.loading == s.loading &&
            t.storedToken == s.storedToken && t.authHeader == s.authHeader
  {
    var updated := if s.user.Some? then s.user.value.(name := Some(name), email := Some(email))
                   else User(None, Some(name), Some(email), None);
    s.(error := None, user := Some(updated))
  }

  /** Logging out twice is logging out once. */
  lemma LogoutIdempotent(s: SessionState)
    ensures AfterLogout(AfterLogout(s)) == AfterLogout(s)
  {
  }

  /** A profile edit never changes the role, so never grants or removes
      librarian rights. */
  lemma UpdateProfileKeepsRole(s: SessionState, name: string, email: string)
    requires s.user.Some?
    ensures IsLibrarian(AfterUpdateProfile(s, name, email).user) == IsLibrarian(s.user)
    ensures IsBorrower(AfterUpdateProfile(s, name, email).user) == IsBorrower(s.user)
  {
  }

  /** The token and the header move together: an attached header always
      carries the stored token, and a usable stored token is always
      attached. */
  predicate TokenAttached(s: SessionState) {
    (s.authHeader.Some? ==>
       s.storedToken.Some? && s.authHeader.value == BearerHeader(s.storedToken.value)) &&
    (Truthy(s.storedToken) ==> s.authHeader.Some?)
  }

  lemma TokenAttachedInvariant(persisted: Option<string>, s: SessionState, me: Response<User>,
                               resp: Response<AuthPayload>, fallback: string, name: string, email: string)
    requires TokenAttached(s)
    ensures TokenAttached(Initial(persisted))
    ensures TokenAttached(AfterCheckAuth(s, me))
    ensures TokenAttached(AfterAuth(s, resp, fallback))
    ensures TokenAttached(AfterLogout(s))
    ensures TokenAttached(AfterUpdateProfile(s, name, email))
  {
  }

  /** After start-up resolution the user is signed in exactly when a
      usable token was stored and `/api/auth/me` accepted it. */
  lemma CheckAuthSignsInOnlyWithToken(persisted: Option<string>, me: Response<User>)
    ensures var t := AfterCheckAuth(Initial(persisted), me);
            IsAuthenticated(t.user) <==> Truthy(persisted) && me.Ok?
    ensures var t := AfterCheckAuth(Initial(persisted), me);
            IsAuthenticated(t.user) ==> t.authHeader == Some(BearerHeader(persisted.value))
  {
  }

  // ---------------------------------------------------------------------
  // The provider

  class SessionStore {
    var user: Option<User>
    var loading: bool
    var error: Option<string>
    /** `localStorage.getItem('token')` */
    var storedToken: Option<string>
    /** `axios.defaults.headers.common['Authorization']` */
    var authHeader: Option<string>

    ghost function State(): SessionState
      reads this
    {
      SessionState(user, loading, error, storedToken, authHeader)
    }

    /** Mount with whatever token the browser kept. */
    constructor (persisted: Option<string>)
      ensures State() == Initial(persisted)
    {
      user := None;
      loading := true;
      error := None;
      storedToken := persisted;
      authHeader := None;
      if Truthy(persisted) {
        authHeader := Some(BearerHeader(persisted.value));
      }
    }

    method CheckAuth(me: Response<User>)
      modifies this
      ensures State() == AfterCheckAuth(old(State()), me)
    {
      var token := storedToken;
      if Truthy(token) {
        if me.Ok? {
          user := Some(me.payload);
        } else {
          storedToken := None;
          authHeader := None;
        }
      }
      loading := false;
    }

    method Login(email: string, password: string, resp: Response<AuthPayload>) returns (r: OpResult<()>)
      modifies this
      ensures State() == AfterAuth(old(State()), resp, "Login failed")
      ensures resp.Ok? <==> r.Success?
      ensures resp.Err? ==> r == Failure(FailureMessage(resp, "Login failed"))
    {
      r := Authenticate(resp, "Login failed");
    }

    /** `register(name, email, password, role = 'borrower')`. */
    method Register(name: string, email: string, password: string, role: Option<string>,
                    resp: Response<AuthPayload>)
      returns (body: RegisterBody, r: OpResult<()>)
      modifies this
      ensures body == RegisterBody(name, email, password, role.GetOr("borrower"))
      ensures State() == AfterAuth(old(State()), resp, "Registration failed")
      ensures resp.Ok? <==> r.Success?
      ensures resp.Err? ==> r == Failure(FailureMessage(resp, "Registration failed"))
    {
      body := RegisterBody(name, email, password, role.GetOr("borrower"));
      r := Authenticate(resp, "Registration failed");
    }

    /** The common body of `login` and `register` once the request is
        answered. */
    method Authenticate(resp: Response<AuthPayload>, fallback: string) returns (r: OpResult<()>)
      modifies this
      ensures State() == AfterAuth(old(State()), resp, fallback)
      ensures resp.Ok? <==> r.Success?
      ensures resp.Err? ==> r == Failure(FailureMessage(resp, fallback))
    {
      error := None;
      if resp.Ok? {
        storedToken := Some(resp.payload.token);
        authHeader := Some(BearerHeader(resp.payload.token));
        user := Some(resp.payload.user);
        r := Success(());
      } else {
        var message := FailureMessage(resp, fallback);
        error := Some(message);
        r := Failure(message);
      }
    }

    method Logout()
      modifies this
      ensures State() == AfterLogout(old(State()))
    {
      storedToken := None;
      authHeader := None;
      user := None;
      error := None;
    }

    method UpdateProfile(name: string, email: string) returns (r: OpResult<()>)
      modifies this
      ensures State() == AfterUpdateProfile(old(State()), name, email)
      ensures r == Success(())
    {
      error := None;
      if user.Some? {
        user := Some(user.value.(name := Some(name), email := Some(email)));
      } else {
        user := Some(User(None, Some(name), Some(email), None));
      }
      r := Success(());
    }

    method ClearError()
      modifies this
      ensures State() == old(State()).(error := None)
    {
      error := None;
    }
  }
}
