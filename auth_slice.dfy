/** The authentication slice: the session record kept in the Redux store, the
    browser's `localStorage` it is persisted to, its reducers and the storage
    effects of its thunks (src/features/auth/authSlice.tsx). */
module AuthSlice {
  import opened Common
  import opened ErrorHandler

  /** A logged-in user. The optional profile fields (`organization_id`,
      `avatar_url`, `phone`, ...) are kept as a key/value map. */
  datatype User = User(id: string, email: string, fullName: string, role: string, profile: map<string, string>)

  /** A `Partial<User>` payload: a field that is `None` is absent from it. */
  datatype UserPatch = UserPatch(
    id: Option<string>, email: Option<string>, fullName: Option<string>, role: Option<string>,
    profile: map<string, string>)

  /** The organisation that has just signed up, shown on the verification pages. */
  datatype SignedupUser = SignedupUser(id: string, name: string, acronym: string, userEmail: string)

  /** `AuthState`. */
  datatype AuthState = AuthState(
    user: Option<User>,
    signedupUser: Option<SignedupUser>,
    accessToken: Option<string>,
    refreshToken: Option<string>,
    loading: bool,
    resetEmail: Option<string>,
    error: Option<string>,
    isAuthenticated: bool,
    tokenExpiry: Option<int>)

  /** A `localStorage` value. Storage holds strings; a string written by
      `JSON.stringify(user)` is kept as `Serialized(user)`, so that
      `JSON.parse` gives the user back. `OtherJson` is a string `JSON.parse`
      accepts whose value is not a user object: `null`, `false`, `0` or `""`
      (falsy), or `{}`, another number, an array or a string (truthy). Every
      other string is `Raw`; read as a user it is one `JSON.parse` rejects. */
  datatype Entry = Raw(text: string) | Serialized(user: User) | OtherJson(text: string, truthy: bool)

  /** `localStorage`: key to value. */
  type Storage = map<string, Entry>

  const AccessTokenKey := "accessToken"
  const RefreshTokenKey := "refreshToken"
  const UserKey := "user"
  const SessionKeys: set<string> := {AccessTokenKey, RefreshTokenKey, UserKey}

  /** The text of a stored value (`JSON.stringify` without escaping). */
  function Text(e: Entry): (r: string)
    ensures e.Serialized? ==> r != ""
  {
    match e
    case Raw(s) => s
    case OtherJson(s, _) => s
    case Serialized(u) =>
      "{\"id\":\"" + u.id + "\",\"email\":\"" + u.email + "\",\"full_name\":\""
      + u.fullName + "\",\"role\":\"" + u.role + "\"}"
  }

  /** `localStorage.getItem(key)`. */
  function GetItem(st: Storage, key: string): (r: Option<string>)
    ensures r.Some? <==> key in st
  {
    if key in st then Some(Text(st[key])) else None
  }

  /** What a truthy parsed value that is not a user object reads as: a user
      none of whose fields is set. */
  const NoFields := User("", "", "", "", map[])

  /** The stored user text is non-empty and parses to a truthy value. */
  predicate UserTruthy(st: Storage) {
    && Truthy(GetItem(st, UserKey))
    && (st[UserKey].Serialized? || (st[UserKey].OtherJson? && st[UserKey].truthy))
  }

  /** The stored user text is non-empty and `JSON.parse` rejects it. */
  predicate UserUnparseable(st: Storage) {
    Truthy(GetItem(st, UserKey)) && st[UserKey].Raw?
  }

  /** The user-reading step shared by `getInitialAuthState` and `restoreAuth`:
      an empty or missing entry gives no user; a non-empty entry gives the
      value it parses to, a falsy one being no user; one that does not parse
      gives no user and is removed, and nothing else in storage changes. */
  function ReadStoredUser(st: Storage): (r: (Option<User>, Storage))
    ensures r.0.Some? <==> UserTruthy(st)
    ensures UserTruthy(st) && st[UserKey].Serialized? ==> r.0.value == st[UserKey].user
    ensures UserTruthy(st) && st[UserKey].OtherJson? ==> r.0.value == NoFields
    ensures r.1 == if UserUnparseable(st) then st - {UserKey} else st
  {
    if UserKey in st && Text(st[UserKey]) != "" then
      match st[UserKey]
      case Serialized(u) => (Some(u), st)
      case OtherJson(_, truthy) => (if truthy then Some(NoFields) else None, st)
      case Raw(_) => (None, st - {UserKey})
    else (None, st)
  }

  /** `accessToken || null`: an empty stored token reads as no token. */
  function TokenOrNull(s: Option<string>): (r: Option<string>)
    ensures r.Some? <==> Truthy(s)
    ensures r.Some? ==> r == s
  {
    if Truthy(s) then s else None
  }

  /** `getInitialAuthState`: the session rebuilt from storage, and the storage
      afterwards (an unparseable user entry is removed). */
  function InitialAuthState(st: Storage): (r: (AuthState, Storage))
    ensures r.0.isAuthenticated <==> Truthy(GetItem(st, AccessTokenKey)) && UserTruthy(st)
    ensures r.0.user == ReadStoredUser(st).0
    ensures r.0.accessToken == TokenOrNull(GetItem(st, AccessTokenKey))
    ensures r.0.refreshToken == TokenOrNull(GetItem(st, RefreshTokenKey))
    ensures r.0.signedupUser == None && r.0.resetEmail == None && r.0.error == None
    ensures !r.0.loading && r.0.tokenExpiry == None
    ensures r.1 == ReadStoredUser(st).1
    ensures UserUnparseable(st) ==> r.1 == st - {UserKey}
    ensures !UserUnparseable(st) ==> r.1 == st
  {
    var access := GetItem(st, AccessTokenKey);
    var refresh := GetItem(st, RefreshTokenKey);
    var (user, st') := ReadStoredUser(st);
    (AuthState(
      user := user,
      signedupUser := None,
      accessToken := TokenOrNull(access),
      refreshToken := TokenOrNull(refresh),
      resetEmail := None,
      loading := false,
      error := None,
      isAuthenticated := Truthy(access) && user.Some?,
      tokenExpiry := None), st')
  }

  /** The body of the `restoreAuth` thunk: fulfils with a full authenticated
      session iff an access token and a parsed user are both stored,
      otherwise rejects; returns the storage afterwards as well. */
  function RestoreAuthBody(st: Storage): (r: (RestoreResult, Storage))
    ensures r.0.Restored? <==> Truthy(GetItem(st, AccessTokenKey)) && UserTruthy(st)
    ensures r.0.Restored? ==> r.0.session == InitialAuthState(st).0
    ensures r.0.NotRestored? ==> r.0.reason == "No auth data found in localStorage"
    ensures r.1 == InitialAuthState(st).1
  {
    var access := GetItem(st, AccessTokenKey);
    var refresh := GetItem(st, RefreshTokenKey);
    var (user, st') := ReadStoredUser(st);
    if Truthy(access) && user.Some? then
      (Restored(AuthState(
        user := user,
        signedupUser := None,
        accessToken := access,
        refreshToken := TokenOrNull(refresh),
        resetEmail := None,
        loading := false,
        error := None,
        isAuthenticated := true,
        tokenExpiry := None)), st')
    else (NotRestored("No auth data found in localStorage"), st')
  }

  /** A stored user that parses to something other than a user object is
      kept: `"null"` gives no user, while `"{}"` next to an access token gives
      an authenticated session and a fulfilled `restoreAuth`. */
  lemma StoredNonUserJson(st: Storage)
    requires UserKey in st && st[UserKey].OtherJson? && st[UserKey].text != ""
    ensures InitialAuthState(st).1 == st && RestoreAuthBody(st).1 == st
    ensures !st[UserKey].truthy ==> InitialAuthState(st).0.user == None && RestoreAuthBody(st).0.NotRestored?
    ensures st[UserKey].truthy && Truthy(GetItem(st, AccessTokenKey)) ==>
      && InitialAuthState(st).0.isAuthenticated && InitialAuthState(st).0.user == Some(NoFields)
      && RestoreAuthBody(st).0.Restored?
  {
  }

  /** The rejection payload of `getCurrentUser`. */
  const FetchUserFailedMessage := "Failed to fetch user data"

  /** The toasts a thunk's `catch` block shows through `handleApiError`. */
  function CatchToasts<T>(service: Result<T, Thrown>): (toasts: seq<string>)
    ensures service.Ok? ==> toasts == []
    ensures service.Err? ==> toasts == Messages(service.error)
  {
    if service.Ok? then [] else Messages(service.error)
  }

  /** How the `restoreAuth` thunk settles. */
  datatype RestoreResult = Restored(session: AuthState) | NotRestored(reason: string)

  /** `{ ...user, ...patch }`: every field the patch carries wins. */
  function MergeUser(u: User, p: UserPatch): (r: User)
    ensures r.id == (if p.id.Some? then p.id.value else u.id)
    ensures r.email == (if p.email.Some? then p.email.value else u.email)
    ensures r.fullName == (if p.fullName.Some? then p.fullName.value else u.fullName)
    ensures r.role == (if p.role.Some? then p.role.value else u.role)
    ensures r.profile.Keys == u.profile.Keys + p.profile.Keys
    ensures forall k :: k in p.profile ==> r.profile[k] == p.profile[k]
    ensures forall k :: k in u.profile && k !in p.profile ==> r.profile[k] == u.profile[k]
  {
    User(
      if p.id.Some? then p.id.value else u.id,
      if p.email.Some? then p.email.value else u.email,
      if p.fullName.Some? then p.fullName.value else u.fullName,
      if p.role.Some? then p.role.value else u.role,
      u.profile + p.profile)
  }

  /** Applying the same `updateUser` payload twice is applying it once. */
  lemma MergeUserIdempotent(u: User, p: UserPatch)
    ensures MergeUser(MergeUser(u, p), p) == MergeUser(u, p)
  {
    var once := MergeUser(u, p);
    var twice := MergeUser(once, p);
    assert twice.profile == once.profile;
  }

  /** Tokens returned by the login and refresh endpoints. */
  datatype Tokens = Tokens(access: string, refresh: string)

  /** The login endpoint's successful answer. */
  datatype LoginResponse = LoginResponse(access: string, refresh: string, user: User)

  /** The session that the Redux store holds, and the browser storage it is
      persisted to. Each method is one reducer case or one thunk run
      (pending case, body, then fulfilled or rejected case). */
  class AuthStore {
    var user: Option<User>
    var signedupUser: Option<SignedupUser>
    var accessToken: Option<string>
    var refreshToken: Option<string>
    var loading: bool
    var resetEmail: Option<string>
    var error: Option<string>
    var isAuthenticated: bool
    var tokenExpiry: Option<int>
    /** `localStorage`. */
    var storage: Storage

    function State(): AuthState
      reads this
    {
      AuthState(user, signedupUser, accessToken, refreshToken, loading, resetEmail, error,
                isAuthenticated, tokenExpiry)
    }

    /** No reducer of the slice ever sets `tokenExpiry`. */
    ghost predicate Valid()
      reads this
    {
      tokenExpiry == None
    }

    /** The store is created from `getInitialAuthState()`. */
    constructor (st: Storage)
      ensures Valid()
      ensures (State(), storage) == InitialAuthState(st)
    {
      var (s, st') := InitialAuthState(st);
      user, signedupUser, accessToken, refreshToken := s.user, s.signedupUser, s.accessToken, s.refreshToken;
      loading, resetEmail, error, isAuthenticated, tokenExpiry := s.loading, s.resetEmail, s.error, s.isAuthenticated, s.tokenExpiry;
      storage := st';
    }

    /** Replaces the whole state, as a case reducer that returns a new state does. */
    method Replace(s: AuthState)
      modifies this
      ensures State() == s && storage == old(storage)
    {
      user, signedupUser, accessToken, refreshToken := s.user, s.signedupUser, s.accessToken, s.refreshToken;
      loading, resetEmail, error, isAuthenticated, tokenExpiry := s.loading, s.resetEmail, s.error, s.isAuthenticated, s.tokenExpiry;
    }

    /** `clearError`. */
    method ClearError()
      requires Valid()
      modifies this
      ensures Valid()
      ensures State() == old(State()).(error := None) && storage == old(storage)
    {
      error := None;
    }

    /** `setTokens`: both tokens are written together, to the state and to
        storage, and a reload reads them back. */
    method SetTokens(access: string, refresh: string)
      requires Valid()
      modifies this
      ensures Valid()
      ensures State() == old(State()).(accessToken := Some(access), refreshToken := Some(refresh), isAuthenticated := true)
      ensures storage == old(storage)[AccessTokenKey := Raw(access)][RefreshTokenKey := Raw(refresh)]
      ensures GetItem(storage, AccessTokenKey) == Some(access) && GetItem(storage, RefreshTokenKey) == Some(refresh)
      ensures access != "" ==> InitialAuthState(storage).0.accessToken == Some(access)
      ensures refresh != "" ==> InitialAuthState(storage).0.refreshToken == Some(refresh)
    {
      accessToken := Some(access);
      refreshToken := Some(refresh);
      isAuthenticated := true;
      storage := storage[AccessTokenKey := Raw(access)];
      storage := storage[RefreshTokenKey := Raw(refresh)];
    }

    /** `clearAuthState`: the session is emptied in the state and in storage;
        `signedupUser` and `resetEmail` are kept; a reload is unauthenticated. */
    method ClearAuthState()
      requires Valid()
      modifies this
      ensures Valid()
      ensures State() == old(State()).(user := None, accessToken := None, refreshToken := None,
        isAuthenticated := false, error := None, loading := false, tokenExpiry := None)
      ensures storage == old(storage) - SessionKeys
      ensures !InitialAuthState(storage).0.isAuthenticated && InitialAuthState(storage).0.user == None
      ensures RestoreAuthBody(storage).0.NotRestored?
    {
      user := None;
      accessToken := None;
      refreshToken := None;
      isAuthenticated := false;
      error := None;
      loading := false;
      tokenExpiry := None;
      storage := storage - {AccessTokenKey};
      storage := storage - {RefreshTokenKey};
      storage := storage - {UserKey};
      assert storage == old(storage) - SessionKeys;
    }

    /** `updateUser`: nothing happens without a user; otherwise the merged user
        is stored in the state and persisted, and a reload reads it back. */
    method UpdateUser(patch: UserPatch)
      requires Valid()
      modifies this
      ensures Valid()
      ensures old(user).None? ==> State() == old(State()) && storage == old(storage)
      ensures old(user).Some? ==>
        && State() == old(State()).(user := Some(MergeUser(old(user).value, patch)))
        && storage == old(storage)[UserKey := Serialized(MergeUser(old(user).value, patch))]
        && InitialAuthState(storage).0.user == user
    {
      if user.Some? {
        user := Some(MergeUser(user.value, patch));
        storage := storage[UserKey := Serialized(user.value)];
      }
    }

    /** `clearSignedupUser`. */
    method ClearSignedupUser()
      requires Valid()
      modifies this
      ensures Valid()
      ensures State() == old(State()).(signedupUser := None) && storage == old(storage)
    {
      signedupUser := None;
    }

    /** The `restoreAuth` thunk: pending case, body, then the fulfilled case
        (an authenticated session with the stored user and tokens) or the
        rejected case (no user, no tokens, unauthenticated). */
    method RestoreAuth() returns (fulfilled: bool)
      requires Valid()
      modifies this
      ensures Valid()
      ensures fulfilled <==> Truthy(GetItem(old(storage), AccessTokenKey)) && UserTruthy(old(storage))
      ensures storage == InitialAuthState(old(storage)).1
      ensures fulfilled ==> State() == old(State()).(loading := false,
        user := InitialAuthState(old(storage)).0.user,
        accessToken := InitialAuthState(old(storage)).0.accessToken,
        refreshToken := InitialAuthState(old(storage)).0.refreshToken,
        isAuthenticated := true)
      ensures !fulfilled ==> State() == old(State()).(loading := false, user := None,
        accessToken := None, refreshToken := None, isAuthenticated := false)
    {
      loading := true;
      var (r, st') := RestoreAuthBody(storage);
      storage := st';
      match r
      case Restored(s) =>
        loading := false;
        user := s.user;
        accessToken := s.accessToken;
        refreshToken := s.refreshToken;
        isAuthenticated := true;
        fulfilled := true;
      case NotRestored(_) =>
        loading := false;
        user := None;
        accessToken := None;
        refreshToken := None;
        isAuthenticated := false;
        fulfilled := false;
    }

    /** The `login` thunk. `response` is the login endpoint's answer, or
        what the call threw. Success writes the three storage keys and copies
        the same values into the state; failure shows the error's toasts,
        clears user and tokens in the state (not in storage) and records
        "Login failed". */
    method Login(response: Result<LoginResponse, Thrown>) returns (ok: bool, toasts: seq<string>)
      requires Valid()
      modifies this
      ensures Valid()
      ensures ok <==> response.Ok?
      ensures toasts == CatchToasts(response)
      ensures ok ==>
        && storage == old(storage)[AccessTokenKey := Raw(response.value.access)]
             [RefreshTokenKey := Raw(response.value.refresh)][UserKey := Serialized(response.value.user)]
        && State() == old(State()).(loading := false, error := None, isAuthenticated := true,
             accessToken := Some(response.value.access), refreshToken := Some(response.value.refresh),
             user := Some(response.value.user))
        && InitialAuthState(storage).0.user == user
      ensures !ok ==>
        && storage == old(storage)
        && State() == old(State()).(loading := false, error := Some("Login failed"),
             isAuthenticated := false, user := None, accessToken := None, refreshToken := None)
    {
      // pending
      loading := true;
      error := None;
      match response
      case Ok(LoginResponse(access, refresh, u)) =>
        storage := storage[AccessTokenKey := Raw(access)];
        storage := storage[RefreshTokenKey := Raw(refresh)];
        storage := storage[UserKey := Serialized(u)];
        // fulfilled
        loading := false;
        isAuthenticated := true;
        accessToken := Some(access);
        refreshToken := Some(refresh);
        user := Some(u);
        ok, toasts := true, [];
      case Err(e) =>
        toasts := HandleApiError(e);
        // rejected, with the value "Login failed"
        loading := false;
        error := Some("Login failed");
        isAuthenticated := false;
        user := None;
        accessToken := None;
        refreshToken := None;
        ok := false;
    }

    /** The `refreshToken` thunk. `service` is the refresh endpoint's answer,
        or what the call threw. Without a refresh token in the state the
        service is not called; a failed call shows the error's toasts and
        removes the three session keys. The slice has no case reducer for
        this thunk, so the state never changes. */
    method RefreshToken(service: Result<Tokens, Thrown>) returns (result: Option<Tokens>, called: bool, reason: string, toasts: seq<string>)
      requires Valid()
      modifies this
      ensures Valid()
      ensures State() == old(State())
      ensures called <==> Truthy(old(refreshToken))
      ensures !called ==> result == None && reason == "No refresh token available" && storage == old(storage) && toasts == []
      ensures called ==> toasts == CatchToasts(service)
      ensures called && service.Ok? ==>
        && result == Some(service.value)
        && storage == old(storage)[AccessTokenKey := Raw(service.value.access)][RefreshTokenKey := Raw(service.value.refresh)]
      ensures called && service.Err? ==>
        && result == None && reason == "Token refresh failed"
        && storage == old(storage) - SessionKeys
    {
      reason, toasts := "", [];
      if !Truthy(refreshToken) {
        return None, false, "No refresh token available", [];
      }
      called := true;
      match service
      case Ok(t) =>
        storage := storage[AccessTokenKey := Raw(t.access)];
        storage := storage[RefreshTokenKey := Raw(t.refresh)];
        result := Some(t);
      case Err(e) =>
        toasts := HandleApiError(e);
        storage := storage - {AccessTokenKey};
        storage := storage - {RefreshTokenKey};
        storage := storage - {UserKey};
        assert storage == old(storage) - SessionKeys;
        result := None;
        reason := "Token refresh failed";
    }

    /** The `logout` thunk: the three keys are removed whether or not the
        logout call fails, and both settled cases rebuild the state from
        storage, which is then unauthenticated. */
    method Logout(apiFails: bool)
      requires Valid()
      modifies this
      ensures Valid()
      ensures storage == old(storage) - SessionKeys
      ensures State() == InitialAuthState(storage).0
      ensures !isAuthenticated && user == None && accessToken == None && refreshToken == None
    {
      // try { await logoutService() } catch { log } finally { remove keys }
      storage := storage - {AccessTokenKey};
      storage := storage - {RefreshTokenKey};
      storage := storage - {UserKey};
      assert storage == old(storage) - SessionKeys;
      // logout.fulfilled and logout.rejected: () => getInitialAuthState()
      var (s, st') := InitialAuthState(storage);
      assert st' == storage;
      Replace(s);
    }

    /** The `organizationSignup` thunk: its fulfilled case records the signed-up
        organisation; on failure the error's toasts are shown and its
        rejected case records "Signup failed". */
    method OrganizationSignup(service: Result<SignedupUser, Thrown>) returns (ok: bool, toasts: seq<string>)
      requires Valid()
      modifies this
      ensures Valid()
      ensures ok <==> service.Ok?
      ensures toasts == CatchToasts(service)
      ensures storage == old(storage)
      ensures ok ==> State() == old(State()).(loading := false, error := None, signedupUser := Some(service.value))
      ensures !ok ==> State() == old(State()).(loading := false, error := Some("Signup failed"))
    {
      loading := true;
      error := None;
      match service
      case Ok(organization) =>
        loading := false;
        signedupUser := Some(organization);
        ok, toasts := true, [];
      case Err(e) =>
        toasts := HandleApiError(e);
        loading := false;
        error := Some("Signup failed");
        ok := false;
    }

    /** The `verifyAccount` thunk: it fulfils with the endpoint's message, or
        "Account verified successfully" when that is missing or empty, and
        its fulfilled case forgets the signed-up organisation; on failure the
        error's toasts are shown and its rejected case records
        "Account verification failed". */
    method VerifyAccount(service: Result<Option<string>, Thrown>) returns (message: Option<string>, toasts: seq<string>)
      requires Valid()
      modifies this
      ensures Valid()
      ensures storage == old(storage)
      ensures toasts == CatchToasts(service)
      ensures message.Some? <==> service.Ok?
      ensures service.Ok? ==>
        && message.value != ""
        && (Truthy(service.value) ==> message.value == service.value.value)
        && State() == old(State()).(loading := false, error := None, signedupUser := None)
      ensures service.Err? ==> State() == old(State()).(loading := false, error := Some("Account verification failed"))
    {
      loading := true;
      error := None;
      match service
      case Ok(m) =>
        message := Some(OrElse(m, "Account verified successfully"));
        loading := false;
        signedupUser := None;
        toasts := [];
      case Err(e) =>
        toasts := HandleApiError(e);
        message := None;
        loading := false;
        error := Some("Account verification failed");
    }

    /** The `getCurrentUser` thunk: a fetched user is persisted and fulfils
        the thunk; a failure shows the error's toasts and rejects with
        "Failed to fetch user data". The slice has no case reducer for it, so
        the state does not change. */
    method GetCurrentUser(response: Result<User, Thrown>) returns (result: ThunkResult<User>, toasts: seq<string>)
      requires Valid()
      modifies this
      ensures Valid()
      ensures State() == old(State())
      ensures response.Ok? ==> result == Fulfilled(response.value)
      ensures response.Err? ==> result == RejectedWith(Some(FetchUserFailedMessage))
      ensures toasts == CatchToasts(response)
      ensures response.Ok? ==> storage == old(storage)[UserKey := Serialized(response.value)]
      ensures response.Err? ==> storage == old(storage)
    {
      match response
      case Ok(u) =>
        storage := storage[UserKey := Serialized(u)];
        result, toasts := Fulfilled(u), [];
      case Err(e) =>
        toasts := HandleApiError(e);
        result := RejectedWith(Some(FetchUserFailedMessage));
    }
  }

  /** Clearing the stored session and then restoring it gives an
      unauthenticated session without a user, and `restoreAuth` rejects. */
  lemma ClearThenRestore(st: Storage)
    ensures !InitialAuthState(st - SessionKeys).0.isAuthenticated
    ensures InitialAuthState(st - SessionKeys).0.user == None
    ensures InitialAuthState(st - SessionKeys).0.accessToken == None
    ensures RestoreAuthBody(st - SessionKeys).0.NotRestored?
  {
  }
}
