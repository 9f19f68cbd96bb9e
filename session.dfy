/** The session store (src/context/AuthContext.jsx): the in-memory `token`,
    `user`, `loading` and `error`, and the browser storage that persists the
    token and the user under the keys "token" and "user".

    `Snapshot` is that state as a value and `Saved`, `Cleared`, `Fetched`,
    `Authenticated` and `WithUser` are the provider's operations as
    functions on it; `Session` holds the same state in fields and its methods
    are proved to perform exactly those transitions. Each remote call is an
    input: the response that came back, or the exception that was thrown. */
module Session {
  import opened Common

  /** A persisted entry. `JSON.stringify` is not modelled: the "user" entry
      holds the user value itself. */
  datatype Stored = Text(text: string) | Json(user: User)

  const TokenKey := "token"
  const UserKey := "user"

  datatype Snapshot = Snapshot(
    token: Option<string>,
    user: Option<User>,
    loading: bool,
    error: Option<string>,
    storage: map<string, Stored>)

  /** The outcome of `GET /auth/me`. */
  datatype ProfileResponse =
    | ProfileOk(user: User)        // response.ok, `data.user`
    | ProfileNotOk                 // !response.ok
    | ProfileThrown(reason: string)  // fetch or response.json() threw

  /** The outcome of `POST /auth/login` or `POST /auth/register`. */
  datatype AuthResponse =
    | AuthOk(token: string, user: User)       // response.ok, `data.token`, `data.user`
    | AuthNotOk(message: Option<string>)      // !response.ok, `data.message`
    | AuthThrown(reason: string)           // fetch or response.json() threw

  /** `{ success: true }` or `{ success: false, error }`. */
  datatype AuthResult = Succeeded | FailedWith(error: string)

  const ProfileFailure := "Failed to fetch user profile"
  const LoginFallback := "Login failed"
  const RegisterFallback := "Registration failed"

  /** `localStorage.getItem('token') || null`. */
  function StoredToken(storage: map<string, Stored>): Option<string> {
    if TokenKey in storage && storage[TokenKey].Text? && storage[TokenKey].text != ""
    then Some(storage[TokenKey].text) else None
  }

  /** The user held in storage, if any. */
  function StoredUser(storage: map<string, Stored>): Option<User> {
    if UserKey in storage && storage[UserKey].Json? then Some(storage[UserKey].user) else None
  }

  /** The provider's state when it mounts. */
  function Initial(storage: map<string, Stored>): Snapshot {
    Snapshot(StoredToken(storage), None, true, None, storage)
  }

  /** `isAuthenticated: !!token`: an empty token is falsy too. */
  predicate IsAuthenticated(s: Snapshot) {
    s.token.Some? && s.token.value != ""
  }

  /** Memory and storage agree on the token and on the user. */
  predicate InSync(s: Snapshot) {
    && (s.token.Some? <==> TokenKey in s.storage)
    && (s.token.Some? ==> s.storage[TokenKey] == Text(s.token.value))
    && (s.user.Some? <==> UserKey in s.storage)
    && (s.user.Some? ==> s.storage[UserKey] == Json(s.user.value))
  }

  /** `saveAuthData(newToken, newUser)`. */
  function Saved(s: Snapshot, token: string, user: User): Snapshot {
    s.(token := Some(token), user := Some(user),
       storage := s.storage[TokenKey := Text(token)][UserKey := Json(user)])
  }

  /** `clearAuthData()`, which is also `logout()`. */
  function Cleared(s: Snapshot): Snapshot {
    s.(token := None, user := None, storage := s.storage - {TokenKey, UserKey})
  }

  /** Replaces the user in memory and in storage with a server-confirmed one:
      the success branch of the profile fetch, and `updateUser`. */
  function WithUser(s: Snapshot, user: User): Snapshot {
    s.(user := Some(user), storage := s.storage[UserKey := Json(user)])
  }

  /** `fetchUserProfile()` once the request has settled. The mount effect
      does the same: it fetches when there is a token and otherwise only
      ends loading, which is what the fetch does without a token. */
  function Fetched(s: Snapshot, response: ProfileResponse): Snapshot {
    if !IsAuthenticated(s) then s.(loading := false)
    else match response
      case ProfileOk(u) => WithUser(s, u).(loading := false)
      case ProfileNotOk => Cleared(s).(error := Some(ProfileFailure), loading := false)
      case ProfileThrown(m) => Cleared(s).(error := Some(m), loading := false)
  }

  /** The message `login`/`register` fail with. */
  function FailureMessage(response: AuthResponse, fallback: string): string
    requires !response.AuthOk?
  {
    match response
    case AuthNotOk(m) => OrElse(m, fallback)
    case AuthThrown(m) => m
  }

  /** The state after `login` or `register`, whose only difference is the
      fallback message. */
  function Authenticated(s: Snapshot, response: AuthResponse, fallback: string): Snapshot {
    var started := s.(error := None, loading := true);
    match response
    case AuthOk(t, u) => Saved(started, t, u).(loading := false)
    case _ => started.(error := Some(FailureMessage(response, fallback)), loading := false)
  }

  /** What `login` or `register` returns. */
  function AuthReply(response: AuthResponse, fallback: string): AuthResult {
    if response.AuthOk? then Succeeded else FailedWith(FailureMessage(response, fallback))
  }

  // ---------------------------------------------------------------------
  // Properties of the operations.

  /** At mount, the session is authenticated exactly when storage holds a
      non-empty token, and is still loading with no user. */
  lemma InitialSession(storage: map<string, Stored>)
    ensures IsAuthenticated(Initial(storage)) <==>
      (TokenKey in storage && storage[TokenKey].Text? && storage[TokenKey].text != "")
    ensures Initial(storage).loading && Initial(storage).user.None?
  {
  }

  /** Saving puts the same token and user in memory and in storage, and
      touches no other storage entry. */
  lemma SavedInSync(s: Snapshot, token: string, user: User)
    ensures var r := Saved(s, token, user);
      && InSync(r) && r.token == Some(token) && r.user == Some(user)
      && StoredToken(r.storage) == (if token == "" then None else Some(token))
      && StoredUser(r.storage) == Some(user)
      && (forall k :: k != TokenKey && k != UserKey ==>
            (k in r.storage <==> k in s.storage) && (k in s.storage ==> r.storage[k] == s.storage[k]))
  {
  }

  /** Replacing the user keeps memory and storage in agreement, keeps the
      token and so whether the session is signed in, and the stored user
      read back is the new one. */
  lemma WithUserInSync(s: Snapshot, user: User)
    requires InSync(s)
    ensures var r := WithUser(s, user);
      && InSync(r) && r.token == s.token && IsAuthenticated(r) == IsAuthenticated(s)
      && StoredUser(r.storage) == Some(user)
  {
  }

  /** Clearing leaves no token or user in memory or storage, and touches no
      other storage entry. */
  lemma ClearedInSync(s: Snapshot)
    ensures var r := Cleared(s);
      && InSync(r) && !IsAuthenticated(r) && r.user.None?
      && TokenKey !in r.storage && UserKey !in r.storage
      && (forall k :: k != TokenKey && k != UserKey ==>
            (k in r.storage <==> k in s.storage) && (k in s.storage ==> r.storage[k] == s.storage[k]))
  {
  }

  /** Logging out twice is logging out once. */
  lemma LogoutIdempotent(s: Snapshot)
    ensures Cleared(Cleared(s)) == Cleared(s)
  {
    assert Cleared(s).storage - {TokenKey, UserKey} == Cleared(s).storage;
  }

  /** A profile fetch that is refused or throws ends signed out, with the
      failure recorded. */
  lemma FetchFailureSignsOut(s: Snapshot, response: ProfileResponse)
    requires IsAuthenticated(s) && !response.ProfileOk?
    ensures var r := Fetched(s, response);
      && r.token.None? && r.user.None? && !IsAuthenticated(r)
      && TokenKey !in r.storage && UserKey !in r.storage
      && r.error == Some(if response.ProfileNotOk? then ProfileFailure else response.reason)
  {
  }

  /** A successful profile fetch adopts the server's user in memory and in
      storage and keeps the token; if memory and storage agreed before,
      they still agree. */
  lemma FetchSuccessAdoptsUser(s: Snapshot, u: User)
    requires IsAuthenticated(s)
    ensures var r := Fetched(s, ProfileOk(u));
      && r.token == s.token && r.user == Some(u) && StoredUser(r.storage) == Some(u)
      && r.error == s.error
      && (InSync(s) ==> InSync(r))
  {
  }

  /** Bootstrapping from storage that holds a token ends with memory and
      storage in agreement, whatever the profile fetch returns. */
  lemma BootstrapSyncs(storage: map<string, Stored>, response: ProfileResponse)
    requires IsAuthenticated(Initial(storage))
    ensures InSync(Fetched(Initial(storage), response))
  {
    var s := Initial(storage);
    match response
    case ProfileOk(u) =>
      assert storage[TokenKey] == Text(s.token.value);
    case ProfileNotOk =>
      ClearedInSync(s);
    case ProfileThrown(_) =>
      ClearedInSync(s);
  }

  /** Loading ends false on every path of bootstrap, fetch, login and register. */
  lemma LoadingAlwaysEnds(s: Snapshot, p: ProfileResponse, a: AuthResponse, fallback: string)
    ensures !Fetched(s, p).loading
    ensures !Authenticated(s, a, fallback).loading
  {
  }

  /** `login`/`register` never throw: they succeed exactly when the server
      accepted, after saving the token and user; otherwise they report the
      server's message or the fallback, and the error they store is the one
      they return. */
  lemma AuthReplies(s: Snapshot, response: AuthResponse, fallback: string)
    ensures var r := Authenticated(s, response, fallback);
      match AuthReply(response, fallback)
      case Succeeded =>
        && response.AuthOk?
        && r == Saved(s, response.token, response.user).(error := None, loading := false)
        && r.error.None?
      case FailedWith(m) =>
        && !response.AuthOk?
        && r.error == Some(m)
        && m == (if response.AuthNotOk? then OrElse(response.message, fallback) else response.reason)
  {
  }

  /** A failed login or registration keeps the previous token, user and
      storage: only the error changes. */
  lemma AuthFailureKeepsSession(s: Snapshot, response: AuthResponse, fallback: string)
    requires !response.AuthOk?
    ensures var r := Authenticated(s, response, fallback);
      && r.token == s.token && r.user == s.user && r.storage == s.storage
      && IsAuthenticated(r) == IsAuthenticated(s)
      && r.error.Some?
  {
  }

  /** A successful login or registration authenticates exactly when the
      server's token is non-empty, with memory and storage in agreement. */
  lemma AuthSuccessSignsIn(s: Snapshot, token: string, user: User, fallback: string)
    ensures var r := Authenticated(s, AuthOk(token, user), fallback);
      && InSync(r) && r.user == Some(user) && r.error.None?
      && (IsAuthenticated(r) <==> token != "")
  {
    SavedInSync(s.(error := None, loading := true), token, user);
  }

  // ---------------------------------------------------------------------
  // The provider's state in fields.

  class Session {
    var token: Option<string>
    var user: Option<User>
    var loading: bool
    var error: Option<string>
    var storage: map<string, Stored>

    function State(): Snapshot
      reads this
    {
      Snapshot(token, user, loading, error, storage)
    }

    /** `isAuthenticated` as the provider exposes it. */
    predicate IsAuthenticated()
      reads this
    {
      token.Some? && token.value != ""
    }

    /** The provider mounting over the browser's storage. */
    constructor (persisted: map<string, Stored>)
      ensures State() == Initial(persisted)
    {
      user := None;
      token := StoredToken(persisted);
      loading := true;
      error := None;
      storage := persisted;
    }

    method SaveAuthData(newToken: string, newUser: User)
      modifies this
      ensures State() == Saved(old(State()), newToken, newUser)
    {
      token := Some(newToken);
      user := Some(newUser);
      storage := storage[TokenKey := Text(newToken)];
      storage := storage[UserKey := Json(newUser)];
    }

    method ClearAuthData()
      modifies this
      ensures State() == Cleared(old(State()))
    {
      token := None;
      user := None;
      storage := storage - {TokenKey};
      storage := storage - {UserKey};
    }

    method FetchUserProfile(response: ProfileResponse)
      modifies this
      ensures State() == Fetched(old(State()), response)
    {
      if !IsAuthenticated() {
        loading := false;
        return;
      }
      loading := true;
      match response {
        case ProfileOk(u) =>
          user := Some(u);
          storage := storage[UserKey := Json(u)];
        case ProfileNotOk =>
          ClearAuthData();
          error := Some(ProfileFailure);
          ClearAuthData();
        case ProfileThrown(m) =>
          error := Some(m);
          ClearAuthData();
      }
      loading := false;
    }

    /** The mount effect. */
    method Bootstrap(response: ProfileResponse)
      modifies this
      ensures State() == Fetched(old(State()), response)
    {
      if IsAuthenticated() {
        FetchUserProfile(response);
      } else {
        loading := false;
      }
    }

    /** The body `login` and `register` share; they differ in the request
        they send and in the fallback message. */
    method Authenticate(response: AuthResponse, fallback: string) returns (result: AuthResult)
      modifies this
      ensures State() == Authenticated(old(State()), response, fallback)
      ensures result == AuthReply(response, fallback)
    {
      error := None;
      loading := true;
      match response {
        case AuthOk(t, u) =>
          SaveAuthData(t, u);
          result := Succeeded;
        case AuthNotOk(m) =>
          var message := OrElse(m, fallback);
          error := Some(message);
          result := FailedWith(message);
        case AuthThrown(m) =>
          error := Some(m);
          result := FailedWith(m);
      }
      loading := false;
    }

    /** `login(email, password)`; `response` is what the server sent back
        for those credentials. */
    method Login(email: string, password: string, response: AuthResponse) returns (result: AuthResult)
      modifies this
      ensures State() == Authenticated(old(State()), response, LoginFallback)
      ensures result == AuthReply(response, LoginFallback)
    {
      result := Authenticate(response, LoginFallback);
    }

    /** `register(name, email, password)`. */
    method Register(name: string, email: string, password: string, response: AuthResponse)
      returns (result: AuthResult)
      modifies this
      ensures State() == Authenticated(old(State()), response, RegisterFallback)
      ensures result == AuthReply(response, RegisterFallback)
    {
      result := Authenticate(response, RegisterFallback);
    }

    method Logout()
      modifies this
      ensures State() == Cleared(old(State()))
    {
      ClearAuthData();
    }

    /** `updateUser(u)`, which the pages call with the user the server
        confirmed; the shown provider does not define it. */
    method UpdateUser(u: User)
      modifies this
      ensures State() == WithUser(old(State()), u)
    {
      user := Some(u);
      storage := storage[UserKey := Json(u)];
    }
  }
}
