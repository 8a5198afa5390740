/** The authentication slice of the Redux store (src/features/auth/authSlice.js): the signed-in
    user, the guest user, the profile, the request flags and message, and the two tokens the
    slice keeps in `localStorage`. Each reducer case is one `Action`; `Reduce` says what a case
    does to the state and `AuthStore.Dispatch` performs it field by field. */
module AuthSlice {

  import opened Common

  /** The claims `jwt_decode` returns; only `sub` is read. */
  datatype Claims = Claims(sub: Option<string>)

  /** A user object: `id`, the two tokens, and whatever else the server sent with it. */
  datatype User = User(id: Option<string>, access: Option<string>, refresh: Option<string>, details: Record)

  /** The guest user object (`{ id: guestuser_id }`). */
  datatype Guest = Guest(id: Option<string>)

  const AccessTokenKey: string := "accessToken"
  const RefreshTokenKey: string := "refreshToken"

  /** The slice state, together with the part of `localStorage` the slice reads and writes. */
  datatype AuthState = AuthState(
    user: Option<User>,
    guestUser: Option<Guest>,
    profile: Option<Record>,
    isError: bool,
    isLoading: bool,
    isSuccess: bool,
    message: string,
    otpResent: bool,
    storage: map<string, string>)

  /** The reducer cases of the slice: the plain reducers and the pending, fulfilled and rejected
      cases of the `register`, `login`, `logout`, `getProfile` and `updateProfile` thunks.
      A rejected case carries the message the thunk rejected with. */
  datatype Action =
    | Reset
    | RefreshToken(payload: Option<User>)
    | ResetUser
    | UpdateUserState(newUser: Option<User>)
    | UpdateGuestUser(guest: Option<Guest>)
    | ResetGuestUser
    | RegisterPending
    | RegisterFulfilled(data: Option<User>, registerMessage: string)
    | RegisterRejected(registerError: string)
    | LoginPending
    | LoginFulfilled(account: Record, accessToken: string, refreshToken: string)
    | LoginRejected(loginError: string)
    | LogoutPending
    | LogoutFulfilled
    | LogoutRejected
    | GetProfileFulfilled(profileData: Option<Record>, profileMessage: string)
    | GetProfileRejected(profileError: string)
    | UpdateProfileFulfilled(updateMessage: string)
    | UpdateProfileRejected(updateError: string)

  /** The user restored at start-up: a truthy stored access token that decodes gives
      `{ id: sub, access: token, refresh: stored refresh token }`; otherwise there is no user. */
  function InitialUser(storage: map<string, string>, decode: string -> Option<Claims>): (u: Option<User>)
    ensures u.Some? <==> Truthy(Lookup(storage, AccessTokenKey)) && decode(storage[AccessTokenKey]).Some?
    ensures u.Some? ==> u.value.id == decode(storage[AccessTokenKey]).value.sub
    ensures u.Some? ==> u.value.access == Some(storage[AccessTokenKey])
    ensures u.Some? ==> u.value.refresh == Lookup(storage, RefreshTokenKey)
  {
    var token := Lookup(storage, AccessTokenKey);
    if !Truthy(token) then None
    else match decode(token.value)
      case None => None
      case Some(claims) => Some(User(claims.sub, token, Lookup(storage, RefreshTokenKey), map[]))
  }

  /** The state the slice starts in for the given `localStorage` contents. */
  function InitialState(storage: map<string, string>, decode: string -> Option<Claims>): (s: AuthState)
    ensures s.user == InitialUser(storage, decode) && s.storage == storage
    ensures s.guestUser.None? && s.profile.None? && s.message == ""
    ensures !s.isError && !s.isLoading && !s.isSuccess && !s.otpResent
  {
    AuthState(InitialUser(storage, decode), None, None, false, false, false, "", false, storage)
  }

  /** The cases defined in `reducers`, as opposed to the thunks' `extraReducers`. */
  predicate IsPlainReducer(a: Action)
  {
    a.Reset? || a.RefreshToken? || a.ResetUser? || a.UpdateUserState? || a.UpdateGuestUser? ||
    a.ResetGuestUser?
  }

  /** The cases of the `getProfile` and `updateProfile` thunks. */
  predicate IsProfileCase(a: Action)
  {
    a.GetProfileFulfilled? || a.GetProfileRejected? || a.UpdateProfileFulfilled? || a.UpdateProfileRejected?
  }

  /** The reducer cases that throw: `jwt_decode` of a missing or undecodable access token in
      `refreshToken` and `login.fulfilled`, and a missing `refreshToken` payload. */
  predicate Throws(a: Action, decode: string -> Option<Claims>)
  {
    match a
    case RefreshToken(p) => p.None? || p.value.access.None? || decode(p.value.access.value).None?
    case LoginFulfilled(_, access, _) => decode(access).None?
    case _ => false
  }

  /** The new state after one reducer case, or `None` when the case throws (a reducer that
      throws leaves the state as it was). */
  function Reduce(s: AuthState, a: Action, decode: string -> Option<Claims>): (r: Option<AuthState>)
    ensures r.None? <==> Throws(a, decode)
    ensures r.Some? && r.value.storage != s.storage ==> a.LoginFulfilled? || a.LogoutFulfilled?
    ensures r.Some? && r.value.guestUser != s.guestUser ==> a.UpdateGuestUser? || a.ResetGuestUser?
    ensures r.Some? && r.value.profile != s.profile ==> a.GetProfileFulfilled?
    ensures r.Some? && r.value.otpResent != s.otpResent ==> a.Reset?
  {
    match a
    case Reset =>
      Some(s.(isLoading := false, isError := false, isSuccess := false, message := "", otpResent := false))
    case RefreshToken(p) =>
      if p.None? || p.value.access.None? then None
      else (match decode(p.value.access.value)
        case None => None
        case Some(claims) => Some(s.(user := Some(p.value.(id := claims.sub)))))
    case ResetUser => Some(s.(user := None))
    case UpdateUserState(u) => Some(s.(user := u))
    case UpdateGuestUser(g) => Some(s.(guestUser := g))
    case ResetGuestUser => Some(s.(guestUser := None))
    case RegisterPending => Some(s.(isLoading := true))
    case RegisterFulfilled(data, msg) =>
      Some(s.(isLoading := false, isSuccess := true, user := data, message := msg))
    case RegisterRejected(msg) => Some(s.(isLoading := false, isError := true, message := msg))
    case LoginPending => Some(s.(isLoading := true))
    case LoginFulfilled(account, access, refresh) =>
      (match decode(access)
      case None => None
      case Some(claims) =>
        Some(s.(isLoading := false, isSuccess := true,
                user := Some(User(claims.sub, Some(access), Some(refresh), account)),
                storage := s.storage[AccessTokenKey := access][RefreshTokenKey := refresh])))
    case LoginRejected(msg) =>
      Some(s.(isLoading := false, isError := true, user := None, message := msg))
    case LogoutPending => Some(s.(isLoading := true))
    case LogoutFulfilled =>
      Some(s.(isLoading := false, user := None, storage := s.storage - {AccessTokenKey, RefreshTokenKey}))
    case LogoutRejected => Some(s.(isLoading := false, user := None))
    case GetProfileFulfilled(data, msg) => Some(s.(isSuccess := true, profile := data, message := msg))
    case GetProfileRejected(msg) => Some(s.(isError := true, message := msg))
    case UpdateProfileFulfilled(msg) => Some(s.(isLoading := false, isSuccess := true, message := msg))
    case UpdateProfileRejected(msg) => Some(s.(isLoading := false, isError := true, message := msg))
  }

  /** `reset` clears the four flags and the message and keeps the user, guest user, profile and
      storage. */
  lemma ResetClearsStatus(s: AuthState, decode: string -> Option<Claims>)
    ensures var r := Reduce(s, Reset, decode);
            r.Some? && !r.value.isLoading && !r.value.isError && !r.value.isSuccess &&
            !r.value.otpResent && r.value.message == "" &&
            r.value.user == s.user && r.value.guestUser == s.guestUser &&
            r.value.profile == s.profile && r.value.storage == s.storage
  {
  }

  /** `reset` is idempotent. */
  lemma ResetIdempotent(s: AuthState, decode: string -> Option<Claims>)
    ensures var r := Reduce(s, Reset, decode);
            r.Some? && Reduce(r.value, Reset, decode) == r
  {
  }

  /** `refreshToken` stores the payload with `id` replaced by the `sub` of its access token. */
  lemma RefreshTokenSetsSub(s: AuthState, p: User, decode: string -> Option<Claims>)
    requires p.access.Some? && decode(p.access.value).Some?
    ensures var r := Reduce(s, RefreshToken(Some(p)), decode);
            r.Some? && r.value.user.Some? &&
            r.value.user.value.id == decode(p.access.value).value.sub &&
            r.value.user.value.access == p.access && r.value.user.value.refresh == p.refresh &&
            r.value.guestUser == s.guestUser && r.value.storage == s.storage
  {
  }

  /** `resetUser` clears only the user; the guest reducers touch only the guest user. */
  lemma UserAndGuestReducers(s: AuthState, g: Option<Guest>, decode: string -> Option<Claims>)
    ensures Reduce(s, ResetUser, decode) == Some(s.(user := None))
    ensures Reduce(s, UpdateGuestUser(g), decode) == Some(s.(guestUser := g))
    ensures Reduce(s, ResetGuestUser, decode) == Some(s.(guestUser := None))
  {
  }

  /** `login.fulfilled` signs the user in with `id = sub` and stores both tokens. */
  lemma LoginStoresTokens(s: AuthState, account: Record, access: string, refresh: string,
                          decode: string -> Option<Claims>)
    requires decode(access).Some?
    ensures var r := Reduce(s, LoginFulfilled(account, access, refresh), decode);
            r.Some? && r.value.user.Some? &&
            r.value.user.value.id == decode(access).value.sub &&
            r.value.user.value.access == Some(access) && r.value.user.value.refresh == Some(refresh) &&
            Lookup(r.value.storage, AccessTokenKey) == Some(access) &&
            Lookup(r.value.storage, RefreshTokenKey) == Some(refresh) &&
            r.value.isSuccess && !r.value.isLoading
  {
  }

  /** `login.rejected` signs the user out and reports the error message. */
  lemma LoginRejectedClearsUser(s: AuthState, msg: string, decode: string -> Option<Claims>)
    ensures var r := Reduce(s, LoginRejected(msg), decode);
            r.Some? && r.value.user.None? && r.value.isError && r.value.message == msg &&
            !r.value.isLoading
  {
  }

  /** `logout.fulfilled` signs out and removes both tokens; `logout.rejected` signs out and
      leaves storage as it was. */
  lemma LogoutClearsTokens(s: AuthState, decode: string -> Option<Claims>)
    ensures var r := Reduce(s, LogoutFulfilled, decode);
            r.Some? && r.value.user.None? &&
            Lookup(r.value.storage, AccessTokenKey).None? && Lookup(r.value.storage, RefreshTokenKey).None? &&
            forall k :: k in s.storage && k != AccessTokenKey && k != RefreshTokenKey ==>
              Lookup(r.value.storage, k) == Lookup(s.storage, k)
    ensures var r := Reduce(s, LogoutRejected, decode);
            r.Some? && r.value.user.None? && r.value.storage == s.storage
  {
  }

  /** After a login and then a logout, the stored session is gone and nobody is signed in, and
      the next start-up restores no user. */
  lemma {:induction false} LoginThenLogout(s: AuthState, account: Record, access: string, refresh: string,
                                           decode: string -> Option<Claims>)
    requires decode(access).Some?
    ensures var r1 := Reduce(s, LoginFulfilled(account, access, refresh), decode);
            r1.Some? &&
            var r2 := Reduce(r1.value, LogoutFulfilled, decode);
            r2.Some? && r2.value.user.None? && InitialUser(r2.value.storage, decode).None?
  {
    var r1 := Reduce(s, LoginFulfilled(account, access, refresh), decode);
    var r2 := Reduce(r1.value, LogoutFulfilled, decode);
    assert AccessTokenKey !in r2.value.storage;
  }

  /** A login followed by a start-up from the stored tokens restores the same session. */
  lemma {:induction false} LoginSurvivesReload(s: AuthState, account: Record, access: string, refresh: string,
                                               decode: string -> Option<Claims>)
    requires decode(access).Some? && access != ""
    ensures var r := Reduce(s, LoginFulfilled(account, access, refresh), decode);
            r.Some? &&
            var u := InitialUser(r.value.storage, decode);
            u.Some? && u.value.id == r.value.user.value.id &&
            u.value.access == Some(access) && u.value.refresh == Some(refresh)
  {
    var r := Reduce(s, LoginFulfilled(account, access, refresh), decode);
    assert AccessTokenKey != RefreshTokenKey;
    assert Lookup(r.value.storage, AccessTokenKey) == Some(access);
    assert Lookup(r.value.storage, RefreshTokenKey) == Some(refresh);
  }

  /** `register.fulfilled` stores the returned user and message; `getProfile.fulfilled` stores
      the returned profile. */
  lemma RegisterAndProfileStore(s: AuthState, u: Option<User>, p: Option<Record>, msg: string,
                                decode: string -> Option<Claims>)
    ensures var r := Reduce(s, RegisterFulfilled(u, msg), decode);
            r.Some? && r.value.user == u && r.value.message == msg && r.value.isSuccess && !r.value.isLoading
    ensures var r := Reduce(s, GetProfileFulfilled(p, msg), decode);
            r.Some? && r.value.profile == p && r.value.message == msg && r.value.isSuccess &&
            r.value.user == s.user
  {
  }

  /** The slice as the running application holds it: one object whose fields the reducers
      assign. `decode` stands for the `jwt_decode` library. */
  class AuthStore {
    var user: Option<User>
    var guestUser: Option<Guest>
    var profile: Option<Record>
    var isError: bool
    var isLoading: bool
    var isSuccess: bool
    var message: string
    var otpResent: bool
    var storage: map<string, string>
    const decode: string -> Option<Claims>

    function State(): AuthState
      reads this
    {
      AuthState(user, guestUser, profile, isError, isLoading, isSuccess, message, otpResent, storage)
    }

    /** The store created at page load from the current `localStorage`. */
    constructor (stored: map<string, string>, jwtDecode: string -> Option<Claims>)
      ensures decode == jwtDecode
      ensures State() == InitialState(stored, jwtDecode)
    {
      decode := jwtDecode;
      user := InitialUser(stored, jwtDecode);
      guestUser := None;
      profile := None;
      isError, isLoading, isSuccess := false, false, false;
      message := "";
      otpResent := false;
      storage := stored;
    }

    /** `store.dispatch(action)` for this slice: `ok` is false when the reducer throws, and then
        nothing changes. */
    method Dispatch(a: Action) returns (ok: bool)
      modifies this
      ensures ok == !Throws(a, decode)
      ensures ok ==> Some(State()) == Reduce(old(State()), a, decode)
      ensures !ok ==> State() == old(State())
    {
      if IsPlainReducer(a) {
        ok := ApplyReducer(a);
      } else {
        ok := ApplyExtraReducer(a);
      }
    }

    /** The `reducers` of the slice. */
    method ApplyReducer(a: Action) returns (ok: bool)
      requires IsPlainReducer(a)
      modifies this
      ensures ok == !Throws(a, decode)
      ensures ok ==> Some(State()) == Reduce(old(State()), a, decode)
      ensures !ok ==> State() == old(State())
    {
      ok := true;
      match a {
        case Reset =>
          isLoading, isError, isSuccess := false, false, false;
          message := "";
          otpResent := false;
        case RefreshToken(p) =>
          if p.None? || p.value.access.None? {
            ok := false;
          } else {
            var claims := decode(p.value.access.value);
            if claims.None? {
              ok := false;
            } else {
              user := Some(p.value.(id := claims.value.sub));
            }
          }
        case ResetUser =>
          user := None;
        case UpdateUserState(u) =>
          user := u;
        case UpdateGuestUser(g) =>
          guestUser := g;
        case ResetGuestUser =>
          guestUser := None;
      }
    }

    /** The `extraReducers`: the pending, fulfilled and rejected cases of the thunks. */
    method ApplyExtraReducer(a: Action) returns (ok: bool)
      requires !IsPlainReducer(a)
      modifies this
      ensures ok == !Throws(a, decode)
      ensures ok ==> Some(State()) == Reduce(old(State()), a, decode)
      ensures !ok ==> State() == old(State())
    {
      if IsProfileCase(a) {
        ApplyProfileCase(a);
        ok := true;
      } else {
        ok := ApplySessionCase(a);
      }
    }

    /** The cases of `getProfile` and `updateProfile`, which never throw. */
    method ApplyProfileCase(a: Action)
      requires IsProfileCase(a)
      modifies this
      ensures !Throws(a, decode)
      ensures Some(State()) == Reduce(old(State()), a, decode)
    {
      match a {
        case GetProfileFulfilled(data, msg) =>
          isSuccess := true;
          profile := data;
          message := msg;
        case GetProfileRejected(msg) =>
          isError := true;
          message := msg;
        case UpdateProfileFulfilled(msg) =>
          isLoading, isSuccess := false, true;
          message := msg;
        case UpdateProfileRejected(msg) =>
          isLoading, isError := false, true;
          message := msg;
      }
    }

    /** The cases of `register`, `login` and `logout`. */
    method ApplySessionCase(a: Action) returns (ok: bool)
      requires !IsPlainReducer(a) && !IsProfileCase(a)
      modifies this
      ensures ok == !Throws(a, decode)
      ensures ok ==> Some(State()) == Reduce(old(State()), a, decode)
      ensures !ok ==> State() == old(State())
    {
      ok := true;
      match a {
        case RegisterPending =>
          isLoading := true;
        case RegisterFulfilled(data, msg) =>
          isLoading, isSuccess := false, true;
          user := data;
          message := msg;
        case RegisterRejected(msg) =>
          isLoading, isError := false, true;
          message := msg;
        case LoginPending =>
          isLoading := true;
        case LoginFulfilled(account, access, refresh) =>
          var claims := decode(access);
          if claims.None? {
            ok := false;
          } else {
            isLoading, isSuccess := false, true;
            storage := storage[AccessTokenKey := access];
            storage := storage[RefreshTokenKey := refresh];
            user := Some(User(claims.value.sub, Some(access), Some(refresh), account));
          }
        case LoginRejected(msg) =>
          isLoading, isError := false, true;
          user := None;
          message := msg;
        case LogoutPending =>
          isLoading := true;
        case LogoutFulfilled =>
          isLoading := false;
          user := None;
          storage := storage - {AccessTokenKey};
          storage := storage - {RefreshTokenKey};
          assert storage == old(storage) - {AccessTokenKey, RefreshTokenKey};
        case LogoutRejected =>
          isLoading := false;
          user := None;
      }
    }
  }
}
