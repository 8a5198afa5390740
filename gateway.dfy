/** The authenticated request gateway set up by `setupAxiosInterceptors`
    (src/features/interceptors.js): a mirror of the store's `user` and `guestUser` kept up to
    date by a store subscription, a request hook that adds one identity header, and a
    response-error hook that answers the first 401 of a request by refreshing the token and
    replaying the request, or signs the user out when the refresh fails.
    The HTTP exchanges are inputs: what the refresh call returned and how the server answered
    the replayed request. */
module Gateway {

  import opened Common
  import opened AuthSlice

  const AuthorizationHeader: string := "Authorization"
  const GuestHeader: string := "guestUserId"
  const LoginPath: string := "/login"
  const Unauthorized: int := 401

  /** The header value `Bearer <token>`. */
  function Bearer(token: string): string
  {
    "Bearer " + token
  }

  /** `user?.access`. */
  function AccessOf(user: Option<User>): (t: Option<string>)
    ensures t.Some? ==> user.Some? && user.value.access == t
  {
    if user.Some? then user.value.access else None
  }

  /** `user?.refresh`. */
  function RefreshOf(user: Option<User>): (t: Option<string>)
    ensures t.Some? ==> user.Some? && user.value.refresh == t
  {
    if user.Some? then user.value.refresh else None
  }

  /** `guestUser?.id`. */
  function GuestIdOf(guest: Option<Guest>): (g: Option<string>)
    ensures g.Some? ==> guest.Some? && guest.value.id == g
  {
    if guest.Some? then guest.value.id else None
  }

  /** `r` and `h` agree on every header except `key`. */
  ghost predicate SameExcept(r: map<string, string>, h: map<string, string>, key: string)
  {
    forall k :: k != key ==> Lookup(r, k) == Lookup(h, k)
  }

  /** The headers of a request after the request hook: a bearer token wins over a guest id,
      and with neither the headers are left as they were. */
  function IdentityHeaders(h: map<string, string>, user: Option<User>, guest: Option<Guest>): (r: map<string, string>)
    ensures Truthy(AccessOf(user)) ==>
              Lookup(r, AuthorizationHeader) == Some(Bearer(AccessOf(user).value)) &&
              SameExcept(r, h, AuthorizationHeader)
    ensures !Truthy(AccessOf(user)) && Truthy(GuestIdOf(guest)) ==>
              Lookup(r, GuestHeader) == GuestIdOf(guest) && SameExcept(r, h, GuestHeader)
    ensures !Truthy(AccessOf(user)) && !Truthy(GuestIdOf(guest)) ==> r == h
  {
    var token := AccessOf(user);
    var guestId := GuestIdOf(guest);
    if Truthy(token) then h[AuthorizationHeader := Bearer(token.value)]
    else if Truthy(guestId) then h[GuestHeader := guestId.value]
    else h
  }

  /** The request hook adds at most one of the two identity headers: a signed-in user's
      request never gains a guest header. */
  lemma {:induction false} OneIdentityHeader(h: map<string, string>, user: Option<User>, guest: Option<Guest>)
    ensures var r := IdentityHeaders(h, user, guest);
            ((GuestHeader in r && GuestHeader !in h) ==> !Truthy(AccessOf(user))) &&
            ((AuthorizationHeader in r && AuthorizationHeader !in h) ==> Truthy(AccessOf(user)))
  {
    var r := IdentityHeaders(h, user, guest);
    assert Lookup(r, GuestHeader).Some? <==> GuestHeader in r;
    assert Lookup(h, GuestHeader).Some? <==> GuestHeader in h;
    assert Lookup(r, AuthorizationHeader).Some? <==> AuthorizationHeader in r;
    assert Lookup(h, AuthorizationHeader).Some? <==> AuthorizationHeader in h;
  }

  /** Running the request hook again with the same mirror changes nothing, so a replayed
      request is decorated exactly as before. */
  lemma IdentityHeadersIdempotent(h: map<string, string>, user: Option<User>, guest: Option<Guest>)
    ensures IdentityHeaders(IdentityHeaders(h, user, guest), user, guest) == IdentityHeaders(h, user, guest)
  {
  }

  /** A replay whose `Authorization` header was set to the refreshed token keeps it through the
      request hook once the mirror holds the refreshed user. */
  lemma ReplayKeepsNewToken(h: map<string, string>, u: User, guest: Option<Guest>)
    requires Truthy(u.access)
    ensures IdentityHeaders(h[AuthorizationHeader := Bearer(u.access.value)], Some(u), guest)
            == h[AuthorizationHeader := Bearer(u.access.value)]
  {
  }

  /** The request object axios passes to the hooks; `retried` is its `_retry` flag. */
  class RequestConfig {
    var headers: map<string, string>
    var retried: bool

    constructor (h: map<string, string>)
      ensures headers == h && !retried
    {
      headers := h;
      retried := false;
    }
  }

  datatype Response = Response(status: int)

  /** The error axios hands to the response-error hook: `error.config` and `error.response`. */
  datatype ApiError = ApiError(config: Option<RequestConfig>, response: Option<Response>)

  /** What the refresh call `POST /auth/refresh/` settled with: the `data` field of the body
      (possibly missing), or a rejection. */
  datatype RefreshResult = RefreshResolved(data: Option<User>) | RefreshRejected(reason: string)

  /** How the server answered a replayed request. */
  datatype Reply = Reply(status: int) | NoReply

  /** Why the hook rejected: the original error passed through, the refresh call failed, or the
      `refreshToken` reducer threw on the refreshed data. */
  datatype Rejection = Passed(error: ApiError) | RefreshFailed(reason: string) | ReducerThrew

  datatype Settled = Resolved(response: Response) | Rejected(rejection: Rejection)

  /** The effects of the hook that leave the page: the refresh request (its body's `refresh`
      and its headers), a navigation, and the replayed request (its headers). */
  datatype Event =
    | RefreshCall(refresh: Option<string>, refreshHeaders: map<string, string>)
    | Navigate(path: string)
    | Send(sentHeaders: map<string, string>)

  /** The number of refresh requests in a log. */
  function Refreshes(log: seq<Event>): (n: nat)
    ensures n <= |log|
  {
    if log == [] then 0
    else Refreshes(log[..|log| - 1]) + (if log[|log| - 1].RefreshCall? then 1 else 0)
  }

  /** A log counts no refresh exactly when none of its entries is a refresh request. */
  lemma {:induction false} NoRefreshes(log: seq<Event>)
    ensures Refreshes(log) == 0 <==> forall i :: 0 <= i < |log| ==> !log[i].RefreshCall?
  {
    if log != [] {
      var init := log[..|log| - 1];
      NoRefreshes(init);
      assert forall i :: 0 <= i < |init| ==> init[i] == log[i];
    }
  }

  lemma {:induction false} RefreshesAppend(log: seq<Event>, more: seq<Event>)
    ensures Refreshes(log + more) == Refreshes(log) + Refreshes(more)
    decreases |more|
  {
    if more == [] {
      assert log + more == log;
    } else {
      assert (log + more)[..|log + more| - 1] == log + more[..|more| - 1];
      RefreshesAppend(log, more[..|more| - 1]);
    }
  }

  /** A refresh request followed by another effect adds one refresh to the log. */
  lemma OneRefreshLogged(log: seq<Event>, call: Event, last: Event)
    requires call.RefreshCall? && !last.RefreshCall?
    ensures Refreshes(log + [call, last]) == Refreshes(log) + 1
    ensures (log + [call, last])[..|log| + 1] == log + [call]
  {
    RefreshesAppend(log, [call, last]);
    assert [call, last][..1] == [call];
    assert [call][..0] == [];
    assert Refreshes([call]) == 1;
    assert Refreshes([call, last]) == 1;
    assert (log + [call, last])[..|log| + 1] == log + [call];
  }

  /** Axios resolves a reply whose status is 2xx and rejects any other. */
  predicate IsSuccess(status: int)
  {
    200 <= status < 300
  }

  function ConfigFrame(err: ApiError): set<object>
  {
    if err.config.Some? then {err.config.value} else {}
  }

  /** The condition under which the hook tries to recover: a config and a response are present,
      the status is 401 and the request has not been retried yet. */
  predicate Recoverable(err: ApiError)
    reads ConfigFrame(err)
  {
    err.config.Some? && err.response.Some? && err.response.value.status == Unauthorized &&
    !err.config.value.retried
  }

  /** The interceptors installed on the `api` instance for one store. `user` and `guestUser`
      are the variables the hooks read; `events` is the log of outgoing effects. */
  class Gateway {
    const store: AuthStore
    var user: Option<User>
    var guestUser: Option<Guest>
    var subscribed: bool
    var events: seq<Event>

    /** While the subscription is in place, the mirror holds the store's current values. */
    ghost predicate Mirrors()
      reads this, store
    {
      subscribed ==> user == store.user && guestUser == store.guestUser
    }

    /** `setupAxiosInterceptors(store, navigate)`: read the store once and subscribe. */
    constructor (s: AuthStore)
      ensures store == s && subscribed && events == []
      ensures user == s.user && guestUser == s.guestUser
      ensures Mirrors()
    {
      store := s;
      user := s.user;
      guestUser := s.guestUser;
      subscribed := true;
      events := [];
    }

    /** The cleanup function: the mirror stops following the store. */
    method Unsubscribe()
      modifies this
      ensures !subscribed
      ensures user == old(user) && guestUser == old(guestUser) && events == old(events)
    {
      subscribed := false;
    }

    /** `dispatch(action)`: the reducer runs and, if it does not throw, the subscriber copies the
        store's `user` and `guestUser` into the mirror. */
    method Dispatch(a: Action) returns (ok: bool)
      modifies this, store
      ensures ok == !Throws(a, store.decode)
      ensures ok ==> Some(store.State()) == Reduce(old(store.State()), a, store.decode)
      ensures !ok ==> store.State() == old(store.State())
      ensures subscribed == old(subscribed) && events == old(events)
      ensures ok && subscribed ==> user == store.user && guestUser == store.guestUser
      ensures !(ok && subscribed) ==> user == old(user) && guestUser == old(guestUser)
      ensures old(Mirrors()) ==> Mirrors()
    {
      ok := store.Dispatch(a);
      if ok && subscribed {
        user := store.user;
        guestUser := store.guestUser;
      }
    }

    /** The request hook. */
    method Decorate(config: RequestConfig)
      modifies config
      ensures config.headers == IdentityHeaders(old(config.headers), user, guestUser)
      ensures config.retried == old(config.retried)
    {
      var token := AccessOf(user);
      var guestId := GuestIdOf(guestUser);
      if Truthy(token) {
        config.headers := config.headers[AuthorizationHeader := Bearer(token.value)];
      } else if Truthy(guestId) {
        config.headers := config.headers[GuestHeader := guestId.value];
      }
    }

    /** The catch block of the hook: `dispatch(resetUser())`, `navigate("/login")`, and the
        rejection with the refresh failure. */
    method SignOut(why: Rejection) returns (out: Settled)
      modifies this, store
      ensures store.State() == old(store.State()).(user := None)
      ensures events == old(events) + [Navigate(LoginPath)]
      ensures out == Rejected(why)
      ensures subscribed == old(subscribed)
      ensures old(Mirrors()) ==> Mirrors()
    {
      var _ := Dispatch(ResetUser);
      events := events + [Navigate(LoginPath)];
      out := Rejected(why);
    }

    /** `api(originalConfig)`: the replay passes through the request hook, is sent, and its
        error, if any, reaches the response-error hook again. */
    method Replay(c: RequestConfig, refresh: RefreshResult, replay: Reply) returns (out: Settled)
      requires c.retried
      modifies this, store, c
      ensures c.retried && c.headers == IdentityHeaders(old(c.headers), user, guestUser)
      ensures events == old(events) + [Send(c.headers)]
      ensures user == old(user) && guestUser == old(guestUser) && subscribed == old(subscribed)
      ensures store.State() == old(store.State())
      ensures out == ReplayOutcome(c, replay)
      decreases 0, 1
    {
      Decorate(c);
      events := events + [Send(c.headers)];
      match replay {
        case Reply(st) =>
          if IsSuccess(st) {
            out := Resolved(Response(st));
          } else {
            out := OnRejected(ApiError(Some(c), Some(Response(st))), refresh, replay);
          }
        case NoReply =>
          out := OnRejected(ApiError(Some(c), None), refresh, replay);
      }
    }

    /** The response-error hook. A recoverable error marks its request as retried and sends the
        refresh request with the mirrored refresh token; when the refreshed data is stored, the
        request is replayed with the new bearer token, otherwise the user is signed out. Any
        other error is passed on unchanged, so a request is refreshed at most once. */
    method OnRejected(err: ApiError, refresh: RefreshResult, replay: Reply) returns (out: Settled)
      modifies this, store, ConfigFrame(err)
      ensures subscribed == old(subscribed)
      ensures old(Mirrors()) ==> Mirrors()
      ensures Refreshes(events) == Refreshes(old(events)) + if old(Recoverable(err)) then 1 else 0
      ensures !old(Recoverable(err)) ==>
                out == Rejected(Passed(err)) && events == old(events) &&
                store.State() == old(store.State()) && user == old(user) && guestUser == old(guestUser) &&
                (err.config.Some? ==> err.config.value.headers == old(err.config.value.headers) &&
                                      err.config.value.retried == old(err.config.value.retried))
      ensures old(Recoverable(err)) ==>
                err.config.value.retried && |events| == |old(events)| + 2 &&
                events[..|old(events)| + 1] ==
                  old(events) + [RefreshCall(RefreshOf(old(user)), IdentityHeaders(map[], old(user), old(guestUser)))]
      ensures old(Recoverable(err)) && !RefreshSucceeds(refresh, store.decode) ==>
                store.State() == old(store.State()).(user := None) &&
                events[|events| - 1] == Navigate(LoginPath) &&
                err.config.value.headers == old(err.config.value.headers) &&
                out == Rejected(RefreshFailure(refresh))
      ensures old(Recoverable(err)) && RefreshSucceeds(refresh, store.decode) ==>
                var c := err.config.value;
                store.State() == old(store.State()).(user := Some(RefreshedUser(refresh, store.decode))) &&
                c.headers == IdentityHeaders(old(c.headers)[AuthorizationHeader := Bearer(refresh.data.value.access.value)],
                                             user, guestUser) &&
                events[|events| - 1] == Send(c.headers) &&
                out == ReplayOutcome(c, replay)
      decreases if Recoverable(err) then 1 else 0, 0
    {
      if !Recoverable(err) {
        return Rejected(Passed(err));
      }
      var c := err.config.value;
      c.retried := true;
      var call := RefreshCall(RefreshOf(user), IdentityHeaders(map[], user, guestUser));
      events := events + [call];
      ghost var logged := events;
      var refreshed := false;
      if refresh.RefreshResolved? {
        refreshed := Dispatch(RefreshToken(refresh.data));
      }
      if !refreshed {
        out := SignOut(RefreshFailure(refresh));
      } else {
        c.headers := c.headers[AuthorizationHeader := Bearer(refresh.data.value.access.value)];
        out := Replay(c, refresh, replay);
      }
      ghost var last := events[|events| - 1];
      assert events == old(events) + [call, last];
      OneRefreshLogged(old(events), call, last);
    }
  }

  /** The refresh call settled with data the `refreshToken` reducer accepts. */
  predicate RefreshSucceeds(refresh: RefreshResult, decode: string -> Option<Claims>)
  {
    refresh.RefreshResolved? && !Throws(RefreshToken(refresh.data), decode)
  }

  /** The user the `refreshToken` reducer stores: the refreshed data with `id` set to the `sub`
      of its access token. */
  function RefreshedUser(refresh: RefreshResult, decode: string -> Option<Claims>): (u: User)
    requires RefreshSucceeds(refresh, decode)
    ensures u.access == refresh.data.value.access && u.refresh == refresh.data.value.refresh
    ensures u.id == decode(refresh.data.value.access.value).value.sub
  {
    refresh.data.value.(id := decode(refresh.data.value.access.value).value.sub)
  }

  /** What the hook rejects with when the refresh does not go through. */
  function RefreshFailure(refresh: RefreshResult): (r: Rejection)
    ensures r.RefreshFailed? <==> refresh.RefreshRejected?
    ensures refresh.RefreshRejected? ==> r == RefreshFailed(refresh.reason)
  {
    if refresh.RefreshRejected? then RefreshFailed(refresh.reason) else ReducerThrew
  }

  /** How a replayed request settles: a 2xx reply resolves, and any other reply (or none) is
      rejected with the replay's own error, which the hook passes on because the request is
      already marked as retried. */
  function ReplayOutcome(c: RequestConfig, replay: Reply): (out: Settled)
    ensures out.Resolved? <==> replay.Reply? && IsSuccess(replay.status)
    ensures out.Rejected? ==> out.rejection == Passed(ApiError(Some(c), if replay.Reply? then Some(Response(replay.status)) else None))
  {
    match replay
    case Reply(st) =>
      if IsSuccess(st) then Resolved(Response(st)) else Rejected(Passed(ApiError(Some(c), Some(Response(st)))))
    case NoReply => Rejected(Passed(ApiError(Some(c), None)))
  }
}
