/** The authenticated transport's token-refresh coordinator
    (src/api/base_api.tsx): the request interceptor that attaches the bearer
    header, and the response interceptor that, on a 401, either starts the one
    refresh call or parks the caller behind the refresh already running, then
    settles every parked caller when the refresh ends.

    JavaScript runs each handler segment to completion between `await`s, so
    the coordinator is a sequential state machine driven by three events:
    a failed response (`OnResponseError`), and the end of the refresh call
    (`RefreshSucceeded`, `RefreshFailed`). */
module BaseApi {
  import opened Common
  import opened AuthSlice

  const AuthorizationHeader := "Authorization"
  const LoginRedirect := "/login"

  /** A request config, shared by reference between the interceptors and the
      closure of a parked caller, as axios shares `error.config`. */
  class Request {
    var headers: Option<map<string, string>>
    /** `_retry`: set on the request whose 401 started a refresh. */
    var retry: bool

    constructor (headers: Option<map<string, string>>)
      ensures this.headers == headers && !retry
    {
      this.headers := headers;
      retry := false;
    }
  }

  /** An axios error: the response status (`None` when no response came back). */
  datatype HttpError = HttpError(status: Option<int>, message: string)

  /** The `{ resolve, reject }` pair of one parked caller. Its identity is that
      of the promise the caller waits on. */
  class Waiter {
    const request: Request

    constructor (request: Request)
      ensures this.request == request
    {
      this.request := request;
    }
  }

  /** How a parked caller's promise settled. */
  datatype Settlement = Resolved(token: Option<string>) | Rejected(error: HttpError)

  /** What the response interceptor does with a failed response. */
  datatype Reaction =
    | Propagate(error: HttpError)   // `Promise.reject(...)` to the caller
    | Parked(waiter: Waiter)        // queued behind the refresh in flight
    | AwaitingRefresh               // this call issued the refresh POST and awaits it

  /** A request as it left the client: the request, its headers and `_retry`
      at the time it was sent. */
  datatype Sent = Sent(request: Request, headers: Option<map<string, string>>, retry: bool)

  /** The header rule of the request interceptor: `Authorization` becomes
      `Bearer <token>` when a token exists and the config has headers;
      otherwise the headers are returned as they were. */
  function WithBearer(headers: Option<map<string, string>>, token: Option<string>): (r: Option<map<string, string>>)
    ensures r.Some? <==> headers.Some?
    ensures headers.Some? && Truthy(token) ==>
      && AuthorizationHeader in r.value && r.value[AuthorizationHeader] == "Bearer " + token.value
      && r.value.Keys == headers.value.Keys + {AuthorizationHeader}
      && forall k :: k in headers.value && k != AuthorizationHeader ==> r.value[k] == headers.value[k]
    ensures !Truthy(token) ==> r == headers
  {
    if Truthy(token) && headers.Some? then
      Some(headers.value[AuthorizationHeader := "Bearer " + token.value])
    else headers
  }

  /** `${token}` in a template string: `null` renders as "null". */
  function TokenText(token: Option<string>): string {
    if token.Some? then token.value else "null"
  }

  /** The header change a parked caller makes when it is resolved with
      `token`, before it replays its request. */
  function ResolvedHeaders(headers: Option<map<string, string>>, token: Option<string>): Option<map<string, string>> {
    if headers.Some? then Some(headers.value[AuthorizationHeader := "Bearer " + TokenText(token)]) else headers
  }

  /** The settlement `processQueue(error, token)` gives every parked caller. */
  function Settle(error: Option<HttpError>, token: Option<string>): Settlement {
    if error.Some? then Rejected(error.value) else Resolved(token)
  }

  /** The request a caller resolved with `token` sends again: its
      `Authorization` set from `token`, then the request interceptor applied
      while the store holds `bearer`. */
  function Replay(r: Request, token: Option<string>, bearer: Option<string>): (s: Sent)
    reads r
    ensures s.request == r && s.retry == r.retry
    ensures s.headers.Some? <==> r.headers.Some?
    // The interceptor's token wins over the one the caller was resolved with;
    // every other header is kept.
    ensures r.headers.Some? ==>
      && AuthorizationHeader in s.headers.value
      && s.headers.value[AuthorizationHeader] == "Bearer " + (if Truthy(bearer) then bearer.value else TokenText(token))
      && s.headers.value.Keys == r.headers.value.Keys + {AuthorizationHeader}
      && forall k :: k in r.headers.value && k != AuthorizationHeader ==> s.headers.value[k] == r.headers.value[k]
  {
    Sent(r, WithBearer(ResolvedHeaders(r.headers, token), bearer), r.retry)
  }

  /** The requests the callers of `q` send again, in queue order. */
  function Replays(q: seq<Waiter>, token: Option<string>, bearer: Option<string>): seq<Sent>
    reads set w | w in q :: w.request
  {
    if q == [] then []
    else Replays(q[..|q| - 1], token, bearer) + [Replay(q[|q| - 1].request, token, bearer)]
  }

  /** The replays of a queue are one per caller, in queue order. */
  lemma {:induction false} ReplaysInOrder(q: seq<Waiter>, token: Option<string>, bearer: Option<string>)
    ensures |Replays(q, token, bearer)| == |q|
    ensures forall i :: 0 <= i < |q| ==> Replays(q, token, bearer)[i] == Replay(q[i].request, token, bearer)
  {
    if q != [] {
      ReplaysInOrder(q[..|q| - 1], token, bearer);
    }
  }

  /** The outcome map after `q.forEach(...)` settles every caller of `q`
      with `s`, starting from `m`. */
  function SettleAll(m: map<Waiter, Settlement>, q: seq<Waiter>, s: Settlement): map<Waiter, Settlement>
    decreases |q|
  {
    if q == [] then m else SettleAll(m[q[0] := s], q[1..], s)
  }

  /** Settling a queue records `s` for exactly its callers and leaves every
      other recorded outcome alone. */
  lemma {:induction false} SettleAllOutcomes(m: map<Waiter, Settlement>, q: seq<Waiter>, s: Settlement)
    ensures SettleAll(m, q, s).Keys == m.Keys + (set w | w in q)
    ensures forall w :: w in q ==> SettleAll(m, q, s)[w] == s
    ensures forall w :: w in m && w !in q ==> SettleAll(m, q, s)[w] == m[w]
    decreases |q|
  {
    if q != [] {
      SettleAllOutcomes(m[q[0] := s], q[1..], s);
      assert forall w :: w in q <==> w == q[0] || w in q[1..];
    }
  }

  /** The module-level `isRefreshing` flag and `failedQueue`, the store they
      consult, and a record of what the coordinator did. */
  class RefreshCoordinator {
    var isRefreshing: bool
    var failedQueue: seq<Waiter>
    /** The Redux store's auth slice. */
    const store: AuthStore
    /** The handler invocation suspended at `await publicAxiosInstance.post(...)`:
        the request whose 401 started the refresh now in flight. */
    var pending: Option<Request>

    /** How each parked caller's promise settled, by caller. */
    ghost var outcomes: map<Waiter, Settlement>
    /** Every request the coordinator sent again, in order. */
    ghost var sent: seq<Sent>
    /** The refresh token of every refresh POST issued, in order. */
    ghost var refreshPosts: seq<string>
    /** How many refresh POSTs have settled. */
    ghost var refreshesSettled: nat
    /** Every `window.location.href` assignment, in order. */
    ghost var redirects: seq<string>

    ghost function Requests(): set<Request>
      reads this
    {
      (set w | w in failedQueue :: w.request) + (if pending.Some? then {pending.value} else {})
    }

    /** The coordinator's invariant. A refresh is in flight exactly while
        `isRefreshing` holds, and at most one is: every POST but the one in
        flight has settled. The queue is empty when no refresh runs; its
        callers are distinct, unsettled, own distinct requests and are not
        marked `_retry`; the request that started the refresh is. */
    ghost predicate Valid()
      reads this, store, Requests()
    {
      && store.Valid()
      && (isRefreshing <==> pending.Some?)
      && |refreshPosts| == refreshesSettled + (if isRefreshing then 1 else 0)
      && (!isRefreshing ==> failedQueue == [])
      && (forall i, j :: 0 <= i < j < |failedQueue| ==> failedQueue[i].request != failedQueue[j].request)
      && (forall i :: 0 <= i < |failedQueue| ==> failedQueue[i] !in outcomes)
      && (forall i :: 0 <= i < |failedQueue| ==> !failedQueue[i].request.retry)
      && (pending.Some? ==> pending.value.retry)
    }

    constructor (store: AuthStore)
      requires store.Valid()
      ensures Valid() && this.store == store
      ensures !isRefreshing && failedQueue == [] && pending == None
      ensures outcomes == map[] && sent == [] && refreshPosts == [] && redirects == []
    {
      this.store := store;
      isRefreshing := false;
      failedQueue := [];
      pending := None;
      outcomes := map[];
      sent := [];
      refreshPosts := [];
      refreshesSettled := 0;
      redirects := [];
    }

    /** The request interceptor: attaches `Bearer <accessToken>` from the store. */
    method AttachToken(config: Request)
      modifies config
      ensures config.headers == WithBearer(old(config.headers), store.accessToken)
      ensures config.retry == old(config.retry)
    {
      if Truthy(store.accessToken) && config.headers.Some? {
        config.headers := Some(config.headers.value[AuthorizationHeader := "Bearer " + store.accessToken.value]);
      }
    }

    /** `privateAxiosInstance(config)`: the request goes through the request
        interceptor and is sent. */
    method Send(config: Request) returns (s: Sent)
      modifies this`sent, config
      ensures config.headers == WithBearer(old(config.headers), store.accessToken)
      ensures config.retry == old(config.retry)
      ensures s == Sent(config, config.headers, config.retry)
      ensures sent == old(sent) + [s]
    {
      AttachToken(config);
      s := Sent(config, config.headers, config.retry);
      sent := sent + [s];
    }

    /** `if (originalRequest.headers) originalRequest.headers.Authorization = `Bearer ${token}``:
        the header assignment made before a request is replayed. */
    method SetBearer(r: Request, token: Option<string>)
      modifies r
      ensures r.headers == ResolvedHeaders(old(r.headers), token) && r.retry == old(r.retry)
    {
      if r.headers.Some? {
        r.headers := Some(r.headers.value[AuthorizationHeader := "Bearer " + TokenText(token)]);
      }
    }

    /** Settling one parked caller: rejected with `error` when there is one;
        otherwise resolved with `token`, which sets `Authorization` to
        `Bearer <token>` and replays the request without marking it `_retry`. */
    method SettleOne(w: Waiter, error: Option<HttpError>, token: Option<string>)
      modifies this`outcomes, this`sent, w.request
      ensures outcomes == old(outcomes)[w := Settle(error, token)]
      ensures error.Some? ==> sent == old(sent) && unchanged(w.request)
      ensures error.None? ==> sent == old(sent) + [old(Replay(w.request, token, store.accessToken))]
      ensures w.request.retry == old(w.request.retry)
    {
      if error.Some? {
        outcomes := outcomes[w := Rejected(error.value)];
      } else {
        outcomes := outcomes[w := Resolved(token)];
        SetBearer(w.request, token);
        var _ := Send(w.request);
      }
    }

    /** `processQueue(error, token)`: every parked caller is settled once,
        all with the same outcome, and the queue is emptied. A resolved caller
        replays its request (see `SettleOne`); a rejected one propagates
        `error` and its request is left as it was. */
    method ProcessQueue(error: Option<HttpError>, token: Option<string>)
      requires forall i, j :: 0 <= i < j < |failedQueue| ==> failedQueue[i].request != failedQueue[j].request
      modifies this`failedQueue, this`outcomes, this`sent, set w | w in failedQueue :: w.request
      ensures failedQueue == []
      ensures outcomes == SettleAll(old(outcomes), old(failedQueue), Settle(error, token))
      ensures error.Some? ==> sent == old(sent)
      ensures error.Some? ==> forall i :: 0 <= i < |old(failedQueue)| ==>
        old(failedQueue)[i].request.headers == old(failedQueue[i].request.headers)
      ensures error.None? ==> sent == old(sent) + old(Replays(failedQueue, token, store.accessToken))
      ensures forall i :: 0 <= i < |old(failedQueue)| ==>
        old(failedQueue)[i].request.retry == old(failedQueue[i].request.retry)
    {
      var queue := failedQueue;
      var i := 0;
      while i < |queue|
        invariant 0 <= i <= |queue|
        invariant failedQueue == queue
        invariant SettleAll(outcomes, queue[i..], Settle(error, token)) == SettleAll(old(outcomes), queue, Settle(error, token))
        invariant error.Some? ==> sent == old(sent)
        invariant error.None? ==> sent == old(sent) + old(Replays(queue[..i], token, store.accessToken))
        invariant forall k :: 0 <= k < |queue| ==> queue[k].request.retry == old(queue[k].request.retry)
        invariant forall k :: i <= k < |queue| ==> queue[k].request.headers == old(queue[k].request.headers)
        invariant error.Some? ==> forall k :: 0 <= k < |queue| ==> queue[k].request.headers == old(queue[k].request.headers)
      {
        var w := queue[i];
        assert queue[..i + 1][..i] == queue[..i];
        assert queue[i..][1..] == queue[i + 1..];
        assert SettleAll(outcomes, queue[i..], Settle(error, token)) == SettleAll(outcomes[w := Settle(error, token)], queue[i + 1..], Settle(error, token));
        SettleOne(w, error, token);
        i := i + 1;
      }
      assert queue[..i] == queue;
      failedQueue := [];
    }

    /** The response interceptor's error handler, up to the refresh POST. */
    method OnResponseError(error: HttpError, config: Request) returns (reaction: Reaction)
      requires Valid()
      // A parked request has no response in flight, so it cannot fail again before it is replayed.
      requires config !in Requests()
      modifies this, store, config
      ensures Valid()
      // Not a 401, or already retried: rejected unchanged, nothing else happens.
      ensures error.status != Some(401) || old(config.retry) ==>
        && reaction == Propagate(error)
        && unchanged(this) && unchanged(store) && unchanged(config)
      // A refresh is already in flight: exactly one caller is parked, no POST.
      ensures error.status == Some(401) && !old(config.retry) && old(isRefreshing) ==>
        && reaction.Parked? && fresh(reaction.waiter) && reaction.waiter.request == config
        && failedQueue == old(failedQueue) + [reaction.waiter]
        && isRefreshing && pending == old(pending) && refreshPosts == old(refreshPosts)
        && outcomes == old(outcomes) && sent == old(sent) && redirects == old(redirects)
        && unchanged(store) && unchanged(config)
      // No refresh in flight: the caller is marked `_retry` first.
      ensures error.status == Some(401) && !old(config.retry) && !old(isRefreshing) ==>
        config.retry && config.headers == old(config.headers) && sent == old(sent)
      // ... and without a refresh token the session ends: no POST.
      ensures error.status == Some(401) && !old(config.retry) && !old(isRefreshing) && !Truthy(old(store.refreshToken)) ==>
        && reaction == Propagate(error)
        && !isRefreshing && failedQueue == [] && pending == None && outcomes == old(outcomes)
        && refreshPosts == old(refreshPosts)
        && store.State() == old(store.State()).(user := None, accessToken := None, refreshToken := None,
             isAuthenticated := false, error := None, loading := false, tokenExpiry := None)
        && store.storage == old(store.storage) - SessionKeys
        && redirects == old(redirects) + [LoginRedirect]
      // ... otherwise the flag is raised and exactly one refresh POST is issued.
      ensures error.status == Some(401) && !old(config.retry) && !old(isRefreshing) && Truthy(old(store.refreshToken)) ==>
        && reaction == AwaitingRefresh
        && isRefreshing && pending == Some(config) && failedQueue == []
        && refreshPosts == old(refreshPosts) + [old(store.refreshToken).value]
        && outcomes == old(outcomes) && redirects == old(redirects) && unchanged(store)
    {
      if error.status != Some(401) || config.retry {
        return Propagate(error);
      }
      if isRefreshing {
        var w := new Waiter(config);
        failedQueue := failedQueue + [w];
        return Parked(w);
      }
      config.retry := true;
      isRefreshing := true;
      var refreshToken := store.refreshToken;
      if !Truthy(refreshToken) {
        store.ClearAuthState();
        isRefreshing := false;
        ProcessQueue(Some(error), None);
        redirects := redirects + [LoginRedirect];
        return Propagate(error);
      }
      // The flag is already up when the POST leaves.
      assert isRefreshing;
      refreshPosts := refreshPosts + [refreshToken.value];
      pending := Some(config);
      reaction := AwaitingRefresh;
    }

    /** A burst of requests failing with 401 while no refresh runs and the
        store holds a refresh token: the first starts the one refresh POST,
        every later one is parked behind it in arrival order. */
    method UnauthorizedBurst(configs: seq<Request>, error: HttpError) returns (reactions: seq<Reaction>)
      requires Valid() && !isRefreshing && Truthy(store.refreshToken)
      requires error.status == Some(401)
      requires forall i, j :: 0 <= i < j < |configs| ==> configs[i] != configs[j]
      requires forall i :: 0 <= i < |configs| ==> !configs[i].retry
      modifies this, store, set c | c in configs
      ensures Valid() && |reactions| == |configs|
      ensures configs == [] ==> refreshPosts == old(refreshPosts) && !isRefreshing
      ensures configs != [] ==>
        && reactions[0] == AwaitingRefresh && pending == Some(configs[0])
        && refreshPosts == old(refreshPosts) + [old(store.refreshToken).value]
        && |failedQueue| == |configs| - 1
        && (forall i :: 0 <= i < |failedQueue| ==> failedQueue[i].request == configs[i + 1])
        && (forall i :: 1 <= i < |reactions| ==> reactions[i] == Parked(failedQueue[i - 1]))
      ensures outcomes == old(outcomes) && sent == old(sent) && redirects == old(redirects) && unchanged(store)
    {
      reactions := [];
      var i := 0;
      while i < |configs|
        invariant 0 <= i <= |configs| && |reactions| == i
        invariant Valid() && unchanged(store) && Truthy(store.refreshToken)
        invariant outcomes == old(outcomes) && sent == old(sent) && redirects == old(redirects)
        invariant i == 0 ==> !isRefreshing && refreshPosts == old(refreshPosts)
        invariant forall k :: i <= k < |configs| ==> !configs[k].retry
        invariant i > 0 ==>
          && reactions[0] == AwaitingRefresh && pending == Some(configs[0])
          && refreshPosts == old(refreshPosts) + [old(store.refreshToken).value]
          && |failedQueue| == i - 1
          && (forall k :: 0 <= k < |failedQueue| ==> failedQueue[k].request == configs[k + 1])
          && (forall k :: 1 <= k < i ==> reactions[k] == Parked(failedQueue[k - 1]))
      {
        assert configs[i] !in Requests();
        var reaction := OnResponseError(error, configs[i]);
        reactions := reactions + [reaction];
        i := i + 1;
      }
    }

    /** The refresh POST answered with new tokens: both are stored through one
        `setTokens`, every parked caller is resolved with the new access token
        and replays its request, the flag drops, and the request that started
        the refresh is replayed once with the new bearer header. */
    method RefreshSucceeded(access: string, refresh: string) returns (replayed: Sent)
      requires Valid() && isRefreshing
      modifies this, store, Requests()
      ensures Valid()
      ensures !isRefreshing && failedQueue == [] && pending == None
      ensures refreshPosts == old(refreshPosts) && redirects == old(redirects)
      ensures store.State() == old(store.State()).(accessToken := Some(access), refreshToken := Some(refresh), isAuthenticated := true)
      ensures store.storage == old(store.storage)[AccessTokenKey := Raw(access)][RefreshTokenKey := Raw(refresh)]
      ensures outcomes == SettleAll(old(outcomes), old(failedQueue), Resolved(Some(access)))
      ensures sent == old(sent) + old(Replays(failedQueue, Some(access), Some(access))) + [replayed]
      ensures replayed == old(Replay(pending.value, Some(access), Some(access))) && replayed.retry
    {
      store.SetTokens(access, refresh);
      replayed := Resume(access);
    }

    /** The rest of the success path, once the store holds `access`: the
        request that started the refresh gets `Bearer <access>`, the parked
        callers are resolved with `access`, the flag drops, and that request
        is replayed. */
    method Resume(access: string) returns (replayed: Sent)
      requires isRefreshing && pending.Some? && pending.value.retry
      requires forall i, j :: 0 <= i < j < |failedQueue| ==> failedQueue[i].request != failedQueue[j].request
      requires forall i :: 0 <= i < |failedQueue| ==> failedQueue[i].request != pending.value
      modifies this`failedQueue, this`outcomes, this`sent, this`isRefreshing, this`pending, this`refreshesSettled, Requests()
      ensures !isRefreshing && failedQueue == [] && pending == None && refreshesSettled == old(refreshesSettled) + 1
      ensures outcomes == SettleAll(old(outcomes), old(failedQueue), Resolved(Some(access)))
      ensures sent == old(sent) + old(Replays(failedQueue, Some(access), store.accessToken)) + [replayed]
      ensures replayed == old(Replay(pending.value, Some(access), store.accessToken)) && replayed.retry
    {
      var original := pending.value;
      SetBearer(original, Some(access));
      ProcessQueue(None, Some(access));
      EndRefresh();
      replayed := Send(original);
    }

    /** `isRefreshing = false`: the refresh in flight has settled and its
        handler no longer waits. */
    method EndRefresh()
      requires isRefreshing
      modifies this`isRefreshing, this`pending, this`refreshesSettled
      ensures !isRefreshing && pending == None && refreshesSettled == old(refreshesSettled) + 1
    {
      isRefreshing := false;
      pending := None;
      refreshesSettled := refreshesSettled + 1;
    }

    /** The refresh POST failed: every parked caller is rejected with the
        refresh error, the flag drops, the session is cleared and the page is
        sent to the login route; the caller that started it is rejected too. */
    method RefreshFailed(refreshError: HttpError) returns (reaction: Reaction)
      requires Valid() && isRefreshing
      modifies this, store, Requests()
      ensures Valid()
      ensures reaction == Propagate(refreshError)
      ensures !isRefreshing && failedQueue == [] && pending == None
      ensures refreshPosts == old(refreshPosts) && sent == old(sent)
      ensures redirects == old(redirects) + [LoginRedirect]
      ensures store.State() == old(store.State()).(user := None, accessToken := None, refreshToken := None,
        isAuthenticated := false, error := None, loading := false, tokenExpiry := None)
      ensures store.storage == old(store.storage) - SessionKeys
      ensures outcomes == SettleAll(old(outcomes), old(failedQueue), Rejected(refreshError))
    {
      ProcessQueue(Some(refreshError), None);
      EndRefresh();
      store.ClearAuthState();
      redirects := redirects + [LoginRedirect];
      reaction := Propagate(refreshError);
    }
  }
}
