/**
 * The HTTP client's two hooks, as a sequential event machine: the request
 * hook that attaches the bearer token, and the response hook that answers
 * a 401 by refreshing the access token once and parking the other 401s in
 * a first-in first-out queue until the refresh settles. Promises are not
 * modelled: each hook run and each settlement of the refresh call is one
 * method call, and the network outcomes are its inputs.
 */
module ApiClient {
  import opened Common
  import AuthSlice

  /** An outgoing request as the hooks see it: its identity, the `_retry` mark and the Authorization header. */
  class Request {
    const id: nat
    var retry: bool
    var authorization: Option<string>

    constructor (id: nat, authorization: Option<string>)
      ensures this.id == id && !retry && this.authorization == authorization
    {
      this.id := id;
      retry := false;
      this.authorization := authorization;
    }
  }

  function Bearer(token: string): (h: string)
    ensures |h| == |token| + 7 && h[7..] == token
    ensures h[..7] == "Bearer "
  {
    "Bearer " + token
  }

  /** The Authorization header a request leaves the request hook with, given the store's token. */
  function HeaderAfterHook(token: Option<string>, current: Option<string>): (h: Option<string>)
    ensures Truthy(token) ==> h.Some? && |h.value| > 7 && h.value[..7] == "Bearer " && h.value[7..] == token.value
    ensures !Truthy(token) ==> h == current
  {
    if Truthy(token) then Some(Bearer(token.value)) else current
  }

  /** Running the hook again with the same token changes nothing, so a replayed request keeps its header. */
  lemma HookIdempotent(token: Option<string>, current: Option<string>)
    ensures HeaderAfterHook(token, HeaderAfterHook(token, current)) == HeaderAfterHook(token, current)
  {
  }

  /** What the response hook does with a failed response. */
  datatype Decision =
    | RejectUnchanged   // passed on to the caller as it is
    | Queued            // parked until the running refresh settles
    | RefreshStarted    // this request owns a new refresh

  /**
   * The response hook's choice: only a 401 on a request not yet marked
   * `_retry` is handled; it waits when a refresh is running and starts one
   * otherwise.
   */
  function Decide(status: Option<int>, retry: bool, refreshing: bool): (d: Decision)
    ensures d == RejectUnchanged <==> status != Some(401) || retry
    ensures d == Queued <==> status == Some(401) && !retry && refreshing
    ensures d == RefreshStarted <==> status == Some(401) && !retry && !refreshing
  {
    if status == Some(401) && !retry then
      if refreshing then Queued else RefreshStarted
    else RejectUnchanged
  }

  /** How `processQueue` settles one waiter: rejected with the error, or resolved with the token. */
  datatype Settlement = Resolved(waiter: nat, token: Option<string>) | Rejected(waiter: nat, reason: string)

  /** The identities of the queued requests, in queue order. */
  function Ids(queue: seq<Request>): (ids: seq<nat>)
    ensures |ids| == |queue|
    ensures forall i :: 0 <= i < |queue| ==> ids[i] == queue[i].id
  {
    seq(|queue|, i requires 0 <= i < |queue| => queue[i].id)
  }

  /**
   * `processQueue(error, token)`: every waiter, in enqueue order, is
   * rejected with the error when there is one and resolved with the token
   * otherwise.
   */
  function Settle(waiters: seq<nat>, error: Option<string>, token: Option<string>): (r: seq<Settlement>)
    ensures |r| == |waiters|
    ensures forall i :: 0 <= i < |r| ==> r[i].waiter == waiters[i]
    ensures forall i :: 0 <= i < |r| ==> (r[i].Rejected? <==> error.Some?)
    ensures forall i :: 0 <= i < |r| && r[i].Rejected? ==> r[i].reason == error.value
    ensures forall i :: 0 <= i < |r| && r[i].Resolved? ==> r[i].token == token
  {
    if waiters == [] then [] else [SettleOne(waiters[0], error, token)] + Settle(waiters[1..], error, token)
  }

  /** The settlement of a single waiter. */
  function SettleOne(waiter: nat, error: Option<string>, token: Option<string>): Settlement {
    if error.Some? then Rejected(waiter, error.value) else Resolved(waiter, token)
  }

  /** Settling one more waiter at the back extends the settlements at the back. */
  lemma SettleSnoc(waiters: seq<nat>, w: nat, error: Option<string>, token: Option<string>)
    ensures Settle(waiters + [w], error, token) == Settle(waiters, error, token) + [SettleOne(w, error, token)]
  {
    SettleAppend(waiters, [w], error, token);
  }

  /** Settling one more waiter of a queue extends the settlements of its prefix. */
  lemma SettlePrefix(waiters: seq<nat>, i: nat, error: Option<string>, token: Option<string>)
    requires i < |waiters|
    ensures Settle(waiters[..i + 1], error, token) == Settle(waiters[..i], error, token) + [SettleOne(waiters[i], error, token)]
  {
    assert waiters[..i + 1] == waiters[..i] + [waiters[i]];
    SettleSnoc(waiters[..i], waiters[i], error, token);
  }

  /** Settling a queue in two parts settles it as a whole: nothing is reordered. */
  lemma {:induction false} SettleAppend(a: seq<nat>, b: seq<nat>, error: Option<string>, token: Option<string>)
    ensures Settle(a + b, error, token) == Settle(a, error, token) + Settle(b, error, token)
  {
    if a == [] {
      assert a + b == b;
    } else {
      assert (a + b)[1..] == a[1..] + b;
      SettleAppend(a[1..], b, error, token);
    }
  }

  /** The loop of `processQueue`: one settlement per queued request, front to back. */
  method SettleQueue(queue: seq<Request>, error: Option<string>, token: Option<string>) returns (settled: seq<Settlement>)
    ensures settled == Settle(Ids(queue), error, token)
  {
    var waiters := Ids(queue);
    settled := [];
    var i := 0;
    while i < |waiters|
      invariant 0 <= i <= |waiters|
      invariant settled == Settle(waiters[..i], error, token)
    {
      SettlePrefix(waiters, i, error, token);
      settled := settled + [SettleOne(waiters[i], error, token)];
      i := i + 1;
    }
    assert waiters[..i] == waiters;
  }

  /** The steps the coordinator takes, in the order it takes them. */
  datatype Step =
    | RefreshRequested(owner: nat)
    | TokenUpdated(token: string)
    | QueueReleased(settled: seq<Settlement>)
    | LoggedOut

  /** The module-level `isRefreshing` flag and `failedQueue`, with the session store they act on. */
  class RefreshCoordinator {
    var isRefreshing: bool
    var failedQueue: seq<Request>
    const auth: AuthSlice.AuthStore
    /** Every step taken so far, oldest first. */
    ghost var trace: seq<Step>
    /** The request whose 401 started the running refresh. */
    ghost var refreshOwner: nat

    /** The queue only holds requests while a refresh is running. */
    ghost predicate Valid()
      reads this, auth
    {
      auth.Valid() && (!isRefreshing ==> failedQueue == [])
    }

    constructor (auth: AuthSlice.AuthStore)
      requires auth.Valid()
      ensures Valid() && this.auth == auth
      ensures !isRefreshing && failedQueue == [] && trace == []
    {
      this.auth := auth;
      isRefreshing := false;
      failedQueue := [];
      trace := [];
      refreshOwner := 0;
    }

    /** The request hook: attach `Bearer <token>` when the store holds a truthy token. */
    method OnRequest(req: Request)
      modifies req
      ensures req.authorization == HeaderAfterHook(auth.token, old(req.authorization))
      ensures req.retry == old(req.retry)
    {
      if auth.token.Some? && auth.token.value != "" {
        req.authorization := Some(Bearer(auth.token.value));
      }
    }

    /**
     * The response hook for a failed response. A rejected response changes
     * nothing; a queued request is appended at the back without being
     * marked; a request that starts the refresh is marked `_retry`, the
     * flag is raised and exactly one refresh call is issued.
     */
    method OnError(req: Request, status: Option<int>) returns (d: Decision)
      requires Valid()
      modifies this, req
      ensures Valid()
      ensures d == Decide(status, old(req.retry), old(isRefreshing))
      ensures d == RejectUnchanged ==>
        && isRefreshing == old(isRefreshing) && failedQueue == old(failedQueue) && trace == old(trace)
        && req.retry == old(req.retry)
      ensures d == Queued ==>
        && isRefreshing && failedQueue == old(failedQueue) + [req] && trace == old(trace)
        && !req.retry
      ensures d == RefreshStarted ==>
        && isRefreshing && failedQueue == [] && trace == old(trace) + [RefreshRequested(req.id)]
        && req.retry && refreshOwner == req.id
      ensures d != RefreshStarted ==> refreshOwner == old(refreshOwner)
      ensures req.authorization == old(req.authorization)
    {
      d := Decide(status, req.retry, isRefreshing);
      if d == Queued {
        failedQueue := failedQueue + [req];
      } else if d == RefreshStarted {
        req.retry := true;
        isRefreshing := true;
        refreshOwner := req.id;
        trace := trace + [RefreshRequested(req.id)];
      }
    }

    /** `processQueue`: settle every waiter in order, then empty the queue. */
    method ProcessQueue(error: Option<string>, token: Option<string>) returns (settled: seq<Settlement>)
      modifies this
      ensures settled == Settle(Ids(old(failedQueue)), error, token)
      ensures failedQueue == []
      ensures isRefreshing == old(isRefreshing) && trace == old(trace) && refreshOwner == old(refreshOwner)
    {
      settled := SettleQueue(failedQueue, error, token);
      failedQueue := [];
    }

    /**
     * The refresh call returned `newToken`: the store takes the token first,
     * then the queue is released with it, the owner is replayed with the new
     * header, and the flag drops.
     */
    method OnRefreshSucceeded(owner: Request, newToken: string) returns (settled: seq<Settlement>)
      requires Valid() && isRefreshing && owner.id == refreshOwner
      modifies this, auth, owner
      ensures Valid()
      ensures settled == Settle(Ids(old(failedQueue)), None, Some(newToken))
      ensures trace == old(trace) + [TokenUpdated(newToken), QueueReleased(settled)]
      ensures auth.token == Some(newToken) && auth.user == old(auth.user)
      ensures auth.storage == AuthSlice.SaveAuth(old(auth.user), Some(newToken))
      ensures auth.isAuthenticated == old(auth.isAuthenticated) && auth.isLoading == old(auth.isLoading)
      ensures auth.error == old(auth.error) && auth.isSidebarOpen == old(auth.isSidebarOpen)
      ensures owner.authorization == Some(Bearer(newToken)) && owner.retry == old(owner.retry)
      ensures !isRefreshing && failedQueue == []
    {
      auth.UpdateToken(newToken);
      trace := trace + [TokenUpdated(newToken)];
      settled := ProcessQueue(None, Some(newToken));
      trace := trace + [QueueReleased(settled)];
      owner.authorization := Some(Bearer(newToken));
      isRefreshing := false;
    }

    /**
     * The refresh call failed with `err`: every waiter is rejected with it,
     * the session is logged out, the owner is rejected with the same error,
     * and the flag drops.
     */
    method OnRefreshFailed(err: string) returns (settled: seq<Settlement>, rejection: string)
      requires Valid() && isRefreshing
      modifies this, auth
      ensures Valid()
      ensures settled == Settle(Ids(old(failedQueue)), Some(err), None)
      ensures trace == old(trace) + [QueueReleased(settled), LoggedOut]
      ensures auth.user.None? && auth.token.None? && !auth.isAuthenticated && auth.error.None?
      ensures auth.storage == AuthSlice.Missing
      ensures auth.isLoading == old(auth.isLoading) && auth.isSidebarOpen == old(auth.isSidebarOpen)
      ensures rejection == err
      ensures !isRefreshing && failedQueue == []
    {
      settled := ProcessQueue(Some(err), None);
      trace := trace + [QueueReleased(settled)];
      auth.Logout();
      trace := trace + [LoggedOut];
      rejection := err;
      isRefreshing := false;
    }
  }

  /** What becomes of a waiter once it is settled. */
  datatype WaiterOutcome = Replayed | Failed(reason: string)

  /**
   * The continuation of a parked request: resolved, it takes the token as
   * its header when the token is truthy and is sent again; rejected, it
   * fails with the same reason and is not touched.
   */
  method ResumeWaiter(req: Request, s: Settlement) returns (outcome: WaiterOutcome)
    requires s.waiter == req.id
    modifies req
    ensures s.Resolved? ==> outcome == Replayed && req.authorization == HeaderAfterHook(s.token, old(req.authorization))
    ensures s.Rejected? ==> outcome == Failed(s.reason) && req.authorization == old(req.authorization)
    ensures req.retry == old(req.retry)
  {
    match s
    case Resolved(_, token) =>
      if token.Some? && token.value != "" {
        req.authorization := Some(Bearer(token.value));
      }
      outcome := Replayed;
    case Rejected(_, reason) =>
      outcome := Failed(reason);
  }

  /**
   * Queued requests are never marked `_retry`: two requests fail with 401,
   * the first starts the refresh and the second waits; once the refresh
   * succeeds and both are replayed, a second 401 on the owner is rejected
   * outright, while the same on the replayed waiter starts a new refresh.
   */
  method RetriedOwnerVersusReplayedWaiter(c: RefreshCoordinator, owner: Request, waiter: Request, newToken: string)
    returns (ownerAgain: Decision, waiterAgain: Decision)
    requires c.Valid() && !c.isRefreshing && owner != waiter
    requires !owner.retry && !waiter.retry
    modifies c, c.auth, owner, waiter
    ensures ownerAgain == RejectUnchanged
    ensures waiterAgain == RefreshStarted && c.isRefreshing && c.refreshOwner == waiter.id
  {
    var first := c.OnError(owner, Some(401));
    assert first == RefreshStarted;
    var second := c.OnError(waiter, Some(401));
    assert second == Queued && c.failedQueue == [waiter];
    var settled := c.OnRefreshSucceeded(owner, newToken);
    assert Ids([waiter]) == [waiter.id];
    var outcome := ResumeWaiter(waiter, settled[0]);
    ownerAgain := c.OnError(owner, Some(401));
    waiterAgain := c.OnError(waiter, Some(401));
  }
}
