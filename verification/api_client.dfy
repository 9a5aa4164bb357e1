/**
  The API client and its response interceptor: the single-flight token refresh
  with its queue of requests waiting for a new token.

  The refresh flag and the queue are module-level state shared by every failure
  the interceptor sees. Each handler below is one uninterrupted run of the
  interceptor or of one of the refresh promise's callbacks; it returns the new
  state and the effects it performs, in order.
 */
module ApiClient {
  import opened Options
  import opened Cookies
  import opened Http
  import opened Session

  /** Where the client runs: in a browser, or during a server-side render. */
  datatype Env = Browser | Server

  /** The value of `typeof window`. */
  function TypeofWindow(env: Env): (s: string)
  {
    match env
    case Browser => "object"
    case Server => "undefined"
  }

  /** JavaScript truthiness of a string. */
  predicate Truthy(s: string)
  {
    s != ""
  }

  /**
    What `signOut()` leaves behind when it is called in `env`, as the
    interceptor and the refresh's `catch` call it. In a browser it deletes both token cookies and navigates
    to "/". During a server render `destroyCookie` without a request context
    deletes nothing, and `Router.push` throws before any navigation, so the
    state is untouched.
   */
  function SignOutAt(env: Env, w: World): (r: World)
    ensures env == Browser ==> r == SignOut(w)
    ensures env == Server ==> r == w
  {
    match env
    case Browser => SignOut(w)
    case Server => w
  }

  /**
    The client state: where it runs, the `isRefreshing` flag, whether the
    refresh request is still unanswered (`inFlight`, not a variable of the
    program but the state of its refresh promise), the queue of waiting
    requests, and the state shared with the session context.
   */
  datatype Client = Client(env: Env, refreshing: bool, inFlight: bool, queue: seq<Request>, world: World)

  /** What a transition does to the outside world. */
  datatype Effect =
    | PassThrough(response: Response)          // a successful response handed back as is
    | RejectCaller(error: ApiError)            // the failing call rejects now
    | IssueRefresh(refreshToken: Option<string>) // POST /refresh with this refresh token
    | ReplayEntry(entry: Request, replay: Request) // a queued call resolves by sending `replay`
    | RejectEntry(entry: Request, cause: HttpError) // a queued call rejects with the refresh error
    | CallSignOut                              // signOut() was called
    | FetchProfile                             // GET /me was issued

  datatype Transition = Transition(next: Client, effects: seq<Effect>)

  /** How the interceptor classifies a failure. */
  datatype Kind = NotUnauthorized | Expired | OtherUnauthorized

  function Classify(err: HttpError): (k: Kind)
    ensures k == Expired <==>
      err.response.Some? && err.response.value.status == 401 && err.response.value.code == Some("token.expired")
    ensures k == NotUnauthorized <==> err.response.None? || err.response.value.status != 401
  {
    match err.response
    case None => NotUnauthorized
    case Some(body) =>
      if body.status != Unauthorized then NotUnauthorized
      else if body.code == Some(ExpiredCode) then Expired
      else OtherUnauthorized
  }

  /** No refresh has been started, or the last one has been settled and released. */
  predicate Idle(c: Client)
  {
    !c.refreshing && !c.inFlight && c.queue == []
  }

  /** A refresh request is outstanding only while the flag is set. */
  predicate Inv(c: Client)
  {
    c.inFlight ==> c.refreshing
  }

  /**
    The first client built after the module loads: the module-level refresh
    flag starts cleared and the queue empty, and the default header is derived
    from the token cookie read at setup.
   */
  function Setup(env: Env, jar: Jar): (c: Client)
    ensures Idle(c) && Inv(c) && c.env == env && c.world.jar == jar
    ensures TokenKey in jar ==> c.world.header == "Bearer " + jar[TokenKey].value
    ensures TokenKey !in jar ==> c.world.header == "Bearer undefined"
    ensures c.world.user == None && c.world.nav == []
  {
    Client(env, false, false, [], World(jar, Bearer(Read(jar, TokenKey)), None, []))
  }

  /**
    A later `setupAPIClient` call, made while `shared` holds the module-level
    state: the new client has its own default header, read from the cookies
    it is given, but the refresh flag, the outstanding refresh and the queue
    are the module's and carry over as the earlier clients left them. The
    session context's user and navigations are not the client's and are kept.
   */
  function SetupShared(shared: Client, env: Env, jar: Jar): (c: Client)
    ensures c.refreshing == shared.refreshing && c.inFlight == shared.inFlight && c.queue == shared.queue
    ensures Inv(shared) ==> Inv(c)
    ensures c.env == env && c.world.jar == jar
    ensures TokenKey in jar ==> c.world.header == "Bearer " + jar[TokenKey].value
    ensures TokenKey !in jar ==> c.world.header == "Bearer undefined"
    ensures c.world.user == shared.world.user && c.world.nav == shared.world.nav
  {
    shared.(env := env, world := shared.world.(jar := jar, header := Bearer(Read(jar, TokenKey))))
  }

  /**
    Building a client while the module state is idle is building the first
    one, apart from the session context's user and navigations, which it keeps.
   */
  lemma SetupFromIdle(shared: Client, env: Env, jar: Jar)
    requires Idle(shared)
    ensures var first := Setup(env, jar);
      SetupShared(shared, env, jar) == first.(world := first.world.(user := shared.world.user, nav := shared.world.nav))
  {
  }

  /** A successful response is handed back untouched. */
  function OnFulfilled(c: Client, resp: Response): (t: Transition)
    ensures t.next == c && t.effects == [PassThrough(resp)]
  {
    Transition(c, [PassThrough(resp)])
  }

  /**
    A 401 with code `token.expired`: re-reads the refresh token from the cookie
    store, starts a refresh unless one is already flagged, and queues the
    failing request in every case.
   */
  function OnExpired(c: Client, err: HttpError): (t: Transition)
    ensures t.next.queue == c.queue + [err.config]
    ensures t.next.refreshing
    ensures t.next.env == c.env && t.next.world == c.world
    ensures !c.refreshing ==> t.next.inFlight && t.effects == [IssueRefresh(Read(c.world.jar, RefreshTokenKey))]
    ensures c.refreshing ==> t.next.inFlight == c.inFlight && t.effects == []
  {
    var refreshToken := Read(c.world.jar, RefreshTokenKey);
    var started :=
      if !c.refreshing then Transition(c.(refreshing := true, inFlight := true), [IssueRefresh(refreshToken)])
      else Transition(c, []);
    Transition(started.next.(queue := started.next.queue + [err.config]), started.effects)
  }

  /**
    A 401 with any other code. The `typeof window` test is a non-empty string
    in every environment, so `signOut()` is always called and the typed error
    branch cannot be taken. In a browser sign-out completes and the caller is
    rejected with the original error; during a server render sign-out throws
    from `Router.push`, and the caller is rejected with that error instead.
   */
  function OnOtherUnauthorized(c: Client, err: HttpError): (t: Transition)
    ensures t.next == c.(world := SignOutAt(c.env, c.world))
    ensures c.env == Browser ==>
      t.next == c.(world := SignOut(c.world)) && t.effects == [CallSignOut, RejectCaller(Original(err))]
    ensures c.env == Server ==> t.next == c && t.effects == [CallSignOut, RejectCaller(NoRouterInstance)]
  {
    if Truthy(TypeofWindow(c.env)) then
      match c.env
      case Browser => Transition(c.(world := SignOut(c.world)), [CallSignOut, RejectCaller(Original(err))])
      case Server => Transition(c, [CallSignOut, RejectCaller(NoRouterInstance)])
    else
      Transition(c, [RejectCaller(AuthTokenError)])
  }

  /** The interceptor's error handler, dispatching on the failure's kind. */
  function OnRejected(c: Client, err: HttpError): (t: Transition)
    ensures Classify(err) == NotUnauthorized ==> t.next == c && t.effects == [RejectCaller(Original(err))]
    ensures Classify(err) == Expired ==>
      && t.next == c.(refreshing := true, inFlight := !c.refreshing || c.inFlight, queue := c.queue + [err.config])
      && t.effects == (if c.refreshing then [] else [IssueRefresh(Read(c.world.jar, RefreshTokenKey))])
    ensures Classify(err) == OtherUnauthorized ==>
      && t.next == c.(world := SignOutAt(c.env, c.world))
      && t.effects == [CallSignOut, RejectCaller(if c.env == Browser then Original(err) else NoRouterInstance)]
    ensures RejectCaller(AuthTokenError) !in t.effects
  {
    match Classify(err)
    case NotUnauthorized => Transition(c, [RejectCaller(Original(err))])
    case Expired => OnExpired(c, err)
    case OtherUnauthorized => OnOtherUnauthorized(c, err)
  }

  /** Each queued request resolved with `token`, in queue order: each replays with the new header. */
  function ResolveAll(queue: seq<Request>, token: string): (effects: seq<Effect>)
    ensures |effects| == |queue|
    ensures forall i :: 0 <= i < |queue| ==> effects[i] == ReplayEntry(queue[i], WithBearer(queue[i], token))
  {
    if queue == [] then []
    else [ReplayEntry(queue[0], WithBearer(queue[0], token))] + ResolveAll(queue[1..], token)
  }

  /** Each queued request rejected with the refresh error, in queue order. */
  function RejectAll(queue: seq<Request>, err: HttpError): (effects: seq<Effect>)
    ensures |effects| == |queue|
    ensures forall i :: 0 <= i < |queue| ==> effects[i] == RejectEntry(queue[i], err)
  {
    if queue == [] then []
    else [RejectEntry(queue[0], err)] + RejectAll(queue[1..], err)
  }

  /** The queued requests an effect list settles, in the order it settles them. */
  function Settled(effects: seq<Effect>): (settled: seq<Request>)
  {
    if effects == [] then []
    else
      var rest := Settled(effects[1..]);
      match effects[0]
      case ReplayEntry(entry, _) => [entry] + rest
      case RejectEntry(entry, _) => [entry] + rest
      case _ => rest
  }

  lemma {:induction false} SettledAppend(a: seq<Effect>, b: seq<Effect>)
    ensures Settled(a + b) == Settled(a) + Settled(b)
    decreases |a|
  {
    if a == [] {
      assert a + b == b;
    } else {
      assert (a + b)[1..] == a[1..] + b;
      SettledAppend(a[1..], b);
    }
  }

  /** One effect in front of a list settles its own entry, if any, before the list's. */
  lemma SettledCons(x: Effect, rest: seq<Effect>)
    ensures Settled([x] + rest) == (if x.ReplayEntry? || x.RejectEntry? then [x.entry] else []) + Settled(rest)
  {
    assert ([x] + rest)[0] == x && ([x] + rest)[1..] == rest;
  }

  /** Resolving or rejecting a queue settles exactly its entries, each once, in order. */
  lemma {:induction false} SettledDrain(queue: seq<Request>, token: string, err: HttpError)
    ensures Settled(ResolveAll(queue, token)) == queue
    ensures Settled(RejectAll(queue, err)) == queue
    decreases |queue|
  {
    if queue != [] {
      SettledDrain(queue[1..], token, err);
      var head := queue[0];
      assert ResolveAll(queue, token) == [ReplayEntry(head, WithBearer(head, token))] + ResolveAll(queue[1..], token);
      assert RejectAll(queue, err) == [RejectEntry(head, err)] + RejectAll(queue[1..], err);
      SettledCons(ReplayEntry(head, WithBearer(head, token)), ResolveAll(queue[1..], token));
      SettledCons(RejectEntry(head, err), RejectAll(queue[1..], err));
      assert queue == [head] + queue[1..];
    }
  }

  /**
    The refresh request answered with new tokens: both cookies and the default
    header take them, every queued request is resolved with the same token in
    queue order, and the queue is emptied. The flag stays set until release.
   */
  function OnRefreshSucceeded(c: Client, token: string, refreshToken: string): (t: Transition)
    ensures Read(t.next.world.jar, TokenKey) == Some(token)
    ensures Read(t.next.world.jar, RefreshTokenKey) == Some(refreshToken)
    ensures t.next.world.jar == StoreTokens(c.world.jar, token, refreshToken)
    ensures t.next.world.header == "Bearer " + token
    ensures t.next.world.user == c.world.user && t.next.world.nav == c.world.nav
    ensures t.effects == ResolveAll(c.queue, token)
    ensures t.next.queue == [] && !t.next.inFlight
    ensures t.next.refreshing == c.refreshing && t.next.env == c.env
  {
    var world := c.world.(jar := StoreTokens(c.world.jar, token, refreshToken), header := "Bearer " + token);
    Transition(c.(world := world, queue := [], inFlight := false), ResolveAll(c.queue, token))
  }

  /**
    The refresh request failed: every queued request is rejected with its
    error in queue order, the queue is emptied, and, the `typeof window` test
    being always truthy, signOut is called. In a browser it signs out; during a
    server render it throws after the queue is drained and changes nothing.
    The flag stays set until release.
   */
  function OnRefreshFailed(c: Client, err: HttpError): (t: Transition)
    ensures t.effects == RejectAll(c.queue, err) + [CallSignOut]
    ensures t.next.world == SignOutAt(c.env, c.world)
    ensures c.env == Browser ==> t.next.world == SignOut(c.world)
    ensures c.env == Server ==> t.next.world == c.world
    ensures t.next.queue == [] && !t.next.inFlight
    ensures t.next.refreshing == c.refreshing && t.next.env == c.env
  {
    var drained := c.(queue := [], inFlight := false);
    if Truthy(TypeofWindow(c.env)) then
      Transition(drained.(world := SignOutAt(c.env, c.world)), RejectAll(c.queue, err) + [CallSignOut])
    else
      Transition(drained, RejectAll(c.queue, err))
  }

  /** The refresh promise's `finally`: the flag is cleared, nothing else changes. */
  function OnRelease(c: Client): (t: Transition)
    ensures !t.next.refreshing
    ensures t.next == c.(refreshing := false) && t.effects == []
  {
    Transition(c.(refreshing := false), [])
  }
}
