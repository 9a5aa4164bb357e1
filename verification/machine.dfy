/**
  The client and the session context as one sequential state machine. Events
  arrive one at a time, as on JavaScript's single thread; the answers to the
  network calls the model issues (the refresh, the profile, the sign-in) come
  back as events of their own, so any interleaving of them can be stated.
 */
module Machine {
  import opened Options
  import opened Cookies
  import opened Http
  import opened Session
  import opened ApiClient

  datatype Event =
    | Fulfilled(response: Response)                       // a request succeeded
    | Failed(error: HttpError)                            // a request failed
    | RefreshSucceeded(token: string, refreshToken: string) // the refresh request answered
    | RefreshFailed(cause: HttpError)                     // the refresh request failed
    | RefreshReleased                                     // the refresh promise's `finally` ran
    | Mounted                                             // the session context mounted
    | ProfileSettled(profile: Result<Profile, ApiError>)  // GET /me settled
    | SignInSettled(credentials: Credentials, session: Result<SessionData, ApiError>) // POST sessions settled
    | SignOutCalled                                       // signOut() called directly

  /**
    One event handled. Answers to a refresh that is not outstanding, and a
    release with no settled refresh, change nothing. A direct `signOut()` call
    behaves as its environment makes it; the mount, profile and sign-in events
    come from the session context, whose effects and handlers run only in a
    browser, so a failed profile request signs out as the browser does.
   */
  function Step(c: Client, e: Event): (t: Transition)
  {
    match e
    case Fulfilled(resp) => OnFulfilled(c, resp)
    case Failed(err) => OnRejected(c, err)
    case RefreshSucceeded(token, refreshToken) =>
      if c.inFlight then OnRefreshSucceeded(c, token, refreshToken) else Transition(c, [])
    case RefreshFailed(err) =>
      if c.inFlight then OnRefreshFailed(c, err) else Transition(c, [])
    case RefreshReleased =>
      if c.refreshing && !c.inFlight then OnRelease(c) else Transition(c, [])
    case Mounted =>
      Transition(c, if ShouldFetchProfile(c.world.jar) then [FetchProfile] else [])
    case ProfileSettled(outcome) =>
      Transition(c.(world := OnProfile(c.world, outcome)), if outcome.Err? then [CallSignOut] else [])
    case SignInSettled(creds, outcome) =>
      Transition(c.(world := SignIn(c.world, creds, outcome)), [])
    case SignOutCalled =>
      Transition(c.(world := SignOutAt(c.env, c.world)), [CallSignOut])
  }

  /**
    What one step guarantees, for the transition `t` that `Step(c, e)`
    returns: the invariant is kept; a refresh is issued exactly when an
    expired-token failure finds the flag cleared, and then no refresh was
    outstanding and the new one is; the queue before plus what the event
    enqueues is what the step settles followed by the queue after; the typed
    auth error never appears.
   */
  predicate StepKeeps(c: Client, e: Event, t: Transition)
  {
    && (Inv(c) ==> Inv(t.next))
    && t.next.env == c.env
    && RefreshCount(t.effects) <= 1
    && (RefreshCount(t.effects) == 1 <==> e.Failed? && Classify(e.error) == Expired && !c.refreshing)
    && (RefreshCount(t.effects) == 1 ==> t.next.refreshing && t.next.inFlight && (Inv(c) ==> !c.inFlight))
    && c.queue + Enqueued([e]) == Settled(t.effects) + t.next.queue
    && RejectCaller(AuthTokenError) !in t.effects
  }

  /** Every event, in every state, keeps the step facts. */
  lemma StepFacts(c: Client, e: Event)
    ensures StepKeeps(c, e, Step(c, e))
  {
    match e {
      case Failed(err) =>
        assert Step(c, e) == OnRejected(c, err);
        FailedKeeps(c, err);
      case RefreshSucceeded(token, refreshToken) =>
        if c.inFlight {
          assert Step(c, e) == OnRefreshSucceeded(c, token, refreshToken);
          RefreshSucceededKeeps(c, token, refreshToken);
        } else {
          QuietKeeps(c, e, Step(c, e));
        }
      case RefreshFailed(err) =>
        if c.inFlight {
          assert Step(c, e) == OnRefreshFailed(c, err);
          RefreshFailedKeeps(c, err);
        } else {
          QuietKeeps(c, e, Step(c, e));
        }
      case _ =>
        QuietKeeps(c, e, Step(c, e));
    }
  }

  /** A request's failure, of any kind, keeps the step facts. */
  lemma FailedKeeps(c: Client, err: HttpError)
    ensures StepKeeps(c, Failed(err), OnRejected(c, err))
  {
    var t := OnRejected(c, err);
    assert [Failed(err)][1..] == [];
    match Classify(err) {
      case NotUnauthorized =>
        SingleEffect(RejectCaller(Original(err)));
      case Expired =>
        assert Enqueued([Failed(err)]) == [err.config];
        if !c.refreshing {
          SingleEffect(IssueRefresh(Read(c.world.jar, RefreshTokenKey)));
        }
      case OtherUnauthorized =>
        var signOut, reject := CallSignOut, RejectCaller(if c.env == Browser then Original(err) else NoRouterInstance);
        assert t.effects == [signOut] + [reject];
        SingleEffect(signOut);
        SingleEffect(reject);
        RefreshCountAppend([signOut], [reject]);
        SettledAppend([signOut], [reject]);
    }
  }

  /** The outstanding refresh answered: the queue is replayed and nothing is issued. */
  lemma RefreshSucceededKeeps(c: Client, token: string, refreshToken: string)
    ensures StepKeeps(c, RefreshSucceeded(token, refreshToken), OnRefreshSucceeded(c, token, refreshToken))
  {
    assert [RefreshSucceeded(token, refreshToken)][1..] == [];
    NoRefreshIn(ResolveAll(c.queue, token));
    SettledDrain(c.queue, token, HttpError(Request(0, "", None), None));
  }

  /** The outstanding refresh failed: the queue is rejected, signOut is called, nothing is issued. */
  lemma RefreshFailedKeeps(c: Client, err: HttpError)
    ensures StepKeeps(c, RefreshFailed(err), OnRefreshFailed(c, err))
  {
    assert [RefreshFailed(err)][1..] == [];
    NoRefreshIn(RejectAll(c.queue, err));
    RefreshCountAppend(RejectAll(c.queue, err), [CallSignOut]);
    SettledDrain(c.queue, "", err);
    SettledAppend(RejectAll(c.queue, err), [CallSignOut]);
    SingleEffect(CallSignOut);
  }

  /**
    An event other than a request failure that keeps the queue and performs at
    most one effect that neither refreshes, settles nor rejects keeps the step
    facts.
   */
  lemma QuietKeeps(c: Client, e: Event, t: Transition)
    requires !e.Failed? && (Inv(c) ==> Inv(t.next))
    requires t.next.env == c.env && t.next.queue == c.queue
    requires t.effects == [] || t.effects == [CallSignOut] || t.effects == [FetchProfile] || (|t.effects| == 1 && t.effects[0].PassThrough?)
    ensures StepKeeps(c, e, t)
  {
    assert [e][1..] == [];
    if t.effects != [] {
      SingleEffect(t.effects[0]);
    }
  }

  /** Events handled in order by `step`; the effects are concatenated in the order they happen. */
  function Fold(step: (Client, Event) -> Transition, c: Client, events: seq<Event>): (t: Transition)
    decreases |events|
  {
    if events == [] then Transition(c, [])
    else
      var first := step(c, events[0]);
      var rest := Fold(step, first.next, events[1..]);
      Transition(rest.next, first.effects + rest.effects)
  }

  /** Events handled in order by `Step`. */
  function Run(c: Client, events: seq<Event>): (t: Transition)
  {
    Fold(Step, c, events)
  }

  /** Whatever the events, the invariant and the environment are kept and the typed auth error never appears. */
  lemma {:induction false} RunKeepsInvariant(c: Client, events: seq<Event>)
    ensures Inv(c) ==> Inv(Run(c, events).next)
    ensures Run(c, events).next.env == c.env
    ensures RejectCaller(AuthTokenError) !in Run(c, events).effects
    decreases |events|
  {
    if events != [] {
      StepFacts(c, events[0]);
      RunKeepsInvariant(Step(c, events[0]).next, events[1..]);
    }
  }

  /** Number of refresh requests issued in an effect list. */
  function RefreshCount(effects: seq<Effect>): (n: nat)
  {
    if effects == [] then 0
    else (if effects[0].IssueRefresh? then 1 else 0) + RefreshCount(effects[1..])
  }

  /** Number of release events in an event list. */
  function Releases(events: seq<Event>): (n: nat)
  {
    if events == [] then 0
    else (if events[0].RefreshReleased? then 1 else 0) + Releases(events[1..])
  }

  /** The requests that expired-token failures hand to the queue, in arrival order. */
  function Enqueued(events: seq<Event>): (queued: seq<Request>)
  {
    if events == [] then []
    else
      var rest := Enqueued(events[1..]);
      if events[0].Failed? && Classify(events[0].error) == Expired then [events[0].error.config] + rest
      else rest
  }

  lemma SingleEffect(x: Effect)
    ensures RefreshCount([x]) == (if x.IssueRefresh? then 1 else 0)
    ensures Settled([x]) == (if x.ReplayEntry? || x.RejectEntry? then [x.entry] else [])
  {
  }

  lemma {:induction false} NoRefreshIn(effects: seq<Effect>)
    requires forall i :: 0 <= i < |effects| ==> !effects[i].IssueRefresh?
    ensures RefreshCount(effects) == 0
    decreases |effects|
  {
    if effects != [] {
      NoRefreshIn(effects[1..]);
    }
  }

  lemma {:induction false} RefreshCountAppend(a: seq<Effect>, b: seq<Effect>)
    ensures RefreshCount(a + b) == RefreshCount(a) + RefreshCount(b)
    decreases |a|
  {
    if a == [] {
      assert a + b == b;
    } else {
      assert (a + b)[1..] == a[1..] + b;
      RefreshCountAppend(a[1..], b);
    }
  }

  /** Folding two event lists one after the other is folding their concatenation. */
  lemma {:induction false} FoldAppend(step: (Client, Event) -> Transition, c: Client, a: seq<Event>, b: seq<Event>)
    ensures Fold(step, c, a + b).next == Fold(step, Fold(step, c, a).next, b).next
    ensures Fold(step, c, a + b).effects == Fold(step, c, a).effects + Fold(step, Fold(step, c, a).next, b).effects
    decreases |a|
  {
    if a == [] {
      assert a + b == b;
    } else {
      assert (a + b)[0] == a[0] && (a + b)[1..] == a[1..] + b;
      FoldAppend(step, step(c, a[0]).next, a[1..], b);
    }
  }

  /** Running two event lists one after the other is running their concatenation. */
  lemma RunAppend(c: Client, a: seq<Event>, b: seq<Event>)
    ensures Run(c, a + b).next == Run(Run(c, a).next, b).next
    ensures Run(c, a + b).effects == Run(c, a).effects + Run(Run(c, a).next, b).effects
  {
    FoldAppend(Step, c, a, b);
  }

  /**
    Every request an expired-token failure queues is settled at most once, in
    arrival order: at any point, the queue before plus everything enqueued
    equals what has been resolved or rejected, in that order, followed by what
    still waits. That what waits is eventually settled needs the event loop's
    orders: see `LoopRun` and `LoopAnswerRelease`.
   */
  lemma {:induction false} EntriesSettledOnce(c: Client, events: seq<Event>)
    ensures c.queue + Enqueued(events) == Settled(Run(c, events).effects) + Run(c, events).next.queue
    decreases |events|
  {
    if events != [] {
      var first := Step(c, events[0]);
      var rest := Run(first.next, events[1..]);
      StepFacts(c, events[0]);
      EntriesSettledOnce(first.next, events[1..]);
      SettledAppend(first.effects, rest.effects);
      EnqueuedCons(events);
      Regroup(c.queue, Enqueued([events[0]]), Enqueued(events[1..]),
              Settled(first.effects), first.next.queue, Settled(rest.effects), rest.next.queue);
    }
  }

  lemma EnqueuedCons(events: seq<Event>)
    requires events != []
    ensures Enqueued(events) == Enqueued([events[0]]) + Enqueued(events[1..])
  {
  }

  /** Chaining two conservation steps: what was queued or added is what was settled or still waits. */
  lemma Regroup<T>(queue: seq<T>, added: seq<T>, addedLater: seq<T>,
                   settled: seq<T>, middle: seq<T>, settledLater: seq<T>, last: seq<T>)
    requires queue + added == settled + middle
    requires middle + addedLater == settledLater + last
    ensures queue + (added + addedLater) == (settled + settledLater) + last
  {
    calc {
      queue + (added + addedLater);
      (queue + added) + addedLater;
      (settled + middle) + addedLater;
      settled + (middle + addedLater);
      settled + (settledLater + last);
      (settled + settledLater) + last;
    }
  }

  /**
    Single flight: however the events interleave, the refreshes issued number
    at most one more than the releases (none more if a refresh is already
    flagged), so a second refresh needs the first one released.
   */
  lemma {:induction false} RefreshesBoundedByReleases(c: Client, events: seq<Event>)
    ensures RefreshCount(Run(c, events).effects) <= (if c.refreshing then 0 else 1) + Releases(events)
    decreases |events|
  {
    if events != [] {
      var first := Step(c, events[0]);
      var rest := Run(first.next, events[1..]);
      StepFacts(c, events[0]);
      RefreshesBoundedByReleases(first.next, events[1..]);
      RefreshCountAppend(first.effects, rest.effects);
    }
  }

  /** Without an expired-token failure no refresh is ever issued. */
  lemma {:induction false} RefreshNeedsExpiry(c: Client, events: seq<Event>)
    requires forall i :: 0 <= i < |events| ==> !(events[i].Failed? && Classify(events[i].error) == Expired)
    ensures RefreshCount(Run(c, events).effects) == 0
    decreases |events|
  {
    if events != [] {
      var first := Step(c, events[0]);
      StepFacts(c, events[0]);
      RefreshNeedsExpiry(first.next, events[1..]);
      RefreshCountAppend(first.effects, Run(first.next, events[1..]).effects);
    }
  }

  /** Every event is a 401 failure with code `token.expired`. */
  predicate AllExpired(events: seq<Event>)
  {
    forall i :: 0 <= i < |events| ==> events[i].Failed? && Classify(events[i].error) == Expired
  }

  /** While a refresh is flagged, an expired-token failure only joins the queue. */
  lemma JoinOne(c: Client, err: HttpError, rest: seq<Event>)
    requires c.refreshing && Classify(err) == Expired
    ensures Step(c, Failed(err)) == Transition(c.(queue := c.queue + [err.config]), [])
    ensures Run(c, [Failed(err)] + rest) == Run(c.(queue := c.queue + [err.config]), rest)
  {
  }

  /** While a refresh is flagged, expired-token failures only join the queue, in arrival order. */
  lemma {:induction false} JoinWhileRefreshing(c: Client, events: seq<Event>)
    requires c.refreshing && AllExpired(events)
    ensures Run(c, events).next == c.(queue := c.queue + Enqueued(events))
    ensures Run(c, events).effects == []
    decreases |events|
  {
    if events == [] {
      assert c.queue + Enqueued(events) == c.queue;
    } else {
      var err := events[0].error;
      var c1 := c.(queue := c.queue + [err.config]);
      JoinOne(c, err, events[1..]);
      assert [Failed(err)] + events[1..] == events;
      JoinWhileRefreshing(c1, events[1..]);
      assert Enqueued(events) == [err.config] + Enqueued(events[1..]);
      assert c1.queue + Enqueued(events[1..]) == c.queue + Enqueued(events);
    }
  }

  /**
    A burst of expired-token failures reaching an idle client issues exactly
    one refresh, carrying the refresh token in the cookie store, and queues
    every failing request in arrival order.
   */
  lemma ExpiredBurst(c: Client, events: seq<Event>)
    requires Idle(c) && |events| > 0 && AllExpired(events)
    ensures Run(c, events).effects == [IssueRefresh(Read(c.world.jar, RefreshTokenKey))]
    ensures Run(c, events).next == c.(refreshing := true, inFlight := true, queue := Enqueued(events))
  {
    var err := events[0].error;
    var c1 := c.(refreshing := true, inFlight := true, queue := [err.config]);
    assert Step(c, events[0]) == Transition(c1, [IssueRefresh(Read(c.world.jar, RefreshTokenKey))]);
    RunCons(c, events);
    JoinWhileRefreshing(c1, events[1..]);
    assert Enqueued(events) == [err.config] + Enqueued(events[1..]);
  }

  /**
    The burst's refresh succeeding, then released: every queued request is
    replayed once with the same new token, in arrival order, the cookies and
    header hold the new tokens, and the client is idle again.
   */
  lemma BurstRefreshSucceeds(c: Client, events: seq<Event>, token: string, refreshToken: string)
    requires Idle(c) && |events| > 0 && AllExpired(events)
    ensures var t := Run(c, events + [RefreshSucceeded(token, refreshToken), RefreshReleased]);
      && t.effects == [IssueRefresh(Read(c.world.jar, RefreshTokenKey))] + ResolveAll(Enqueued(events), token)
      && Idle(t.next)
      && t.next.world.header == "Bearer " + token
      && t.next.world.jar == StoreTokens(c.world.jar, token, refreshToken)
  {
    ExpiredBurst(c, events);
    var tail := [RefreshSucceeded(token, refreshToken), RefreshReleased];
    RunAppend(c, events, tail);
    var c1 := Run(c, events).next;
    var settle := Step(c1, tail[0]);
    assert settle.effects == ResolveAll(Enqueued(events), token);
    assert Step(settle.next, tail[1]) == Transition(settle.next.(refreshing := false), []);
    RunCons(c1, tail);
    RunCons(settle.next, tail[1..]);
    assert tail[1..][1..] == [];
  }

  /**
    The burst's refresh failing, then released: every queued request is
    rejected once with the refresh error, in arrival order, signOut is called
    after them, and the client is idle again.
   */
  lemma BurstRefreshFails(c: Client, events: seq<Event>, cause: HttpError)
    requires Idle(c) && |events| > 0 && AllExpired(events)
    ensures var t := Run(c, events + [RefreshFailed(cause), RefreshReleased]);
      && t.effects == [IssueRefresh(Read(c.world.jar, RefreshTokenKey))] + RejectAll(Enqueued(events), cause) + [CallSignOut]
      && Idle(t.next)
      && t.next.world == SignOutAt(c.env, c.world)
  {
    ExpiredBurst(c, events);
    var tail := [RefreshFailed(cause), RefreshReleased];
    RunAppend(c, events, tail);
    var c1 := Run(c, events).next;
    var settle := Step(c1, tail[0]);
    assert settle.effects == RejectAll(Enqueued(events), cause) + [CallSignOut];
    assert Step(settle.next, tail[1]) == Transition(settle.next.(refreshing := false), []);
    RunCons(c1, tail);
    RunCons(settle.next, tail[1..]);
    assert tail[1..][1..] == [];
  }

  /**
    Settling and releasing are separate events here, so the model admits an
    order the JavaScript event loop never produces: the `then` and `finally`
    callbacks run in one microtask drain, with no network response between
    them. In that order an expired-token failure arriving between them joins an
    empty queue while the flag is still set, so no refresh is issued for it;
    after the release it waits in the queue with the flag cleared, and only a
    later expired-token failure gets it settled. This is why the invariant the
    model keeps is only "a refresh outstanding implies the flag set".
   */
  lemma ReleaseWindowLeavesEntryWaiting(c: Client, a: HttpError, b: HttpError, token: string, refreshToken: string)
    requires Idle(c) && Classify(a) == Expired && Classify(b) == Expired
    ensures var t := Run(c, [Failed(a), RefreshSucceeded(token, refreshToken), Failed(b), RefreshReleased]);
      && t.effects == [IssueRefresh(Read(c.world.jar, RefreshTokenKey)), ReplayEntry(a.config, WithBearer(a.config, token))]
      && t.next.queue == [b.config] && !t.next.refreshing && !t.next.inFlight
  {
    var events := [Failed(a), RefreshSucceeded(token, refreshToken), Failed(b), RefreshReleased];
    var s1 := Step(c, events[0]);
    assert s1.next.refreshing && s1.next.inFlight && s1.next.queue == [a.config];
    var s2 := Step(s1.next, events[1]);
    assert s2.effects == ResolveAll([a.config], token) == [ReplayEntry(a.config, WithBearer(a.config, token))];
    assert s2.next.refreshing && !s2.next.inFlight && s2.next.queue == [];
    var s3 := Step(s2.next, events[2]);
    assert s3.next == s2.next.(queue := [b.config]) && s3.effects == [];
    var s4 := Step(s3.next, events[3]);
    assert s4.next == s3.next.(refreshing := false) && s4.effects == [];
    RunCons(c, events);
    RunCons(s1.next, events[1..]);
    RunCons(s2.next, events[2..]);
    RunCons(s3.next, events[3..]);
    assert events[1..][1..] == events[2..] && events[2..][1..] == events[3..] && events[3..][1..] == [];
  }

  lemma RunCons(c: Client, events: seq<Event>)
    requires events != []
    ensures Run(c, events).next == Run(Step(c, events[0]).next, events[1..]).next
    ensures Run(c, events).effects == Step(c, events[0]).effects + Run(Step(c, events[0]).next, events[1..]).effects
  {
  }

  /**
    The entry left waiting by the release window is settled once a later
    expired-token failure starts a new refresh: it is queued ahead of the new
    failure and a refresh is issued.
   */
  lemma WaitingEntryPickedUp(c: Client, b: HttpError, d: HttpError)
    requires !c.refreshing && !c.inFlight && c.queue == [b.config] && Classify(d) == Expired
    ensures Step(c, Failed(d)).next.queue == [b.config, d.config]
    ensures Step(c, Failed(d)).effects == [IssueRefresh(Read(c.world.jar, RefreshTokenKey))]
  {
  }

  /**
    A client built later, whatever module state it inherits, derives the same
    Authorization header from the cookies a successful sign-in wrote as the
    header the sign-in itself set.
   */
  lemma SetupAfterSignIn(shared: Client, env: Env, w: World, creds: Credentials, d: SessionData)
    ensures SetupShared(shared, env, SignIn(w, creds, Ok(d)).jar).world.header == SignIn(w, creds, Ok(d)).header
  {
  }

  /**
    A refresh overwrites the tokens a sign-in stored, and a client built
    afterwards sends the refreshed token. Until the release it also inherits
    the flag still set, so its expired-token failures queue without a refresh.
   */
  lemma SetupAfterRefresh(env: Env, c: Client, token: string, refreshToken: string)
    requires c.inFlight && Inv(c)
    ensures var next := Step(c, RefreshSucceeded(token, refreshToken)).next;
      var built := SetupShared(next, env, next.world.jar);
      && built.world.header == next.world.header == "Bearer " + token
      && built.refreshing && !built.inFlight && built.queue == []
  {
  }

  /**
    Mounting the session context fetches the profile exactly when the token
    cookie is present and non-empty, and changes no state.
   */
  lemma MountFetchesProfile(c: Client)
    ensures Step(c, Mounted).next == c
    ensures Step(c, Mounted).effects == [FetchProfile] <==> TokenKey in c.world.jar && c.world.jar[TokenKey].value != ""
    ensures Step(c, Mounted).effects == [] <==> !(TokenKey in c.world.jar && c.world.jar[TokenKey].value != "")
  {
  }

  /**
    The invariant of the orders the event loop produces: the flag is set
    exactly while a refresh is outstanding, and a request waits only while a
    refresh is outstanding, whose answer will settle it.
   */
  predicate LoopInv(c: Client)
  {
    (c.refreshing <==> c.inFlight) && (c.queue != [] ==> c.inFlight)
  }

  /**
    The event orders JavaScript produces: the refresh's `then`/`catch`
    callback and its `finally` run in one microtask drain, so every refresh
    answer is immediately followed by the release.
   */
  predicate LoopOrder(events: seq<Event>)
    decreases |events|
  {
    if events == [] then true
    else if events[0].RefreshSucceeded? || events[0].RefreshFailed? then
      |events| >= 2 && events[1].RefreshReleased? && LoopOrder(events[2..])
    else LoopOrder(events[1..])
  }

  /** Every event other than a refresh answer keeps the event loop's invariant. */
  lemma LoopStep(c: Client, e: Event)
    requires LoopInv(c) && !e.RefreshSucceeded? && !e.RefreshFailed?
    ensures LoopInv(Step(c, e).next)
  {
    if e.Failed? {
      assert Step(c, e) == OnRejected(c, e.error);
    }
  }

  /**
    A refresh answer followed by its release keeps the event loop's invariant,
    and the answer settles every waiting request, in order, leaving none.
   */
  lemma LoopAnswerRelease(c: Client, e: Event)
    requires LoopInv(c) && (e.RefreshSucceeded? || e.RefreshFailed?)
    ensures Settled(Step(c, e).effects) == c.queue && Step(c, e).next.queue == []
    ensures LoopInv(Step(Step(c, e).next, RefreshReleased).next)
  {
    if c.inFlight {
      match e {
        case RefreshSucceeded(token, refreshToken) =>
          assert Step(c, e) == OnRefreshSucceeded(c, token, refreshToken);
          SettledDrain(c.queue, token, HttpError(Request(0, "", None), None));
        case RefreshFailed(err) =>
          assert Step(c, e) == OnRefreshFailed(c, err);
          SettledDrain(c.queue, "", err);
          SettledAppend(RejectAll(c.queue, err), [CallSignOut]);
          SingleEffect(CallSignOut);
      }
    } else {
      assert c.queue == [] && Step(c, e) == Transition(c, []);
    }
  }

  /** Under the event loop's orders the invariant holds after any run: no request waits without a refresh outstanding. */
  lemma {:induction false} LoopRun(c: Client, events: seq<Event>)
    requires LoopInv(c) && LoopOrder(events)
    ensures LoopInv(Run(c, events).next)
    decreases |events|
  {
    if events != [] {
      var e := events[0];
      RunCons(c, events);
      if e.RefreshSucceeded? || e.RefreshFailed? {
        var c1 := Step(c, e).next;
        LoopAnswerRelease(c, e);
        RunCons(c1, events[1..]);
        assert events[1..][0] == RefreshReleased && events[1..][1..] == events[2..];
        LoopRun(Step(c1, RefreshReleased).next, events[2..]);
      } else {
        LoopStep(c, e);
        LoopRun(Step(c, e).next, events[1..]);
      }
    }
  }
}
