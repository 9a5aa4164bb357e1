/**
  The session context: signing in, signing out, restoring the user on mount,
  and the state those transitions share with the API client.
 */
module Session {
  import opened Options
  import opened Cookies
  import opened Http

  /** Where sign-out navigates. */
  const SignOutTarget: string := "/"
  /** Where a successful sign-in navigates. */
  const SignInTarget: string := "/dashboard"

  datatype User = User(email: string, permissions: seq<string>, roles: seq<string>)

  datatype Credentials = Credentials(email: string, password: string)

  /** Body of the sign-in endpoint's response. */
  datatype SessionData = SessionData(token: string, refreshToken: string, permissions: seq<string>, roles: seq<string>)

  /** Body of the identity endpoint's response. */
  datatype Profile = Profile(email: string, permissions: seq<string>, roles: seq<string>)

  /**
    The state the session context and the API client share: the cookie store,
    the client's default Authorization header, the context's user, and every
    navigation pushed so far (the last one is the current route).
   */
  datatype World = World(jar: Jar, header: string, user: Option<User>, nav: seq<string>)

  /** Deletes both token cookies and navigates to the sign-in page. */
  function SignOut(w: World): (r: World)
    ensures TokenKey !in r.jar && RefreshTokenKey !in r.jar
    ensures forall k :: k != TokenKey && k != RefreshTokenKey ==> Read(r.jar, k) == Read(w.jar, k)
    ensures forall k :: k in r.jar ==> k in w.jar && r.jar[k] == w.jar[k]
    ensures r.nav == w.nav + ["/"]
    ensures r.user == w.user && r.header == w.header
  {
    w.(jar := ClearTokens(w.jar), nav := w.nav + [SignOutTarget])
  }

  /**
    Applies the awaited outcome of the sign-in request. On success both token
    cookies, the user, the header and the route change; a failure is swallowed
    and leaves everything as it was.
   */
  function SignIn(w: World, creds: Credentials, outcome: Result<SessionData, ApiError>): (r: World)
    ensures outcome.Err? ==> r == w
    ensures outcome.Ok? ==>
      var d := outcome.value;
      && TokenKey in r.jar && RefreshTokenKey in r.jar
      && r.jar[TokenKey] == Cookie(d.token, 2592000, "/")
      && r.jar[RefreshTokenKey] == Cookie(d.refreshToken, 2592000, "/")
      && (forall k :: k != TokenKey && k != RefreshTokenKey ==> Read(r.jar, k) == Read(w.jar, k))
      && (forall k :: k in w.jar && k != TokenKey && k != RefreshTokenKey ==> k in r.jar && r.jar[k] == w.jar[k])
      && r.user == Some(User(creds.email, d.permissions, d.roles))
      && r.header == "Bearer " + d.token
      && r.nav == w.nav + ["/dashboard"]
  {
    match outcome
    case Err(_) => w
    case Ok(d) =>
      World(StoreTokens(w.jar, d.token, d.refreshToken),
            "Bearer " + d.token,
            Some(User(creds.email, d.permissions, d.roles)),
            w.nav + [SignInTarget])
  }

  /** Whether mounting the context fetches the profile: only for a present, non-empty token cookie. */
  function ShouldFetchProfile(jar: Jar): (r: bool)
    ensures r <==> TokenKey in jar && jar[TokenKey].value != ""
  {
    match Read(jar, TokenKey)
    case None => false
    case Some(token) => token != ""
  }

  /** Applies the awaited outcome of the profile request made on mount. */
  function OnProfile(w: World, outcome: Result<Profile, ApiError>): (r: World)
    ensures outcome.Ok? ==>
      r == w.(user := Some(User(outcome.value.email, outcome.value.permissions, outcome.value.roles)))
    ensures outcome.Err? ==> r == SignOut(w)
    ensures outcome.Err? ==>
      && TokenKey !in r.jar && RefreshTokenKey !in r.jar
      && r.nav == w.nav + ["/"] && r.user == w.user && r.header == w.header
  {
    match outcome
    case Ok(p) => w.(user := Some(User(p.email, p.permissions, p.roles)))
    case Err(_) => SignOut(w)
  }

  /** `isAuthenticated = !!user`: a user object is always truthy. */
  function IsAuthenticated(w: World): (r: bool)
  {
    w.user.Some?
  }

  /**
    Round trip through the cookie store: after a successful sign-in the token
    cookies read back as the response's tokens, and the header the sign-in set
    is the one a freshly built client derives from those cookies.
   */
  lemma SignInRoundTrip(w: World, creds: Credentials, d: SessionData)
    ensures var r := SignIn(w, creds, Ok(d));
      && Read(r.jar, TokenKey) == Some(d.token)
      && Read(r.jar, RefreshTokenKey) == Some(d.refreshToken)
      && r.header == Bearer(Read(r.jar, TokenKey))
  {
  }

  /**
    Authentication follows the user only: sign-in success authenticates, a
    swallowed failure changes nothing, and sign-out leaves the user in place.
   */
  lemma AuthenticationTransitions(w: World, creds: Credentials, outcome: Result<SessionData, ApiError>)
    ensures outcome.Ok? ==> IsAuthenticated(SignIn(w, creds, outcome))
    ensures outcome.Err? ==> IsAuthenticated(SignIn(w, creds, outcome)) == IsAuthenticated(w)
    ensures IsAuthenticated(SignOut(w)) == IsAuthenticated(w)
  {
  }

  /**
    What the restore on mount leads to: a profile answer authenticates the user
    and keeps the cookies, so a later mount fetches the profile again; a failed
    profile request removes the token cookie, so a later mount fetches nothing,
    and leaves the authentication as it was.
   */
  lemma RestoreOutcome(w: World, outcome: Result<Profile, ApiError>)
    requires ShouldFetchProfile(w.jar)
    ensures outcome.Ok? ==> IsAuthenticated(OnProfile(w, outcome)) && ShouldFetchProfile(OnProfile(w, outcome).jar)
    ensures outcome.Err? ==> !ShouldFetchProfile(OnProfile(w, outcome).jar)
    ensures outcome.Err? ==> IsAuthenticated(OnProfile(w, outcome)) == IsAuthenticated(w)
  {
  }

  /** Signing out twice deletes nothing more than signing out once; only the route is pushed again. */
  lemma SignOutTwice(w: World)
    ensures SignOut(SignOut(w)).jar == SignOut(w).jar
    ensures SignOut(SignOut(w)).nav == w.nav + ["/", "/"]
  {
  }
}
