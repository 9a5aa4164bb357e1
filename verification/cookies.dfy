/**
  The cookie store shared by the API client and the session context, seen as a
  map from cookie name to cookie record, together with the two token cookies
  the application keeps in it.
 */
module Cookies {
  import opened Options

  /** Name of the cookie holding the access token. */
  const TokenKey: string := "nextauth.token"
  /** Name of the cookie holding the refresh token. */
  const RefreshTokenKey: string := "nextauth.refreshToken"
  /** Retention of both token cookies: thirty days, in seconds. */
  const MaxAge: int := 60 * 60 * 24 * 30
  /** Path scope of both token cookies. */
  const RootPath: string := "/"

  /** A stored cookie; `maxAge` is only recorded, expiry is not modelled. */
  datatype Cookie = Cookie(value: string, maxAge: int, path: string)

  type Jar = map<string, Cookie>

  /** The value `parseCookies()[key]` yields: absent cookies read as `undefined`. */
  function Read(jar: Jar, key: string): (v: Option<string>)
  {
    if key in jar then Some(jar[key].value) else None
  }

  /** How a possibly-undefined value prints inside a JavaScript template literal. */
  function Text(v: Option<string>): (s: string)
  {
    match v
    case Some(s) => s
    case None => "undefined"
  }

  /** The Authorization header value `Bearer ${v}`. */
  function Bearer(v: Option<string>): (h: string)
    ensures v.Some? ==> h == "Bearer " + v.value
    ensures v.None? ==> h == "Bearer undefined"
  {
    "Bearer " + Text(v)
  }

  /** `setCookie(_, key, value, { maxAge: 30 days, path: '/' })`. */
  function Write(jar: Jar, key: string, value: string): (r: Jar)
  {
    jar[key := Cookie(value, MaxAge, RootPath)]
  }

  /** Both token cookies written, access token first, as sign-in and refresh do. */
  function StoreTokens(jar: Jar, token: string, refreshToken: string): (r: Jar)
    ensures r.Keys == jar.Keys + {TokenKey, RefreshTokenKey}
    ensures r[TokenKey] == Cookie(token, 2592000, "/")
    ensures r[RefreshTokenKey] == Cookie(refreshToken, 2592000, "/")
    ensures Read(r, TokenKey) == Some(token) && Read(r, RefreshTokenKey) == Some(refreshToken)
    ensures forall k :: k != TokenKey && k != RefreshTokenKey ==> Read(r, k) == Read(jar, k)
    ensures forall k :: k in jar && k != TokenKey && k != RefreshTokenKey ==> r[k] == jar[k]
  {
    assert TokenKey != RefreshTokenKey by { assert |TokenKey| != |RefreshTokenKey|; }
    Write(Write(jar, TokenKey, token), RefreshTokenKey, refreshToken)
  }

  /** Both token cookies destroyed (`destroyCookie` twice); every other cookie kept. */
  function ClearTokens(jar: Jar): (r: Jar)
    ensures r.Keys == jar.Keys - {TokenKey, RefreshTokenKey}
    ensures Read(r, TokenKey) == None && Read(r, RefreshTokenKey) == None
    ensures forall k :: k in r ==> k in jar && r[k] == jar[k]
  {
    (jar - {TokenKey}) - {RefreshTokenKey}
  }

  /** Clearing undoes storing on every cookie the store already held apart from the tokens. */
  lemma ClearAfterStore(jar: Jar, token: string, refreshToken: string)
    ensures ClearTokens(StoreTokens(jar, token, refreshToken)) == ClearTokens(jar)
  {
  }
}
