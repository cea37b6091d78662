/**
 * The session cookies shared by the API client, the route guard and the
 * sign-out effect: their names, the options every write uses, how the
 * access token is read from a cookie jar and what signing out removes.
 * A cookie jar is a map from cookie name to value.
 */
module Session {
  import opened Options

  type Jar = map<string, string>

  const TokenCookie: string := "nextauth.token"
  const RefreshTokenCookie: string := "nextauth.refreshToken"

  /** Every session cookie is written with a 30-day max-age, in seconds, on the root path. */
  const MaxAge: int := 60 * 60 * 24 * 30
  const CookiePath: string := "/"

  /** Reading a cookie that may be absent. */
  function Lookup(jar: Jar, name: string): Option<string> {
    if name in jar then Some(jar[name]) else None
  }

  /**
   * The access token as the guard sees it: a missing cookie and an empty
   * one are both falsy, so neither counts as a token.
   */
  function SessionToken(jar: Jar): Option<string> {
    if TokenCookie in jar && jar[TokenCookie] != "" then Some(jar[TokenCookie]) else None
  }

  /** A possibly-undefined string interpolated into a template literal. */
  function Interpolate(v: Option<string>): string {
    v.GetOr("undefined")
  }

  /** The value of an Authorization header carrying `token`. */
  function Bearer(token: string): string {
    "Bearer " + token
  }

  /** What signing out does to the jar: both session cookies are destroyed, nothing else changes. */
  function Clear(jar: Jar): (r: Jar)
    ensures TokenCookie !in r && RefreshTokenCookie !in r
    ensures r.Keys == jar.Keys - {TokenCookie, RefreshTokenCookie}
    ensures forall k :: k in r ==> r[k] == jar[k]
  {
    jar - {TokenCookie, RefreshTokenCookie}
  }

  /** Signing out twice leaves the jar as signing out once did, with no session left. */
  lemma ClearIdempotent(jar: Jar)
    ensures Clear(Clear(jar)) == Clear(jar)
    ensures SessionToken(Clear(jar)) == None
  {
  }
}
