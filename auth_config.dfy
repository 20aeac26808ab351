/**
 * The NextAuth configuration of auth.config.ts: the sign-in page and the
 * `authorized` callback the middleware runs on every request.
 */
module AuthConfig {
  import opened Wrappers

  /** `pages.signIn`: where NextAuth sends a request the callback refuses. */
  const SignInPage := "/login"

  /** The literal prefix that marks the protected area. */
  const DashboardPrefix := "/dashboard"

  /** Where a signed-in user asking for a public page is sent. */
  const DashboardRoot := "/dashboard"

  datatype User = User(email: string)

  /** The session NextAuth passes as `auth`; it may be absent, and so may its user. */
  datatype Session = Session(user: Option<User>)

  /** What the callback returns: `true`, `false`, or a `Response.redirect`. */
  datatype Decision = Allow | Deny | RedirectTo(location: string)

  /** `!!auth?.user`: false when the session is missing and when it has no user; any user object is truthy. */
  predicate IsLoggedIn(auth: Option<Session>)
    ensures IsLoggedIn(auth) <==> exists u: User :: auth == Some(Session(Some(u)))
  {
    auth.Some? && auth.value.user.Some?
  }

  /** JavaScript's `s.startsWith(prefix)`, one character at a time. */
  function StartsWith(s: string, prefix: string): (r: bool)
    ensures r <==> prefix <= s
  {
    if prefix == [] then true
    else if s == [] then false
    else s[0] == prefix[0] && StartsWith(s[1..], prefix[1..])
  }

  /** `authorized({ auth, request: { nextUrl } })`, with `pathname` the requested path. */
  function Authorized(auth: Option<Session>, pathname: string): (d: Decision)
    ensures d == Allow <==> (DashboardPrefix <= pathname <==> IsLoggedIn(auth))
    ensures d == Deny <==> DashboardPrefix <= pathname && !IsLoggedIn(auth)
    ensures d.RedirectTo? <==> !(DashboardPrefix <= pathname) && IsLoggedIn(auth)
    ensures d.RedirectTo? ==> d.location == DashboardRoot
  {
    var isLoggedIn := IsLoggedIn(auth);
    var isOnDashboard := StartsWith(pathname, DashboardPrefix);
    if isOnDashboard then
      if isLoggedIn then Allow else Deny
    else if isLoggedIn then
      RedirectTo(DashboardRoot)
    else
      Allow
  }

  /** The path the browser ends up requesting next: NextAuth turns a refusal into a visit to the sign-in page. */
  function NextPath(d: Decision, pathname: string): (next: string)
    ensures d.Allow? ==> next == pathname
    ensures d.Deny? ==> next == SignInPage && !(DashboardPrefix <= next)
    ensures d.RedirectTo? ==> next == d.location
  {
    match d
    case Allow => pathname
    case Deny => SignInPage
    case RedirectTo(location) => location
  }

  /**
   * The gate never sends a browser round in circles: whatever it decides,
   * the page it sends the browser to is allowed for the same session.
   */
  lemma NoRedirectLoop(auth: Option<Session>, pathname: string)
    ensures Authorized(auth, NextPath(Authorized(auth, pathname), pathname)) == Allow
  {
  }

  /**
   * The protection test is a literal string prefix, not a path-segment match:
   * `/dashboardfoo` is protected like `/dashboard/invoices`, and `/dash` is not,
   * whoever asks.
   */
  lemma PrefixNotSegment(auth: Option<Session>)
    ensures StartsWith("/dashboard", DashboardPrefix)
    ensures StartsWith("/dashboard/invoices", DashboardPrefix)
    ensures StartsWith("/dashboardfoo", DashboardPrefix)
    ensures !StartsWith("/dash", DashboardPrefix)
    ensures Authorized(auth, "/dashboardfoo") == (if IsLoggedIn(auth) then Allow else Deny)
    ensures Authorized(auth, "/dash") == (if IsLoggedIn(auth) then RedirectTo(DashboardRoot) else Allow)
  {
  }
}
