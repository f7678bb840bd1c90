/** The global route guard (frontend/middleware/navguard.global.ts). It first
    awaits `fetchUser()` (frontend/stores/auth.ts:9-13), which asks /whoami who
    is signed in. The HTTP client's response interceptor
    (frontend/utils/http.ts:29-40) turns a failed request into `undefined`, and
    `fetchUser` then reads `.data` of it and throws. The outcome of /whoami is a
    parameter. Route paths start with '/'. */
module NavGuard {

  import opened Wrappers

  /** A path the router navigates to. */
  type RoutePath = p: string | |p| > 0 && p[0] == '/' witness "/"

  /** What the middleware returns: nothing (the navigation proceeds),
      `navigateTo(path)`, or `abortNavigation()`. */
  datatype Decision = Proceed | Redirect(path: string) | Abort

  const LoginPath := "/login"

  /** The guard as written: the second test compares against "login",
      without the leading slash. */
  function GuardAsWritten(path: string, user: Option<string>): Decision
  {
    if path != LoginPath && user.None? then Redirect(LoginPath)
    else if path == "login" && user.Some? then Abort
    else Proceed
  }

  /** No route path equals "login", so the guard as written never aborts:
      a signed-in user who opens the login page is let through. */
  lemma AsWrittenNeverAborts(path: RoutePath, user: Option<string>)
    ensures GuardAsWritten(path, user) != Abort
    ensures GuardAsWritten(LoginPath, Some("someone@example.org")) == Proceed
  {
    assert "login"[0] == 'l';
  }

  /** The guard with the login page's own path in both tests. */
  function Guard(path: string, user: Option<string>): Decision
  {
    if path != LoginPath && user.None? then Redirect(LoginPath)
    else if path == LoginPath && user.Some? then Abort
    else Proceed
  }

  /** Visitors who are not signed in are sent to the login page from every
      other page and only from there; the login page itself is let through,
      so there is no redirect loop; signed-in users are kept off the login
      page and nowhere else. */
  lemma GuardDecides(path: string, user: Option<string>)
    ensures Guard(path, user) == Redirect(LoginPath) <==> path != LoginPath && user.None?
    ensures Guard(path, user) == Abort <==> path == LoginPath && user.Some?
    ensures Guard(path, user) == Proceed <==> (path == LoginPath) == user.None?
    ensures user.None? ==> Guard(LoginPath, user) == Proceed
  {
  }

  /** The two differ only on the login page for a signed-in user. */
  lemma GuardsAgreeElsewhere(path: RoutePath, user: Option<string>)
    ensures GuardAsWritten(path, user) != Guard(path, user) <==> path == LoginPath && user.Some?
  {
    AsWrittenNeverAborts(path, user);
  }

  /** What /whoami answered: a failed request, or the signed-in user. */
  datatype Fetch = Failed | Fetched(user: string)

  /** How a navigation through the guard ends: the guard throws, or it
      returns a decision. */
  datatype Outcome = Threw | Decided(decision: Decision)

  /** The guard as written, from the outcome of /whoami: a failed fetch throws
      inside `fetchUser`, before either test runs; otherwise the guard decides
      with the user it fetched. */
  function RunAsWritten(path: string, fetch: Fetch): Outcome
  {
    match fetch
    case Failed => Threw
    case Fetched(u) => Decided(GuardAsWritten(path, Some(u)))
  }

  /** As written, the redirect to the login page never happens: when nobody is
      signed in /whoami fails, `fetchUser` throws, and the guard throws with
      it; when it succeeds, there is a user. A visitor who is not signed in is
      never sent to /login. */
  lemma AsWrittenNeverRedirects(path: RoutePath, fetch: Fetch)
    ensures RunAsWritten(path, fetch) != Decided(Redirect(LoginPath))
    ensures fetch.Failed? ==> RunAsWritten(path, fetch) == Threw
  {
  }

  /** The user `fetchUser` leaves behind: none after a failed fetch. */
  function UserAfter(fetch: Fetch): (r: Option<string>)
    ensures r.None? <==> fetch.Failed?
  {
    match fetch
    case Failed => None
    case Fetched(u) => Some(u)
  }

  /** The guard with `fetchUser` clearing the user on a failed fetch and the
      login path restored. */
  function Run(path: string, fetch: Fetch): Outcome
  {
    Decided(Guard(path, UserAfter(fetch)))
  }

  /** The corrected guard always decides. A visitor whose /whoami fails is
      sent to the login page from every other page and let through on it; a
      signed-in user is kept off the login page and nowhere else. */
  lemma RunDecides(path: string, fetch: Fetch)
    ensures Run(path, fetch).Decided?
    ensures Run(path, fetch) == Decided(Redirect(LoginPath)) <==> path != LoginPath && fetch.Failed?
    ensures Run(path, fetch) == Decided(Abort) <==> path == LoginPath && fetch.Fetched?
    ensures Run(path, fetch) == Decided(Proceed) <==> (path == LoginPath) == fetch.Failed?
  {
    GuardDecides(path, UserAfter(fetch));
  }
}
