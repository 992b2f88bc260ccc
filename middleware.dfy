/**
 * The two access-control dependables that guard every route: the frontend
 * one (pages) and the operations one (form posts under /auth/). Each looks at
 * the request's path and at the logged-in user, if any, and either lets the
 * request through or raises an HTTP exception.
 */
module Middleware {
  import opened Wrappers

  const FRONTEND_MUST_BE_LOGGED_OUT_PATHS: seq<string> := ["/login/", "/signup/"]

  const OPERATIONS_MUST_BE_LOGGED_OUT_PATHS: seq<string> := [
    "/auth/filterProspect/",
    "/auth/unsuitableProspectFunnel/",
    "/auth/request-verification/",
    "/auth/verify/",
    "/auth/authenticate/"
  ]

  const ONBOARDING_PATH: string := "/welcome/"
  const LOGIN_PATH: string := "/login/"
  const HOME_PATH: string := "/"

  const HTTP_307_TEMPORARY_REDIRECT: int := 307
  const HTTP_401_UNAUTHORIZED: int := 401

  /** The active user as the dependables see it: all they read is whether
      (and when) onboarding was completed. */
  datatype User = User(completedOnboardingAt: Option<int>)

  /** What a dependable does with a request: nothing, or raise an
      `HTTPException` with a status and an optional `Location` header. */
  datatype Outcome = Proceed | Raise(status: int, location: Option<string>)

  /** `s.rstrip("/")`. */
  function RStripSlashes(s: string): (r: string)
    ensures |r| <= |s| && r == s[..|r|]
    ensures forall i :: |r| <= i < |s| ==> s[i] == '/'
    ensures r == [] || r[|r| - 1] != '/'
  {
    if s != [] && s[|s| - 1] == '/' then RStripSlashes(s[..|s| - 1]) else s
  }

  /** `_get_path_from_request`: the request URL with as many leading characters
      cut off as the base URL has once its trailing slashes are stripped.
      Nothing is parsed, so a query string stays in the path; and when the base
      URL really is a prefix of the URL, base and path give the URL back. */
  function PathFromRequest(baseUrl: string, url: string): (path: string)
    ensures var base := RStripSlashes(baseUrl);
            |path| == (if |base| <= |url| then |url| - |base| else 0)
    ensures path == url[|url| - |path|..]
    ensures var base := RStripSlashes(baseUrl);
            base <= url ==> base + path == url
  {
    var base := RStripSlashes(baseUrl);
    if |base| <= |url| then url[|base|..] else ""
  }

  /** `frontend_auth_middleware`. Lets the request through exactly when a
      logged-out user asks for a logged-out page, or a logged-in user asks for
      any other page and has completed onboarding or is asking for the
      onboarding page; every refusal is a temporary redirect, to the login page
      for a logged-out user, home for a logged-in user on a logged-out page,
      and the onboarding page otherwise. */
  function FrontendAuth(path: string, user: Option<User>): (o: Outcome)
    ensures o == Proceed <==>
              (user.None? && path in FRONTEND_MUST_BE_LOGGED_OUT_PATHS)
              || (user.Some? && path !in FRONTEND_MUST_BE_LOGGED_OUT_PATHS
                  && (user.value.completedOnboardingAt.Some? || path == ONBOARDING_PATH))
    ensures o.Raise? ==> o.status == HTTP_307_TEMPORARY_REDIRECT
    ensures o.Raise? && user.None? ==> o.location == Some(LOGIN_PATH)
    ensures o.Raise? && user.Some? && path in FRONTEND_MUST_BE_LOGGED_OUT_PATHS ==>
              o.location == Some(HOME_PATH)
    ensures o.Raise? && user.Some? && path !in FRONTEND_MUST_BE_LOGGED_OUT_PATHS ==>
              o.location == Some(ONBOARDING_PATH)
  {
    if user.None? && path !in FRONTEND_MUST_BE_LOGGED_OUT_PATHS then
      Raise(HTTP_307_TEMPORARY_REDIRECT, Some(LOGIN_PATH))
    else if user.Some? then
      if path in FRONTEND_MUST_BE_LOGGED_OUT_PATHS then
        Raise(HTTP_307_TEMPORARY_REDIRECT, Some(HOME_PATH))
      else if user.value.completedOnboardingAt.None? && path != ONBOARDING_PATH then
        Raise(HTTP_307_TEMPORARY_REDIRECT, Some(ONBOARDING_PATH))
      else
        Proceed
    else
      Proceed
  }

  /** `operations_auth_middleware`. Refuses (401, no redirect) exactly the
      logged-in users on the five logged-out operations; a logged-out user is
      never refused. Its second branch, a redirect home under the very same
      condition, can never be reached: no request is ever redirected. */
  function OperationsAuth(path: string, user: Option<User>): (o: Outcome)
    ensures o != Proceed <==> user.Some? && path in OPERATIONS_MUST_BE_LOGGED_OUT_PATHS
    ensures o.Raise? ==> o.status == HTTP_401_UNAUTHORIZED && o.location == None
  {
    if user.Some? && path in OPERATIONS_MUST_BE_LOGGED_OUT_PATHS then
      Raise(HTTP_401_UNAUTHORIZED, None)
    else if user.Some? && path in OPERATIONS_MUST_BE_LOGGED_OUT_PATHS then
      Raise(HTTP_307_TEMPORARY_REDIRECT, Some(HOME_PATH))
    else
      Proceed
  }

  /** The allowlist is matched on the whole path, query string included: a
      logged-out user asking for the login page with any query string is sent
      to the login page again (without the query string). */
  lemma {:induction false} QueryStringDefeatsAllowlist(query: string)
    ensures FrontendAuth("/login/?" + query, None) == Raise(HTTP_307_TEMPORARY_REDIRECT, Some(LOGIN_PATH))
  {
    var p := "/login/?" + query;
    assert p[7] == '?';
    assert p != "/login/" && p != "/signup/";
  }

  /** Following the frontend redirects settles: whatever the path and user,
      the page redirected to lets that user through, or redirects once more to
      a page that does. No user is ever caught in a redirect loop. */
  lemma RedirectsSettle(path: string, user: Option<User>)
    ensures var o := FrontendAuth(path, user);
            o.Raise? ==>
              var o2 := FrontendAuth(o.location.value, user);
              o2 == Proceed || (o2.Raise? && FrontendAuth(o2.location.value, user) == Proceed)
  {
  }

  /** Requests whose path is an exact allowlisted page are routed on login
      state alone: a logged-out user passes, a logged-in one goes home,
      whatever the onboarding state. */
  lemma AllowlistedPages(path: string, user: Option<User>)
    requires path in FRONTEND_MUST_BE_LOGGED_OUT_PATHS
    ensures FrontendAuth(path, user) ==
              if user.None? then Proceed else Raise(HTTP_307_TEMPORARY_REDIRECT, Some(HOME_PATH))
  {
  }
}
