/** The request gate of lib/supabase/middleware.ts (`updateSession`): which
    requests pass through and which are redirected, decided by the
    datastore configuration, the signed-in user and the path. */
module Middleware {
  import opened Common

  const AuthPrefix: string := "/auth"
  const LoginPath: string := "/auth/login"
  const DashboardPath: string := "/dashboard"
  const SignUpSuccessPath: string := "/auth/sign-up-success"
  const RootPath: string := "/"

  datatype Decision = Next | Redirect(pathname: string)

  /** The outcome for a request to `path`. `url` and `anonKey` are the two
      environment variables; `user` is the signed-in user, and `getUserFails`
      stands for the user lookup throwing, which is caught and lets the
      request through. */
  function UpdateSession(url: Option<string>, anonKey: Option<string>, user: Option<Id>, getUserFails: bool,
                         path: string)
    : (d: Decision)
    ensures !Truthy(url) || !Truthy(anonKey) || getUserFails ==> d == Next
    ensures d.Redirect? ==> d.pathname == LoginPath || d.pathname == DashboardPath
    ensures d == Redirect(LoginPath) <==>
      && Truthy(url) && Truthy(anonKey) && !getUserFails
      && user.None? && !StartsWith(path, AuthPrefix) && path != RootPath
    ensures d == Redirect(DashboardPath) <==>
      && Truthy(url) && Truthy(anonKey) && !getUserFails
      && user.Some? && StartsWith(path, AuthPrefix) && path != SignUpSuccessPath
  {
    if !Truthy(url) || !Truthy(anonKey) then Next
    else if getUserFails then Next
    else if user.None? && !StartsWith(path, AuthPrefix) && path != RootPath then Redirect(LoginPath)
    else if user.Some? && StartsWith(path, AuthPrefix) && path != SignUpSuccessPath then Redirect(DashboardPath)
    else Next
  }

  lemma LoginPathIsAuthPage()
    ensures StartsWith(LoginPath, AuthPrefix)
  {
    assert LoginPath[..|AuthPrefix|] == AuthPrefix;
  }

  lemma DashboardPathIsNotAuthPage()
    ensures !StartsWith(DashboardPath, AuthPrefix)
  {
    assert DashboardPath[1] != AuthPrefix[1];
  }

  /** No redirect loop: the page a request is sent to is let through for
      the same visitor. */
  lemma RedirectTargetSettles(url: Option<string>, anonKey: Option<string>, user: Option<Id>, path: string)
    requires UpdateSession(url, anonKey, user, false, path).Redirect?
    ensures UpdateSession(url, anonKey, user, false, UpdateSession(url, anonKey, user, false, path).pathname) == Next
  {
    LoginPathIsAuthPage();
    DashboardPathIsNotAuthPage();
  }

  /** An anonymous visitor reaches a page outside `/auth` only at the root. */
  lemma AnonymousOnlyReachesPublicPages(url: Option<string>, anonKey: Option<string>, path: string)
    requires Truthy(url) && Truthy(anonKey)
    requires UpdateSession(url, anonKey, None, false, path) == Next
    ensures StartsWith(path, AuthPrefix) || path == RootPath
  {
  }

  /** A signed-in user is kept off every auth page except the sign-up
      confirmation. */
  lemma SignedInUserKeptOffAuthPages(url: Option<string>, anonKey: Option<string>, user: Id, path: string)
    requires Truthy(url) && Truthy(anonKey)
    requires UpdateSession(url, anonKey, Some(user), false, path) == Next
    ensures !StartsWith(path, AuthPrefix) || path == SignUpSuccessPath
  {
  }
}
