/**
 * `RequireAuth`: what a protected page shows for the session's state, and
 * where it sends a visitor who is not signed in.
 */
module Guard {
  import opened Wrappers
  import Auth

  /** The three things the guard can render. */
  datatype View = Skeleton | Blank | Children

  /** One render: the view, and the `router.replace` target the effect issues, if any. */
  datatype Decision = Decision(view: View, redirect: Option<string>)

  const LoginPrefix := "/login?next="
  const DefaultNext := "/dashboard"

  /** `pathname || "/dashboard"`: the page to come back to after signing in. */
  function NextPath(pathname: Option<string>): (p: string)
    ensures p != ""
    ensures pathname.Some? && pathname.value != "" ==> p == pathname.value
    ensures pathname.None? || pathname.value == "" ==> p == DefaultNext
  {
    OrElse(pathname, DefaultNext)
  }

  /** The sign-in page, carrying the encoded return path as its `next` parameter. */
  function RedirectTarget(pathname: Option<string>, encode: string -> string): (t: string)
    ensures |t| >= |LoginPrefix| && t[..|LoginPrefix|] == LoginPrefix
    ensures t[|LoginPrefix|..] == encode(NextPath(pathname))
  {
    LoginPrefix + encode(NextPath(pathname))
  }

  /**
   * The skeleton until the session is restored; then nothing plus a redirect
   * when nobody is signed in, or the protected children when someone is.
   */
  function Decide(hydrated: bool, user: Option<Auth.User>, pathname: Option<string>,
                  encode: string -> string): (d: Decision)
    ensures d.view == Skeleton <==> !hydrated
    ensures d.view == Blank <==> hydrated && user.None?
    ensures d.view == Children <==> hydrated && user.Some?
    ensures d.redirect.Some? <==> hydrated && user.None?
    ensures d.redirect.Some? ==> d.redirect.value == RedirectTarget(pathname, encode)
  {
    var redirect := if hydrated && user.None? then Some(RedirectTarget(pathname, encode)) else None;
    if !hydrated then Decision(Skeleton, redirect)
    else if user.None? then Decision(Blank, redirect)
    else Decision(Children, redirect)
  }

  /** A freshly mounted session shows the skeleton and sends nobody anywhere. */
  lemma GuardBeforeHydration(store: map<string, string>, pathname: Option<string>, encode: string -> string)
    ensures Decide(Auth.Initial(store).hydrated, Auth.Initial(store).user, pathname, encode)
            == Decision(Skeleton, None)
  {
  }

  /** Once restored, a successful sign-in opens the protected page. */
  lemma GuardAfterLogin(s: Auth.AuthState, email: string, password: string, stringify: Auth.User -> string,
                        pathname: Option<string>, encode: string -> string)
    requires s.hydrated && password == Auth.DemoPassword
    ensures var r := Auth.AfterLogin(s, email, password, stringify).0;
            Decide(r.hydrated, r.user, pathname, encode) == Decision(Children, None)
  {
  }

  /** Once restored, signing out sends the visitor to sign in and back to the same page. */
  lemma GuardAfterLogout(s: Auth.AuthState, pathname: Option<string>, encode: string -> string)
    requires s.hydrated
    ensures var r := Auth.AfterLogout(s);
            Decide(r.hydrated, r.user, pathname, encode)
            == Decision(Blank, Some(LoginPrefix + encode(NextPath(pathname))))
  {
  }
}
