/** The edge route guard of the storefront: it sends visitors without a
    session token away from the admin and checkout pages, and signed-in
    visitors away from the login and register pages. */
module RouteGuard {
  import opened Wrappers

  datatype Decision = Pass | Redirect(target: string)

  /** The token cookie counts only when it is present and non-empty. */
  predicate HasToken(token: Option<string>) {
    token.Some? && token.value != ""
  }

  /** The middleware's decision for a request path and its token cookie. */
  function Decide(pathname: string, token: Option<string>): (d: Decision)
    ensures d.Redirect? ==> d.target == "/login" || d.target == "/"
    ensures d == Redirect("/login") <==> !HasToken(token) && ("/admin" <= pathname || "/checkout" <= pathname)
    ensures d == Redirect("/") <==> HasToken(token) && (pathname == "/login" || pathname == "/register")
  {
    if "/admin" <= pathname && !HasToken(token) then Redirect("/login")
    else if "/checkout" <= pathname && !HasToken(token) then Redirect("/login")
    else if HasToken(token) && (pathname == "/login" || pathname == "/register") then Redirect("/")
    else Pass
  }

  /** The paths the guard is installed on: /admin and /checkout with any
      further segments, /login and /register. */
  predicate Guarded(pathname: string) {
    pathname == "/admin" || "/admin/" <= pathname ||
    pathname == "/checkout" || "/checkout/" <= pathname ||
    pathname == "/login" || pathname == "/register"
  }

  /** What a request meets: the guard's decision on guarded paths, and
      nothing at all elsewhere. */
  function Route(pathname: string, token: Option<string>): (d: Decision)
    ensures !Guarded(pathname) ==> d == Pass
    ensures Guarded(pathname) ==> d == Decide(pathname, token)
  {
    if Guarded(pathname) then Decide(pathname, token) else Pass
  }

  /** No redirect loop: the page a visitor is sent to lets the same visitor through. */
  lemma NoRedirectLoop(pathname: string, token: Option<string>)
    ensures Decide(pathname, token).Redirect? ==> Decide(Decide(pathname, token).target, token) == Pass
    ensures Route(pathname, token).Redirect? ==> Route(Route(pathname, token).target, token) == Pass
  {
    assert !("/admin" <= "/login") && !("/checkout" <= "/login") by {
      assert "/login"[1] == 'l';
    }
  }

  /** Any non-empty token opens the admin pages: the role is not checked here. */
  lemma AdminNeedsOnlyAToken(suffix: string, token: string)
    requires token != ""
    ensures Decide("/admin" + suffix, Some(token)) == Pass
  {
    assert "/admin" <= "/admin" + suffix;
    assert "/admin" + suffix != "/login" && "/admin" + suffix != "/register" by {
      assert ("/admin" + suffix)[1] == 'a';
    }
    assert !("/checkout" <= "/admin" + suffix) by {
      assert ("/admin" + suffix)[1] == 'a';
    }
  }

  /** The decision matches by prefix, so a path such as /administrator would be
      refused without a token; the installed path patterns never hand it to
      the guard, so the request goes through. */
  lemma PrefixMatching()
    ensures Decide("/administrator", None) == Redirect("/login")
    ensures Route("/administrator", None) == Pass
  {
    assert "/admin" <= "/administrator";
    assert !Guarded("/administrator") by {
      assert "/administrator"[6] == 'i';
    }
  }
}
