/** The request filter in front of every page: paths under the member
    areas need a signed-in user and send anyone else to the login page,
    which remembers where they were going; the login page sends a user
    who is already signed in home. Everything else passes untouched, and
    the session is looked up only for those two kinds of path. */
module Middleware {
  import opened Common

  const ProtectedPaths := ["/profile", "/game", "/admin"]
  const AuthPaths := ["/login"]

  /** `prefixes.some(p => path.startsWith(p))`. */
  predicate StartsWithAny(path: string, prefixes: seq<string>) {
    exists i | 0 <= i < |prefixes| :: StartsWith(path, prefixes[i])
  }

  /** A member-area path: a plain prefix test, so "/gamex" counts too. */
  predicate IsProtected(path: string) {
    StartsWithAny(path, ProtectedPaths)
  }

  predicate IsAuth(path: string) {
    StartsWithAny(path, AuthPaths)
  }

  datatype Decision = PassThrough | RedirectToLogin(returnTo: string) | RedirectHome

  /** The filter's answer and whether it asked for the session's user. */
  datatype Routing = Routing(decision: Decision, lookedUp: bool)

  /** `middleware`, with the session's user (present or not) as a
      parameter. */
  function Route(path: string, signedIn: bool): (r: Routing)
    ensures r.lookedUp <==> IsProtected(path) || IsAuth(path)
    ensures r.decision == RedirectToLogin(path) <==> IsProtected(path) && !signedIn
    ensures r.decision == RedirectHome <==> IsAuth(path) && signedIn
    ensures r.decision.RedirectToLogin? ==> r.decision.returnTo == path
  {
    var isProtected := IsProtected(path);
    var isAuth := IsAuth(path);
    if isProtected || isAuth then
      if isProtected && !signedIn then Routing(RedirectToLogin(path), true)
      else if isAuth && signedIn then Routing(RedirectHome, true)
      else Routing(PassThrough, true)
    else Routing(PassThrough, false)
  }

  /** The three member areas and the login page, prefix by prefix. */
  lemma Classification(path: string)
    ensures IsProtected(path) <==> StartsWith(path, "/profile") || StartsWith(path, "/game") || StartsWith(path, "/admin")
    ensures IsAuth(path) <==> StartsWith(path, "/login")
  {
    if StartsWith(path, "/profile") {
      assert StartsWith(path, ProtectedPaths[0]);
    }
    if StartsWith(path, "/game") {
      assert StartsWith(path, ProtectedPaths[1]);
    }
    if StartsWith(path, "/admin") {
      assert StartsWith(path, ProtectedPaths[2]);
    }
    if StartsWith(path, "/login") {
      assert StartsWith(path, AuthPaths[0]);
    }
  }

  /** No path is both a member-area path and the login page, so a user is
      never sent both ways. */
  lemma ProtectedIsNotAuth(path: string)
    ensures !(IsProtected(path) && IsAuth(path))
  {
    Classification(path);
    if StartsWith(path, "/login") {
      assert path[1] == 'l';
      assert "/profile"[1] == 'p' && "/game"[1] == 'g' && "/admin"[1] == 'a';
      forall p | p in ProtectedPaths && |p| <= |path|
        ensures path[..|p|] != p
      {
        assert path[..|p|][1] == path[1];
      }
    }
  }

  /** The redirects never loop: a visitor sent to the login page is let
      through there, and a user sent home is let through at "/". */
  lemma RedirectsSettle(path: string, signedIn: bool)
    ensures Route(path, signedIn).decision.RedirectToLogin? ==> Route("/login", signedIn).decision == PassThrough
    ensures Route(path, signedIn).decision == RedirectHome ==> Route("/", signedIn).decision == PassThrough
  {
    Classification("/login");
    ProtectedIsNotAuth("/login");
    Classification("/");
  }

  /** The prefix test is loose: "/gamex" is a member-area path, and so
      every path that merely begins with one of the prefixes. */
  lemma LoosePrefix(rest: string)
    ensures IsProtected("/game" + rest)
    ensures Route("/game" + rest, false).decision == RedirectToLogin("/game" + rest)
  {
    assert StartsWith("/game" + rest, ProtectedPaths[1]) by {
      assert ("/game" + rest)[..5] == "/game";
    }
  }
}
