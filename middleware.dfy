/**
 * The route guard's redirect decision (src/middleware.ts): which requests
 * are sent to the login page, which to the dashboard, and which go through.
 * Whether a signed-in user is present is an input; fetching the session and
 * the cookie plumbing around it are not part of this model.
 */
module RouteGuard {

  /** The three outcomes of the guard. */
  datatype Decision = RedirectToLogin | RedirectToDashboard | PassThrough

  /** Path prefixes that need a signed-in user. */
  const ProtectedPrefixes: seq<string> := ["/dashboard", "/inventory", "/sales", "/purchases", "/reports"]

  /** Exact paths a signed-in user is sent away from. */
  const GuestPages: seq<string> := ["/login", "/signup", "/"]

  /** `String.prototype.startsWith`: `prefix` is an initial segment of `s`. */
  predicate StartsWith(s: string, prefix: string)
  {
    prefix <= s
  }

  /** The first guard: no user, and the path starts with a protected prefix. */
  predicate LoginRedirectApplies(userPresent: bool, pathname: string)
  {
    !userPresent && (
      StartsWith(pathname, "/dashboard") ||
      StartsWith(pathname, "/inventory") ||
      StartsWith(pathname, "/sales") ||
      StartsWith(pathname, "/purchases") ||
      StartsWith(pathname, "/reports"))
  }

  /** The second guard: a user, and the path is exactly a guest page. */
  predicate DashboardRedirectApplies(userPresent: bool, pathname: string)
  {
    userPresent && (pathname == "/login" || pathname == "/signup" || pathname == "/")
  }

  /** The guard's decision for one request, the two checks tried in the source's order. */
  function Decide(userPresent: bool, pathname: string): (d: Decision)
    ensures d == RedirectToLogin ==> !userPresent
    ensures d == RedirectToDashboard ==> userPresent
  {
    if LoginRedirectApplies(userPresent, pathname) then RedirectToLogin
    else if DashboardRedirectApplies(userPresent, pathname) then RedirectToDashboard
    else PassThrough
  }

  /** The path a redirect sends the browser to. */
  function Target(d: Decision): string
    requires d != PassThrough
  {
    if d == RedirectToLogin then "/login" else "/dashboard"
  }

  /**
   * The decision in terms of the two lists: a visitor without a session is
   * sent to the login page exactly when some protected prefix begins the
   * path, a signed-in user is sent to the dashboard exactly when the path is
   * one of the guest pages, and every other request goes through.
   */
  lemma DecideExactly(userPresent: bool, pathname: string)
    ensures Decide(userPresent, pathname) == RedirectToLogin <==>
      !userPresent && exists k :: 0 <= k < |ProtectedPrefixes| && StartsWith(pathname, ProtectedPrefixes[k])
    ensures Decide(userPresent, pathname) == RedirectToDashboard <==> userPresent && pathname in GuestPages
  {
    if LoginRedirectApplies(userPresent, pathname) {
      var k := if StartsWith(pathname, "/dashboard") then 0
               else if StartsWith(pathname, "/inventory") then 1
               else if StartsWith(pathname, "/sales") then 2
               else if StartsWith(pathname, "/purchases") then 3
               else 4;
      assert StartsWith(pathname, ProtectedPrefixes[k]);
    }
  }

  /** The two guards are exclusive: one needs a user, the other needs none. */
  lemma GuardsExclusive(userPresent: bool, pathname: string)
    ensures !(LoginRedirectApplies(userPresent, pathname) && DashboardRedirectApplies(userPresent, pathname))
  {
  }

  /** No path that begins with a protected prefix is a guest page. */
  lemma ProtectedPathIsNoGuestPage(k: nat, path: string)
    requires k < |ProtectedPrefixes|
    ensures StartsWith(path, ProtectedPrefixes[k]) ==> path !in GuestPages
  {
    var p := ProtectedPrefixes[k];
    if StartsWith(path, p) {
      assert |p| >= 6 && path[1] == p[1] && path[2] == p[2];
      assert p[1] != 'l' && (p[1] == 's' ==> p[2] == 'a');
      assert path != "/login" by { assert "/login"[1] == 'l'; }
      assert path != "/signup" by { assert "/signup"[1] == 's' && "/signup"[2] == 'i'; }
    }
  }

  /** Any path that begins with a protected prefix, whatever follows it, sends a visitor without a session to the login page. */
  lemma ProtectedPrefixRedirects(k: nat, rest: string)
    requires k < |ProtectedPrefixes|
    ensures Decide(false, ProtectedPrefixes[k] + rest) == RedirectToLogin
  {
    assert StartsWith(ProtectedPrefixes[k] + rest, ProtectedPrefixes[k]);
    DecideExactly(false, ProtectedPrefixes[k] + rest);
  }

  /** Matching is by prefix only: "/salesfoo" is protected too. */
  lemma SalesFooRedirects()
    ensures Decide(false, "/salesfoo") == RedirectToLogin
  {
    ProtectedPrefixRedirects(2, "foo");
  }

  /** A signed-in user on any protected path goes through, since the dashboard redirect compares whole paths. */
  lemma SignedInProtectedPassesThrough(k: nat, pathname: string)
    requires k < |ProtectedPrefixes| && StartsWith(pathname, ProtectedPrefixes[k])
    ensures Decide(true, pathname) == PassThrough
  {
    ProtectedPathIsNoGuestPage(k, pathname);
    DecideExactly(true, pathname);
  }

  /** A signed-in user below the login or signup page, such as "/login/x", goes through. */
  lemma SignedInBelowGuestPagePassesThrough(page: string, rest: string)
    requires (page == "/login" || page == "/signup") && rest != []
    ensures Decide(true, page + rest) == PassThrough
  {
    var p := page + rest;
    assert |p| >= 7 && p[1] == page[1];
    assert p != "/signup" by { assert page == "/login" ==> p[1] == 'l'; }
    DecideExactly(true, p);
  }

  /** A visitor without a session reaches the home, login and signup pages. */
  lemma GuestPagesOpenWithoutSession(page: string)
    requires page in GuestPages
    ensures Decide(false, page) == PassThrough
  {
    forall k | 0 <= k < |ProtectedPrefixes|
      ensures !StartsWith(page, ProtectedPrefixes[k])
    {
      ProtectedPathIsNoGuestPage(k, page);
    }
    DecideExactly(false, page);
  }

  /** A redirect never leads to another redirect: its target always goes through. */
  lemma NoRedirectLoop(userPresent: bool, pathname: string)
    ensures var d := Decide(userPresent, pathname);
            d != PassThrough ==> Decide(userPresent, Target(d)) == PassThrough
  {
    var d := Decide(userPresent, pathname);
    if d == RedirectToLogin {
      GuestPagesOpenWithoutSession("/login");
    } else if d == RedirectToDashboard {
      SignedInProtectedPassesThrough(0, "/dashboard");
    }
  }
}
