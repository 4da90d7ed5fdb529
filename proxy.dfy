/** The admin route gate run in front of every page request: a decision over
    the request path and whether the request carries a session. */
module Proxy {
  import opened Strings

  datatype Decision = Redirect(target: string) | Pass

  const LoginPath := "/admin/login"
  const RegisterPath := "/admin/register"
  const AdminPath := "/admin"

  predicate IsAdminRoute(path: string) {
    StartsWith(path, AdminPath)
  }

  /** The login or register pages, and anything below them. */
  predicate IsAuthRoute(path: string) {
    StartsWith(path, LoginPath) || StartsWith(path, RegisterPath)
  }

  function Decide(path: string, loggedIn: bool): Decision {
    if IsAdminRoute(path) && !IsAuthRoute(path) && !loggedIn then Redirect(LoginPath)
    else if IsAuthRoute(path) && loggedIn then Redirect(AdminPath)
    else Pass
  }

  /** An anonymous visitor of an admin page other than login and register is
      sent to the login page. */
  lemma AnonymousAdminGoesToLogin(path: string)
    requires IsAdminRoute(path) && !IsAuthRoute(path)
    ensures Decide(path, false) == Redirect(LoginPath)
  {
  }

  /** A signed-in visitor of the login or register page is sent to the admin
      home. */
  lemma SignedInAuthGoesHome(path: string)
    requires IsAuthRoute(path)
    ensures Decide(path, true) == Redirect(AdminPath)
  {
  }

  /** Everything else passes: the decision redirects exactly in the two cases
      above. */
  lemma PassesOtherwise(path: string, loggedIn: bool)
    ensures Decide(path, loggedIn) == Pass <==>
      !(IsAdminRoute(path) && !IsAuthRoute(path) && !loggedIn) && !(IsAuthRoute(path) && loggedIn)
    ensures !IsAdminRoute(path) && !IsAuthRoute(path) ==> Decide(path, loggedIn) == Pass
    ensures IsAuthRoute(path) && !loggedIn ==> Decide(path, false) == Pass
  {
  }

  /** The login and register pages lie under `/admin`, so the gate must
      exempt them from the sign-in redirect. */
  lemma AuthRoutesAreAdminRoutes(path: string)
    requires IsAuthRoute(path)
    ensures IsAdminRoute(path)
  {
    if StartsWith(path, LoginPath) {
      StartsWithTransitive(path, LoginPath, AdminPath);
    } else {
      StartsWithTransitive(path, RegisterPath, AdminPath);
    }
  }

  /** No redirect loops: the page a request is sent to passes the gate under
      the same session state. */
  lemma NoRedirectLoop(path: string, loggedIn: bool)
    ensures Decide(path, loggedIn).Redirect? ==> Decide(Decide(path, loggedIn).target, loggedIn) == Pass
  {
    if Decide(path, loggedIn).Redirect? {
      if loggedIn {
        assert !StartsWith(AdminPath, LoginPath) && !StartsWith(AdminPath, RegisterPath);
      } else {
        // the login page is itself an admin route, and passes only because it
        // is excluded as an auth route
        assert StartsWith(LoginPath, LoginPath);
        AuthRoutesAreAdminRoutes(LoginPath);
      }
    }
  }
}
