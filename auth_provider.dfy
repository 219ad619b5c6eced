/**
 * The client-side route guard of components/auth-provider.tsx: where a page change
 * sends the visitor, given the stored token and the path. The children are always
 * rendered unchanged, so only the redirect is modelled.
 */
module AuthProvider {
  import opened Wrappers
  import opened Json

  /** `publicRoutes`. */
  const PublicRoutes: seq<string> := ["/", "/register"]

  predicate IsPublic(path: string) {
    path in PublicRoutes
  }

  /** The effect's `router.push`, if any. */
  function GuardRedirect(token: Option<string>, path: string): (r: Option<string>)
    ensures !TruthyOpt(token) && !IsPublic(path) ==> r == Some("/")
    ensures TruthyOpt(token) && IsPublic(path) ==> r == Some("/dashboard")
    ensures r.None? <==> (TruthyOpt(token) <==> !IsPublic(path))
  {
    if !TruthyOpt(token) && !IsPublic(path) then Some("/")
    else if TruthyOpt(token) && IsPublic(path) then Some("/dashboard")
    else None
  }

  /** Exactly the home page and the sign-up page are public. */
  lemma PublicRoutesExactly(path: string)
    ensures IsPublic(path) <==> path == "/" || path == "/register"
  {
  }

  /** Following the redirect lands on a page where the guard does nothing more. */
  lemma RedirectSettles(token: Option<string>, path: string)
    requires GuardRedirect(token, path).Some?
    ensures GuardRedirect(token, GuardRedirect(token, path).value).None?
  {
    assert "/dashboard" != "/" && "/dashboard" != "/register";
  }
}
