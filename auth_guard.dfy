/** The route guard (src/components/auth/AuthGuard.tsx): where it navigates and what it shows. */
module AuthGuard {
  import opened Wrappers
  import opened Session

  const AuthPath := "/auth"
  const HomePath := "/"

  /** `requireAuth = true`: the prop's default. */
  function RequireAuth(prop: Option<bool>): (r: bool)
    ensures prop.None? ==> r
    ensures prop.Some? ==> r == prop.value
  {
    prop.GetOr(true)
  }

  /** The effect's decision: the path `navigate` is called with, if any. */
  function Redirect(loading: bool, requireAuth: bool, user: Option<User>, path: string): (target: Option<string>)
    ensures loading ==> target.None?
    ensures target == Some(AuthPath) <==> !loading && requireAuth && user.None? && path != AuthPath
    ensures target == Some(HomePath) <==> !loading && !requireAuth && user.Some? && path == AuthPath
    ensures target.Some? ==> target.value in {AuthPath, HomePath}
  {
    if loading then None
    else if requireAuth && user.None? && path != AuthPath then Some(AuthPath)
    else if !requireAuth && user.Some? && path == AuthPath then Some(HomePath)
    else None
  }

  /** A redirect never targets the page already shown, so the guard cannot loop on one path. */
  lemma RedirectMoves(loading: bool, requireAuth: bool, user: Option<User>, path: string)
    ensures Redirect(loading, requireAuth, user, path).Some? ==> Redirect(loading, requireAuth, user, path).value != path
  {
  }

  /** Once redirected, the guard at the target path with the same inputs stays put. */
  lemma RedirectSettles(requireAuth: bool, user: Option<User>, path: string)
    requires Redirect(false, requireAuth, user, path).Some?
    ensures Redirect(false, requireAuth, user, Redirect(false, requireAuth, user, path).value).None?
  {
  }

  /** What the guard renders: the loading view while the session is resolving, then its children. */
  datatype View = Loading | Children

  function Render(loading: bool): (v: View)
    ensures v == Loading <==> loading
  {
    if loading then Loading else Children
  }
}
