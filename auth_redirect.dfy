/** `useRequireAuth`: where a guarded page sends a visitor who may not see it. */
module AuthRedirect {
  import opened Wrappers

  /** The effect's decision; `None` means stay on the page. */
  function RedirectTarget(loading: bool, signedIn: bool, isAdmin: bool, requireAdmin: bool): (r: Option<string>)
    ensures loading ==> r.None?
    ensures !loading && !signedIn ==> r == Some(if requireAdmin then "/admin/login" else "/login")
    ensures !loading && signedIn && requireAdmin && !isAdmin ==> r == Some("/")
  {
    if loading then None
    else if !signedIn then Some(if requireAdmin then "/admin/login" else "/login")
    else if requireAdmin && !isAdmin then Some("/")
    else None
  }

  /** A visitor stays exactly when the state is still loading, or they are signed in and either admin or not required to be. */
  lemma StaysIff(loading: bool, signedIn: bool, isAdmin: bool, requireAdmin: bool)
    ensures RedirectTarget(loading, signedIn, isAdmin, requireAdmin).None? <==>
      loading || (signedIn && (isAdmin || !requireAdmin))
  {
  }

  /** The admin sign-in page is the destination only for anonymous visitors to admin pages. */
  lemma AdminLoginOnlyForAdminPages(loading: bool, signedIn: bool, isAdmin: bool, requireAdmin: bool)
    ensures RedirectTarget(loading, signedIn, isAdmin, requireAdmin) == Some("/admin/login") <==>
      !loading && !signedIn && requireAdmin
  {
  }
}
