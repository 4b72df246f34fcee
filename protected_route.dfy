/** The route guard: the children for a signed-in visitor, otherwise a
    redirect to the login page that remembers where the visitor was going. */
module ProtectedRoute {

  /** The `auth` slice of the store: the flag the guard reads and the user record it ignores. */
  datatype AuthState<U> = AuthState(authStatus: bool, userData: U)

  /** `<Navigate to state={{ from }} replace />` or the children. */
  datatype Rendered = Children | Navigate(to: string, from: string, replace: bool)

  const LoginPath := "/login"

  function Guard<U>(auth: AuthState<U>, pathname: string): Rendered {
    if !auth.authStatus then Navigate(LoginPath, pathname, true) else Children
  }

  /** Signed in: the children and no redirect; signed out: a replacing redirect to the login
      page carrying the current path. */
  lemma GuardDecision<U>(auth: AuthState<U>, pathname: string)
    ensures Guard(auth, pathname).Children? <==> auth.authStatus
    ensures !auth.authStatus ==> Guard(auth, pathname) == Navigate("/login", pathname, true)
  {
  }

  /** The user record never matters, and the path only as the remembered `from`. */
  lemma GuardReadsOnlyStatus<U>(a: AuthState<U>, b: AuthState<U>, p: string, q: string)
    requires a.authStatus == b.authStatus
    ensures Guard(a, p).Children? == Guard(b, q).Children?
    ensures Guard(a, p) == Guard(b, p)
    ensures Guard(a, p).Navigate? ==> Guard(a, p).to == Guard(b, q).to && Guard(a, p).replace == Guard(b, q).replace
  {
  }
}
