/** The authentication view published to the component tree
    (frontend/src/contexts/AuthContext.ts). */
module AuthContext {
  import opened Wrappers
  import opened Schema

  /** `AuthContextType`: exactly these four fields. */
  datatype AuthView = AuthView(user: Option<User>, isAuthenticated: bool, isLoading: bool, error: Option<string>)

  /** A view is consistent when it calls someone authenticated exactly when it
      names a user. */
  predicate Consistent(v: AuthView) {
    v.isAuthenticated <==> v.user.Some?
  }

  /** The value a consumer sees when no provider is above it: no user, not
      authenticated, still loading, no error. */
  function DefaultView(): (v: AuthView)
    ensures v.user.None? && !v.isAuthenticated && v.isLoading && v.error.None?
    ensures Consistent(v)
  {
    AuthView(None, false, true, None)
  }
}
