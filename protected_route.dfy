/** The route gate (frontend/src/components/ProtectedRoute.tsx): from the
    published view it decides, on every render, whether to show the
    verification screen, redirect to the login page, or render the route. */
module ProtectedRoute {
  import opened AuthContext

  /** What the gate renders. The redirect replaces the history entry and
      carries the location that was asked for. */
  datatype RouteOutcome =
    | VerifyingScreen(text: string)
    | Redirect(to: string, from: string, replace: bool)
    | RenderChildren

  const VerifyingText: string := "Verifying authentication..."
  const LoginPath: string := "/login"

  /** The gate. It reads only `isLoading` and `isAuthenticated`; loading wins
      over everything else, and the children are rendered only for an
      authenticated, settled view. */
  function Gate(view: AuthView, location: string): (o: RouteOutcome)
    ensures o.VerifyingScreen? <==> view.isLoading
    ensures o.VerifyingScreen? ==> o.text == VerifyingText
    ensures o.Redirect? <==> !view.isLoading && !view.isAuthenticated
    ensures o.Redirect? ==> o.to == LoginPath && o.from == location && o.replace
    ensures o.RenderChildren? <==> !view.isLoading && view.isAuthenticated
  {
    if view.isLoading then VerifyingScreen(VerifyingText)
    else if !view.isAuthenticated then Redirect(LoginPath, location, true)
    else RenderChildren
  }

  /** User, error and role play no part in the decision. */
  lemma GateReadsOnlyFlags(v1: AuthView, v2: AuthView, location: string)
    requires v1.isLoading == v2.isLoading && v1.isAuthenticated == v2.isAuthenticated
    ensures Gate(v1, location) == Gate(v2, location)
  {
  }

  /** A route rendered outside any provider sees the default view and stays
      on the verification screen. */
  lemma WithoutProviderVerifying(location: string)
    ensures Gate(DefaultView(), location) == VerifyingScreen(VerifyingText)
  {
  }
}
