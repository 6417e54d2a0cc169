/** The sign-out button (frontend/src/components/SignOut.tsx; the dashboard
    page repeats the same handler). One click makes one call to the identity
    provider; only a successful call clears the session and navigates home. */
module SignOut {
  import opened UserSlice

  /** How the provider's `signOut()` came back. */
  datatype SignOutResult = SignedOut | ProviderError(message: string) | Threw

  /** The observable steps of the handler, in order. */
  datatype Effect =
    | CallProviderSignOut
    | LogError(prefix: string)
    | DispatchClearUser
    | Navigate(path: string)

  const HomePath: string := "/"
  const SignOutErrorLabel: string := "Error signing out:"
  const UnexpectedErrorLabel: string := "Unexpected error during sign out:"

  /** `handleSignOut`, given how the provider call ends. */
  method HandleSignOut(store: UserStore, result: SignOutResult) returns (effects: seq<Effect>)
    modifies store
    ensures result.SignedOut? ==>
      && effects == [CallProviderSignOut, DispatchClearUser, Navigate(HomePath)]
      && store.State() == Reduce(old(store.State()), UserAction.ClearUser)
    ensures result.ProviderError? ==>
      && effects == [CallProviderSignOut, LogError(SignOutErrorLabel)]
      && store.State() == old(store.State())
    ensures result.Threw? ==>
      && effects == [CallProviderSignOut, LogError(UnexpectedErrorLabel)]
      && store.State() == old(store.State())
  {
    effects := [CallProviderSignOut];
    match result {
      case ProviderError(_) =>
        effects := effects + [LogError(SignOutErrorLabel)];
        return;
      case Threw =>
        effects := effects + [LogError(UnexpectedErrorLabel)];
        return;
      case SignedOut =>
    }
    store.ClearUser();
    effects := effects + [DispatchClearUser];
    effects := effects + [Navigate(HomePath)];
  }
}
