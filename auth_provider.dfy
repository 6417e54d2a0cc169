/** The auth bootstrapper (frontend/src/contexts/AuthProvider.tsx). On mount
    it probes the identity provider for the current session and subscribes to
    its auth events; it drives the session store through the fetch saga, and
    publishes a view of the store to the component tree once the probe has
    been decided and no fetch is outstanding. The identity provider and the
    data service appear only as the events they deliver. */
module AuthProvider {
  import opened Wrappers
  import opened Schema
  import opened UserSlice
  import opened UserSaga
  import opened AuthContext
  import opened ProtectedRoute

  /** A session as the identity provider reports it; the user and its id may
      each be missing. */
  datatype SessionUser = SessionUser(id: Option<string>)
  datatype AuthSession = AuthSession(user: Option<SessionUser>)

  /** `session?.user?.id`, kept only when it is truthy (present and non-empty). */
  function SessionUserId(session: Option<AuthSession>): (id: Option<string>)
    ensures id.Some? <==> session.Some? && session.value.user.Some?
                          && session.value.user.value.id.Some? && session.value.user.value.id.value != ""
    ensures id.Some? ==> id.value == session.value.user.value.id.value
  {
    if session.Some? && session.value.user.Some? && session.value.user.value.id.Some?
       && session.value.user.value.id.value != ""
    then session.value.user.value.id
    else None
  }

  /** What a handler dispatched into the store. */
  datatype Dispatched =
    | RequestedFetch(query: LookupQuery)
    | RequestedFetchThenCleared(query: LookupQuery)
    | ClearedUser
    | NothingDispatched

  /** What the provider renders. */
  datatype Screen = LoadingScreen(text: string) | ProvideContext(view: AuthView)

  const LoadingText: string := "Loading..."
  const SignedInEvent: string := "SIGNED_IN"
  const SignedOutEvent: string := "SIGNED_OUT"

  /** The value the provider publishes for a store state. It has no `error`
      field, so consumers read `error` as absent. */
  function PublishedView(s: UserState): (v: AuthView)
    ensures v.user == s.currentUser && v.isLoading == s.loading && v.error.None?
    ensures Consistent(v)
  {
    AuthView(s.currentUser, s.currentUser.Some?, s.loading, None)
  }

  /** The loading gate: the loading screen while the probe is undecided or a
      fetch is outstanding, the published view otherwise. */
  function Render(isInitializing: bool, s: UserState): (r: Screen)
    ensures r.LoadingScreen? <==> isInitializing || s.loading
    ensures r.LoadingScreen? ==> r.text == LoadingText
    ensures r.ProvideContext? ==> r.view == PublishedView(s) && !r.view.isLoading
  {
    if isInitializing || s.loading then LoadingScreen(LoadingText)
    else ProvideContext(PublishedView(s))
  }

  /** A route gate below the provider never shows its own verification
      screen: it renders its children exactly for a signed-in user and
      redirects to the login page otherwise. */
  lemma GateBelowProvider(isInitializing: bool, s: UserState, location: string)
    requires Render(isInitializing, s).ProvideContext?
    ensures !Gate(Render(isInitializing, s).view, location).VerifyingScreen?
    ensures Gate(Render(isInitializing, s).view, location).RenderChildren? <==> s.currentUser.Some?
    ensures Gate(Render(isInitializing, s).view, location).Redirect? <==> s.currentUser.None?
  {
  }

  /** After a request and a successful answer, a provider past its probe
      publishes an authenticated, settled view, and the gate lets the route
      through. */
  lemma SignInScenario(s: UserState, id: string, u: User, location: string)
    ensures var s' := ReduceAll(s, [FetchUserRequest(id), FetchUserSuccess(u)]);
      Render(false, s') == ProvideContext(AuthView(Some(u), true, false, None))
      && Gate(Render(false, s').view, location) == RenderChildren
  {
    RequestThenSuccess(s, id, u);
  }

  /** After `clearUser`, whatever came before, a provider past its probe
      either shows its loading screen (a fetch is still outstanding) or
      publishes a signed-out view, which the gate redirects to login. */
  lemma SignOutScenario(s: UserState, actions: seq<UserAction>, location: string)
    ensures var s' := ReduceAll(s, actions + [ClearUser]);
      Render(false, s').LoadingScreen? ||
      (Render(false, s') == ProvideContext(AuthView(None, false, false, None))
       && Gate(Render(false, s').view, location).Redirect?)
  {
    EndsInClearUser(s, actions);
  }

  /** The provider component while mounted, and after unmount. */
  class Provider {
    const store: UserStore
    const saga: FetchWatcher
    var isInitializing: bool
    var subscribed: bool
    var unsubscribeCalls: nat

    /** The store is loading exactly while the newest lookup is outstanding,
        and the subscription has been released once if and only if it is no
        longer held. */
    predicate Valid()
      reads this, store, saga
    {
      && saga.Synced(store)
      && unsubscribeCalls == (if subscribed then 0 else 1)
    }

    /** What the provider renders now. */
    function Current(): Screen
      reads this, store
    {
      Render(isInitializing, store.State())
    }

    /** Mount: a fresh store and watcher, the probe started, the auth-event
        subscription held. */
    constructor ()
      ensures Valid() && fresh(store) && fresh(saga)
      ensures isInitializing && subscribed && unsubscribeCalls == 0
      ensures store.State() == InitialState() && saga.latest == 0
      ensures Current() == LoadingScreen(LoadingText)
    {
      store := new UserStore();
      saga := new FetchWatcher();
      isInitializing := true;
      subscribed := true;
      unsubscribeCalls := 0;
    }

    /** "Request fetch for id": `fetchUserRequest(id)` goes to the store and
        the saga starts the lookup. */
    method RequestFetch(id: string) returns (d: Dispatched)
      requires Valid()
      modifies store, saga
      ensures Valid()
      ensures d == RequestedFetch(LookupQuery(saga.latest, id))
      ensures store.State() == Reduce(old(store.State()), FetchUserRequest(id))
      ensures saga.latest == old(saga.latest) + 1 && saga.inFlight == Some(id)
    {
      var q := saga.Request(store, id);
      d := RequestedFetch(q);
    }

    /** `dispatch(clearUser())`; the watcher is untouched. */
    method Clear() returns (d: Dispatched)
      requires Valid()
      modifies store
      ensures Valid()
      ensures d == ClearedUser
      ensures store.State() == Reduce(old(store.State()), UserAction.ClearUser)
    {
      store.ClearUser();
      d := ClearedUser;
    }

    /** The session probe answered. A session with a usable user id
        requests a fetch for that id; `dispatch` hands back the plain request
        action, which has no `unwrap`, so the call throws and the `catch`
        clears the user straight after. Any other answer only clears the
        user. Either way the provider leaves its initializing phase, without
        waiting for the fetch. */
    method ProbeResolved(session: Option<AuthSession>) returns (d: Dispatched)
      requires Valid()
      modifies this, store, saga
      ensures Valid() && !isInitializing
      ensures subscribed == old(subscribed) && unsubscribeCalls == old(unsubscribeCalls)
      ensures store.State().currentUser.None?
      ensures match SessionUserId(session)
        case Some(id) =>
          && d == RequestedFetchThenCleared(LookupQuery(saga.latest, id))
          && store.State() == ReduceAll(old(store.State()), [FetchUserRequest(id), UserAction.ClearUser])
          && store.State().loading
          && saga.latest == old(saga.latest) + 1 && saga.inFlight == Some(id)
        case None =>
          && d == ClearedUser
          && store.State() == Reduce(old(store.State()), UserAction.ClearUser)
          && saga.latest == old(saga.latest) && saga.inFlight == old(saga.inFlight)
    {
      var id := SessionUserId(session);
      if id.Some? {
        ghost var before := store.State();
        var requested := RequestFetch(id.value);
        var cleared := Clear();
        ghost var requestedState := Reduce(before, FetchUserRequest(id.value));
        assert ReduceAll(requestedState, [UserAction.ClearUser]) == Reduce(requestedState, UserAction.ClearUser) by {
          assert [UserAction.ClearUser][1..] == [];
        }
        assert [FetchUserRequest(id.value), UserAction.ClearUser][1..] == [UserAction.ClearUser];
        assert store.State() == ReduceAll(before, [FetchUserRequest(id.value), UserAction.ClearUser]);
        d := RequestedFetchThenCleared(requested.query);
      } else {
        d := Clear();
      }
      isInitializing := false;
    }

    /** The session probe threw: the error is logged, the user cleared and
        the initializing phase ends. */
    method ProbeThrew() returns (d: Dispatched)
      requires Valid()
      modifies this, store
      ensures Valid() && !isInitializing
      ensures subscribed == old(subscribed) && unsubscribeCalls == old(unsubscribeCalls)
      ensures d == ClearedUser
      ensures store.State() == Reduce(old(store.State()), UserAction.ClearUser)
    {
      d := Clear();
      isInitializing := false;
    }

    /** The `onAuthStateChange` callback, delivered only while subscribed:
        `SIGNED_IN` with a usable id requests a fetch, `SIGNED_OUT` clears the
        user, anything else changes nothing. */
    method OnAuthStateChange(event: string, session: Option<AuthSession>) returns (d: Dispatched)
      requires Valid() && subscribed
      modifies store, saga
      ensures Valid()
      ensures event == SignedInEvent && SessionUserId(session).Some? ==>
        && d == RequestedFetch(LookupQuery(saga.latest, SessionUserId(session).value))
        && store.State() == Reduce(old(store.State()), FetchUserRequest(SessionUserId(session).value))
        && saga.latest == old(saga.latest) + 1 && saga.inFlight == SessionUserId(session)
      ensures event == SignedOutEvent ==>
        && d == ClearedUser
        && store.State() == Reduce(old(store.State()), UserAction.ClearUser)
        && saga.latest == old(saga.latest) && saga.inFlight == old(saga.inFlight)
      ensures !(event == SignedInEvent && SessionUserId(session).Some?) && event != SignedOutEvent ==>
        && d == NothingDispatched
        && store.State() == old(store.State())
        && saga.latest == old(saga.latest) && saga.inFlight == old(saga.inFlight)
    {
      var id := SessionUserId(session);
      if event == SignedInEvent && id.Some? {
        d := RequestFetch(id.value);
      } else if event == SignedOutEvent {
        d := Clear();
      } else {
        d := NothingDispatched;
      }
    }

    /** A user lookup came back. The saga is not tied to the component, so
        this can happen after unmount too; only the newest lookup counts. */
    method FetchSettled(generation: nat, o: LookupOutcome) returns (put: Option<UserAction>)
      requires Valid()
      modifies saga, store
      ensures Valid()
      ensures put.Some? <==> generation == old(saga.latest) && old(saga.inFlight).Some?
      ensures put.Some? ==> put.value == FetchUserSaga(o)
                            && store.State() == Reduce(old(store.State()), put.value)
      ensures put.None? ==> store.State() == old(store.State())
    {
      put := saga.Settle(store, generation, o);
    }

    /** Unmount: the effect's cleanup releases the subscription, once. */
    method Unmount()
      requires Valid() && subscribed
      modifies this
      ensures Valid() && !subscribed && unsubscribeCalls == 1
      ensures isInitializing == old(isInitializing)
    {
      subscribed := false;
      unsubscribeCalls := unsubscribeCalls + 1;
    }
  }

  /** The bootstrap scenario with a session for `id`: the probe requests a
      fetch for `id` and clears the user, the newest lookup answers with `u`,
      and the provider then renders the children an authenticated view. */
  method BootstrapWithSession(id: string, u: User) returns (screen: Screen)
    requires id != ""
    ensures screen == ProvideContext(AuthView(Some(u), true, false, None))
  {
    var p := new Provider();
    var d := p.ProbeResolved(Some(AuthSession(Some(SessionUser(Some(id))))));
    var put := p.FetchSettled(d.query.generation, LookupOutcome.Resolved(Some([Some(u)])));
    screen := p.Current();
  }

  /** The bootstrap scenario without a session: the probe clears the user,
      no fetch is started, and the provider renders a signed-out view. */
  method BootstrapWithoutSession() returns (d: Dispatched, screen: Screen)
    ensures d == ClearedUser
    ensures screen == ProvideContext(AuthView(None, false, false, None))
  {
    var p := new Provider();
    d := p.ProbeResolved(None);
    screen := p.Current();
  }
}
