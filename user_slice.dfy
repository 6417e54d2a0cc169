/** The session store (frontend/src/store/userSlice.ts): a record
    `{currentUser, loading, error}` changed only by six actions. `Reduce` is
    the slice's reducer as Redux sees it (state and action in, state out);
    `UserStore` is the store object whose fields the reducers assign in place. */
module UserSlice {
  import opened Wrappers
  import opened Schema

  datatype UserState = UserState(currentUser: Option<User>, loading: bool, error: Option<string>)

  datatype UserAction =
    | SetUser(user: User)
    | ClearUser
    | SetError(message: string)
    | FetchUserRequest(userId: string)
    | FetchUserSuccess(user: User)
    | FetchUserFailure(message: string)

  /** The state the store starts in: nobody signed in, nothing loading, no error. */
  function InitialState(): (s: UserState)
    ensures s.currentUser.None? && !s.loading && s.error.None?
  {
    UserState(None, false, None)
  }

  /** The reducer. Each action writes only some of the three fields; the
      contract says which action may write which field. */
  function Reduce(s: UserState, a: UserAction): (r: UserState)
    // `loading` is raised only by a request and lowered only by its outcome
    ensures r.loading == (if a.FetchUserRequest? then true
                          else if a.FetchUserSuccess? || a.FetchUserFailure? then false
                          else s.loading)
    // the user changes only through setUser, clearUser or a successful fetch
    ensures r.currentUser != s.currentUser ==> a.SetUser? || a.ClearUser? || a.FetchUserSuccess?
    ensures a.ClearUser? ==> r.currentUser.None?
    ensures a.SetUser? || a.FetchUserSuccess? ==> r.currentUser == Some(a.user)
    // an error is recorded only by setError or a failed fetch; everything else clears it
    ensures r.error == (if a.SetError? || a.FetchUserFailure? then Some(a.message) else None)
  {
    match a
    case SetUser(u) => s.(currentUser := Some(u), error := None)
    case ClearUser => s.(currentUser := None, error := None)
    case SetError(m) => s.(error := Some(m))
    case FetchUserRequest(_) => s.(loading := true, error := None)
    case FetchUserSuccess(u) => s.(loading := false, currentUser := Some(u), error := None)
    case FetchUserFailure(m) => s.(loading := false, error := Some(m))
  }

  /** The state after dispatching `actions` in order, starting from `s`. */
  function ReduceAll(s: UserState, actions: seq<UserAction>): UserState
    decreases |actions|
  {
    if actions == [] then s else ReduceAll(Reduce(s, actions[0]), actions[1..])
  }

  /** Dispatching one more action acts on the state the earlier ones left. */
  lemma {:induction false} ReduceAllSnoc(s: UserState, actions: seq<UserAction>, a: UserAction)
    ensures ReduceAll(s, actions + [a]) == Reduce(ReduceAll(s, actions), a)
    decreases |actions|
  {
    if actions == [] {
      assert [] + [a] == [a];
    } else {
      assert (actions + [a])[1..] == actions[1..] + [a];
      ReduceAllSnoc(Reduce(s, actions[0]), actions[1..], a);
    }
  }

  /** Whatever happened before, a history that ends in `clearUser` leaves no
      user and no error, and `loading` as it was just before. */
  lemma EndsInClearUser(s: UserState, actions: seq<UserAction>)
    ensures ReduceAll(s, actions + [ClearUser]).currentUser.None?
    ensures ReduceAll(s, actions + [ClearUser]).error.None?
    ensures ReduceAll(s, actions + [ClearUser]).loading == ReduceAll(s, actions).loading
  {
    ReduceAllSnoc(s, actions, ClearUser);
  }

  /** The id carried by a request is for the saga: the reducer ignores it. */
  lemma RequestIgnoresId(s: UserState, id1: string, id2: string)
    ensures Reduce(s, FetchUserRequest(id1)) == Reduce(s, FetchUserRequest(id2))
  {
  }

  /** `clearUser` twice is `clearUser` once. */
  lemma ClearUserIdempotent(s: UserState)
    ensures Reduce(Reduce(s, ClearUser), ClearUser) == Reduce(s, ClearUser)
  {
  }

  /** A request followed by its success ends with that user, not loading and
      with no error, whatever the state before. */
  lemma RequestThenSuccess(s: UserState, id: string, u: User)
    ensures ReduceAll(s, [FetchUserRequest(id), FetchUserSuccess(u)]) == UserState(Some(u), false, None)
  {
    var t := Reduce(s, FetchUserRequest(id));
    assert [FetchUserRequest(id), FetchUserSuccess(u)][1..] == [FetchUserSuccess(u)];
    assert ReduceAll(t, [FetchUserSuccess(u)]) == ReduceAll(Reduce(t, FetchUserSuccess(u)), []);
  }

  /** A request followed by its failure ends not loading, with that error,
      and with the user it had before. */
  lemma RequestThenFailure(s: UserState, id: string, m: string)
    ensures ReduceAll(s, [FetchUserRequest(id), FetchUserFailure(m)]) == UserState(s.currentUser, false, Some(m))
  {
    var t := Reduce(s, FetchUserRequest(id));
    assert [FetchUserRequest(id), FetchUserFailure(m)][1..] == [FetchUserFailure(m)];
    assert ReduceAll(t, [FetchUserFailure(m)]) == ReduceAll(Reduce(t, FetchUserFailure(m)), []);
  }

  /** "Not loading while an error stands": no state is both loading and
      holding an error. */
  predicate LoadingExcludesError(s: UserState) {
    !(s.loading && s.error.Some?)
  }

  /** Five of the six actions keep `LoadingExcludesError`, so every history
      without `setError` keeps it from the initial state on. */
  lemma {:induction false} LoadingExcludesErrorKept(s: UserState, actions: seq<UserAction>)
    requires LoadingExcludesError(s)
    requires forall i | 0 <= i < |actions| :: !actions[i].SetError?
    ensures LoadingExcludesError(ReduceAll(s, actions))
    decreases |actions|
  {
    if actions != [] {
      LoadingExcludesErrorKept(Reduce(s, actions[0]), actions[1..]);
    }
  }

  /** `setError` does not keep it: during a fetch it leaves the store loading
      and in error at once. */
  lemma SetErrorWhileLoading(id: string, m: string)
    ensures !LoadingExcludesError(ReduceAll(InitialState(), [FetchUserRequest(id), SetError(m)]))
  {
    var t := Reduce(InitialState(), FetchUserRequest(id));
    assert [FetchUserRequest(id), SetError(m)][1..] == [SetError(m)];
    assert ReduceAll(t, [SetError(m)]) == ReduceAll(Reduce(t, SetError(m)), []);
  }

  /** The store object. Each reducer is a method that assigns the fields. */
  class UserStore {
    var currentUser: Option<User>
    var loading: bool
    var error: Option<string>

    function State(): UserState
      reads this
    {
      UserState(currentUser, loading, error)
    }

    constructor ()
      ensures State() == InitialState()
    {
      currentUser, loading, error := None, false, None;
    }

    method SetUser(u: User)
      modifies this
      ensures currentUser == Some(u) && error.None? && loading == old(loading)
      ensures State() == Reduce(old(State()), UserAction.SetUser(u))
    {
      currentUser := Some(u);
      error := None;
    }

    method ClearUser()
      modifies this
      ensures currentUser.None? && error.None? && loading == old(loading)
      ensures State() == Reduce(old(State()), UserAction.ClearUser)
    {
      currentUser := None;
      error := None;
    }

    method SetError(m: string)
      modifies this
      ensures error == Some(m) && currentUser == old(currentUser) && loading == old(loading)
      ensures State() == Reduce(old(State()), UserAction.SetError(m))
    {
      error := Some(m);
    }

    /** The payload id is for the saga; the reducer ignores it. */
    method FetchUserRequest(id: string)
      modifies this
      ensures loading && error.None? && currentUser == old(currentUser)
      ensures State() == Reduce(old(State()), UserAction.FetchUserRequest(id))
    {
      loading := true;
      error := None;
    }

    method FetchUserSuccess(u: User)
      modifies this
      ensures !loading && currentUser == Some(u) && error.None?
      ensures State() == Reduce(old(State()), UserAction.FetchUserSuccess(u))
    {
      loading := false;
      currentUser := Some(u);
      error := None;
    }

    method FetchUserFailure(m: string)
      modifies this
      ensures !loading && error == Some(m) && currentUser == old(currentUser)
      ensures State() == Reduce(old(State()), UserAction.FetchUserFailure(m))
    {
      loading := false;
      error := Some(m);
    }

    /** `store.dispatch(action)`: runs the matching reducer. */
    method Dispatch(a: UserAction)
      modifies this
      ensures State() == Reduce(old(State()), a)
    {
      match a
      case SetUser(u) => SetUser(u);
      case ClearUser => ClearUser();
      case SetError(m) => SetError(m);
      case FetchUserRequest(id) => FetchUserRequest(id);
      case FetchUserSuccess(u) => FetchUserSuccess(u);
      case FetchUserFailure(m) => FetchUserFailure(m);
    }
  }
}
