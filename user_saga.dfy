/** The session fetcher (frontend/src/store/userSaga.ts): for every
    `fetchUserRequest(id)` the saga looks the application user up by `id` and
    answers with exactly one `fetchUserSuccess` or `fetchUserFailure`.
    `takeLatest` cancels the pending lookup when a newer request arrives; the
    model tags each lookup with a generation number and drops the outcome of
    any lookup that is no longer the newest. */
module UserSaga {
  import opened Wrappers
  import opened Schema
  import opened UserSlice

  /** The value a failed lookup threw: an `Error` (with its message) or
      anything else. */
  datatype Thrown = ErrorObject(message: string) | OtherValue

  /** How the user lookup came back. `Resolved(None)` is an answer without
      `data` or without `data.users`; a row is `None` when it is null. */
  datatype LookupOutcome =
    | Resolved(users: Option<seq<Option<User>>>)
    | Rejected(thrown: Thrown)

  /** The lookup the saga issues: keyed by the request's id, and tagged with
      the generation of the request that started it. */
  datatype LookupQuery = LookupQuery(generation: nat, userId: string)

  const UserNotFound: string := "User not found"
  const FailedToFetchUser: string := "Failed to fetch user"

  /** `fetchUserSaga`: the one action put for a lookup outcome. */
  function FetchUserSaga(o: LookupOutcome): (a: UserAction)
    ensures a.FetchUserSuccess? || a.FetchUserFailure?
    ensures a.FetchUserSuccess? <==> o.Resolved? && o.users.Some? && |o.users.value| > 0 && o.users.value[0].Some?
    ensures a.FetchUserSuccess? ==> a.user == o.users.value[0].value
    ensures o.Resolved? && a.FetchUserFailure? ==> a.message == UserNotFound
    ensures o.Rejected? ==>
      a.message == (if o.thrown.ErrorObject? then o.thrown.message else FailedToFetchUser)
  {
    match o
    case Resolved(users) =>
      if users.Some? && |users.value| > 0 && users.value[0].Some? then FetchUserSuccess(users.value[0].value)
      else FetchUserFailure(UserNotFound)
    case Rejected(thrown) =>
      FetchUserFailure(if thrown.ErrorObject? then thrown.message else FailedToFetchUser)
  }

  /** Whatever the outcome, the action the saga puts takes the store out of
      loading; a success signs the first row's user in, a failure keeps the
      user the store had. */
  lemma SagaEndsLoading(s: UserState, o: LookupOutcome)
    ensures !Reduce(s, FetchUserSaga(o)).loading
    ensures Reduce(s, FetchUserSaga(o)).currentUser ==
      if o.Resolved? && o.users.Some? && |o.users.value| > 0 && o.users.value[0].Some? then o.users.value[0]
      else s.currentUser
  {
  }

  /** A request followed by the saga's answer to it always ends not loading. */
  lemma RequestThenAnswer(s: UserState, id: string, o: LookupOutcome)
    ensures !ReduceAll(s, [FetchUserRequest(id), FetchUserSaga(o)]).loading
  {
    var t := Reduce(s, FetchUserRequest(id));
    assert [FetchUserRequest(id), FetchUserSaga(o)][1..] == [FetchUserSaga(o)];
    assert ReduceAll(t, [FetchUserSaga(o)]) == ReduceAll(Reduce(t, FetchUserSaga(o)), []);
  }

  /** `watchFetchUser`: the takeLatest watcher. `latest` is the generation of
      the newest request; `inFlight` holds its id while its lookup is
      outstanding. */
  class FetchWatcher {
    var latest: nat
    var inFlight: Option<string>

    constructor ()
      ensures latest == 0 && inFlight.None?
    {
      latest, inFlight := 0, None;
    }

    /** The store is loading exactly while the newest lookup is outstanding. */
    predicate Synced(store: UserStore)
      reads this, store
    {
      store.loading <==> inFlight.Some?
    }

    /** `dispatch(fetchUserRequest(id))`: the reducer runs, then takeLatest
        starts a lookup for `id` that supersedes any pending one. */
    method Request(store: UserStore, id: string) returns (q: LookupQuery)
      modifies this, store
      ensures store.State() == Reduce(old(store.State()), FetchUserRequest(id))
      ensures latest == old(latest) + 1 && inFlight == Some(id)
      ensures q == LookupQuery(latest, id)
      ensures Synced(store)
    {
      store.FetchUserRequest(id);
      latest := latest + 1;
      inFlight := Some(id);
      q := LookupQuery(latest, id);
    }

    /** The lookup of generation `generation` comes back with `o`. Only the
        newest outstanding lookup reaches the store, and then with exactly the
        one action `fetchUserSaga` puts for `o`; a superseded lookup changes
        nothing. */
    method Settle(store: UserStore, generation: nat, o: LookupOutcome) returns (put: Option<UserAction>)
      requires Synced(store)
      modifies this, store
      ensures put.Some? <==> generation == old(latest) && old(inFlight).Some?
      ensures put.Some? ==> put.value == FetchUserSaga(o)
                            && store.State() == Reduce(old(store.State()), put.value)
                            && inFlight.None? && !store.loading
      ensures put.None? ==> store.State() == old(store.State()) && inFlight == old(inFlight)
      ensures latest == old(latest)
      ensures Synced(store)
    {
      if generation == latest && inFlight.Some? {
        var a := FetchUserSaga(o);
        store.Dispatch(a);
        inFlight := None;
        put := Some(a);
      } else {
        put := None;
      }
    }
  }
}
