/** The profile page (frontend/src/pages/UserProfile.tsx): the gate order,
    the issue statistics and the count label. */
module UserProfile {
  import opened Wrappers
  import opened Schema
  import opened IssueLists
  import UserDetails

  datatype QueryState = QueryState(loading: bool, error: Option<string>, issues: Option<seq<Issue>>)

  datatype ProfileStats = ProfileStats(total: nat, resolved: nat)

  datatype Screen =
    | NoUser(message: string, loginPath: string)
    | LoadingScreen
    | LoadError(message: string)
    | Profile(badge: UserDetails.BadgeColour, roleLabel: string, department: Option<UserDetails.DepartmentBlock>,
              stats: ProfileStats, countLabel: string, issues: seq<Issue>)

  const NoUserMessage: string := "No user data available"
  const LoginPath: string := "/login"
  const ErrorPrefix: string := "Error loading issues: "

  /** The issues query is skipped without a user id. */
  predicate QuerySkipped(user: Option<User>) {
    user.None? || user.value.id == ""
  }

  function ComputeStats(issues: seq<Issue>): (st: ProfileStats)
    ensures st.total == |issues|
    ensures st.resolved == |Filter(issues, Only(Resolved))|
    ensures st.resolved <= st.total
  {
    FilterLengthIsCount(issues, Resolved);
    CountAtMostTotal(issues, Resolved);
    ProfileStats(|issues|, CountStatus(issues, Resolved))
  }

  /** "issue" for exactly one, "issues" otherwise (zero included). */
  function CountLabel(n: nat): (s: string)
    ensures s == "issue" <==> n == 1
    ensures s == "issues" <==> n != 1
  {
    if n == 1 then "issue" else "issues"
  }

  /** No user first, then loading, then error, then the profile. */
  function View(user: Option<User>, q: QueryState): (o: Screen)
    ensures o.NoUser? <==> user.None?
    ensures o.NoUser? ==> o.message == NoUserMessage && o.loginPath == LoginPath
    ensures o.LoadingScreen? <==> user.Some? && q.loading
    ensures o.LoadError? <==> user.Some? && !q.loading && q.error.Some?
    ensures o.LoadError? ==> o.message == ErrorPrefix + q.error.value
    ensures o.Profile? <==> user.Some? && !q.loading && q.error.None?
    ensures o.Profile? ==>
      && o.issues == q.issues.GetOr([])
      && o.stats == ComputeStats(o.issues)
      && o.stats.total == |o.issues|
      && o.stats.resolved <= o.stats.total
      && o.countLabel == CountLabel(|o.issues|)
      && o.badge == UserDetails.RoleBadge(RoleName(user.value.role))
      && o.roleLabel == UserDetails.RoleLabel(user.value.role)
      && o.department == UserDetails.DepartmentBlockOf(user.value.department)
  {
    if user.None? then NoUser(NoUserMessage, LoginPath)
    else if q.loading then LoadingScreen
    else if q.error.Some? then LoadError(ErrorPrefix + q.error.value)
    else
      var issues := q.issues.GetOr([]);
      var u := user.value;
      Profile(UserDetails.RoleBadge(RoleName(u.role)), UserDetails.RoleLabel(u.role),
              UserDetails.DepartmentBlockOf(u.department), ComputeStats(issues), CountLabel(|issues|), issues)
  }

  /** A missing user wins over whatever the (skipped) query reports. */
  lemma NoUserWinsOverQuery(q1: QueryState, q2: QueryState)
    ensures View(None, q1) == View(None, q2)
    ensures QuerySkipped(None)
  {
  }
}
