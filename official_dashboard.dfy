/** The department dashboard's render decision
    (frontend/src/pages/OfficialDashboard.tsx): which screen shows for the
    signed-in user and the issues query, and the filtered list and statistics
    on the dashboard itself. */
module OfficialDashboard {
  import opened Wrappers
  import opened Schema
  import opened IssueLists

  /** What the issues query reports: loading, an error message, or data. */
  datatype QueryState = QueryState(loading: bool, error: Option<string>, issues: Option<seq<Issue>>)

  /** `newIssues` is the source's `new` count, a keyword here. */
  datatype Stats = Stats(total: nat, newIssues: nat, inProgress: nat, resolved: nat)

  datatype Screen =
    | NotAssigned(message: string)
    | LoadingScreen(text: string)
    | Retry(message: string)
    | Dashboard(filtered: seq<Issue>, stats: Stats)

  const NotAssignedMessage: string := "Your account is not assigned to any department. Please contact an administrator."
  const LoadingText: string := "Loading department issues..."

  /** `user?.department?.id` when it is truthy (a non-empty string). */
  function DepartmentIdOf(user: Option<User>): (r: Option<string>)
    ensures r.Some? <==> user.Some? && user.value.department.Some? && user.value.department.value.id != ""
    ensures r.Some? ==> r.value == user.value.department.value.id
  {
    if user.Some? && user.value.department.Some? && user.value.department.value.id != ""
    then Some(user.value.department.value.id) else None
  }

  /** `skip: !departmentId`: the issues query runs only for a signed-in user
      whose department is present and has a non-empty id. */
  predicate QuerySkipped(user: Option<User>)
    ensures QuerySkipped(user) <==>
      user.None? || user.value.department.None? || user.value.department.value.id == ""
  {
    DepartmentIdOf(user).None?
  }

  /** `stats`: the list's length and the number of issues of each status. */
  function ComputeStats(issues: seq<Issue>): (st: Stats)
    ensures st.total == |issues|
    ensures st.newIssues == |Filter(issues, Only(New))|
    ensures st.inProgress == |Filter(issues, Only(InProgress))|
    ensures st.resolved == |Filter(issues, Only(Resolved))|
  {
    FilterLengthIsCount(issues, New);
    FilterLengthIsCount(issues, InProgress);
    FilterLengthIsCount(issues, Resolved);
    Stats(|issues|, CountStatus(issues, New), CountStatus(issues, InProgress), CountStatus(issues, Resolved))
  }

  /** The three per-status counts add up to the total. */
  lemma StatsAddUp(issues: seq<Issue>)
    ensures ComputeStats(issues).newIssues + ComputeStats(issues).inProgress + ComputeStats(issues).resolved
            == ComputeStats(issues).total
  {
    StatusCountsPartition(issues);
  }

  /** The page: no department id, then loading, then a query error, then the
      dashboard over `data?.issues || []`. */
  function View(user: Option<User>, q: QueryState, f: StatusFilter): (o: Screen)
    ensures o.NotAssigned? <==> QuerySkipped(user)
    ensures o.NotAssigned? ==> o.message == NotAssignedMessage
    ensures o.LoadingScreen? <==> !QuerySkipped(user) && q.loading
    ensures o.Retry? <==> !QuerySkipped(user) && !q.loading && q.error.Some?
    ensures o.Retry? ==> o.message == q.error.value
    ensures o.Dashboard? <==> !QuerySkipped(user) && !q.loading && q.error.None?
    ensures o.Dashboard? ==>
      var issues := q.issues.GetOr([]);
      && o.stats == ComputeStats(issues)
      && o.filtered == Filter(issues, f)
      && (forall x :: x in o.filtered <==> x in issues && Matches(f, x))
      && (f.All? ==> o.filtered == issues)
  {
    if QuerySkipped(user) then NotAssigned(NotAssignedMessage)
    else if q.loading then LoadingScreen(LoadingText)
    else if q.error.Some? then Retry(q.error.value)
    else
      var issues := q.issues.GetOr([]);
      FilterAllIsIdentity(issues);
      Dashboard(Filter(issues, f), ComputeStats(issues))
  }

  /** The role check builds an error element that is never returned, so a
      user's role does not affect what the page shows. */
  lemma RoleDoesNotMatter(u: User, role: UserRole, q: QueryState, f: StatusFilter)
    ensures View(Some(u), q, f) == View(Some(u.(role := role)), q, f)
  {
  }

  /** A citizen with a department id reaches the dashboard. */
  lemma CitizenSeesDashboard(u: User, issues: seq<Issue>)
    requires u.role == Citizen && u.department.Some? && u.department.value.id != ""
    ensures View(Some(u), QueryState(false, None, Some(issues)), All).Dashboard?
    ensures View(Some(u), QueryState(false, None, Some(issues)), All).filtered == issues
  {
  }
}
