/** The issue page's sidebar (frontend/src/features/issue/IssueSidebar.tsx):
    the category, reporter and department blocks, and whether the
    official-update form is included. */
module IssueSidebar {
  import opened Wrappers
  import opened Schema
  import UserDetails
  import DepartmentUpdateForm

  /** The issue as the sidebar receives it: the type as its raw string,
      and the joined reporter and department when the query returned
      them. */
  datatype SidebarIssue = SidebarIssue(id: string, issueType: string, reporter: Option<User>, department: Option<Department>)

  /** `IssueCategoryLabels[type] || type`, shown only for a non-empty type. */
  function CategoryText(raw: string): (r: Option<string>)
    ensures r.Some? <==> raw != ""
    ensures r.Some? && ParseIssueType(raw).Some? ==> r.value == CategoryLabel(ParseIssueType(raw).value)
    ensures r.Some? && ParseIssueType(raw).None? ==> r.value == raw
  {
    if raw == "" then None
    else match ParseIssueType(raw)
      case Some(t) => Some(CategoryLabel(t))
      case None => Some(raw)
  }

  /** A known type name always shows its label. */
  lemma KnownTypeShowsLabel(t: IssueType)
    ensures CategoryText(IssueTypeName(t)) == Some(CategoryLabel(t))
  {
    assert ParseIssueType(IssueTypeName(t)).Some?;
  }

  datatype ReporterBlock = ReporterBlock(name: string, email: string)

  function ReporterBlockOf(reporter: Option<User>): (b: Option<ReporterBlock>)
    ensures b.Some? <==> reporter.Some?
    ensures b.Some? ==> b.value == ReporterBlock(reporter.value.name, reporter.value.email)
  {
    match reporter
    case None => None
    case Some(u) => Some(ReporterBlock(u.name, u.email))
  }

  function DepartmentId(d: Option<Department>): Option<string> {
    match d
    case None => None
    case Some(dep) => Some(dep.id)
  }

  /** `issue.department?.id === user?.department?.id`: the ids are equal,
      or both are absent. */
  function UpdateFormIncluded(issue: SidebarIssue, user: Option<User>): (b: bool)
    ensures b <==> (issue.department.None? && (user.None? || user.value.department.None?))
                   || (issue.department.Some? && user.Some? && user.value.department.Some?
                       && issue.department.value.id == user.value.department.value.id)
  {
    DepartmentId(issue.department) == (if user.Some? then DepartmentId(user.value.department) else None)
  }

  datatype Sidebar = Sidebar(category: Option<string>, reporter: Option<ReporterBlock>,
                             department: Option<UserDetails.DepartmentBlock>, updateForm: bool)

  function SidebarOf(issue: SidebarIssue, user: Option<User>): (s: Sidebar)
    ensures s.category == CategoryText(issue.issueType)
    ensures s.reporter.Some? <==> issue.reporter.Some?
    ensures s.department.Some? <==> issue.department.Some?
    ensures s.reporter.Some? ==>
      s.reporter.value.name == issue.reporter.value.name && s.reporter.value.email == issue.reporter.value.email
    ensures s.department.Some? ==> s.department.value.name == issue.department.value.name
    ensures s.department.Some? ==>
      (s.department.value.description.Some? <==>
         issue.department.value.description.Some? && issue.department.value.description.value != "")
    ensures s.department.Some? && s.department.value.description.Some? ==>
      s.department.value.description == issue.department.value.description
    ensures s.updateForm == UpdateFormIncluded(issue, user)
  {
    Sidebar(CategoryText(issue.issueType), ReporterBlockOf(issue.reporter),
            UserDetails.DepartmentBlockOf(issue.department), UpdateFormIncluded(issue, user))
  }

  /** A staff member's form shows on the issues of their own department and
      on no other department's issues. */
  lemma FormOnlyForOwnDepartment(issue: SidebarIssue, u: User)
    requires u.role == DepartmentStaff && u.department.Some?
    ensures SidebarOf(issue, Some(u)).updateForm && DepartmentUpdateForm.Visible(Some(u))
            <==> issue.department.Some? && issue.department.value.id == u.department.value.id
  {
  }

  /** A staff member with no department gets the form on every issue that
      has no department either. */
  lemma UnassignedStaffOnUnassignedIssue(issue: SidebarIssue, u: User)
    requires u.role == DepartmentStaff && u.department.None? && issue.department.None?
    ensures SidebarOf(issue, Some(u)).updateForm && DepartmentUpdateForm.Visible(Some(u))
  {
  }

  /** A citizen's sidebar may include the form, but the form itself renders
      nothing for them. */
  lemma CitizenNeverSeesForm(issue: SidebarIssue, u: User)
    requires u.role == Citizen && u.department.None? && issue.department.None?
    ensures SidebarOf(issue, Some(u)).updateForm
    ensures !DepartmentUpdateForm.Visible(Some(u))
  {
  }
}
