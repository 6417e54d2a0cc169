/** The status badge (frontend/src/features/issue/IssueStatusBadge.tsx):
    a label and colour for each known status name, and the raw text in grey
    for anything else. */
module StatusBadge {
  import opened Wrappers
  import opened Schema

  datatype Colour = Red | Yellow | GreenBadge | Gray

  datatype Badge = Badge(text: string, colour: Colour)

  function BadgeFor(status: string): (b: Badge)
    ensures status == "new" ==> b == Badge("New", Red)
    ensures status == "in_progress" ==> b == Badge("In Progress", Yellow)
    ensures status == "resolved" ==> b == Badge("Resolved", GreenBadge)
    ensures b.colour == Gray <==> ParseStatus(status).None?
    ensures b.colour == Gray ==> b.text == status
  {
    if status == "new" then Badge("New", Red)
    else if status == "in_progress" then Badge("In Progress", Yellow)
    else if status == "resolved" then Badge("Resolved", GreenBadge)
    else Badge(status, Gray)
  }

  /** Every status of the schema gets a coloured badge of its own. */
  lemma KnownStatusesColoured(s1: IssueStatus, s2: IssueStatus)
    ensures BadgeFor(StatusName(s1)).colour != Gray
    ensures s1 != s2 ==> BadgeFor(StatusName(s1)) != BadgeFor(StatusName(s2))
  {
  }
}
