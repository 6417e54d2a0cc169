/** The user card (frontend/src/features/User/UserDetails.tsx): picture or
    placeholder, the role badge and label, and the optional department
    block. The profile page repeats the badge, label and department rules. */
module UserDetails {
  import opened Wrappers
  import opened Text
  import opened Schema

  datatype BadgeColour = Purple | Blue | Green

  /** The badge colour compares the role string: admin, then department,
      then everything else. */
  function RoleBadge(role: string): (c: BadgeColour)
    ensures c == Purple <==> role == "admin"
    ensures c == Blue <==> role == "department"
    ensures c == Green <==> role != "admin" && role != "department"
  {
    if role == "admin" then Purple else if role == "department" then Blue else Green
  }

  /** The role label: the role's first character upper-cased. */
  function RoleLabel(role: UserRole): (shown: string)
    ensures |shown| == |RoleName(role)|
    ensures shown == match role
      case Citizen => "Citizen"
      case DepartmentStaff => "Department"
      case Admin => "Admin"
  {
    Capitalize(RoleName(role))
  }

  /** Each role has its own colour, citizens getting the fall-through
      green. */
  lemma BadgePerRole()
    ensures RoleBadge(RoleName(Admin)) == Purple
    ensures RoleBadge(RoleName(DepartmentStaff)) == Blue
    ensures RoleBadge(RoleName(Citizen)) == Green
  {
  }

  datatype Avatar = Picture(url: string) | Placeholder

  /** The picture when `profile_picture` is non-empty, else the icon. */
  function AvatarOf(u: User): (a: Avatar)
    ensures a.Picture? <==> u.profilePicture != ""
    ensures a.Picture? ==> a.url == u.profilePicture
  {
    if u.profilePicture != "" then Picture(u.profilePicture) else Placeholder
  }

  /** A shown department block: the name and, when present and non-empty,
      the description. */
  datatype DepartmentBlock = DepartmentBlock(name: string, description: Option<string>)

  function DepartmentBlockOf(d: Option<Department>): (b: Option<DepartmentBlock>)
    ensures b.Some? <==> d.Some?
    ensures b.Some? ==> b.value.name == d.value.name
    ensures b.Some? ==> (b.value.description.Some? <==> d.value.description.Some? && d.value.description.value != "")
    ensures b.Some? && b.value.description.Some? ==> b.value.description == d.value.description
  {
    match d
    case None => None
    case Some(dep) =>
      Some(DepartmentBlock(dep.name,
        if dep.description.Some? && dep.description.value != "" then dep.description else None))
  }

  /** The card's header and department section. */
  datatype Card = Card(avatar: Avatar, name: string, badge: BadgeColour, roleLabel: string, email: string,
                       department: Option<DepartmentBlock>)

  /** The card for `u`: its picture exactly when one is set, its name and
      e-mail, a colour and a label of its own for each role, and its
      department's name, with the description only when it is present and
      non-empty. */
  function CardOf(u: User): (c: Card)
    ensures c.avatar.Picture? <==> u.profilePicture != ""
    ensures c.avatar.Picture? ==> c.avatar.url == u.profilePicture
    ensures c.name == u.name && c.email == u.email
    ensures c.badge == Purple <==> u.role == Admin
    ensures c.badge == Blue <==> u.role == DepartmentStaff
    ensures c.badge == Green <==> u.role == Citizen
    ensures c.roleLabel == match u.role
      case Citizen => "Citizen"
      case DepartmentStaff => "Department"
      case Admin => "Admin"
    ensures c.department.Some? <==> u.department.Some?
    ensures c.department.Some? ==> c.department.value.name == u.department.value.name
    ensures c.department.Some? ==>
      (c.department.value.description.Some? <==>
         u.department.value.description.Some? && u.department.value.description.value != "")
    ensures c.department.Some? && c.department.value.description.Some? ==>
      c.department.value.description == u.department.value.description
  {
    Card(AvatarOf(u), u.name, RoleBadge(RoleName(u.role)), RoleLabel(u.role), u.email, DepartmentBlockOf(u.department))
  }
}
