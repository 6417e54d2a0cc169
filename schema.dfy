/** The shared record shapes and closed enumerations of the client
    (frontend/src/types/schema.ts). The enumerations travel as strings
    between client and server, so each comes with its wire name and a parser. */
module Schema {
  import opened Wrappers

  datatype UserRole = Citizen | DepartmentStaff | Admin
  datatype IssueStatus = New | InProgress | Resolved
  datatype AuditAction = Create | Update | Delete | Assign
  datatype IssueType =
    | RoadsPavements | StreetLights | TrafficSignals | WaterSupply
    | DrainageSewerage | GarbageCollection | IllegalDumping | AirPollution
    | NoisePollution | TreeIssues | Electricity

  function RoleName(r: UserRole): string {
    match r
    case Citizen => "citizen"
    case DepartmentStaff => "department"
    case Admin => "admin"
  }

  /** Reads a role name; exactly the three names of `UserRole` are accepted. */
  function ParseRole(s: string): (r: Option<UserRole>)
    ensures r.Some? ==> RoleName(r.value) == s
    ensures r.None? ==> forall role: UserRole :: RoleName(role) != s
  {
    if s == "citizen" then Some(Citizen)
    else if s == "department" then Some(DepartmentStaff)
    else if s == "admin" then Some(Admin)
    else None
  }

  function StatusName(st: IssueStatus): string {
    match st
    case New => "new"
    case InProgress => "in_progress"
    case Resolved => "resolved"
  }

  /** Reads a status name; exactly the three names of `IssueStatus` are accepted. */
  function ParseStatus(s: string): (r: Option<IssueStatus>)
    ensures r.Some? ==> StatusName(r.value) == s
    ensures r.None? ==> forall st: IssueStatus :: StatusName(st) != s
  {
    if s == "new" then Some(New)
    else if s == "in_progress" then Some(InProgress)
    else if s == "resolved" then Some(Resolved)
    else None
  }

  function AuditActionName(a: AuditAction): string {
    match a
    case Create => "create"
    case Update => "update"
    case Delete => "delete"
    case Assign => "assign"
  }

  function IssueTypeName(t: IssueType): string {
    match t
    case RoadsPavements => "roads_pavements"
    case StreetLights => "street_lights"
    case TrafficSignals => "traffic_signals"
    case WaterSupply => "water_supply"
    case DrainageSewerage => "drainage_sewerage"
    case GarbageCollection => "garbage_collection"
    case IllegalDumping => "illegal_dumping"
    case AirPollution => "air_pollution"
    case NoisePollution => "noise_pollution"
    case TreeIssues => "tree_issues"
    case Electricity => "electricity"
  }

  /** Every issue type, in declaration order. */
  const AllIssueTypes: seq<IssueType> := [
    RoadsPavements, StreetLights, TrafficSignals, WaterSupply,
    DrainageSewerage, GarbageCollection, IllegalDumping, AirPollution,
    NoisePollution, TreeIssues, Electricity
  ]

  /** Reads an issue-type name; exactly the eleven names are accepted. */
  function ParseIssueType(s: string): (r: Option<IssueType>)
    ensures r.Some? ==> IssueTypeName(r.value) == s
    ensures r.None? ==> forall t: IssueType :: IssueTypeName(t) != s
  {
    if s == "roads_pavements" then Some(RoadsPavements)
    else if s == "street_lights" then Some(StreetLights)
    else if s == "traffic_signals" then Some(TrafficSignals)
    else if s == "water_supply" then Some(WaterSupply)
    else if s == "drainage_sewerage" then Some(DrainageSewerage)
    else if s == "garbage_collection" then Some(GarbageCollection)
    else if s == "illegal_dumping" then Some(IllegalDumping)
    else if s == "air_pollution" then Some(AirPollution)
    else if s == "noise_pollution" then Some(NoisePollution)
    else if s == "tree_issues" then Some(TreeIssues)
    else if s == "electricity" then Some(Electricity)
    else None
  }

  /** `IssueCategoryLabels`: the display label of each issue type. */
  function CategoryLabel(t: IssueType): string {
    match t
    case RoadsPavements => "Roads & Pavements"
    case StreetLights => "Street Lights"
    case TrafficSignals => "Traffic Signals"
    case WaterSupply => "Water Supply"
    case DrainageSewerage => "Drainage & Sewerage"
    case GarbageCollection => "Garbage Collection"
    case IllegalDumping => "Illegal Dumping"
    case AirPollution => "Air Pollution"
    case NoisePollution => "Noise Pollution"
    case TreeIssues => "Tree Issues"
    case Electricity => "Electricity"
  }

  /** The label table covers the eleven issue types, each listed once, and no
      two types share a label, so a label identifies its type. */
  lemma CategoryLabelsComplete()
    ensures |AllIssueTypes| == 11
    ensures forall t: IssueType :: t in AllIssueTypes
    ensures forall i, j | 0 <= i < j < |AllIssueTypes| ::
      AllIssueTypes[i] != AllIssueTypes[j]
      && CategoryLabel(AllIssueTypes[i]) != CategoryLabel(AllIssueTypes[j])
  {
    forall t: IssueType ensures t in AllIssueTypes {
      match t
      case RoadsPavements => assert AllIssueTypes[0] == t;
      case StreetLights => assert AllIssueTypes[1] == t;
      case TrafficSignals => assert AllIssueTypes[2] == t;
      case WaterSupply => assert AllIssueTypes[3] == t;
      case DrainageSewerage => assert AllIssueTypes[4] == t;
      case GarbageCollection => assert AllIssueTypes[5] == t;
      case IllegalDumping => assert AllIssueTypes[6] == t;
      case AirPollution => assert AllIssueTypes[7] == t;
      case NoisePollution => assert AllIssueTypes[8] == t;
      case TreeIssues => assert AllIssueTypes[9] == t;
      case Electricity => assert AllIssueTypes[10] == t;
    }
  }

  datatype Department = Department(id: string, name: string, description: Option<string>)

  /** An application user. `department` is optional; `profilePicture` is
      always present but may be empty. */
  datatype User = User(
    id: string,
    name: string,
    email: string,
    role: UserRole,
    createdAt: string,
    department: Option<Department>,
    profilePicture: string)

  /** A reported issue. Coordinates are kept as opaque reals. */
  datatype Issue = Issue(
    id: string,
    title: string,
    description: Option<string>,
    status: IssueStatus,
    issueType: IssueType,
    latitude: real,
    longitude: real,
    photoUrl: Option<string>,
    createdBy: string,
    assignedDepartment: Option<string>,
    createdAt: string,
    updatedAt: string)

  datatype Comment = Comment(id: string, issueId: string, authorId: string, content: string, createdAt: string)

  datatype DepartmentUpdate = DepartmentUpdate(id: string, issueId: string, authorId: string, content: string, createdAt: string)

  datatype Attachment = Attachment(id: string, issueId: string, url: string, uploadedBy: Option<string>, createdAt: string)

  datatype AuditLog = AuditLog(id: string, entity: string, entityId: string, action: AuditAction, performedBy: Option<string>, timestamp: string)
}
