/** The two persisted entities, users and tickets, with the role and status
    enumerations the database stores for them. */
module Domain {
  import opened Wrappers
  import Constants

  datatype Role = Technician | Admin | Coordinator

  function RoleName(r: Role): (s: string)
    ensures s in Constants.Roles
  {
    match r
    case Technician => "TECHNICIAN"
    case Admin => "ADMIN"
    case Coordinator => "COORDINATOR"
  }

  /** The database enum accepts exactly the three upper-case role names. */
  function ParseRole(s: string): (r: Option<Role>)
    ensures r.Some? <==> s in Constants.Roles
    ensures r.Some? ==> RoleName(r.value) == s
  {
    if s == "TECHNICIAN" then Some(Technician)
    else if s == "ADMIN" then Some(Admin)
    else if s == "COORDINATOR" then Some(Coordinator)
    else None
  }

  lemma RoleRoundTrip(r: Role)
    ensures ParseRole(RoleName(r)) == Some(r)
  {
  }

  datatype Status = Open | InProgress | Closed

  function StatusName(st: Status): (s: string)
    ensures s in Constants.Statuses
  {
    match st
    case Open => "OPEN"
    case InProgress => "IN_PROGRESS"
    case Closed => "CLOSED"
  }

  function ParseStatus(s: string): (r: Option<Status>)
    ensures r.Some? <==> s in Constants.Statuses
    ensures r.Some? ==> StatusName(r.value) == s
  {
    if s == "OPEN" then Some(Open)
    else if s == "IN_PROGRESS" then Some(InProgress)
    else if s == "CLOSED" then Some(Closed)
    else None
  }

  lemma StatusRoundTrip(st: Status)
    ensures ParseStatus(StatusName(st)) == Some(st)
  {
  }

  /** A stored user; `password` holds the hash, never the plain text. */
  datatype User = User(
    id: string,
    name: string,
    email: string,
    password: string,
    role: Role,
    department: Option<string>,
    image: Option<string>)

  /** A stored ticket, field for field as the ticket table declares it.
      Timestamps are integers (milliseconds). */
  datatype Ticket = Ticket(
    id: string,
    title: string,
    description: string,
    department: string,
    location: string,
    deviceId: string,
    status: Status,
    createdAt: int,
    updatedAt: int,
    coordinatorId: string,
    technicianId: Option<string>,
    assignedAt: Option<int>,
    resolvedAt: Option<int>,
    remarks: Option<string>)
}
