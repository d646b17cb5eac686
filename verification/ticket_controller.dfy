/** The ticket handlers. The three that write (`createTicket`,
    `setStatusToInProgress`, `setStatusToClosed`) are methods on the store;
    the listings and the lookup are functions of the stored rows. Any
    failure of a database call lands in the handler's catch block and is
    answered 500. */
module TicketController {
  import opened Wrappers
  import opened Domain
  import opened Http
  import opened Store
  import Constants
  import Seqs

  /** The five columns `createTicket` copies from the body. */
  datatype Draft = Draft(title: string, description: string, department: string, location: string, deviceId: string)

  /** The body's columns when the insert can succeed: all five are strings
      (the table requires them) and the department is one of the enum's
      codes. */
  function DraftOf(body: Json): (r: Option<Draft>)
    ensures r.Some? <==>
      && StrField(body, "title").Some? && StrField(body, "description").Some?
      && StrField(body, "department").Some? && StrField(body, "location").Some?
      && StrField(body, "deviceId").Some?
      && body["department"].s in Constants.Departments
    ensures r.Some? ==>
      && Str(r.value.title) == body["title"] && Str(r.value.description) == body["description"]
      && Str(r.value.department) == body["department"] && Str(r.value.location) == body["location"]
      && Str(r.value.deviceId) == body["deviceId"]
  {
    match (StrField(body, "title"), StrField(body, "description"), StrField(body, "department"),
           StrField(body, "location"), StrField(body, "deviceId"))
    case (Some(title), Some(description), Some(department), Some(location), Some(deviceId)) =>
      if department in Constants.Departments then Some(Draft(title, description, department, location, deviceId))
      else None
    case _ => None
  }

  /** The row a successful `createTicket` inserts: status OPEN, the caller
      as coordinator, and no technician or timestamps beyond creation. */
  function NewTicket(id: string, d: Draft, coordinatorId: string, now: int): (t: Ticket)
    ensures t.id == id && t.status == Open && t.coordinatorId == coordinatorId
    ensures t.technicianId.None? && t.assignedAt.None? && t.resolvedAt.None? && t.remarks.None?
    ensures t.title == d.title && t.description == d.description && t.department == d.department
    ensures t.location == d.location && t.deviceId == d.deviceId
    ensures t.createdAt == now && t.updatedAt == now
  {
    Ticket(id, d.title, d.description, d.department, d.location, d.deviceId, Open, now, now,
           coordinatorId, None, None, None, None)
  }

  /** The row after assignment: status and technician written, `updatedAt`
      refreshed by the database, every other column as it was. */
  function AsAssigned(t: Ticket, technicianId: string, now: int): (r: Ticket)
    ensures r.status == InProgress && r.technicianId == Some(technicianId) && r.updatedAt == now
    ensures r.(status := t.status, technicianId := t.technicianId, updatedAt := t.updatedAt) == t
  {
    t.(status := InProgress, technicianId := Some(technicianId), updatedAt := now)
  }

  /** The row after closing: only the status (and `updatedAt`) change; the
      technician, `assignedAt` and `resolvedAt` stay as they were. */
  function AsClosed(t: Ticket, now: int): (r: Ticket)
    ensures r.status == Closed && r.updatedAt == now
    ensures r.technicianId == t.technicianId && r.assignedAt == t.assignedAt && r.resolvedAt == t.resolvedAt
    ensures r.(status := t.status, updatedAt := t.updatedAt) == t
  {
    t.(status := Closed, updatedAt := now)
  }

  /** `createTicket`. `newId` is the fresh id the database generates and
      `now` its clock. */
  method CreateTicket(db: Db, req: Request, newId: string, now: int) returns (reply: Reply)
    requires db.Valid() && newId !in db.tickets
    modifies db
    ensures db.Valid()
    ensures db.users == old(db.users) && db.userOrder == old(db.userOrder)
    ensures reply.status == 201 <==>
      DraftOf(req.body).Some? && req.user.Some? && req.user.value.id in old(db.users)
    ensures reply.status == 201 ==>
      && db.tickets == old(db.tickets)[newId := NewTicket(newId, DraftOf(req.body).value, req.user.value.id, now)]
      && db.ticketOrder == old(db.ticketOrder) + [newId]
      && reply == Reply(201, true, "Ticket created successfully", OneTicket(db.tickets[newId]))
    ensures reply.status != 201 ==>
      && reply == Fail(500, "Failed to create ticket")
      && db.tickets == old(db.tickets) && db.ticketOrder == old(db.ticketOrder)
  {
    var draft := DraftOf(req.body);
    if draft.None? || req.user.None? || req.user.value.id !in db.users {
      return Fail(500, "Failed to create ticket");
    }
    var t := NewTicket(newId, draft.value, req.user.value.id, now);
    db.InsertTicket(t);
    reply := Reply(201, true, "Ticket created successfully", OneTicket(t));
  }

  /** `setStatusToInProgress`, with the ticket id and the technician id it
      connects passed explicitly. Connecting an undefined or unknown user
      id, or updating an unknown ticket, throws: 500. The technician's
      role is not checked. */
  method SetStatusToInProgress(db: Db, id: Option<string>, technicianId: Option<string>, now: int) returns (reply: Reply)
    requires db.Valid()
    modifies db
    ensures db.Valid()
    ensures db.users == old(db.users) && db.userOrder == old(db.userOrder) && db.ticketOrder == old(db.ticketOrder)
    ensures reply.status == 200 <==>
      id.Some? && id.value in old(db.tickets) && technicianId.Some? && technicianId.value in old(db.users)
    ensures reply.status == 200 ==>
      && db.tickets == old(db.tickets)[id.value := AsAssigned(old(db.tickets)[id.value], technicianId.value, now)]
      && reply == Reply(200, true, "Ticket status updated to IN_PROGRESS", OneTicket(db.tickets[id.value]))
    ensures reply.status != 200 ==> reply == Fail(500, "Failed to update ticket status") && db.tickets == old(db.tickets)
  {
    if id.None? || id.value !in db.tickets || technicianId.None? || technicianId.value !in db.users {
      return Fail(500, "Failed to update ticket status");
    }
    var t := AsAssigned(db.tickets[id.value], technicianId.value, now);
    db.PutTicket(t);
    reply := Reply(200, true, "Ticket status updated to IN_PROGRESS", OneTicket(t));
  }

  /** `setStatusToClosed`: whatever the current status, the row is written
      CLOSED. */
  method SetStatusToClosed(db: Db, id: Option<string>, now: int) returns (reply: Reply)
    requires db.Valid()
    modifies db
    ensures db.Valid()
    ensures db.users == old(db.users) && db.userOrder == old(db.userOrder) && db.ticketOrder == old(db.ticketOrder)
    ensures reply.status == 200 <==> id.Some? && id.value in old(db.tickets)
    ensures reply.status == 200 ==>
      && db.tickets == old(db.tickets)[id.value := AsClosed(old(db.tickets)[id.value], now)]
      && reply == Reply(200, true, "Ticket status updated to CLOSED", OneTicket(db.tickets[id.value]))
    ensures reply.status != 200 ==> reply == Fail(500, "Failed to update ticket status") && db.tickets == old(db.tickets)
  {
    if id.None? || id.value !in db.tickets {
      return Fail(500, "Failed to update ticket status");
    }
    var t := AsClosed(db.tickets[id.value], now);
    db.PutTicket(t);
    reply := Reply(200, true, "Ticket status updated to CLOSED", OneTicket(t));
  }

  /** How a query includes a related user: not at all, the whole row, or
      `select: { id: true, name: true, email: true }`. */
  datatype Shape = Omit | Whole | IdNameEmail

  /** The user `id` points to, embedded as `shape` asks. */
  function Relate(users: map<string, User>, id: Option<string>, shape: Shape): (r: Related)
    ensures shape == Omit <==> r == NotIncluded
    ensures shape != Omit && (id.None? || id.value !in users) ==> r == NoUser
    ensures shape == Whole && id.Some? && id.value in users ==> r == WholeRow(users[id.value])
    ensures shape == IdNameEmail && id.Some? && id.value in users ==>
      r == Brief(users[id.value].id, users[id.value].name, users[id.value].email)
  {
    match shape
    case Omit => NotIncluded
    case Whole => if id.Some? && id.value in users then WholeRow(users[id.value]) else NoUser
    case IdNameEmail =>
      if id.Some? && id.value in users then Brief(users[id.value].id, users[id.value].name, users[id.value].email)
      else NoUser
  }

  /** A ticket with its coordinator and technician included. */
  function View(users: map<string, User>, t: Ticket, coordinator: Shape, technician: Shape): TicketView {
    TicketView(t, Relate(users, Some(t.coordinatorId), coordinator), Relate(users, t.technicianId, technician))
  }

  /** The tickets of a list of views, in order. */
  function TicketsOf(vs: seq<TicketView>): (r: seq<Ticket>)
    ensures |r| == |vs|
    ensures forall i | 0 <= i < |vs| :: r[i] == vs[i].ticket
  {
    seq(|vs|, i requires 0 <= i < |vs| => vs[i].ticket)
  }

  /** `findMany` with an `include`: each row with its relations, in the
      order of `rows`. */
  function Views(users: map<string, User>, rows: seq<Ticket>, coordinator: Shape, technician: Shape): (r: seq<TicketView>)
    ensures TicketsOf(r) == rows
    ensures forall v | v in r :: v == View(users, v.ticket, coordinator, technician)
  {
    var r := seq(|rows|, i requires 0 <= i < |rows| => View(users, rows[i], coordinator, technician));
    assert forall v | v in r :: v == View(users, v.ticket, coordinator, technician);
    r
  }

  /** The stored tickets `keep` selects, in stored order, with their
      relations included as asked. */
  function Selected(db: Db, keep: Ticket -> bool, coordinator: Shape, technician: Shape): (r: seq<TicketView>)
    reads db
    requires db.Valid()
    ensures forall v | v in r :: v.ticket.id in db.tickets && db.tickets[v.ticket.id] == v.ticket && keep(v.ticket)
    ensures forall k | k in db.tickets && keep(db.tickets[k]) :: db.tickets[k] in TicketsOf(r)
    ensures forall v | v in r :: v == View(db.users, v.ticket, coordinator, technician)
  {
    var rows := Seqs.Filter(db.AllTickets(), keep);
    var r := Views(db.users, rows, coordinator, technician);
    assert forall v | v in r :: v.ticket in rows by {
      forall v | v in r ensures v.ticket in rows {
        var i :| 0 <= i < |r| && r[i] == v;
        assert TicketsOf(r)[i] == v.ticket;
      }
    }
    r
  }

  /** `getAllTickets`: every stored ticket, each with its coordinator's and
      its technician's whole rows, password hashes included. */
  function GetAllTickets(db: Db): (r: Reply)
    reads db
    requires db.Valid()
    ensures r.status == 200 && r.success && r.payload.TicketList?
    ensures forall v | v in r.payload.tickets :: v.ticket.id in db.tickets && db.tickets[v.ticket.id] == v.ticket
    ensures forall k | k in db.tickets :: db.tickets[k] in TicketsOf(r.payload.tickets)
    ensures forall v | v in r.payload.tickets ::
      && v.coordinator == WholeRow(db.users[v.ticket.coordinatorId])
      && v.technician == (if v.ticket.technicianId.Some? then WholeRow(db.users[v.ticket.technicianId.value]) else NoUser)
  {
    Reply(200, true, "", TicketList(Selected(db, (t: Ticket) => true, Whole, Whole)))
  }

  /** Whoever may call `getAllTickets` (any logged-in user) receives the
      password hash of the coordinator of every stored ticket. */
  lemma AllTicketsCarryHashes(db: Db, k: string)
    requires db.Valid() && k in db.tickets
    ensures exists v | v in GetAllTickets(db).payload.tickets ::
      v.coordinator.WholeRow? && v.coordinator.row.password == db.users[db.tickets[k].coordinatorId].password
  {
    var vs := GetAllTickets(db).payload.tickets;
    var i :| 0 <= i < |TicketsOf(vs)| && TicketsOf(vs)[i] == db.tickets[k];
    assert vs[i] in vs;
  }

  /** The stored tickets whose status is `st`, in stored order, with the
      coordinator's whole row and the technician included as `technician`
      says. The `!tickets` test in the source never fires on an array, so
      the 404 branch is dead. */
  function WithStatus(db: Db, st: Status, technician: Shape): (r: Reply)
    reads db
    requires db.Valid()
    ensures r.status == 200 && r.success && r.payload.TicketList?
    ensures forall v | v in r.payload.tickets ::
      v.ticket.id in db.tickets && db.tickets[v.ticket.id] == v.ticket && v.ticket.status == st
    ensures forall k | k in db.tickets && db.tickets[k].status == st :: db.tickets[k] in TicketsOf(r.payload.tickets)
    ensures forall v | v in r.payload.tickets :: v == View(db.users, v.ticket, Whole, technician)
  {
    Reply(200, true, "", TicketList(Selected(db, (t: Ticket) => t.status == st, Whole, technician)))
  }

  /** `getAllOpenTickets`: the OPEN tickets with their coordinators' whole
      rows; the technician is not included. */
  function GetAllOpenTickets(db: Db): (r: Reply)
    reads db
    requires db.Valid()
    ensures r.status == 200 && r.payload.TicketList?
    ensures forall v | v in r.payload.tickets ::
      v.ticket.id in db.tickets && db.tickets[v.ticket.id] == v.ticket && v.ticket.status == Open
    ensures forall k | k in db.tickets && db.tickets[k].status == Open :: db.tickets[k] in TicketsOf(r.payload.tickets)
    ensures forall v | v in r.payload.tickets ::
      v.coordinator == WholeRow(db.users[v.ticket.coordinatorId]) && v.technician == NotIncluded
  {
    WithStatus(db, Open, Omit)
  }

  /** `getAllInProgressTickets`: the IN_PROGRESS tickets with both users'
      whole rows. */
  function GetAllInProgressTickets(db: Db): (r: Reply)
    reads db
    requires db.Valid()
    ensures r.status == 200 && r.payload.TicketList?
    ensures forall v | v in r.payload.tickets ::
      v.ticket.id in db.tickets && db.tickets[v.ticket.id] == v.ticket && v.ticket.status == InProgress
    ensures forall k | k in db.tickets && db.tickets[k].status == InProgress :: db.tickets[k] in TicketsOf(r.payload.tickets)
    ensures forall v | v in r.payload.tickets ::
      v.coordinator == WholeRow(db.users[v.ticket.coordinatorId]) && v.technician == Relate(db.users, v.ticket.technicianId, Whole)
  {
    WithStatus(db, InProgress, Whole)
  }

  /** `getAllClosedTickets`: the CLOSED tickets with both users' whole
      rows. */
  function GetAllClosedTickets(db: Db): (r: Reply)
    reads db
    requires db.Valid()
    ensures r.status == 200 && r.payload.TicketList?
    ensures forall v | v in r.payload.tickets ::
      v.ticket.id in db.tickets && db.tickets[v.ticket.id] == v.ticket && v.ticket.status == Closed
    ensures forall k | k in db.tickets && db.tickets[k].status == Closed :: db.tickets[k] in TicketsOf(r.payload.tickets)
    ensures forall v | v in r.payload.tickets ::
      v.coordinator == WholeRow(db.users[v.ticket.coordinatorId]) && v.technician == Relate(db.users, v.ticket.technicianId, Whole)
  {
    WithStatus(db, Closed, Whole)
  }

  function UpdatedAt(t: Ticket): int { t.updatedAt }

  /** `orderBy: { updatedAt: "desc" }` over the rows `keep` selects; rows
      with equal `updatedAt` keep their stored order. */
  function NewestFirst(rows: seq<Ticket>, keep: Ticket -> bool): (r: seq<Ticket>)
    ensures Seqs.SortedDesc(r, UpdatedAt)
    ensures multiset(r) == multiset(Seqs.Filter(rows, keep))
    ensures forall t | t in r :: t in rows && keep(t)
    ensures forall t | t in rows && keep(t) :: t in r
  {
    var kept := Seqs.Filter(rows, keep);
    var r := Seqs.SortDesc(kept, UpdatedAt);
    assert forall t | t in r :: t in multiset(kept);
    assert forall t | t in kept :: t in multiset(r);
    r
  }

  /** The stored tickets `keep` selects, most recently updated first, with
      the relations included as asked. */
  function NewestSelected(db: Db, keep: Ticket -> bool, coordinator: Shape, technician: Shape): (r: seq<TicketView>)
    reads db
    requires db.Valid()
    ensures Seqs.SortedDesc(TicketsOf(r), UpdatedAt)
    ensures forall v | v in r :: v.ticket.id in db.tickets && db.tickets[v.ticket.id] == v.ticket && keep(v.ticket)
    ensures forall k | k in db.tickets && keep(db.tickets[k]) :: db.tickets[k] in TicketsOf(r)
    ensures forall v | v in r :: v == View(db.users, v.ticket, coordinator, technician)
  {
    var rows := NewestFirst(db.AllTickets(), keep);
    var r := Views(db.users, rows, coordinator, technician);
    assert forall v | v in r :: v.ticket in rows by {
      forall v | v in r ensures v.ticket in rows {
        var i :| 0 <= i < |r| && r[i] == v;
        assert TicketsOf(r)[i] == v.ticket;
      }
    }
    r
  }

  /** `getAllTechnicianTickets`: the caller's assigned tickets, most
      recently updated first, each with its coordinator's id, name and
      e-mail. Without `req.user` reading its id throws. */
  function GetAllTechnicianTickets(db: Db, req: Request): (r: Reply)
    reads db
    requires db.Valid()
    ensures req.user.None? ==> r == Fail(500, "Failed to fetch technician tickets")
    ensures req.user.Some? ==> r.status == 200 && r.payload.TicketList?
    ensures req.user.Some? ==>
      && Seqs.SortedDesc(TicketsOf(r.payload.tickets), UpdatedAt)
      && (forall v | v in r.payload.tickets ::
            && v.ticket.id in db.tickets && db.tickets[v.ticket.id] == v.ticket
            && v.ticket.technicianId == Some(req.user.value.id))
      && (forall k | k in db.tickets && db.tickets[k].technicianId == Some(req.user.value.id) ::
            db.tickets[k] in TicketsOf(r.payload.tickets))
      && (forall v | v in r.payload.tickets ::
            v.coordinator == Relate(db.users, Some(v.ticket.coordinatorId), IdNameEmail) && v.technician == NotIncluded)
  {
    match req.user
    case None => Fail(500, "Failed to fetch technician tickets")
    case Some(u) =>
      Reply(200, true, "", TicketList(NewestSelected(db, (t: Ticket) => t.technicianId == Some(u.id), IdNameEmail, Omit)))
  }

  /** `getAllCoordinatorTickets`: the caller's own tickets, most recently
      updated first, each with its technician's id, name and e-mail. */
  function GetAllCoordinatorTickets(db: Db, req: Request): (r: Reply)
    reads db
    requires db.Valid()
    ensures req.user.None? ==> r == Fail(500, "Failed to fetch coordinator tickets")
    ensures req.user.Some? ==> r.status == 200 && r.payload.TicketList?
    ensures req.user.Some? ==>
      && Seqs.SortedDesc(TicketsOf(r.payload.tickets), UpdatedAt)
      && (forall v | v in r.payload.tickets ::
            && v.ticket.id in db.tickets && db.tickets[v.ticket.id] == v.ticket
            && v.ticket.coordinatorId == req.user.value.id)
      && (forall k | k in db.tickets && db.tickets[k].coordinatorId == req.user.value.id ::
            db.tickets[k] in TicketsOf(r.payload.tickets))
      && (forall v | v in r.payload.tickets ::
            v.coordinator == NotIncluded && v.technician == Relate(db.users, v.ticket.technicianId, IdNameEmail))
  {
    match req.user
    case None => Fail(500, "Failed to fetch coordinator tickets")
    case Some(u) =>
      Reply(200, true, "", TicketList(NewestSelected(db, (t: Ticket) => t.coordinatorId == u.id, Omit, IdNameEmail)))
  }

  /** `getTicketById`: 404 when no row has the id; an undefined id makes
      the lookup throw. The ticket comes with the id, name and e-mail of
      its coordinator and of its technician. */
  function GetTicketById(db: Db, params: map<string, string>): (r: Reply)
    reads db
    requires db.Valid()
    ensures "id" !in params ==> r == Fail(500, "Failed to fetch ticket by id")
    ensures "id" in params && params["id"] !in db.tickets ==> r == Fail(404, "Ticket not found")
    ensures "id" in params && params["id"] in db.tickets ==>
      && r.status == 200 && r.payload.OneView?
      && var v := r.payload.view;
      && v.ticket == db.tickets[params["id"]]
      && v.coordinator == Brief(v.ticket.coordinatorId, db.users[v.ticket.coordinatorId].name, db.users[v.ticket.coordinatorId].email)
      && v.technician == Relate(db.users, v.ticket.technicianId, IdNameEmail)
  {
    match Lookup(params, "id")
    case None => Fail(500, "Failed to fetch ticket by id")
    case Some(id) =>
      match Lookup(db.tickets, id)
      case None => Fail(404, "Ticket not found")
      case Some(t) => Reply(200, true, "", OneView(View(db.users, t, IdNameEmail, IdNameEmail)))
  }
}
