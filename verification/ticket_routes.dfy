/** The ticket router: the guard chain of every endpoint, the handler it
    leads to, and what the two status-changing routes allow a stored
    ticket to become. The rate limiters in the chains are left out (they
    pass every request the model considers). */
module TicketRoutes {
  import opened Wrappers
  import opened Domain
  import opened Http
  import opened Store
  import opened Pipeline
  import TicketMiddleware
  import AuthMiddleware
  import TicketValidator
  import TicketController

  datatype Endpoint =
    | Create
    | UpdateTicket
    | GetTicket
    | GetAllTickets
    | OpenTickets
    | InProgressTickets
    | ClosedTickets
    | TechnicianTickets
    | CoordinatorTickets
    | SetToInProgress
    | SetToClosed
    | DepartmentWise

  /** The guards in front of each handler, in route order. */
  function Chain(e: Endpoint): (gs: seq<Guard>)
    ensures (LoggedIn in gs) <==> e != SetToClosed
    ensures (AdminOnly in gs) <==> e == SetToInProgress
    ensures (CoordinatorOnly in gs) <==> (e == Create || e == UpdateTicket)
    ensures (OpenTicket in gs) <==> e == SetToInProgress
    ensures (InProgressTicket in gs) <==> e == SetToClosed
  {
    match e
    case Create => [LoggedIn, CoordinatorOnly, CreateTicketBody]
    case UpdateTicket => [LoggedIn, CoordinatorOnly, UpdateTicketBody]
    case SetToInProgress => [LoggedIn, AdminOnly, OpenTicket]
    case SetToClosed => [InProgressTicket]
    case _ => [LoggedIn]
  }

  /** The route parameters each path pattern binds. */
  function RouteParams(e: Endpoint): set<string> {
    match e
    case UpdateTicket => {"id"}
    case GetTicket => {"id"}
    case SetToInProgress => {"id", "technicianId"}
    case SetToClosed => {"id"}
    case _ => {}
  }

  /** The name under which the assign handler reads the technician id. */
  const ControllerTechnicianParam := "userId"

  /** Ids equal the keys they are stored under. */
  ghost predicate Keyed(users: map<string, User>) {
    forall k | k in users :: users[k].id == k
  }

  /** A guard chain that passed has seen the ticket status each status
      guard in it asks for. */
  lemma {:induction false} PassedStatusGuards(gs: seq<Guard>, w: World, req: Request)
    requires RunGuards(gs, w, req).Next?
    ensures OpenTicket in gs ==> TicketMiddleware.IsOpen(w.tickets, req).Next?
    ensures InProgressTicket in gs ==> TicketMiddleware.IsInProgress(w.tickets, req).Next?
  {
    if gs != [] {
      assert gs == [gs[0]] + gs[1..];
      match ApplyGuard(gs[0], w, req)
      case Next(req') =>
        PassedStatusGuards(gs[1..], w, req');
        RunGuardsKeepRequest([gs[0]], w, req);
        assert RunGuards([gs[0]], w, req) == Next(req') by {
          assert [gs[0]][1..] == [];
        }
    }
  }

  /** Assign: 401 without a session, then 403 unless the session user is
      an ADMIN, then the ticket must be OPEN. The handler runs exactly when
      all three hold, and every refusal is an error status. */
  lemma AssignChain(w: World, req: Request)
    requires Keyed(w.users)
    ensures var s := RunGuards(Chain(SetToInProgress), w, req);
      var u := AuthMiddleware.SessionUser(w.users, w.env, req);
      && (s.Next? <==> u.Some? && u.value.role == Admin && TicketMiddleware.IsOpen(w.tickets, req).Next?)
      && (u.None? ==> s.Stop? && s.reply.status == 401)
      && (u.Some? && u.value.role != Admin ==> s == Stop(Fail(403, "Access denied, admins only")))
      && (u.Some? && u.value.role == Admin && s.Stop? ==> s.reply == TicketMiddleware.IsOpen(w.tickets, req).reply)
      && (s.Stop? ==> s.reply.status in {400, 401, 403, 500})
  {
    var gs := [LoggedIn, AdminOnly, OpenTicket];
    assert Chain(SetToInProgress) == gs;
    assert gs[1..] == [AdminOnly, OpenTicket];
    assert gs[1..][1..] == [OpenTicket];
    var a := AuthMiddleware.IsLoggedIn(w.users, w.env, req);
    assert ApplyGuard(LoggedIn, w, req) == a;
    if a.Next? {
      var q := a.req;
      assert RunGuards(gs, w, req) == RunGuards([AdminOnly, OpenTicket], w, q);
      var u := AuthMiddleware.SessionUser(w.users, w.env, req).value;
      assert w.users[u.id] == u;
      var b := AuthMiddleware.IsAdmin(w.users, q);
      assert ApplyGuard(AdminOnly, w, q) == b;
      if b.Next? {
        assert RunGuards([AdminOnly, OpenTicket], w, q) == RunGuards([OpenTicket], w, q);
        var c := TicketMiddleware.IsOpen(w.tickets, q);
        assert ApplyGuard(OpenTicket, w, q) == c;
        assert TicketMiddleware.Target(w.tickets, q) == TicketMiddleware.Target(w.tickets, req);
        assert RunGuards([OpenTicket], w, q) == if c.Stop? then c else RunGuards([], w, c.req);
      }
    }
  }

  /** Close: only `isInProgress` stands in front of the handler; no cookie
      or role is needed. */
  lemma CloseChain(w: World, req: Request)
    ensures RunGuards(Chain(SetToClosed), w, req) == TicketMiddleware.IsInProgress(w.tickets, req)
    ensures req.cookie.None? && "id" in req.params && req.params["id"] in w.tickets
            && w.tickets[req.params["id"]].status == InProgress ==>
      RunGuards(Chain(SetToClosed), w, req) == Next(req)
  {
  }

  /** Every listing and the lookup by id need a session and nothing else. */
  lemma ListingChains(e: Endpoint, w: World, req: Request)
    requires e in {GetTicket, GetAllTickets, OpenTickets, InProgressTickets, ClosedTickets,
                   TechnicianTickets, CoordinatorTickets, DepartmentWise}
    ensures RunGuards(Chain(e), w, req) == AuthMiddleware.IsLoggedIn(w.users, w.env, req)
    ensures RunGuards(Chain(e), w, req).Next? <==> AuthMiddleware.SessionUser(w.users, w.env, req).Some?
  {
  }

  /** Create and update-ticket: session, then the coordinator guard on the
      request carrying the session user, then the body. */
  lemma BodyChains(w: World, req: Request)
    ensures var s := RunGuards(Chain(Create), w, req);
      var u := AuthMiddleware.SessionUser(w.users, w.env, req);
      s.Next? <==>
        (&& u.Some?
         && w.env.isCoordinator(req.(user := Some(AuthMiddleware.Public(u.value)))).None?
         && TicketValidator.ValidCreateTicket(req.body))
    ensures var s := RunGuards(Chain(UpdateTicket), w, req);
      var u := AuthMiddleware.SessionUser(w.users, w.env, req);
      s.Next? <==>
        (&& u.Some?
         && w.env.isCoordinator(req.(user := Some(AuthMiddleware.Public(u.value)))).None?
         && TicketValidator.ValidUpdateTicket(req.body))
    ensures AuthMiddleware.SessionUser(w.users, w.env, req).None? ==>
      RunGuards(Chain(Create), w, req).reply.status == 401 && RunGuards(Chain(UpdateTicket), w, req).reply.status == 401
  {
  }

  /** How one stored ticket may change through the ticket routes: not at
      all, OPEN to IN_PROGRESS with a technician attached, or IN_PROGRESS
      to CLOSED. */
  ghost predicate Moves(a: Ticket, b: Ticket) {
    || a == b
    || (a.status == Open && b.technicianId.Some? && b == TicketController.AsAssigned(a, b.technicianId.value, b.updatedAt))
    || (a.status == InProgress && b == TicketController.AsClosed(a, b.updatedAt))
  }

  /** The ticket table after a request, against the table before. */
  ghost predicate Evolves(before: map<string, Ticket>, after: map<string, Ticket>) {
    && (forall k | k in before :: k in after && Moves(before[k], after[k]))
    && (forall k | k in after && k !in before :: after[k].status == Open && after[k].technicianId.None?)
  }

  /** A ticket is OPEN exactly while it has no technician. */
  ghost predicate Consistent(t: Ticket) {
    t.status == Open <==> t.technicianId.None?
  }

  /** The status only moves forward, CLOSED is final, and consistency is
      kept. */
  lemma MovesForward(a: Ticket, b: Ticket)
    requires Moves(a, b)
    ensures a.status == Closed ==> b == a
    ensures b.status == Open ==> b == a
    ensures a.status == InProgress ==> b.status != Open
    ensures Consistent(a) && a.technicianId.Some? ==> b.technicianId == a.technicianId
    ensures Consistent(a) ==> Consistent(b)
  {
  }

  /** Without the `isInProgress` guard, closing an OPEN ticket would leave
      a CLOSED ticket without a technician. */
  lemma CloseNeedsGuard(t: Ticket, now: int)
    requires t.status == Open && Consistent(t)
    ensures !Consistent(TicketController.AsClosed(t, now))
    ensures !Moves(t, TicketController.AsClosed(t, now))
  {
  }

  lemma EvolvesUnchanged(tickets: map<string, Ticket>)
    ensures Evolves(tickets, tickets)
  {
  }

  lemma EvolvesUpdate(before: map<string, Ticket>, k: string, t: Ticket)
    requires k in before && Moves(before[k], t)
    ensures Evolves(before, before[k := t])
  {
  }

  /** `createTicket` behind a passed chain: the new row is OPEN without a
      technician. */
  method CreateStep(db: Db, q: Request, newId: string, now: int) returns (reply: Reply)
    requires db.Valid() && newId !in db.tickets
    modifies db
    ensures db.Valid() && db.users == old(db.users)
    ensures Evolves(old(db.tickets), db.tickets)
  {
    reply := TicketController.CreateTicket(db, q, newId, now);
    if reply.status != 201 {
      EvolvesUnchanged(db.tickets);
    }
  }

  /** `setStatusToInProgress` behind a passed chain: the ticket was OPEN,
      and the technician is the one the route binds. */
  method AssignStep(db: Db, q: Request, now: int) returns (reply: Reply)
    requires db.Valid()
    requires TicketMiddleware.IsOpen(db.tickets, q).Next?
    modifies db
    ensures db.Valid() && db.users == old(db.users)
    ensures Evolves(old(db.tickets), db.tickets)
    ensures reply.status == 200 <==> "technicianId" in q.params && q.params["technicianId"] in db.users
    ensures reply.status == 200 ==>
      && "id" in q.params && q.params["id"] in old(db.tickets)
      && old(db.tickets)[q.params["id"]].status == Open
      && db.tickets[q.params["id"]].status == InProgress
      && db.tickets[q.params["id"]].technicianId == Some(q.params["technicianId"])
  {
    ghost var before := db.tickets;
    var k := q.params["id"];
    reply := TicketController.SetStatusToInProgress(db, Some(k), Lookup(q.params, "technicianId"), now);
    if reply.status == 200 {
      var t := TicketController.AsAssigned(before[k], q.params["technicianId"], now);
      assert db.tickets == before[k := t];
      assert Moves(before[k], t);
      EvolvesUpdate(before, k, t);
    } else {
      EvolvesUnchanged(db.tickets);
    }
  }

  /** `setStatusToClosed` behind a passed chain: the ticket was
      IN_PROGRESS. */
  method CloseStep(db: Db, q: Request, now: int) returns (reply: Reply)
    requires db.Valid()
    requires TicketMiddleware.IsInProgress(db.tickets, q).Next?
    modifies db
    ensures db.Valid() && db.users == old(db.users)
    ensures Evolves(old(db.tickets), db.tickets)
    ensures reply.status == 200
    ensures db.tickets[q.params["id"]].status == Closed
    ensures db.tickets[q.params["id"]].technicianId == old(db.tickets)[q.params["id"]].technicianId
  {
    ghost var before := db.tickets;
    var k := q.params["id"];
    reply := TicketController.SetStatusToClosed(db, Some(k), now);
    var t := TicketController.AsClosed(before[k], now);
    assert db.tickets == before[k := t];
    assert Moves(before[k], t);
    EvolvesUpdate(before, k, t);
  }

  /** The read-only handlers. */
  function Read(e: Endpoint, db: Db, q: Request): (r: Reply)
    reads db
    requires db.Valid()
    requires e in {GetTicket, GetAllTickets, OpenTickets, InProgressTickets, ClosedTickets,
                   TechnicianTickets, CoordinatorTickets}
    ensures e == GetTicket ==> r == TicketController.GetTicketById(db, q.params)
    ensures e != GetTicket ==> r.payload.TicketList? || !r.success
  {
    match e
    case GetTicket => TicketController.GetTicketById(db, q.params)
    case GetAllTickets => TicketController.GetAllTickets(db)
    case OpenTickets => TicketController.GetAllOpenTickets(db)
    case InProgressTickets => TicketController.GetAllInProgressTickets(db)
    case ClosedTickets => TicketController.GetAllClosedTickets(db)
    case TechnicianTickets => TicketController.GetAllTechnicianTickets(db, q)
    case CoordinatorTickets => TicketController.GetAllCoordinatorTickets(db, q)
  }

  /** Serve one request: run the chain and, when it lets the request
      through, the handler. `newId` and `now` stand for the database's id
      generator and clock. Update-ticket and the department-wise listing
      are answered `None`: their handlers are not part of this model. The
      assign handler is given the `technicianId` the route binds. */
  method Handle(db: Db, env: Env, e: Endpoint, req: Request, newId: string, now: int) returns (reply: Option<Reply>)
    requires db.Valid() && newId !in db.tickets
    modifies db
    ensures db.Valid()
    ensures db.users == old(db.users)
    ensures Evolves(old(db.tickets), db.tickets)
    ensures var s := RunGuards(Chain(e), World(old(db.users), old(db.tickets), env), req);
      && (s.Stop? ==> reply == Some(s.reply) && db.tickets == old(db.tickets))
      && (s.Next? ==> (reply.None? <==> e in {UpdateTicket, DepartmentWise}))
    ensures e !in {Create, SetToInProgress, SetToClosed} ==> db.tickets == old(db.tickets)
    ensures e == SetToInProgress && reply.Some? && reply.value.status == 200 ==>
      && "id" in req.params && req.params["id"] in old(db.tickets)
      && old(db.tickets)[req.params["id"]].status == Open
      && "technicianId" in req.params
      && db.tickets[req.params["id"]].technicianId == Some(req.params["technicianId"])
      && req.params["technicianId"] in db.users
    ensures e == SetToClosed && reply.Some? && reply.value.status == 200 ==>
      && "id" in req.params && req.params["id"] in old(db.tickets)
      && old(db.tickets)[req.params["id"]].status == InProgress
      && db.tickets[req.params["id"]].status == Closed
  {
    var w := World(db.users, db.tickets, env);
    var s := RunGuards(Chain(e), w, req);
    EvolvesUnchanged(db.tickets);
    if s.Stop? {
      if e == SetToInProgress {
        AssignChain(w, req);
      } else if e == SetToClosed {
        CloseChain(w, req);
      }
      return Some(s.reply);
    }
    var q := s.req;
    RunGuardsKeepRequest(Chain(e), w, req);
    if e == Create {
      var r := CreateStep(db, q, newId, now);
      reply := Some(r);
    } else if e == SetToInProgress {
      PassedStatusGuards(Chain(e), w, req);
      assert TicketMiddleware.IsOpen(db.tickets, q).Next?;
      var r := AssignStep(db, q, now);
      reply := Some(r);
    } else if e == SetToClosed {
      PassedStatusGuards(Chain(e), w, req);
      assert TicketMiddleware.IsInProgress(db.tickets, q).Next?;
      var r := CloseStep(db, q, now);
      reply := Some(r);
    } else if e in {UpdateTicket, DepartmentWise} {
      reply := None;
    } else {
      reply := Some(Read(e, db, q));
    }
  }

  /** The assign route as written: the handler reads the technician id
      from `userId`, a parameter the route never binds, so after the
      guards pass the connect fails and the ticket is never assigned. */
  method AssignAsWritten(db: Db, env: Env, req: Request, now: int) returns (reply: Reply)
    requires db.Valid()
    requires req.params.Keys == RouteParams(SetToInProgress)
    modifies db
    ensures db.Valid()
    ensures db.users == old(db.users) && db.tickets == old(db.tickets)
    ensures reply.status != 200
    ensures RunGuards(Chain(SetToInProgress), World(old(db.users), old(db.tickets), env), req).Next? ==>
      reply == Fail(500, "Failed to update ticket status")
  {
    var s := RunGuards(Chain(SetToInProgress), World(db.users, db.tickets, env), req);
    AssignChain(World(db.users, db.tickets, env), req);
    if s.Stop? {
      return s.reply;
    }
    RunGuardsKeepRequest(Chain(SetToInProgress), World(db.users, db.tickets, env), req);
    AssignParamMismatch(s.req.params);
    reply := TicketController.SetStatusToInProgress(db, Lookup(s.req.params, "id"), Lookup(s.req.params, ControllerTechnicianParam), now);
  }

  /** The parameter the controller reads is never bound by the assign
      route, while the one the route binds is. */
  lemma AssignParamMismatch(params: map<string, string>)
    requires params.Keys == RouteParams(SetToInProgress)
    ensures Lookup(params, ControllerTechnicianParam).None?
    ensures Lookup(params, "technicianId").Some?
  {
  }
}
