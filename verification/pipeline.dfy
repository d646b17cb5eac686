/** Express middleware chains: a route is a sequence of guards followed by
    a handler, and the handler runs only when every guard, in order,
    calls `next`. */
module Pipeline {
  import opened Wrappers
  import opened Domain
  import opened Http
  import TicketMiddleware
  import AuthMiddleware
  import TicketValidatorMiddleware
  import AuthValidatorMiddleware

  datatype Guard =
    | LoggedIn
    | AdminOnly
    | CoordinatorOnly
    | OpenTicket
    | InProgressTicket
    | CreateTicketBody
    | UpdateTicketBody
    | RegisterBody
    | LoginBody
    | UpdateProfileBody
    | CreateUserBody

  /** What the guards read: the stored users and tickets and the
      collaborators. */
  datatype World = World(users: map<string, User>, tickets: map<string, Ticket>, env: Env)

  function ApplyGuard(g: Guard, w: World, req: Request): Step {
    match g
    case LoggedIn => AuthMiddleware.IsLoggedIn(w.users, w.env, req)
    case AdminOnly => AuthMiddleware.IsAdmin(w.users, req)
    case CoordinatorOnly =>
      (match w.env.isCoordinator(req)
       case Some(reply) => Stop(reply)
       case None => Next(req))
    case OpenTicket => TicketMiddleware.IsOpen(w.tickets, req)
    case InProgressTicket => TicketMiddleware.IsInProgress(w.tickets, req)
    case CreateTicketBody => TicketValidatorMiddleware.ValidateCreateTicketInputs(req)
    case UpdateTicketBody => TicketValidatorMiddleware.ValidateUpdateTicketInputs(req)
    case RegisterBody => AuthValidatorMiddleware.ValidateRegisterInputs(w.env, req)
    case LoginBody => AuthValidatorMiddleware.ValidateLoginInputs(w.env, req)
    case UpdateProfileBody => AuthValidatorMiddleware.ValidateUpdateProfileInputs(req)
    case CreateUserBody => AuthValidatorMiddleware.ValidateCreateTicketInputs(w.env, req)
  }

  /** Run the guards in order; the first that answers ends the chain. */
  function RunGuards(gs: seq<Guard>, w: World, req: Request): Step
    decreases |gs|
  {
    if gs == [] then Next(req)
    else
      match ApplyGuard(gs[0], w, req)
      case Stop(reply) => Stop(reply)
      case Next(req') => RunGuards(gs[1..], w, req')
  }

  /** A chain split in two: the second part runs only on what the first
      let through. */
  lemma {:induction false} RunGuardsAppend(a: seq<Guard>, b: seq<Guard>, w: World, req: Request)
    ensures RunGuards(a + b, w, req) ==
      match RunGuards(a, w, req)
      case Stop(reply) => Stop(reply)
      case Next(req') => RunGuards(b, w, req')
  {
    if a == [] {
      assert a + b == b;
    } else {
      assert (a + b)[0] == a[0];
      assert (a + b)[1..] == a[1..] + b;
      match ApplyGuard(a[0], w, req)
      case Stop(_) =>
      case Next(req') => RunGuardsAppend(a[1..], b, w, req');
    }
  }

  /** One guard keeps the body, the parameters and the cookie, and only
      `isLoggedIn` changes the request at all. */
  lemma ApplyGuardKeepsRequest(g: Guard, w: World, req: Request)
    ensures ApplyGuard(g, w, req).Next? ==>
      var q := ApplyGuard(g, w, req).req;
      q.body == req.body && q.params == req.params && q.cookie == req.cookie
    ensures ApplyGuard(g, w, req).Next? && g != LoggedIn ==> ApplyGuard(g, w, req).req == req
  {
  }

  /** Guards never alter the body, the route parameters or the cookie;
      only `isLoggedIn` touches the request, to attach the user. */
  lemma {:induction false} RunGuardsKeepRequest(gs: seq<Guard>, w: World, req: Request)
    ensures RunGuards(gs, w, req).Next? ==>
      var q := RunGuards(gs, w, req).req;
      q.body == req.body && q.params == req.params && q.cookie == req.cookie
    ensures RunGuards(gs, w, req).Next? && LoggedIn !in gs ==> RunGuards(gs, w, req).req == req
  {
    if gs != [] {
      match ApplyGuard(gs[0], w, req)
      case Stop(_) =>
      case Next(req') =>
        ApplyGuardKeepsRequest(gs[0], w, req);
        assert gs == [gs[0]] + gs[1..];
        RunGuardsKeepRequest(gs[1..], w, req');
    }
  }
}
