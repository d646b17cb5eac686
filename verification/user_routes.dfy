/** The user router: two listings behind a session, and user creation
    behind a session, the admin check and the create-user schema. The rate
    limiter in the create chain is left out. */
module UserRoutes {
  import opened Wrappers
  import opened Domain
  import opened Http
  import opened Store
  import opened Pipeline
  import AuthMiddleware
  import AuthValidator
  import AuthValidatorMiddleware
  import UserController
  import TicketRoutes

  datatype Endpoint = AllTechnicians | AllCoordinators | CreateUser

  function Chain(e: Endpoint): (gs: seq<Guard>)
    ensures |gs| > 0 && gs[0] == LoggedIn
    ensures (AdminOnly in gs) <==> e == CreateUser
  {
    match e
    case CreateUser => [LoggedIn, AdminOnly, CreateUserBody]
    case _ => [LoggedIn]
  }

  /** Create-user: 401 without a session, then 403 for any caller who is
      not an ADMIN (whatever the body), then 400 for a body the
      create-user schema refuses. */
  lemma CreateUserChain(w: World, req: Request)
    requires TicketRoutes.Keyed(w.users)
    ensures var s := RunGuards(Chain(CreateUser), w, req);
      var u := AuthMiddleware.SessionUser(w.users, w.env, req);
      && (s.Next? <==> u.Some? && u.value.role == Admin && AuthValidator.ValidCreateUser(req.body, w.env.isEmail))
      && (u.None? ==> s.Stop? && s.reply.status == 401)
      && (u.Some? && u.value.role != Admin ==> s == Stop(Fail(403, "Access denied, admins only")))
      && (u.Some? && u.value.role == Admin && s.Stop? ==> s.reply.status == 400)
  {
    var gs := [LoggedIn, AdminOnly, CreateUserBody];
    assert Chain(CreateUser) == gs;
    assert gs[1..] == [AdminOnly, CreateUserBody];
    assert gs[1..][1..] == [CreateUserBody];
    var a := AuthMiddleware.IsLoggedIn(w.users, w.env, req);
    assert ApplyGuard(LoggedIn, w, req) == a;
    if a.Next? {
      var q := a.req;
      assert RunGuards(gs, w, req) == RunGuards([AdminOnly, CreateUserBody], w, q);
      var u := AuthMiddleware.SessionUser(w.users, w.env, req).value;
      assert w.users[u.id] == u;
      var b := AuthMiddleware.IsAdmin(w.users, q);
      assert ApplyGuard(AdminOnly, w, q) == b;
      if b.Next? {
        assert RunGuards([AdminOnly, CreateUserBody], w, q) == RunGuards([CreateUserBody], w, q);
        var c := AuthValidatorMiddleware.ValidateCreateTicketInputs(w.env, q);
        assert ApplyGuard(CreateUserBody, w, q) == c;
        assert RunGuards([CreateUserBody], w, q) == if c.Stop? then c else RunGuards([], w, c.req);
      }
    }
  }

  /** The listings need a session and nothing else. */
  lemma ListingChains(e: Endpoint, w: World, req: Request)
    requires e != CreateUser
    ensures RunGuards(Chain(e), w, req) == AuthMiddleware.IsLoggedIn(w.users, w.env, req)
  {
  }

  /** Serve one request. `newId` stands for the database's id generator. */
  method Handle(db: Db, env: Env, e: Endpoint, req: Request, newId: string) returns (reply: Reply)
    requires db.Valid() && newId !in db.users
    modifies db
    ensures db.Valid()
    ensures db.tickets == old(db.tickets)
    ensures var s := RunGuards(Chain(e), World(old(db.users), old(db.tickets), env), req);
      s.Stop? ==> reply == s.reply && db.users == old(db.users)
    ensures db.users != old(db.users) ==>
      var u := AuthMiddleware.SessionUser(old(db.users), env, req);
      && e == CreateUser && reply.status == 201
      && u.Some? && u.value.role == Admin
      && AuthValidator.ValidCreateUser(req.body, env.isEmail)
    ensures e != CreateUser ==> db.users == old(db.users)
  {
    var w := World(db.users, db.tickets, env);
    var s := RunGuards(Chain(e), w, req);
    if s.Stop? {
      return s.reply;
    }
    RunGuardsKeepRequest(Chain(e), w, req);
    match e {
      case AllTechnicians =>
        reply := UserController.GetAllTechnicians(db.AllUsers());
      case AllCoordinators =>
        reply := UserController.GetAllCoordinators(db.AllUsers());
      case CreateUser =>
        CreateUserChain(w, req);
        reply := UserController.CreateUser(db, env, s.req.body, newId);
    }
  }
}
