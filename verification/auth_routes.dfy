/** The auth router: register and login behind their body validators
    only, logout, me and update-profile behind a session. The rate
    limiters are left out. */
module AuthRoutes {
  import opened Wrappers
  import opened Domain
  import opened Http
  import opened Store
  import opened Pipeline
  import AuthMiddleware
  import AuthValidator
  import AuthValidatorMiddleware
  import AuthController

  datatype Endpoint = Register | Login | Logout | Me | UpdateProfile

  function Chain(e: Endpoint): (gs: seq<Guard>)
    ensures (LoggedIn in gs) <==> e in {Logout, Me, UpdateProfile}
    ensures AdminOnly !in gs
  {
    match e
    case Register => [RegisterBody]
    case Login => [LoginBody]
    case Logout => [LoggedIn]
    case Me => [LoggedIn]
    case UpdateProfile => [LoggedIn, UpdateProfileBody]
  }

  /** Register and login need no session: only the body is checked. */
  lemma OpenChains(w: World, req: Request)
    ensures RunGuards(Chain(Register), w, req).Next? <==> AuthValidator.ValidRegister(req.body, w.env.isEmail)
    ensures RunGuards(Chain(Login), w, req).Next? <==> AuthValidator.ValidLogin(req.body, w.env.isEmail)
    ensures RunGuards(Chain(Register), w, req).Next? ==> RunGuards(Chain(Register), w, req).req == req
    ensures RunGuards(Chain(Login), w, req).Next? ==> RunGuards(Chain(Login), w, req).req == req
  {
  }

  /** Update-profile checks the session before the body: a request
      without a session is answered 401 whatever its body, and a body
      is refused with 400 only for a logged-in caller. */
  lemma UpdateProfileChain(w: World, req: Request)
    ensures var s := RunGuards(Chain(UpdateProfile), w, req);
      var u := AuthMiddleware.SessionUser(w.users, w.env, req);
      && (s.Next? <==> u.Some? && AuthValidator.ValidUpdateProfile(req.body))
      && (u.None? ==> s.Stop? && s.reply.status == 401)
      && (u.Some? && s.Stop? ==> s.reply.status == 400)
      && (s.Next? ==> s.req.user == Some(AuthMiddleware.Public(u.value)))
  {
    var gs := [LoggedIn, UpdateProfileBody];
    assert Chain(UpdateProfile) == gs;
    assert gs[1..] == [UpdateProfileBody];
    var a := AuthMiddleware.IsLoggedIn(w.users, w.env, req);
    assert ApplyGuard(LoggedIn, w, req) == a;
    if a.Next? {
      var q := a.req;
      assert RunGuards(gs, w, req) == RunGuards([UpdateProfileBody], w, q);
      var c := AuthValidatorMiddleware.ValidateUpdateProfileInputs(q);
      assert ApplyGuard(UpdateProfileBody, w, q) == c;
      assert RunGuards([UpdateProfileBody], w, q) == if c.Stop? then c else RunGuards([], w, c.req);
    }
  }

  /** Serve one request; `newId` stands for the database's id generator.
      The answer carries the cookie the handler sets, if any. */
  method Handle(db: Db, env: Env, e: Endpoint, req: Request, newId: string) returns (reply: Reply, cookie: CookieAction)
    requires db.Valid() && newId !in db.users
    modifies db
    ensures db.Valid()
    ensures db.tickets == old(db.tickets)
    ensures var s := RunGuards(Chain(e), World(old(db.users), old(db.tickets), env), req);
      s.Stop? ==> reply == s.reply && cookie == KeepCookie && db.users == old(db.users)
    ensures e in {Login, Logout, Me} ==> db.users == old(db.users)
    ensures e == UpdateProfile && db.users != old(db.users) ==>
      var u := AuthMiddleware.SessionUser(old(db.users), env, req);
      && u.Some? && u.value.id in old(db.users) && u.value.id in db.users
      && db.users == old(db.users)[u.value.id := db.users[u.value.id]]
    ensures cookie.SetCookie? ==> e in {Register, Login}
    ensures cookie == ClearCookie <==>
      e == Logout && RunGuards(Chain(e), World(old(db.users), old(db.tickets), env), req).Next?
  {
    var w := World(db.users, db.tickets, env);
    var s := RunGuards(Chain(e), w, req);
    cookie := KeepCookie;
    if s.Stop? {
      return s.reply, KeepCookie;
    }
    RunGuardsKeepRequest(Chain(e), w, req);
    match e {
      case Register =>
        reply, cookie := AuthController.RegisterUser(db, env, s.req.body, newId);
      case Login =>
        var r := AuthController.LoginUser(db, env, s.req.body);
        reply, cookie := r.reply, r.cookie;
      case Logout =>
        var r := AuthController.LogoutUser();
        reply, cookie := r.reply, r.cookie;
      case Me =>
        reply := AuthController.GetMe(s.req);
      case UpdateProfile =>
        UpdateProfileChain(w, req);
        reply := AuthController.UpdateProfile(db, env, s.req);
    }
  }
}
