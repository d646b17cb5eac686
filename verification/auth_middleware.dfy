/** `isLoggedIn`, `isAdmin` and the validation middlewares defined beside
    them (which use the second copy of the account schemas). */
module AuthMiddleware {
  import opened Wrappers
  import opened Domain
  import opened Http
  import opened Zod
  import AuthValidator
  import LegacyValidator

  const NoToken := "Unauthorized, no token provided"

  /** The user a request's `jwt` cookie identifies: the cookie is present
      and non-empty, it verifies, and the id it carries is stored. */
  function SessionUser(users: map<string, User>, env: Env, req: Request): (r: Option<User>)
    ensures r.Some? <==> req.cookie.Some? && req.cookie.value != "" && req.cookie.value in env.tokens
                         && env.tokens[req.cookie.value] in users
    ensures r.Some? ==> r.value == users[env.tokens[req.cookie.value]]
  {
    match req.cookie
    case None => None
    case Some(token) =>
      if token != "" && token in env.tokens then Lookup(users, env.tokens[token]) else None
  }

  function Public(u: User): (a: AuthUser)
    ensures a.id == u.id && a.name == u.name && a.email == u.email && a.role == u.role && a.image == u.image
  {
    AuthUser(u.id, u.name, u.email, u.role, u.image)
  }

  function IsLoggedIn(users: map<string, User>, env: Env, req: Request): (r: Step)
    ensures r.Next? <==> SessionUser(users, env, req).Some?
    ensures r.Next? ==> r.req == req.(user := Some(Public(SessionUser(users, env, req).value)))
    ensures r.Stop? ==> r.reply.status == 401 && !r.reply.success
    ensures (req.cookie.None? || req.cookie == Some("")) ==> r == Stop(Fail(401, NoToken))
    ensures req.cookie.Some? && req.cookie.value != "" && req.cookie.value !in env.tokens ==> r == Stop(Fail(401, NoToken))
    ensures req.cookie.Some? && req.cookie.value != "" && req.cookie.value in env.tokens
            && env.tokens[req.cookie.value] !in users ==>
      r == Stop(Fail(401, "User not found"))
  {
    match req.cookie
    case None => Stop(Fail(401, NoToken))
    case Some(token) =>
      if token == "" then Stop(Fail(401, NoToken))
      else if token !in env.tokens then Stop(Fail(401, NoToken))
      else match Lookup(users, env.tokens[token])
        case None => Stop(Fail(401, "User not found"))
        case Some(u) => Next(req.(user := Some(Public(u))))
  }

  /** Passes iff the stored user behind `req.user` is an ADMIN. Without
      `req.user` reading its id throws, which the catch block answers
      with 500. */
  function IsAdmin(users: map<string, User>, req: Request): (r: Step)
    ensures r.Next? <==> req.user.Some? && req.user.value.id in users && users[req.user.value.id].role == Admin
    ensures r.Next? ==> r.req == req
    ensures r.Stop? ==> r.reply.status == (if req.user.None? then 500 else 403)
  {
    match req.user
    case None => Stop(Fail(500, "Error checking admin role"))
    case Some(caller) =>
      match Lookup(users, caller.id)
      case None => Stop(Fail(403, "Access denied, admins only"))
      case Some(u) => if u.role != Admin then Stop(Fail(403, "Access denied, admins only")) else Next(req)
  }

  function ValidateRegisterInputs(env: Env, req: Request): (r: Step)
    ensures r.Next? <==> AuthValidator.ValidRegister(req.body, env.isEmail)
    ensures r.Next? ==> r.req == req
    ensures r.Stop? ==> r.reply.status == 400 && !r.reply.success
  {
    LegacyValidator.SameAsAuthValidator(req.body, env.isEmail);
    AuthValidator.RegisterSchemaAccepts(req.body, env.isEmail);
    Gate(LegacyValidator.RegisterSchema(req.body, env.isEmail), req)
  }

  function ValidateLoginInputs(env: Env, req: Request): (r: Step)
    ensures r.Next? <==> AuthValidator.ValidLogin(req.body, env.isEmail)
    ensures r.Next? ==> r.req == req
    ensures r.Stop? ==> r.reply.status == 400 && !r.reply.success
  {
    LegacyValidator.LoginSchemaAccepts(req.body, env.isEmail);
    Gate(LegacyValidator.LoginSchema(req.body, env.isEmail), req)
  }

  function ValidateUpdateProfileInputs(req: Request): (r: Step)
    ensures r.Next? <==> AuthValidator.ValidUpdateProfile(req.body)
    ensures r.Next? ==> r.req == req
    ensures r.Stop? ==> r.reply.status == 400 && !r.reply.success
  {
    LegacyValidator.UpdateProfileSchemaAccepts(req.body);
    Gate(LegacyValidator.UpdateProfileSchema(req.body), req)
  }
}
