/** The account handlers: `registerUser`, `loginUser`, `logoutUser`,
    `getMe` and `updateProfile`. Signing the token is left to the
    collaborator; the model records which user a cookie is issued for and
    for how long. */
module AuthController {
  import opened Wrappers
  import opened Strings
  import opened Domain
  import opened Http
  import opened Store
  import Constants
  import UserController

  /** `maxAge: 7 * 24 * 60 * 60 * 1000`. */
  const CookieMaxAge: int := 7 * 24 * 60 * 60 * 1000

  /** The cookie lives exactly as long as the token's "7d" expiry. */
  lemma CookieMatchesTokenExpiry()
    ensures CookieMaxAge == 604800000
    ensures CookieMaxAge == 7 * 86400 * 1000
  {
  }

  /** The reply shape for a registered user: the public columns and the
      department, never the password. */
  function RegisteredJson(u: User): (j: Json)
    ensures "password" !in j
    ensures j.Keys == {"id", "email", "name", "role", "department", "image"}
  {
    UserController.UserJson(u)["department" := if u.department.Some? then Str(u.department.value) else Null]
  }

  /** The row `registerUser` inserts, when the body allows one. Role and
      department are upper-cased before they reach the enum columns; an
      absent department makes `department.toUpperCase()` throw. */
  function Registered(id: string, email: string, body: Json, hash: string -> string): (r: Option<User>)
    ensures r.Some? <==>
      && StrField(body, "name").Some? && StrField(body, "password").Some?
      && StrField(body, "role").Some? && ParseRole(ToUpper(body["role"].s)).Some?
      && StrField(body, "department").Some? && ToUpper(body["department"].s) in Constants.Departments
    ensures r.Some? ==> r.value.id == id && r.value.email == email && r.value.password == hash(body["password"].s)
    ensures r.Some? ==> RoleName(r.value.role) == ToUpper(body["role"].s)
    ensures r.Some? ==> r.value.department == Some(ToUpper(body["department"].s))
    ensures "department" !in body ==> r.None?
  {
    match (StrField(body, "name"), StrField(body, "password"), StrField(body, "role"), StrField(body, "department"))
    case (Some(name), Some(password), Some(role), Some(department)) =>
      (match ParseRole(ToUpper(role))
       case Some(rl) =>
         if ToUpper(department) in Constants.Departments then
           Some(User(id, name, email, hash(password), rl, Some(ToUpper(department)), None))
         else None
       case None => None)
    case _ => None
  }

  /** `registerUser`: 409 when the e-mail is taken; otherwise insert the
      user, issue a cookie for it and answer 201 without the password. */
  method RegisterUser(db: Db, env: Env, body: Json, newId: string) returns (reply: Reply, cookie: CookieAction)
    requires db.Valid() && newId !in db.users
    modifies db
    ensures db.Valid()
    ensures db.tickets == old(db.tickets) && db.ticketOrder == old(db.ticketOrder)
    ensures StrField(body, "email").Some? && old(db.UserByEmail(body["email"].s)).Some? ==>
      reply == Reply(409, false, "user already exists", NoPayload) && db.users == old(db.users)
    ensures reply.status == 201 <==>
      StrField(body, "email").Some? && old(db.UserByEmail(body["email"].s)).None?
      && Registered(newId, body["email"].s, body, env.hash).Some?
    ensures reply.status == 201 ==>
      var u := Registered(newId, body["email"].s, body, env.hash).value;
      && db.users == old(db.users)[newId := u] && db.userOrder == old(db.userOrder) + [newId]
      && reply == Reply(201, true, "user created successfully", OneUser(RegisteredJson(u)))
      && cookie == SetCookie(Cookie(newId, CookieMaxAge))
    ensures reply.status != 201 ==> db.users == old(db.users) && db.userOrder == old(db.userOrder) && cookie == KeepCookie
    ensures reply.status in {201, 409, 500}
  {
    cookie := KeepCookie;
    var email := StrField(body, "email");
    if email.None? {
      return Fail(500, "Error creating a user"), KeepCookie;
    }
    if db.UserByEmail(email.value).Some? {
      return Reply(409, false, "user already exists", NoPayload), KeepCookie;
    }
    var u := Registered(newId, email.value, body, env.hash);
    if u.None? {
      return Fail(500, "Error creating a user"), KeepCookie;
    }
    db.InsertUser(u.value);
    reply := Reply(201, true, "user created successfully", OneUser(RegisteredJson(u.value)));
    cookie := SetCookie(Cookie(newId, CookieMaxAge));
  }

  datatype LoginOutcome = LoginOutcome(reply: Reply, cookie: CookieAction)

  /** `loginUser`: unknown e-mail and wrong password are both 401, with
      different messages; success issues a cookie for the stored user. */
  function LoginUser(db: Db, env: Env, body: Json): (r: LoginOutcome)
    reads db
    requires db.Valid()
    ensures StrField(body, "email").None? ==> r.reply.status == 500
    ensures StrField(body, "email").Some? && db.UserByEmail(body["email"].s).None? ==>
      r == LoginOutcome(Fail(401, "user not found"), KeepCookie)
    ensures r.reply.status == 200 <==>
      && StrField(body, "email").Some? && db.UserByEmail(body["email"].s).Some?
      && StrField(body, "password").Some?
      && env.matches(body["password"].s, db.UserByEmail(body["email"].s).value.password)
    ensures r.reply.status == 200 ==>
      var u := db.UserByEmail(body["email"].s).value;
      && r.cookie == SetCookie(Cookie(u.id, CookieMaxAge))
      && r.reply.payload == OneUser(UserController.UserJson(u))
      && "password" !in r.reply.payload.user
    ensures r.reply.status != 200 ==> r.cookie == KeepCookie
    ensures r.reply.status == 401 && db.UserByEmail(body["email"].s).Some? ==>
      r.reply.message == "invalid email or password"
  {
    match StrField(body, "email")
    case None => LoginOutcome(Fail(500, "Something went wrong during login"), KeepCookie)
    case Some(email) =>
      match db.UserByEmail(email)
      case None => LoginOutcome(Fail(401, "user not found"), KeepCookie)
      case Some(u) =>
        match StrField(body, "password")
        case None => LoginOutcome(Fail(500, "Something went wrong during login"), KeepCookie)
        case Some(password) =>
          if !env.matches(password, u.password) then LoginOutcome(Fail(401, "invalid email or password"), KeepCookie)
          else LoginOutcome(Reply(200, true, "User logged in succeswsfully", OneUser(UserController.UserJson(u))),
                            SetCookie(Cookie(u.id, CookieMaxAge)))
  }

  /** `logoutUser`: clears the cookie and answers 200. */
  function LogoutUser(): (r: LoginOutcome)
    ensures r.reply.status == 200 && r.reply.success && r.cookie == ClearCookie
  {
    LoginOutcome(Reply(200, true, "User logged out successfully", NoPayload), ClearCookie)
  }

  /** `getMe`: echoes the user `isLoggedIn` attached. */
  function GetMe(req: Request): (r: Reply)
    ensures r.status == 200
    ensures req.user.Some? ==> r.payload == OneUser(AuthJson(req.user.value)) && "password" !in r.payload.user
  {
    Reply(200, true, "User fetched successfully",
          if req.user.Some? then OneUser(AuthJson(req.user.value)) else NoPayload)
  }

  function AuthJson(a: AuthUser): (j: Json)
    ensures "password" !in j
  {
    map["id" := Str(a.id), "name" := Str(a.name), "email" := Str(a.email), "role" := Str(RoleName(a.role)),
        "image" := if a.image.Some? then Str(a.image.value) else Null]
  }

  /** The row after `updateProfile`: `name` and `image` when present
      (undefined ones are skipped, a null image clears it), and the hash of
      the password only when the password is truthy. A value of a wrong
      type makes the update throw. */
  function ProfileUpdate(u: User, body: Json, hash: string -> string): (r: Option<User>)
    ensures r.Some? ==> r.value.id == u.id && r.value.email == u.email && r.value.role == u.role
    ensures r.Some? ==> r.value.department == u.department
    ensures r.Some? ==> ("name" !in body ==> r.value.name == u.name)
    ensures r.Some? ==> ("name" in body ==> body["name"] == Str(r.value.name))
    ensures r.Some? ==> ("image" !in body ==> r.value.image == u.image)
    ensures r.Some? && "image" in body && body["image"].Str? ==> r.value.image == Some(body["image"].s)
    ensures r.Some? && "image" in body && body["image"].Null? ==> r.value.image.None?
    ensures r.Some? ==> (!Truthy(Lookup(body, "password")) ==> r.value.password == u.password)
    ensures r.Some? ==> (Truthy(Lookup(body, "password")) ==>
                           body["password"].Str? && r.value.password == hash(body["password"].s))
    ensures r.None? <==>
      || ("name" in body && !body["name"].Str?)
      || ("image" in body && !body["image"].Str? && !body["image"].Null?)
      || (Truthy(Lookup(body, "password")) && !body["password"].Str?)
  {
    var name := if "name" in body then StrField(body, "name") else Some(u.name);
    var image :=
      if "image" !in body then Some(u.image)
      else if body["image"].Str? then Some(Some(body["image"].s))
      else if body["image"].Null? then Some(None)
      else None;
    var password :=
      if !Truthy(Lookup(body, "password")) then Some(u.password)
      else if body["password"].Str? then Some(hash(body["password"].s))
      else None;
    if name.None? || image.None? || password.None? then None
    else Some(u.(name := name.value, image := image.value, password := password.value))
  }

  /** `updateProfile`: rewrites only the caller's own row. */
  method UpdateProfile(db: Db, env: Env, req: Request) returns (reply: Reply)
    requires db.Valid()
    modifies db
    ensures db.Valid()
    ensures db.tickets == old(db.tickets) && db.ticketOrder == old(db.ticketOrder) && db.userOrder == old(db.userOrder)
    ensures reply.status == 200 <==>
      req.user.Some? && req.user.value.id in old(db.users)
      && ProfileUpdate(old(db.users)[req.user.value.id], req.body, env.hash).Some?
    ensures reply.status == 200 ==>
      var u := ProfileUpdate(old(db.users)[req.user.value.id], req.body, env.hash).value;
      && db.users == old(db.users)[req.user.value.id := u]
      && reply == Reply(200, true, "Profile updated successfully", OneUser(UserController.UserJson(u)))
    ensures reply.status != 200 ==> reply == Fail(500, "Error updating user") && db.users == old(db.users)
  {
    if req.user.None? || req.user.value.id !in db.users {
      return Fail(500, "Error updating user");
    }
    var id := req.user.value.id;
    var updated := ProfileUpdate(db.users[id], req.body, env.hash);
    if updated.None? {
      return Fail(500, "Error updating user");
    }
    db.PutUser(updated.value);
    reply := Reply(200, true, "Profile updated successfully", OneUser(UserController.UserJson(updated.value)));
  }
}
