/** The user handlers: the role listings, lookup by id, `updateUser` and
    the admin's `createUser`. */
module UserController {
  import opened Wrappers
  import opened Strings
  import opened Domain
  import opened Http
  import opened Store
  import Seqs

  /** The reply shape for a user: the public columns, never the password. */
  function UserJson(u: User): (j: Json)
    ensures "password" !in j
    ensures j.Keys == {"id", "email", "name", "role", "image"}
    ensures j["id"] == Str(u.id) && j["email"] == Str(u.email) && j["role"] == Str(RoleName(u.role))
  {
    map["id" := Str(u.id), "email" := Str(u.email), "name" := Str(u.name), "role" := Str(RoleName(u.role)),
        "image" := if u.image.Some? then Str(u.image.value) else Null]
  }

  /** `findMany({ where: { role } })`, in stored order. */
  function WithRole(rows: seq<User>, role: Role): (r: seq<User>)
    ensures forall u | u in r :: u in rows && u.role == role
    ensures forall u | u in rows && u.role == role :: u in r
    ensures r == Seqs.Filter(rows, (u: User) => u.role == role)
  {
    Seqs.Filter(rows, (u: User) => u.role == role)
  }

  function GetAllTechnicians(rows: seq<User>): (r: Reply)
    ensures r.status == 200 && r.payload.UserList?
    ensures forall u | u in r.payload.users :: u in rows && u.role == Technician
    ensures forall u | u in rows && u.role == Technician :: u in r.payload.users
  {
    Reply(200, true, "Technicians fetched successfully", UserList(WithRole(rows, Technician)))
  }

  function GetAllCoordinators(rows: seq<User>): (r: Reply)
    ensures r.status == 200 && r.payload.UserList?
    ensures forall u | u in r.payload.users :: u in rows && u.role == Coordinator
    ensures forall u | u in rows && u.role == Coordinator :: u in r.payload.users
  {
    Reply(200, true, "Coordinators fetched successfully", UserList(WithRole(rows, Coordinator)))
  }

  /** The `id` a user lookup receives: a string, a number (what
      `parseInt` returns, NaN included; which number does not matter
      here), or `undefined`. */
  datatype Key = StrKey(s: string) | NumKey | Undefined

  /** `parseInt(id)`: whatever the parameter holds, the result is a
      number. */
  function ParseInt(id: Option<string>): (k: Key)
    ensures k.NumKey?
  {
    NumKey
  }

  /** `findUnique({ where: { id } })` on the string `id` column. The
      client's validation refuses a key that is not a string, and the
      call throws (`None`); otherwise it yields the row or null. */
  function FindUserById(users: map<string, User>, key: Key): (r: Option<Option<User>>)
    ensures r.None? <==> !key.StrKey?
    ensures r.Some? ==> (r.value.Some? <==> key.s in users)
    ensures r.Some? && r.value.Some? ==> r.value.value == users[key.s]
  {
    if key.StrKey? then Some(Lookup(users, key.s)) else None
  }

  /** What `getUserById` answers for the lookup's outcome: a throw lands
      in the catch block (500), null gives 404, a row 200 with the row as
      stored. */
  function AnswerUser(found: Option<Option<User>>): (r: Reply)
    ensures found.None? ==> r == Fail(500, "Server error")
    ensures found == Some(None) ==> r == Fail(404, "User not found")
    ensures found.Some? && found.value.Some? ==> r == Reply(200, true, "", RawUser(found.value.value))
  {
    match found
    case None => Fail(500, "Server error")
    case Some(None) => Fail(404, "User not found")
    case Some(Some(u)) => Reply(200, true, "", RawUser(u))
  }

  /** `getUserById` as written: the id goes through `parseInt`, so the
      lookup receives a number for the string column and throws. No id,
      stored or not, is ever answered with its user. */
  function GetUserByIdAsWritten(users: map<string, User>, params: map<string, string>): (r: Reply)
    ensures r.status == 500 && !r.success && r.payload == NoPayload
  {
    AnswerUser(FindUserById(users, ParseInt(Lookup(params, "id"))))
  }

  /** `getUserById` with the id looked up as the string it is; a missing
      parameter is `undefined`, which the lookup refuses as well. */
  function GetUserById(users: map<string, User>, params: map<string, string>): (r: Reply)
    ensures "id" !in params ==> r == Fail(500, "Server error")
    ensures "id" in params && params["id"] !in users ==> r == Fail(404, "User not found")
    ensures "id" in params && params["id"] in users ==> r == Reply(200, true, "", RawUser(users[params["id"]]))
  {
    var key := if "id" in params then StrKey(params["id"]) else Undefined;
    AnswerUser(FindUserById(users, key))
  }

  /** A stored user that exists is never returned by the handler as
      written, though the corrected lookup returns it. */
  lemma GetUserByIdNeverFinds(users: map<string, User>, params: map<string, string>)
    requires "id" in params && params["id"] in users
    ensures GetUserByIdAsWritten(users, params).status == 500
    ensures GetUserById(users, params).status == 200
  {
  }

  /** The columns `updateUser` writes: `name` and `role` when present
      (undefined ones are skipped); a value of the wrong type, or a role
      outside the enum, makes the update throw. */
  function UserUpdate(u: User, body: Json): (r: Option<User>)
    ensures r.Some? ==> r.value.id == u.id && r.value.email == u.email && r.value.password == u.password
    ensures r.Some? ==> r.value.department == u.department && r.value.image == u.image
    ensures r.Some? ==> ("name" !in body ==> r.value.name == u.name)
    ensures r.Some? ==> ("name" in body ==> body["name"] == Str(r.value.name))
    ensures r.Some? ==> ("role" !in body ==> r.value.role == u.role)
    ensures r.Some? ==> ("role" in body ==> body["role"].Str? && RoleName(r.value.role) == body["role"].s)
    ensures r.None? <==>
      || ("name" in body && !body["name"].Str?)
      || ("role" in body && (!body["role"].Str? || ParseRole(body["role"].s).None?))
  {
    var name := if "name" in body then StrField(body, "name") else Some(u.name);
    var role := if "role" in body then (if body["role"].Str? then ParseRole(body["role"].s) else None) else Some(u.role);
    if name.None? || role.None? then None
    else Some(u.(name := name.value, role := role.value))
  }

  /** `updateUser`: rewrites name and role of the user the `userId`
      parameter names; nothing else in the store changes. */
  method UpdateUser(db: Db, params: map<string, string>, body: Json) returns (reply: Reply)
    requires db.Valid()
    modifies db
    ensures db.Valid()
    ensures db.tickets == old(db.tickets) && db.ticketOrder == old(db.ticketOrder) && db.userOrder == old(db.userOrder)
    ensures reply.status == 200 <==>
      "userId" in params && params["userId"] in old(db.users) && UserUpdate(old(db.users)[params["userId"]], body).Some?
    ensures reply.status == 200 ==>
      var u := UserUpdate(old(db.users)[params["userId"]], body).value;
      db.users == old(db.users)[params["userId"] := u] && reply == Reply(200, true, "User updated", RawUser(u))
    ensures reply.status != 200 ==> reply == Fail(500, "Failed to update user") && db.users == old(db.users)
  {
    if "userId" !in params || params["userId"] !in db.users {
      return Fail(500, "Failed to update user");
    }
    var updated := UserUpdate(db.users[params["userId"]], body);
    if updated.None? {
      return Fail(500, "Failed to update user");
    }
    db.PutUser(updated.value);
    reply := Reply(200, true, "User updated", RawUser(updated.value));
  }

  /** The row `createUser` inserts, when the body allows one: a name and a
      password that are strings, and a role whose upper-case form is a
      stored role. No department is written, whatever the body holds. */
  function NewUser(id: string, email: string, body: Json, hash: string -> string): (r: Option<User>)
    ensures r.Some? <==>
      && StrField(body, "name").Some? && StrField(body, "password").Some? && StrField(body, "role").Some?
      && ParseRole(ToUpper(body["role"].s)).Some?
    ensures r.Some? ==> r.value.id == id && r.value.email == email && Str(r.value.name) == body["name"]
    ensures r.Some? ==> r.value.password == hash(body["password"].s)
    ensures r.Some? ==> RoleName(r.value.role) == ToUpper(body["role"].s)
    ensures r.Some? ==> r.value.department.None? && r.value.image.None?
  {
    match (StrField(body, "name"), StrField(body, "password"), StrField(body, "role"))
    case (Some(name), Some(password), Some(role)) =>
      (match ParseRole(ToUpper(role))
       case Some(rl) => Some(User(id, name, email, hash(password), rl, None, None))
       case None => None)
    case _ => None
  }

  /** `createUser`: 409 when the e-mail is taken, otherwise insert the
      user with the hashed password and answer with its public columns.
      `newId` is the id the database generates. */
  method CreateUser(db: Db, env: Env, body: Json, newId: string) returns (reply: Reply)
    requires db.Valid() && newId !in db.users
    modifies db
    ensures db.Valid()
    ensures db.tickets == old(db.tickets) && db.ticketOrder == old(db.ticketOrder)
    ensures StrField(body, "email").Some? && old(db.UserByEmail(body["email"].s)).Some? ==>
      reply == Reply(409, false, "user already exists", NoPayload) && db.users == old(db.users)
    ensures reply.status == 201 <==>
      StrField(body, "email").Some? && old(db.UserByEmail(body["email"].s)).None?
      && NewUser(newId, body["email"].s, body, env.hash).Some?
    ensures reply.status == 201 ==>
      var u := NewUser(newId, body["email"].s, body, env.hash).value;
      && db.users == old(db.users)[newId := u] && db.userOrder == old(db.userOrder) + [newId]
      && reply == Reply(201, true, "user created successfully", OneUser(UserJson(u)))
      && "password" !in reply.payload.user
    ensures reply.status != 201 ==> db.users == old(db.users) && db.userOrder == old(db.userOrder)
    ensures reply.status in {201, 409, 500}
  {
    var email := StrField(body, "email");
    if email.None? {
      return Fail(500, "Error creating a user");
    }
    if db.UserByEmail(email.value).Some? {
      return Reply(409, false, "user already exists", NoPayload);
    }
    var u := NewUser(newId, email.value, body, env.hash);
    if u.None? {
      return Fail(500, "Error creating a user");
    }
    db.InsertUser(u.value);
    reply := Reply(201, true, "user created successfully", OneUser(UserJson(u.value)));
  }
}
