/** Requests, replies and JSON bodies as the Express handlers see them,
    and the collaborators (token verification, hashing, e-mail syntax)
    that the model takes as parameters. */
module Http {
  import opened Wrappers
  import opened Domain

  /** A JSON value as it can appear in a request body. */
  datatype Value = Str(s: string) | Num(n: int) | Bool(b: bool) | Null | Composite

  type Json = map<string, Value>

  /** JavaScript truthiness of a body field; `None` stands for `undefined`. */
  predicate Truthy(v: Option<Value>) {
    match v
    case None => false
    case Some(Str(s)) => s != ""
    case Some(Num(n)) => n != 0
    case Some(Bool(b)) => b
    case Some(Null) => false
    case Some(Composite) => true
  }

  /** The field `k` of a body when it holds a string. */
  function StrField(body: Json, k: string): (r: Option<string>)
    ensures r.Some? <==> k in body && body[k].Str?
    ensures r.Some? ==> body[k] == Str(r.value)
  {
    if k in body && body[k].Str? then Some(body[k].s) else None
  }

  /** zod issue codes the schemas here can raise. */
  datatype Code = InvalidType | InvalidEnumValue | TooSmall | TooBig | InvalidString | Custom

  /** One zod issue: the field it is about and its code. */
  datatype Issue = Issue(path: string, code: Code)

  /** A user that a ticket query embeds through `include`: the whole row,
      password hash and all (`coordinator: true`), or the three columns a
      nested `select` names. A relation the query does not include is
      `NotIncluded`; an included relation that is null is `NoUser`. */
  datatype Related = NotIncluded | NoUser | WholeRow(row: User) | Brief(id: string, name: string, email: string)

  /** A ticket row as a query with `include` returns it. */
  datatype TicketView = TicketView(ticket: Ticket, coordinator: Related, technician: Related)

  /** The JSON carried by a reply beside `success` and the message. */
  datatype Payload =
    | NoPayload
    | Issues(issues: seq<Issue>)
    | OneTicket(ticket: Ticket)
    | OneView(view: TicketView)
    | TicketList(tickets: seq<TicketView>)
    | OneUser(user: Json)
    | RawUser(row: User)
    | UserList(users: seq<User>)

  datatype Reply = Reply(status: int, success: bool, message: string, payload: Payload)

  function Fail(status: int, message: string): (r: Reply)
    ensures !r.success && r.status == status && r.payload == NoPayload
  {
    Reply(status, false, message, NoPayload)
  }

  /** The `jwt` cookie a reply sets: the user id the token is signed for
      and the cookie's lifetime in milliseconds. */
  datatype Cookie = Cookie(subject: string, maxAge: int)

  /** What a reply does to the `jwt` cookie: set it, clear it
      (`clearCookie`), or leave it as it was. */
  datatype CookieAction = SetCookie(cookie: Cookie) | ClearCookie | KeepCookie

  /** The user record `isLoggedIn` attaches to the request. */
  datatype AuthUser = AuthUser(id: string, name: string, email: string, role: Role, image: Option<string>)

  datatype Request = Request(
    cookie: Option<string>,
    params: map<string, string>,
    body: Json,
    user: Option<AuthUser>)

  /** What a middleware does with a request: pass it on (possibly
      decorated) to the next handler, or answer it. */
  datatype Step = Next(req: Request) | Stop(reply: Reply)

  /** The collaborators outside the model. `tokens` maps each token that
      verifies to the user id it was signed for; `hash` and `matches` stand
      for bcrypt; `isEmail` for zod's e-mail pattern; `isCoordinator` for the guard
      the ticket routes import but no file of the backend defines: it
      either answers the request (`Some`) or calls `next` with it
      unchanged (`None`). */
  datatype Env = Env(
    tokens: map<string, string>,
    isEmail: string -> bool,
    hash: string -> string,
    matches: (string, string) -> bool,
    isCoordinator: Request -> Option<Reply>)
}
