/** `isOpen` and `isInProgress`: look the ticket named by the `id` route
    parameter up (selecting only its status) and let the request through
    only in the expected status. */
module TicketMiddleware {
  import opened Wrappers
  import opened Domain
  import opened Http

  /** The stored ticket the `id` parameter names, if any. */
  function Target(tickets: map<string, Ticket>, req: Request): (r: Option<Ticket>)
    ensures r.Some? <==> "id" in req.params && req.params["id"] in tickets
    ensures r.Some? ==> r.value == tickets[req.params["id"]]
  {
    if "id" in req.params then Lookup(tickets, req.params["id"]) else None
  }

  /** Shared shape of both guards. A missing parameter makes the lookup
      throw, and a missing ticket makes reading its status throw: both
      land in the catch block and answer 500. */
  function StatusGuard(tickets: map<string, Ticket>, req: Request, want: Status, refusal: string, failure: string): (r: Step)
    ensures r.Next? <==> Target(tickets, req).Some? && Target(tickets, req).value.status == want
    ensures r.Next? ==> r.req == req
    ensures r.Stop? ==> !r.reply.success
    ensures r.Stop? && Target(tickets, req).None? ==> r.reply == Fail(500, failure)
    ensures r.Stop? && Target(tickets, req).Some? ==> r.reply == Fail(400, refusal)
  {
    match Target(tickets, req)
    case None => Stop(Fail(500, failure))
    case Some(t) => if t.status == want then Next(req) else Stop(Fail(400, refusal))
  }

  function IsOpen(tickets: map<string, Ticket>, req: Request): (r: Step)
    ensures r.Next? <==> "id" in req.params && req.params["id"] in tickets && tickets[req.params["id"]].status == Open
    ensures r.Next? ==> r.req == req
    ensures r.Stop? ==> r.reply.status == (if Target(tickets, req).Some? then 400 else 500)
    ensures r.Stop? && Target(tickets, req).Some? ==> r.reply.message == "Ticket is not open"
  {
    StatusGuard(tickets, req, Open, "Ticket is not open", "Failed to isOpen middleware ticket status")
  }

  function IsInProgress(tickets: map<string, Ticket>, req: Request): (r: Step)
    ensures r.Next? <==> "id" in req.params && req.params["id"] in tickets && tickets[req.params["id"]].status == InProgress
    ensures r.Next? ==> r.req == req
    ensures r.Stop? ==> r.reply.status == (if Target(tickets, req).Some? then 400 else 500)
    ensures r.Stop? && Target(tickets, req).Some? ==> r.reply.message == "Ticket is not in progress"
  {
    StatusGuard(tickets, req, InProgress, "Ticket is not in progress", "Failed to isInProgress middleware ticket status")
  }

  /** No request passes both guards. */
  lemma NoTicketPassesBoth(tickets: map<string, Ticket>, req: Request)
    ensures !(IsOpen(tickets, req).Next? && IsInProgress(tickets, req).Next?)
  {
  }

  /** An unknown id is answered 500 by both guards, never 404. */
  lemma UnknownTicketIs500(tickets: map<string, Ticket>, req: Request)
    requires "id" in req.params && req.params["id"] !in tickets
    ensures IsOpen(tickets, req) == Stop(Fail(500, "Failed to isOpen middleware ticket status"))
    ensures IsInProgress(tickets, req) == Stop(Fail(500, "Failed to isInProgress middleware ticket status"))
  {
  }
}
