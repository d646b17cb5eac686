/** The two ticket-body validation middlewares. */
module TicketValidatorMiddleware {
  import opened Http
  import opened Zod
  import TicketValidator

  function ValidateCreateTicketInputs(req: Request): (r: Step)
    ensures r.Next? <==> TicketValidator.ValidCreateTicket(req.body)
    ensures r.Next? ==> r.req == req
    ensures r.Stop? ==> r.reply.status == 400 && r.reply.payload == Issues(TicketValidator.CreateTicketSchema(req.body).issues)
  {
    TicketValidator.CreateTicketSchemaAccepts(req.body);
    Gate(TicketValidator.CreateTicketSchema(req.body), req)
  }

  function ValidateUpdateTicketInputs(req: Request): (r: Step)
    ensures r.Next? <==> TicketValidator.ValidUpdateTicket(req.body)
    ensures r.Next? ==> r.req == req
    ensures r.Stop? ==> r.reply.status == 400 && r.reply.payload == Issues(TicketValidator.UpdateTicketSchema(req.body).issues)
  {
    TicketValidator.UpdateTicketSchemaAccepts(req.body);
    Gate(TicketValidator.UpdateTicketSchema(req.body), req)
  }
}
