/** The zod schemas for ticket bodies: `createTicketSchema` and
    `updateTicketSchema`. */
module TicketValidator {
  import Constants
  import opened Http
  import opened Zod

  const Priorities: seq<string> := ["LOW", "MEDIUM", "HIGH"]

  const CreateTicketFields: seq<FieldSpec> := [
    StringField("title", [MinLen(3), MaxLen(50)], false),
    StringField("description", [MinLen(3), MaxLen(500)], false),
    EnumField("department", Constants.Departments, false),
    StringField("deviceType", [], true),
    StringField("deviceId", [], false),
    StringField("location", [], false),
    EnumField("priority", Priorities, true)
  ]

  const UpdateTicketFields: seq<FieldSpec> := [
    StringField("title", [MinLen(3), MaxLen(50)], true),
    StringField("description", [MinLen(3), MaxLen(500)], true),
    EnumField("status", Constants.Statuses, false),
    EnumField("department", Constants.Departments, true),
    StringField("deviceType", [], true),
    StringField("deviceId", [], true),
    StringField("lab", [], true)
  ]

  function CreateTicketSchema(body: Json): FieldResult {
    ParseObject(body, CreateTicketFields, NoEmailField)
  }

  function UpdateTicketSchema(body: Json): FieldResult {
    ParseObject(body, UpdateTicketFields, NoEmailField)
  }

  /** A string field of length lo..hi. */
  predicate StrBetween(body: Json, k: string, lo: nat, hi: nat) {
    k in body && body[k].Str? && lo <= |body[k].s| <= hi
  }

  predicate OptStr(body: Json, k: string) {
    k in body ==> body[k].Str?
  }

  predicate InEnum(body: Json, k: string, allowed: seq<string>) {
    k in body && body[k].Str? && body[k].s in allowed
  }

  /** What a create-ticket body must look like. */
  predicate ValidCreateTicket(body: Json) {
    && StrBetween(body, "title", 3, 50)
    && StrBetween(body, "description", 3, 500)
    && InEnum(body, "department", Constants.Departments)
    && OptStr(body, "deviceType")
    && "deviceId" in body && body["deviceId"].Str?
    && "location" in body && body["location"].Str?
    && ("priority" in body ==> InEnum(body, "priority", Priorities))
  }

  /** What an update-ticket body must look like: only the status is
      required, but a present title or description obeys the create
      bounds. */
  predicate ValidUpdateTicket(body: Json) {
    && ("title" in body ==> StrBetween(body, "title", 3, 50))
    && ("description" in body ==> StrBetween(body, "description", 3, 500))
    && InEnum(body, "status", Constants.Statuses)
    && ("department" in body ==> InEnum(body, "department", Constants.Departments))
    && OptStr(body, "deviceType")
    && OptStr(body, "deviceId")
    && OptStr(body, "lab")
  }

  lemma {:induction false} CreateTicketSchemaAccepts(body: Json)
    ensures Accepts(CreateTicketSchema(body)) <==> ValidCreateTicket(body)
  {
    var f := CreateTicketFields;
    var e := NoEmailField;
    LengthField(body, "title", 3, 50, f[0].optional, e);
    LengthField(body, "description", 3, 500, f[1].optional, e);
    assert (forall i | 0 <= i < |f| :: FieldOk(body, f[i], e)) <==>
      FieldOk(body, f[0], e) && FieldOk(body, f[1], e) && FieldOk(body, f[2], e) && FieldOk(body, f[3], e)
      && FieldOk(body, f[4], e) && FieldOk(body, f[5], e) && FieldOk(body, f[6], e);
  }

  lemma {:induction false} UpdateTicketSchemaAccepts(body: Json)
    ensures Accepts(UpdateTicketSchema(body)) <==> ValidUpdateTicket(body)
  {
    var f := UpdateTicketFields;
    var e := NoEmailField;
    LengthField(body, "title", 3, 50, f[0].optional, e);
    LengthField(body, "description", 3, 500, f[1].optional, e);
    assert (forall i | 0 <= i < |f| :: FieldOk(body, f[i], e)) <==>
      FieldOk(body, f[0], e) && FieldOk(body, f[1], e) && FieldOk(body, f[2], e) && FieldOk(body, f[3], e)
      && FieldOk(body, f[4], e) && FieldOk(body, f[5], e) && FieldOk(body, f[6], e);
  }

  /** Every issue names one of the schema's fields. */
  lemma CreateTicketIssuesNameFields(body: Json)
    ensures forall x | x in CreateTicketSchema(body).issues ::
      x.path in ["title", "description", "department", "deviceType", "deviceId", "location", "priority"]
  {
  }
}
