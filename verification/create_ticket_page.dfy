/** The coordinator's form for raising a ticket: the form state, the body
    it posts to `/tickets/create`, and the message shown afterwards. The
    request is a parameter: `SubmitAnswered` receives how it ended. */
module CreateTicketPage {
  import opened Wrappers
  import opened Http
  import Constants
  import TicketValidator
  import ClientRows

  /** The form state; `lab` is sent as `location`, `deviceType`,
      `priority` and `status` are never sent. */
  datatype Form = Form(
    title: string,
    description: string,
    department: string,
    lab: string,
    deviceType: string,
    deviceId: string,
    priority: string,
    status: string)

  const EmptyForm := Form("", "", "", "", "", "", "MEDIUM", "OPEN")

  /** The inputs of the form, by their `name` attribute. */
  datatype Input = Title | Description | Department | Lab | DeviceType | DeviceId

  /** The departments the select offers. */
  const OfferedDepartments: seq<string> :=
    ["ISE", "CSE", "AIML", "BT", "CV", "ME", "ETE", "EIE", "ECE", "ASE", "IDRC", "LIB", "CMT"]

  const CreatedText := "Ticket created successfully!"
  const ErrorText := "An error occurred. Please try again."

  function Value(f: Form, i: Input): string {
    match i
    case Title => f.title
    case Description => f.description
    case Department => f.department
    case Lab => f.lab
    case DeviceType => f.deviceType
    case DeviceId => f.deviceId
  }

  /** `handleChange`: `{ ...ticket, [name]: value }`. */
  function WithInput(f: Form, i: Input, v: string): (r: Form)
    ensures Value(r, i) == v
    ensures forall j: Input | j != i :: Value(r, j) == Value(f, j)
    ensures r.priority == f.priority && r.status == f.status
  {
    match i
    case Title => f.(title := v)
    case Description => f.(description := v)
    case Department => f.(department := v)
    case Lab => f.(lab := v)
    case DeviceType => f.(deviceType := v)
    case DeviceId => f.(deviceId := v)
  }

  /** `ticketDataToSend`. */
  function TicketData(f: Form): (body: Json)
    ensures body.Keys == {"title", "department", "deviceId", "location", "description"}
    ensures body["title"] == Str(f.title) && body["department"] == Str(f.department)
    ensures body["deviceId"] == Str(f.deviceId) && body["description"] == Str(f.description)
    ensures body["location"] == Str(f.lab)
    ensures forall k | k in body :: body[k].Str?
  {
    map["title" := Str(f.title), "department" := Str(f.department), "deviceId" := Str(f.deviceId),
        "location" := Str(f.lab), "description" := Str(f.description)]
  }

  /** The body the form sends passes `createTicketSchema` exactly when
      the title has 3 to 50 characters, the description 3 to 500, and the
      department is a known one. */
  lemma PayloadValidIff(f: Form)
    ensures TicketValidator.ValidCreateTicket(TicketData(f)) <==>
      (&& 3 <= |f.title| <= 50
       && 3 <= |f.description| <= 500
       && f.department in Constants.Departments)
  {
  }

  /** Every department the select offers is one the backend knows, and
      the last five known departments are not offered. */
  lemma OfferedDepartmentsAreKnown()
    ensures forall d | d in OfferedDepartments :: d in Constants.Departments
    ensures OfferedDepartments == Constants.Departments[..13]
    ensures forall d | d in Constants.Departments[13..] :: d !in OfferedDepartments
  {
    assert Constants.Departments[13..] == ["MCA", "ADMIN_BLOCK", "CHEM", "PHY", "MATH"];
  }

  /** Filling every required input is not enough: a two-letter
      description passes the browser's `required` check and is refused
      by the server. */
  lemma RequiredIsNotEnough()
    ensures var f := Form("Fan", "ok", "CSE", "Lab 1", "", "PC-7", "MEDIUM", "OPEN");
      && f.title != "" && f.department != "" && f.lab != "" && f.deviceId != "" && f.description != ""
      && !TicketValidator.ValidCreateTicket(TicketData(f))
  {
  }

  /** How the create request ended: the reply's `message` field on
      success, or the error reply's `message` when there was one. */
  datatype Outcome = Created(message: Option<string>) | Rejected(message: Option<string>)

  class Page {
    var ticket: Form
    var isSubmitting: bool
    var submitMessage: Option<string>
    var isError: bool

    constructor ()
      ensures ticket == EmptyForm && !isSubmitting && submitMessage.None? && !isError
    {
      ticket, isSubmitting, submitMessage, isError := EmptyForm, false, None, false;
    }

    method HandleChange(i: Input, v: string)
      modifies this
      ensures ticket == WithInput(old(ticket), i, v)
      ensures isSubmitting == old(isSubmitting) && submitMessage == old(submitMessage) && isError == old(isError)
    {
      ticket := WithInput(ticket, i, v);
    }

    /** `handleSubmit` up to the request: clears the message and returns
        the body it posts. */
    method Submit() returns (body: Json)
      modifies this
      ensures body == TicketData(ticket) && ticket == old(ticket)
      ensures isSubmitting && submitMessage.None? && !isError
    {
      isSubmitting, submitMessage, isError := true, None, false;
      body := TicketData(ticket);
    }

    /** The rest of `handleSubmit`: a created ticket empties the form, a
        refused one keeps it for correction; the message falls back to a
        fixed text when the reply has none. */
    method SubmitAnswered(outcome: Outcome)
      modifies this
      ensures !isSubmitting
      ensures isError <==> outcome.Rejected?
      ensures outcome.Created? ==> ticket == EmptyForm && submitMessage == Some(ClientRows.OrElse(outcome.message, CreatedText))
      ensures outcome.Rejected? ==> ticket == old(ticket) && submitMessage == Some(ClientRows.OrElse(outcome.message, ErrorText))
    {
      if outcome.Created? {
        submitMessage := Some(ClientRows.OrElse(outcome.message, CreatedText));
        isError := false;
        ticket := EmptyForm;
      } else {
        submitMessage := Some(ClientRows.OrElse(outcome.message, ErrorText));
        isError := true;
      }
      isSubmitting := false;
    }
  }
}
