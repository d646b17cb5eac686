/** The coordinator's "My Tickets" page: the tickets the coordinator
    raised, a details dialog, and closing an in-progress ticket after a
    confirmation. Requests are parameters: each method receives how its
    request ended. */
module ViewTicketPage {
  import opened Wrappers
  import opened Strings
  import opened ClientRows

  const FetchErrorText := "Failed to fetch tickets. Please try again."
  const Placeholder := "—"

  datatype Badge = Warning | Info | Success

  /** The status badge's colour. */
  function StatusBadge(status: string): (b: Badge)
    ensures b == Warning <==> status == "OPEN"
    ensures b == Info <==> status == "IN_PROGRESS"
  {
    if status == "OPEN" then Warning else if status == "IN_PROGRESS" then Info else Success
  }

  /** The badge text, `status.replace("_", " ")`. */
  function StatusText(status: string): (r: string)
    ensures |r| == |status|
    ensures '_' !in status ==> r == status
  {
    ReplaceFirstUnderscoreSpec(status);
    ReplaceFirstUnderscore(status)
  }

  /** "Mark Closed" is offered for in-progress tickets only. */
  predicate OffersClose(t: TicketRow) {
    t.status == "IN_PROGRESS"
  }

  /** `ticket.technician?.name || "Not Assigned"`. */
  function TechnicianCell(t: TicketRow): (r: string)
    ensures r != ""
    ensures t.technician.Some? && t.technician.value.name != "" ==> r == t.technician.value.name
    ensures t.technician.Some? && t.technician.value.name == "" ==> r == "Not Assigned"
    ensures t.technician.None? ==> r == "Not Assigned"
  {
    if t.technician.Some? then OrElse(Some(t.technician.value.name), "Not Assigned") else "Not Assigned"
  }

  /** The keys of the details dialog, in display order. */
  const DetailKeys: seq<string> := ["title", "department", "location", "deviceId", "status", "technician", "resolvedAt"]

  /** A key's caption: a space before each capital (`deviceId` reads
      "device Id", `resolvedAt` "resolved At"). The `capitalize` class
      that upper-cases the first letter on screen is styling. */
  function DetailLabel(key: string): (r: string)
    ensures |r| == |key| + CountUpper(key)
    ensures forall i | 0 <= i < |r| && IsUpper(r[i]) :: 0 < i && r[i - 1] == ' '
  {
    SpaceBeforeCapitals(key)
  }

  /** The two camel-case keys of the dialog gain a space before their
      capital. */
  lemma CamelCaptions()
    ensures DetailLabel("deviceId") == "device Id"
    ensures DetailLabel("resolvedAt") == "resolved At"
  {
    var device, resolved := "device", "resolved";
    assert CountUpper(device) == 0 && CountUpper(resolved) == 0;
    assert CountUpper("d") == 0 && CountUpper("t") == 0;
    CapitalThenLower(device, 'I', "d");
    CapitalThenLower(resolved, 'A', "t");
    assert device + ['I'] + "d" == "deviceId";
    assert device + [' ', 'I'] + "d" == "device Id";
    assert resolved + ['A'] + "t" == "resolvedAt";
    assert resolved + [' ', 'A'] + "t" == "resolved At";
  }

  /** The five lower-case keys of the dialog read as they are. */
  lemma LowerCaptions()
    ensures DetailLabel("title") == "title" && DetailLabel("department") == "department"
    ensures DetailLabel("location") == "location" && DetailLabel("status") == "status"
    ensures DetailLabel("technician") == "technician"
  {
  }

  /** A caption of a lower-case word, a capital and a lower-case word. */
  lemma CapitalThenLower(a: string, c: char, b: string)
    requires CountUpper(a) == 0 && CountUpper(b) == 0 && IsUpper(c)
    ensures DetailLabel(a + [c] + b) == a + [' ', c] + b
  {
    SpaceBeforeCapitalsAppend(a + [c], b);
    SpaceBeforeCapitalsAppend(a, [c]);
  }

  /** A field of the dialog as the page reads it: absent (null or
      undefined) fields show a dash, the technician shows a name, and a
      resolution time is formatted by `format` (`toLocaleString`). */
  function DetailValue(t: TicketRow, key: string, format: int -> string): (r: string)
    requires key in DetailKeys
    ensures key == "technician" ==> r == TechnicianCell(t)
    ensures key == "title" ==> r == t.title
    ensures key == "status" ==> r == t.status
    ensures key == "resolvedAt" && t.resolvedAt.None? ==> r == Placeholder
    ensures key == "resolvedAt" && t.resolvedAt.Some? ==> r == format(t.resolvedAt.value)
    ensures key in {"department", "location", "deviceId"} ==>
      var v := if key == "department" then t.department else if key == "location" then t.location else t.deviceId;
      r == v.GetOr(Placeholder)
  {
    match key
    case "title" => t.title
    case "department" => t.department.GetOr(Placeholder)
    case "location" => t.location.GetOr(Placeholder)
    case "deviceId" => t.deviceId.GetOr(Placeholder)
    case "status" => t.status
    case "technician" => TechnicianCell(t)
    case _ => if t.resolvedAt.Some? then format(t.resolvedAt.value) else Placeholder
  }

  /** The table after the server's answer: the returned ticket replaces
      the row with its id. */
  function ReplaceById(tickets: seq<TicketRow>, updated: TicketRow): (r: seq<TicketRow>)
    ensures |r| == |tickets|
    ensures forall i | 0 <= i < |tickets| :: r[i] == (if tickets[i].id == updated.id then updated else tickets[i])
  {
    if tickets == [] then []
    else [if tickets[0].id == updated.id then updated else tickets[0]] + ReplaceById(tickets[1..], updated)
  }

  /** After a successful close the closed ticket's row no longer offers
      "Mark Closed", and no other row changes. */
  lemma ClosedRowSettles(tickets: seq<TicketRow>, updated: TicketRow)
    requires updated.status == "CLOSED"
    ensures forall t | t in ReplaceById(tickets, updated) && t.id == updated.id :: !OffersClose(t)
    ensures forall i | 0 <= i < |tickets| && tickets[i].id != updated.id :: ReplaceById(tickets, updated)[i] == tickets[i]
  {
  }

  /** The close endpoint answers with the row `update` returns, which
      includes no relation; once it replaces the old row, the closed
      ticket's technician column reads "Not Assigned", even where a
      technician was shown before. */
  lemma ClosedRowLosesTechnician(tickets: seq<TicketRow>, updated: TicketRow, i: nat)
    requires updated.technician.None?
    requires i < |tickets| && tickets[i].id == updated.id
    ensures TechnicianCell(ReplaceById(tickets, updated)[i]) == "Not Assigned"
    ensures tickets[i].technician.Some? && tickets[i].technician.value.name !in {"", "Not Assigned"} ==>
      TechnicianCell(ReplaceById(tickets, updated)[i]) != TechnicianCell(tickets[i])
  {
    assert ReplaceById(tickets, updated)[i] == updated;
  }

  class Page {
    var tickets: seq<TicketRow>
    var loading: bool
    var fetchError: Option<string>
    var selectedTicket: Option<TicketRow>
    var ticketToClose: Option<TicketRow>
    var updatingTicketId: Option<string>

    constructor ()
      ensures tickets == [] && loading && fetchError.None?
      ensures selectedTicket.None? && ticketToClose.None? && updatingTicketId.None?
    {
      tickets, loading, fetchError := [], true, None;
      selectedTicket, ticketToClose, updatingTicketId := None, None, None;
    }

    /** `fetchTickets` with the answer of `GET /tickets/coordinator-tickets`. */
    method FetchTickets(response: Fetch<seq<TicketRow>>)
      modifies this
      ensures !loading
      ensures response.Fetched? ==> tickets == response.value.GetOr([]) && fetchError == old(fetchError)
      ensures response.Failed? ==> tickets == old(tickets) && fetchError == Some(FetchErrorText)
      ensures selectedTicket == old(selectedTicket) && ticketToClose == old(ticketToClose)
      ensures updatingTicketId == old(updatingTicketId)
    {
      if response.Fetched? {
        tickets := response.value.GetOr([]);
      } else {
        fetchError := Some(FetchErrorText);
      }
      loading := false;
    }

    /** "View" opens the details of a row; "Close" and the cross shut them. */
    method ShowDetails(t: Option<TicketRow>)
      modifies this
      ensures selectedTicket == t
      ensures tickets == old(tickets) && loading == old(loading) && fetchError == old(fetchError)
      ensures ticketToClose == old(ticketToClose) && updatingTicketId == old(updatingTicketId)
    {
      selectedTicket := t;
    }

    /** "Mark Closed" on a row (offered for in-progress tickets), or
        "Cancel" in the confirmation. */
    method AskToClose(t: Option<TicketRow>)
      requires t.Some? ==> OffersClose(t.value)
      modifies this
      ensures ticketToClose == t
      ensures tickets == old(tickets) && loading == old(loading) && fetchError == old(fetchError)
      ensures selectedTicket == old(selectedTicket) && updatingTicketId == old(updatingTicketId)
    {
      ticketToClose := t;
    }

    /** "Confirm" in the dialog: with a ticket to close, marks it as being
        updated and returns the id of `PUT /tickets/set-to-closed/:id`;
        without one, does nothing. */
    method ConfirmMarkAsClosed() returns (request: Option<string>)
      modifies this
      ensures old(ticketToClose).None? ==> request.None? && updatingTicketId == old(updatingTicketId)
      ensures old(ticketToClose).Some? ==>
        request == Some(old(ticketToClose).value.id) && updatingTicketId == request
      ensures tickets == old(tickets) && loading == old(loading) && fetchError == old(fetchError)
      ensures selectedTicket == old(selectedTicket) && ticketToClose == old(ticketToClose)
    {
      if ticketToClose.None? {
        return None;
      }
      updatingTicketId := Some(ticketToClose.value.id);
      request := updatingTicketId;
    }

    /** The answer to the close request: the updated ticket, or `None`
        when the request failed (the page then alerts). Either way the
        confirmation closes and nothing is being updated any more. */
    method CloseAnswered(response: Option<TicketRow>) returns (alerted: bool)
      modifies this
      ensures alerted <==> response.None?
      ensures response.Some? ==> tickets == ReplaceById(old(tickets), response.value)
      ensures response.None? ==> tickets == old(tickets)
      ensures ticketToClose.None? && updatingTicketId.None?
      ensures loading == old(loading) && fetchError == old(fetchError) && selectedTicket == old(selectedTicket)
    {
      alerted := response.None?;
      if response.Some? {
        tickets := ReplaceById(tickets, response.value);
      }
      updatingTicketId, ticketToClose := None, None;
    }
  }
}
