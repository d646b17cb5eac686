/** The administrator's page for assigning a technician to an open ticket:
    the open tickets in a table, a dialog for the ticket picked, a list of
    technicians to choose from, and the assignment request. Requests are
    parameters: each method receives how its request ended. */
module AssignTechnicianPage {
  import opened Wrappers
  import opened ClientRows
  import Seqs

  const FetchErrorText := "Failed to fetch open tickets. Please try again."
  const NoTechnicianText := "Please select a technician."
  const AssignFailedText := "Assignment failed. Try again."

  /** The coordinator column: `row.coordinator?.name || "N/A"`. */
  function CoordinatorCell(row: TicketRow): (r: string)
    ensures row.coordinator.Some? && row.coordinator.value.name != "" ==> r == row.coordinator.value.name
    ensures row.coordinator.Some? && row.coordinator.value.name == "" ==> r == "N/A"
    ensures row.coordinator.None? ==> r == "N/A"
  {
    if row.coordinator.Some? then OrElse(Some(row.coordinator.value.name), "N/A") else "N/A"
  }

  /** The priority chip: `getPriorityChipProps(row.priority || "MEDIUM")`. */
  function PriorityChip(row: TicketRow): (r: string)
    ensures (row.priority.None? || row.priority == Some("")) ==> r == "MEDIUM"
    ensures row.priority.Some? && row.priority.value != "" ==> Some(r) == PriorityLabel(row.priority)
  {
    if row.priority.None? || row.priority == Some("") then
      MissingPriorityIsMedium(row.priority);
      PriorityLabel(Some("MEDIUM")).GetOr("")
    else
      PriorityLabel(Some(OrElse(row.priority, "MEDIUM"))).GetOr("")
  }

  /** The tickets left in the table once `id` is assigned. */
  function WithoutTicket(tickets: seq<TicketRow>, id: string): (r: seq<TicketRow>)
    ensures forall t | t in r :: t in tickets && t.id != id
    ensures forall t | t in tickets && t.id != id :: t in r
    ensures |r| <= |tickets|
  {
    Seqs.Filter(tickets, (t: TicketRow) => t.id != id)
  }

  class Page {
    var tickets: seq<TicketRow>
    var loading: bool
    var fetchError: Option<string>
    var selectedTicket: Option<TicketRow>
    var technicians: seq<Person>
    var selectedTechnicianId: string
    var assigning: bool
    var assignError: Option<string>
    var techLoading: bool

    constructor ()
      ensures tickets == [] && loading && fetchError.None? && selectedTicket.None?
      ensures technicians == [] && selectedTechnicianId == "" && !assigning && assignError.None? && !techLoading
    {
      tickets, loading, fetchError, selectedTicket := [], true, None, None;
      technicians, selectedTechnicianId, assigning, assignError, techLoading := [], "", false, None, false;
    }

    /** `fetchOpenTickets` with the answer of `GET /tickets/open-tickets`. */
    method FetchOpenTickets(response: Fetch<seq<TicketRow>>)
      modifies this
      ensures !loading
      ensures response.Fetched? ==> tickets == response.value.GetOr([]) && fetchError == old(fetchError)
      ensures response.Failed? ==> tickets == old(tickets) && fetchError == Some(FetchErrorText)
      ensures selectedTicket == old(selectedTicket) && technicians == old(technicians)
      ensures selectedTechnicianId == old(selectedTechnicianId) && assignError == old(assignError)
      ensures assigning == old(assigning) && techLoading == old(techLoading)
    {
      if response.Fetched? {
        tickets := response.value.GetOr([]);
      } else {
        fetchError := Some(FetchErrorText);
      }
      loading := false;
    }

    /** The "Assign" button of a row opens the dialog for that ticket. */
    method SelectTicket(row: TicketRow)
      modifies this
      ensures selectedTicket == Some(row) && techLoading
      ensures tickets == old(tickets) && technicians == old(technicians) && loading == old(loading)
      ensures fetchError == old(fetchError) && selectedTechnicianId == old(selectedTechnicianId)
      ensures assigning == old(assigning) && assignError == old(assignError)
    {
      selectedTicket := Some(row);
      techLoading := true;
    }

    /** The answer of `GET /users/all-technicians`, requested whenever a
        ticket is selected; a failure leaves no technician to choose. */
    method FetchTechnicians(response: Fetch<seq<Person>>)
      requires response.Fetched? ==> response.value.Some?
      modifies this
      ensures !techLoading
      ensures response.Fetched? ==> technicians == response.value.value
      ensures response.Failed? ==> technicians == []
      ensures tickets == old(tickets) && selectedTicket == old(selectedTicket) && loading == old(loading)
      ensures fetchError == old(fetchError) && selectedTechnicianId == old(selectedTechnicianId)
      ensures assigning == old(assigning) && assignError == old(assignError)
    {
      technicians := if response.Fetched? then response.value.value else [];
      techLoading := false;
    }

    method ChooseTechnician(id: string)
      modifies this
      ensures selectedTechnicianId == id
      ensures tickets == old(tickets) && selectedTicket == old(selectedTicket) && technicians == old(technicians)
      ensures loading == old(loading) && fetchError == old(fetchError)
      ensures assigning == old(assigning) && assignError == old(assignError) && techLoading == old(techLoading)
    {
      selectedTechnicianId := id;
    }

    /** `handleAssign`. Without a chosen technician nothing is sent.
        Otherwise `request` is the (ticket id, technician id) pair of
        `PUT /tickets/set-to-in-progress/:id/:technicianId`, and
        `succeeded` says how that request ended. */
    method HandleAssign(succeeded: bool) returns (request: Option<(string, string)>)
      requires selectedTicket.Some?
      modifies this
      ensures old(selectedTechnicianId) != "" ==> !assigning
      ensures old(selectedTechnicianId) == "" ==> assigning == old(assigning)
      ensures old(selectedTechnicianId) == "" ==>
        && request.None? && assignError == Some(NoTechnicianText)
        && tickets == old(tickets) && selectedTicket == old(selectedTicket) && selectedTechnicianId == ""
      ensures old(selectedTechnicianId) != "" ==>
        request == Some((old(selectedTicket).value.id, old(selectedTechnicianId)))
      ensures old(selectedTechnicianId) != "" && succeeded ==>
        && tickets == WithoutTicket(old(tickets), old(selectedTicket).value.id)
        && selectedTicket.None? && selectedTechnicianId == "" && assignError.None?
      ensures old(selectedTechnicianId) != "" && !succeeded ==>
        && tickets == old(tickets) && selectedTicket == old(selectedTicket)
        && selectedTechnicianId == old(selectedTechnicianId) && assignError == Some(AssignFailedText)
      ensures technicians == old(technicians) && loading == old(loading) && fetchError == old(fetchError)
      ensures techLoading == old(techLoading)
    {
      if selectedTechnicianId == "" {
        assignError := Some(NoTechnicianText);
        return None;
      }
      assigning := true;
      assignError := None;
      var ticketId := selectedTicket.value.id;
      request := Some((ticketId, selectedTechnicianId));
      if succeeded {
        tickets := WithoutTicket(tickets, ticketId);
        selectedTicket := None;
        selectedTechnicianId := "";
      } else {
        assignError := Some(AssignFailedText);
      }
      assigning := false;
    }

    /** "Cancel", or closing the dialog: forget the selection and the
        error. */
    method DismissDialog()
      modifies this
      ensures selectedTicket.None? && selectedTechnicianId == "" && assignError.None?
      ensures tickets == old(tickets) && technicians == old(technicians) && loading == old(loading)
      ensures fetchError == old(fetchError) && assigning == old(assigning) && techLoading == old(techLoading)
    {
      selectedTicket, selectedTechnicianId, assignError := None, "", None;
    }
  }

  /** A ticket assigned successfully leaves the table, and only that one:
      the table keeps every other ticket in its order. */
  lemma {:induction false} AssignedTicketLeaves(tickets: seq<TicketRow>, id: string)
    ensures forall t | t in WithoutTicket(tickets, id) :: t.id != id
    ensures |WithoutTicket(tickets, id)| + Seqs.Count(tickets, (t: TicketRow) => t.id == id) == |tickets|
  {
    if tickets != [] {
      AssignedTicketLeaves(tickets[1..], id);
      assert WithoutTicket(tickets, id) == (if tickets[0].id != id then [tickets[0]] else []) + WithoutTicket(tickets[1..], id);
    }
  }
}
