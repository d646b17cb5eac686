/** The administrator's dashboard: three counters, the five newest
    tickets as table rows, the unassigned ones among them, and a details
    dialog for the row clicked. The three requests go out together
    (`Promise.all`), so one failure resets everything. */
module AdminDashboard {
  import opened Wrappers
  import opened Strings
  import opened ClientRows
  import Seqs

  datatype Stats = Stats(openTickets: nat, inProgressTickets: nat, urgentTickets: nat)

  /** A row of "Recent Tickets", built from a fetched ticket with the
      page's fallbacks. */
  datatype RecentTicket = RecentTicket(
    id: string,
    issue: string,
    priority: string,
    status: string,
    assignedTo: string,
    createdAt: int,
    department: string,
    location: string,
    description: string,
    coordinator: Option<Person>,
    technician: Option<Person>)

  const RecentCount := 5
  const PreviewLength := 80

  /** Urgent: HIGH priority and not yet closed. */
  predicate IsUrgent(t: TicketRow) {
    t.priority == Some("HIGH") && t.status != "CLOSED"
  }

  /** `res.data.tickets?.length || 0`. */
  function LengthOr0(tickets: Option<seq<TicketRow>>): (n: nat)
    ensures tickets.None? ==> n == 0
    ensures tickets.Some? ==> n == |tickets.value|
  {
    if tickets.Some? then |tickets.value| else 0
  }

  function UrgentCount(ts: seq<TicketRow>): (n: nat)
    ensures n <= |ts|
    ensures n == |Seqs.Filter(ts, IsUrgent)|
    ensures forall t | t in ts && IsUrgent(t) :: n > 0
  {
    Seqs.Count(ts, IsUrgent)
  }

  function ToRecent(t: TicketRow): (r: RecentTicket)
    ensures r.id == t.id && r.issue == t.title && r.status == t.status && r.createdAt == t.createdAt
    ensures r.technician == t.technician && r.coordinator == t.coordinator
    // a ticket nobody works on is listed as unassigned
    ensures t.technician.None? ==> r.assignedTo == "Unassigned"
    ensures t.technician.Some? && t.technician.value.name != "" ==> r.assignedTo == t.technician.value.name
    ensures t.technician.Some? && t.technician.value.name == "" ==> r.assignedTo == "Unassigned"
    // the details dialog reads a missing text column as the empty string
    ensures r.department == t.department.GetOr("") && r.location == t.location.GetOr("")
    ensures r.description == t.description.GetOr("")
    // the chip of a ticket without a priority reads LOW
    ensures t.priority.Some? && t.priority.value != "" ==> r.priority == t.priority.value
    ensures (t.priority.None? || t.priority == Some("")) ==> r.priority == "Low"
  {
    RecentTicket(
      t.id, t.title, OrElse(t.priority, "Low"), t.status,
      if t.technician.Some? then OrElse(Some(t.technician.value.name), "Unassigned") else "Unassigned",
      t.createdAt, OrElse(t.department, ""), OrElse(t.location, ""), OrElse(t.description, ""),
      t.coordinator, t.technician)
  }

  function MapRecent(ts: seq<TicketRow>): (r: seq<RecentTicket>)
    ensures |r| == |ts|
    ensures forall i | 0 <= i < |ts| :: r[i] == ToRecent(ts[i])
  {
    if ts == [] then [] else [ToRecent(ts[0])] + MapRecent(ts[1..])
  }

  /** "Unassigned Tickets": the recent rows whose `assignedTo` is the
      placeholder. */
  function Unassigned(recent: seq<RecentTicket>): (r: seq<RecentTicket>)
    ensures forall x | x in r :: x in recent && x.assignedTo == "Unassigned"
    ensures forall x | x in recent && x.assignedTo == "Unassigned" :: x in r
  {
    Seqs.Filter(recent, (x: RecentTicket) => x.assignedTo == "Unassigned")
  }

  /** The text under an unassigned ticket: the first 80 characters of its
      description, or a placeholder when it has none. */
  function Preview(description: string): (r: string)
    ensures description != "" ==> |r| <= PreviewLength && r <= description
    ensures description != "" && |description| <= PreviewLength ==> r == description
    ensures |description| > PreviewLength ==> r == description[..PreviewLength]
    ensures description == "" ==> r == "No description provided."
  {
    if description == "" then "No description provided." else Take(description, PreviewLength)
  }

  /** The recent rows are the newest tickets: newest first, and no ticket
      left out is newer than one shown. */
  lemma RecentAreNewest(sorted: seq<TicketRow>)
    requires Seqs.SortedDesc(sorted, CreatedAt)
    ensures var n := if |sorted| < RecentCount then |sorted| else RecentCount;
      var recent := MapRecent(sorted[..n]);
      && (forall i, j | 0 <= i < j < |recent| :: recent[i].createdAt >= recent[j].createdAt)
      && (forall r, t | r in recent && t in sorted[n..] :: r.createdAt >= t.createdAt)
  {
    var n := if |sorted| < RecentCount then |sorted| else RecentCount;
    var recent := MapRecent(sorted[..n]);
    forall r, t | r in recent && t in sorted[n..] ensures r.createdAt >= t.createdAt {
      var i :| 0 <= i < |recent| && recent[i] == r;
      var j :| 0 <= j < |sorted| - n && sorted[n..][j] == t;
      assert sorted[..n][i] == sorted[i] && sorted[n + j] == t;
    }
  }

  /** A ticket without a technician that makes the recent five also shows
      in the unassigned panel. */
  lemma UnassignedShowsOpenWork(recent: seq<TicketRow>, t: TicketRow)
    requires t in recent && t.technician.None?
    ensures ToRecent(t) in Unassigned(MapRecent(recent))
  {
    var i :| 0 <= i < |recent| && recent[i] == t;
    assert MapRecent(recent)[i] == ToRecent(t);
  }

  class Dashboard {
    var stats: Stats
    var recentTickets: seq<RecentTicket>
    var loading: bool
    var selectedTicket: Option<RecentTicket>

    constructor ()
      ensures stats == Stats(0, 0, 0) && recentTickets == [] && loading && selectedTicket.None?
    {
      stats, recentTickets, loading, selectedTicket := Stats(0, 0, 0), [], true, None;
    }

    /** `fetchStats` with the answers of the open, in-progress and
        all-tickets requests. */
    method FetchStats(openRes: Fetch<seq<TicketRow>>, inProgressRes: Fetch<seq<TicketRow>>, ticketRes: Fetch<seq<TicketRow>>)
      modifies this
      ensures !loading && selectedTicket == old(selectedTicket)
      ensures (openRes.Failed? || inProgressRes.Failed? || ticketRes.Failed?) ==>
        stats == Stats(0, 0, 0) && recentTickets == []
      ensures openRes.Fetched? && inProgressRes.Fetched? && ticketRes.Fetched? ==>
        var ts := ticketRes.value.GetOr([]);
        && stats == Stats(LengthOr0(openRes.value), LengthOr0(inProgressRes.value), UrgentCount(ts))
        && |recentTickets| == (if |ts| < RecentCount then |ts| else RecentCount)
        && exists sorted: seq<TicketRow> ::
             && multiset(sorted) == multiset(ts) && |sorted| == |ts|
             && Seqs.SortedDesc(sorted, CreatedAt)
             && recentTickets == MapRecent(sorted[..|recentTickets|])
    {
      loading := true;
      if openRes.Failed? || inProgressRes.Failed? || ticketRes.Failed? {
        stats := Stats(0, 0, 0);
        recentTickets := [];
        loading := false;
        return;
      }
      var ts := ticketRes.value.GetOr([]);
      stats := Stats(LengthOr0(openRes.value), LengthOr0(inProgressRes.value), UrgentCount(ts));
      var a := new TicketRow[|ts|](i requires 0 <= i < |ts| => ts[i]);
      assert a[..] == ts;
      SortNewestFirst(a);
      var n := if a.Length < RecentCount then a.Length else RecentCount;
      recentTickets := MapRecent(a[..n]);
      assert |a[..]| == |ts|;
      loading := false;
    }

    /** Clicking a row opens its details. */
    method Select(ticket: RecentTicket)
      modifies this
      ensures selectedTicket == Some(ticket)
      ensures stats == old(stats) && recentTickets == old(recentTickets) && loading == old(loading)
    {
      selectedTicket := Some(ticket);
    }

    /** Closing the dialog. */
    method CloseDetails()
      modifies this
      ensures selectedTicket.None?
      ensures stats == old(stats) && recentTickets == old(recentTickets) && loading == old(loading)
    {
      selectedTicket := None;
    }
  }
}
