/** The ticket and user records the pages receive from the API, and the
    label helpers several pages repeat (`getStatusChipProps`,
    `getPriorityChipProps`, the `x || default` fallbacks). Timestamps are
    milliseconds since the epoch. */
module ClientRows {
  import opened Wrappers
  import opened Strings
  import Seqs

  /** A related user as the API embeds it (`technician`, `coordinator`). */
  datatype Person = Person(id: string, name: string, email: string)

  datatype TicketRow = TicketRow(
    id: string,
    title: string,
    description: Option<string>,
    department: Option<string>,
    location: Option<string>,
    deviceId: Option<string>,
    status: string,
    priority: Option<string>,
    createdAt: int,
    updatedAt: int,
    resolvedAt: Option<int>,
    technician: Option<Person>,
    coordinator: Option<Person>)

  /** The outcome of a request a page makes: it threw, or it answered
      with a body field that may be missing. */
  datatype Fetch<T> = Failed | Fetched(value: Option<T>)

  /** `s || d` on an optional string: the empty string is falsy too. */
  function OrElse(s: Option<string>, d: string): (r: string)
    ensures s.Some? && s.value != "" ==> r == s.value
    ensures (s.None? || s.value == "") ==> r == d
  {
    if s.Some? && s.value != "" then s.value else d
  }

  function CreatedAt(t: TicketRow): int { t.createdAt }

  /** `tickets.sort((a, b) => new Date(b.createdAt) - new Date(a.createdAt))`,
      as both dashboards call it: newest first, rearranging the array
      itself. */
  method SortNewestFirst(a: array<TicketRow>)
    modifies a
    ensures Seqs.SortedDesc(a[..], CreatedAt)
    ensures multiset(a[..]) == multiset(old(a[..]))
  {
    if a.Length == 0 {
      return;
    }
    var i := 1;
    while i < a.Length
      invariant 1 <= i <= a.Length
      invariant forall p, q | 0 <= p < q < i :: a[p].createdAt >= a[q].createdAt
      invariant multiset(a[..]) == multiset(old(a[..]))
    {
      var j := i;
      while j > 0 && a[j - 1].createdAt < a[j].createdAt
        invariant 0 <= j <= i
        invariant forall p, q | 0 <= p < q <= i && q != j :: a[p].createdAt >= a[q].createdAt
        invariant multiset(a[..]) == multiset(old(a[..]))
      {
        a[j - 1], a[j] := a[j], a[j - 1];
        j := j - 1;
      }
      i := i + 1;
    }
  }

  /** The label of `getStatusChipProps(status)`: the three statuses are
      recognised whatever their letter case, anything else is shown as
      given (an absent status gives an absent label). */
  function StatusLabel(status: Option<string>): (r: Option<string>)
    ensures var n := ToUpper(status.GetOr(""));
      && (n == "OPEN" ==> r == Some("OPEN"))
      && (n == "IN_PROGRESS" ==> r == Some("IN PROGRESS"))
      && (n == "CLOSED" ==> r == Some("CLOSED"))
      && (n !in {"OPEN", "IN_PROGRESS", "CLOSED"} ==> r == status)
  {
    var n := ToUpper(status.GetOr(""));
    if n == "OPEN" then Some("OPEN")
    else if n == "IN_PROGRESS" then Some("IN PROGRESS")
    else if n == "CLOSED" then Some("CLOSED")
    else status
  }

  /** The label of `getPriorityChipProps(priority)`, on the same pattern. */
  function PriorityLabel(priority: Option<string>): (r: Option<string>)
    ensures var n := ToUpper(priority.GetOr(""));
      && (n in {"HIGH", "MEDIUM", "LOW"} ==> r == Some(n))
      && (n !in {"HIGH", "MEDIUM", "LOW"} ==> r == priority)
  {
    var n := ToUpper(priority.GetOr(""));
    if n == "HIGH" || n == "MEDIUM" || n == "LOW" then Some(n) else priority
  }

  /** The status chip never shows an underscore for a recognised status
      and the lower-case spelling is recognised like the upper-case one. */
  lemma StatusLabelCaseInsensitive()
    ensures StatusLabel(Some("in_progress")) == Some("IN PROGRESS")
    ensures StatusLabel(Some("Open")) == Some("OPEN")
    ensures StatusLabel(Some("PENDING")) == Some("PENDING")
    ensures StatusLabel(None) == None
  {
    assert ToUpper("in_progress") == "IN_PROGRESS";
    assert ToUpper("Open") == "OPEN";
    assert ToUpper("PENDING") == "PENDING";
    assert ToUpper("") == "";
  }

  /** The assign page shows `priority || "MEDIUM"`: a ticket without a
      priority is labelled MEDIUM. */
  lemma MissingPriorityIsMedium(p: Option<string>)
    requires p.None? || p == Some("")
    ensures PriorityLabel(Some(OrElse(p, "MEDIUM"))) == Some("MEDIUM")
  {
    assert ToUpper("MEDIUM") == "MEDIUM";
  }
}
