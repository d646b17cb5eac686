/** The administrator's coordinators and technicians pages. Both fetch a
    list of users with their tickets, show per-user ticket counts by
    status, and open a dialog with one user's tickets. The coordinators
    page shows its list through the data table; the technicians page
    draws its own table. */
module StaffPages {
  import opened Wrappers
  import opened Strings
  import opened ClientRows
  import Seqs
  import DataTable

  /** A user row as the staff listings send it: every column of the user
      table (the timestamps as the ISO strings JSON carries, the nullable
      department and image as `Option`), and the user's tickets, which
      the coordinators page reads as `coordinatorTickets` and the
      technicians page as `technicianTickets`. */
  datatype Staff = Staff(
    id: string,
    name: string,
    email: string,
    password: string,
    role: string,
    department: Option<string>,
    image: Option<string>,
    createdAt: string,
    updatedAt: string,
    tickets: seq<TicketRow>)

  datatype Counts = Counts(total: nat, open: nat, inProgress: nat, closed: nat)

  datatype Kind = Coordinators | Technicians

  datatype DialogBody = TicketList(tickets: seq<TicketRow>) | Message(text: string)

  predicate IsOpen(t: TicketRow) { t.status == "OPEN" }
  predicate IsInProgress(t: TicketRow) { t.status == "IN_PROGRESS" }
  predicate IsClosed(t: TicketRow) { t.status == "CLOSED" }

  /** The count columns of a user's row: all tickets, then
      `filter(t => t.status === s).length` for each status. */
  function CountsOf(ts: seq<TicketRow>): (c: Counts)
    ensures c.total == |ts|
    ensures c.open == |Seqs.Filter(ts, IsOpen)|
    ensures c.inProgress == |Seqs.Filter(ts, IsInProgress)|
    ensures c.closed == |Seqs.Filter(ts, IsClosed)|
    ensures c.open + c.inProgress + c.closed <= c.total
    ensures (forall t | t in ts :: t.status in {"OPEN", "IN_PROGRESS", "CLOSED"}) ==>
      c.open + c.inProgress + c.closed == c.total
  {
    Seqs.CountDisjoint3(ts, IsOpen, IsInProgress, IsClosed);
    Counts(|ts|, Seqs.Count(ts, IsOpen), Seqs.Count(ts, IsInProgress), Seqs.Count(ts, IsClosed))
  }

  function FetchErrorText(kind: Kind): string {
    match kind
    case Coordinators => "Failed to fetch coordinators. Please try again."
    case Technicians => "Failed to fetch technicians. Please try again."
  }

  /** What the page shows under its header. */
  datatype PageBody = LoadingText | ErrorText(text: string) | EmptyText | List(staff: seq<Staff>)

  /** What the dialog says when the user has no tickets. */
  function NoTicketsText(kind: Kind): string {
    match kind
    case Coordinators => "This coordinator has no tickets created."
    case Technicians => "This technician has no tickets assigned."
  }

  /** `String(value)` of a nullable column: `null` prints as "null". */
  function Printed(v: Option<string>): (r: string)
    ensures v.Some? ==> r == v.value
    ensures v.None? ==> r == "null"
  {
    if v.Some? then v.value else "null"
  }

  /** `String(array)` of an array of `n` objects: each prints as
      "[object Object]", joined by commas; the empty array prints as "". */
  function ObjectsPrinted(n: nat): (r: string)
    ensures n == 0 <==> r == ""
    ensures n > 0 ==> "[object Object]" <= r
  {
    if n == 0 then ""
    else if n == 1 then "[object Object]"
    else "[object Object]" + "," + ObjectsPrinted(n - 1)
  }

  /** The keys of a coordinator object as the data table receives it. */
  const RowKeys: set<string> :=
    {"id", "name", "email", "password", "role", "department", "image", "createdAt", "updatedAt", "coordinatorTickets"}

  /** The row the data table receives for a coordinator: the whole user
      object, each value as the search prints it. The count columns
      (`totalTickets`, `openCount`, `inProgressCount`, `closedCount`) are
      rendered from the tickets and are not fields of the row. */
  function TableRow(s: Staff): (r: DataTable.Row)
    ensures r.Keys == RowKeys
    ensures r["id"] == s.id && r["name"] == s.name && r["email"] == s.email
    ensures r["password"] == s.password && r["role"] == s.role
    ensures r["department"] == Printed(s.department) && r["image"] == Printed(s.image)
    ensures r["createdAt"] == s.createdAt && r["updatedAt"] == s.updatedAt
    ensures r["coordinatorTickets"] == ObjectsPrinted(|s.tickets|)
  {
    map[
      "id" := s.id, "name" := s.name, "email" := s.email,
      "password" := s.password, "role" := s.role,
      "department" := Printed(s.department), "image" := Printed(s.image),
      "createdAt" := s.createdAt, "updatedAt" := s.updatedAt,
      "coordinatorTickets" := ObjectsPrinted(|s.tickets|)]
  }

  function TableRows(staff: seq<Staff>): (r: seq<DataTable.Row>)
    ensures |r| == |staff|
    ensures forall i | 0 <= i < |staff| :: r[i] == TableRow(staff[i])
  {
    if staff == [] then [] else [TableRow(staff[0])] + TableRows(staff[1..])
  }

  /** A string contains itself. */
  lemma ContainsItself(s: string)
    ensures Contains(s, s)
  {
    assert s <= s[0..];
  }

  /** A value that contains the lower-cased term makes the row match. */
  lemma MatchesOn(row: DataTable.Row, k: string, term: string)
    requires k in row && Contains(ToLower(row[k]), ToLower(term))
    ensures DataTable.Matches(row, term)
  {
  }

  /** A coordinator's row matches "coordinator" through its role. */
  lemma RoleMatches(s: Staff)
    requires s.role == "COORDINATOR"
    ensures DataTable.Matches(TableRow(s), "coordinator")
  {
    assert ToLower("COORDINATOR") == "coordinator";
    assert ToLower("coordinator") == "coordinator";
    ContainsItself("coordinator");
    MatchesOn(TableRow(s), "role", "coordinator");
  }

  /** Searching the coordinators table for "coordinator" keeps every
      row: each row's role column reads COORDINATOR. */
  lemma SearchForRoleKeepsAll(staff: seq<Staff>)
    requires forall s | s in staff :: s.role == "COORDINATOR"
    ensures DataTable.Search(TableRows(staff), "coordinator") == TableRows(staff)
  {
    var rows := TableRows(staff);
    forall row | row in rows ensures DataTable.Matches(row, "coordinator") {
      var i :| 0 <= i < |rows| && rows[i] == row;
      assert staff[i] in staff;
      RoleMatches(staff[i]);
    }
    FilterKeepsAll(rows, row => DataTable.Matches(row, "coordinator"));
  }

  /** A filter whose predicate holds everywhere keeps the sequence. */
  lemma {:induction false} FilterKeepsAll<T>(s: seq<T>, p: T -> bool)
    requires forall x | x in s :: p(x)
    ensures Seqs.Filter(s, p) == s
  {
    if s != [] {
      assert s == [s[0]] + s[1..];
      FilterKeepsAll(s[1..], p);
    }
  }

  /** Searching for "null" finds a coordinator without a department. */
  lemma SearchForNullFindsNoDepartment(s: Staff)
    requires s.department.None?
    ensures DataTable.Matches(TableRow(s), "null")
  {
    assert ToLower("null") == "null";
    ContainsItself("null");
    MatchesOn(TableRow(s), "department", "null");
  }

  /** Searching for "object" finds every coordinator with a ticket: the
      ticket list prints as "[object Object]". */
  lemma SearchForObjectFindsTicketHolders(s: Staff)
    requires |s.tickets| > 0
    ensures DataTable.Matches(TableRow(s), "object")
  {
    var v := TableRow(s)["coordinatorTickets"];
    assert "[object Object]" <= v;
    var lv := ToLower(v);
    assert ToLower("object") == "object";
    assert lv[1..7] == "object" by {
      forall i | 1 <= i < 7 ensures lv[i] == v[i] == "[object Object]"[i] {
      }
    }
    assert "object" <= lv[1..];
    MatchesOn(TableRow(s), "coordinatorTickets", "object");
  }

  /** The count columns are not keys of a coordinator object. */
  lemma CountFieldsAreNotKeys(field: string)
    requires field in {"totalTickets", "openCount", "inProgressCount", "closedCount"}
    ensures field !in RowKeys
  {
  }

  /** No row of the table has a field that is not a user column. */
  lemma RowsLackField(staff: seq<Staff>, field: string)
    requires field !in RowKeys
    ensures forall r | r in TableRows(staff) :: field !in r
  {
    var rows := TableRows(staff);
    forall r | r in rows ensures field !in r {
      var i :| 0 <= i < |rows| && rows[i] == r;
      assert r.Keys == RowKeys;
    }
  }

  /** Clicking the header of a count column on the coordinators page
      sorts on a field no row has, so the order does not change. */
  lemma CountColumnsDoNotSort(staff: seq<Staff>, field: string, dir: DataTable.Direction)
    requires field in {"totalTickets", "openCount", "inProgressCount", "closedCount"}
    ensures DataTable.Sort(TableRows(staff), DataTable.ByField(field), dir) == TableRows(staff)
  {
    var rows := TableRows(staff);
    CountFieldsAreNotKeys(field);
    RowsLackField(staff, field);
    DataTable.SortOnMissingColumn(rows, field, dir);
  }

  class Page {
    const kind: Kind
    var staff: seq<Staff>
    var loading: bool
    var fetchError: Option<string>
    var selected: Option<Staff>

    constructor (kind: Kind)
      ensures this.kind == kind && staff == [] && loading && fetchError.None? && selected.None?
    {
      this.kind := kind;
      staff, loading, fetchError, selected := [], true, None, None;
    }

    /** The answer of `GET /users/all-coordinators` or
        `GET /users/all-technicians`. */
    method FetchStaff(response: Fetch<seq<Staff>>)
      modifies this
      ensures !loading && selected == old(selected)
      ensures response.Fetched? ==> staff == response.value.GetOr([]) && fetchError == old(fetchError)
      ensures response.Failed? ==> staff == old(staff) && fetchError == Some(FetchErrorText(kind))
    {
      if response.Fetched? {
        staff := response.value.GetOr([]);
      } else {
        fetchError := Some(FetchErrorText(kind));
      }
      loading := false;
    }

    /** "View" opens a user's tickets; closing the dialog passes `None`. */
    method Select(s: Option<Staff>)
      modifies this
      ensures selected == s
      ensures staff == old(staff) && loading == old(loading) && fetchError == old(fetchError)
    {
      selected := s;
    }

    /** The page body: the loading text, then the fetch error, then (on
        the technicians page only) the empty-list text, else the list. */
    function Body(): (b: PageBody)
      reads this
      ensures loading <==> b == LoadingText
      ensures !loading && fetchError.Some? ==> b == ErrorText(fetchError.value)
      ensures b.EmptyText? <==> !loading && fetchError.None? && kind == Technicians && staff == []
      ensures b.List? ==> b.staff == staff && !loading && fetchError.None?
    {
      if loading then LoadingText
      else if fetchError.Some? then ErrorText(fetchError.value)
      else if kind == Technicians && staff == [] then EmptyText
      else List(staff)
    }

    /** The dialog body: the selected user's tickets, or the message for
        a user without any. */
    function Dialog(): (r: DialogBody)
      reads this
      requires selected.Some?
      ensures r.TicketList? <==> |selected.value.tickets| > 0
      ensures r.TicketList? ==> r.tickets == selected.value.tickets
      ensures r.Message? ==> r.text == NoTicketsText(kind)
    {
      if |selected.value.tickets| > 0 then TicketList(selected.value.tickets) else Message(NoTicketsText(kind))
    }
  }
}
