/** The reusable `DataTable` component: a search box, sortable columns and
    a pager of ten rows. Its state (sort field and direction, search term,
    current page) lives in a `Table` object whose handlers update it; the
    rows it renders are a function of that state and of the `data` prop. */
module DataTable {
  import opened Wrappers
  import opened Strings
  import Seqs

  /** A row as the table reads it: each field's value as `String(value)`
      prints it. */
  type Row = map<string, string>

  datatype Direction = Asc | Desc

  const ItemsPerPage: nat := 10

  function Flip(d: Direction): (r: Direction)
    ensures r != d
  {
    if d == Asc then Desc else Asc
  }

  /** Some value of the row contains the term, both lower-cased. */
  predicate Matches(row: Row, term: string) {
    exists k | k in row :: Contains(ToLower(row[k]), ToLower(term))
  }

  /** The search step: an empty term keeps the data as it is; otherwise
      the matching rows, in their original order. */
  function Search(data: seq<Row>, term: string): (r: seq<Row>)
    ensures term == "" ==> r == data
    ensures term != "" ==> forall row | row in r :: row in data && Matches(row, term)
    ensures term != "" ==> forall row | row in data && Matches(row, term) :: row in r
    ensures |r| <= |data|
  {
    if term == "" then data else Seqs.Filter(data, row => Matches(row, term))
  }

  /** The value compared when sorting on `field`. */
  function Cell(row: Row, field: string): string {
    if field in row then row[field] else ""
  }

  /** `a` sorts strictly before `b` in direction `dir`. */
  predicate Before(dir: Direction, a: string, b: string) {
    if dir == Asc then StrLess(a, b) else StrLess(b, a)
  }

  lemma BeforeTransitive(dir: Direction, a: string, b: string, c: string)
    requires Before(dir, a, b) && Before(dir, b, c)
    ensures Before(dir, a, c)
  {
    if dir == Asc { StrLessTransitive(a, b, c); } else { StrLessTransitive(c, b, a); }
  }

  lemma BeforeIrreflexive(dir: Direction, a: string)
    ensures !Before(dir, a, a)
  {
    StrLessIrreflexive(a);
  }

  /** No element sorts strictly before one that precedes it. */
  predicate Ordered<T>(s: seq<T>, key: T -> string, dir: Direction) {
    forall i, j | 0 <= i < j < |s| :: !Before(dir, key(s[j]), key(s[i]))
  }

  /** An element that no later element sorts before can head an ordered
      list. */
  lemma ConsOrdered<T>(h: T, rest: seq<T>, key: T -> string, dir: Direction)
    requires Ordered(rest, key, dir)
    requires forall y | y in rest :: !Before(dir, key(y), key(h))
    ensures Ordered([h] + rest, key, dir)
  {
    var s := [h] + rest;
    forall i, j | 0 <= i < j < |s| ensures !Before(dir, key(s[j]), key(s[i])) {
      if i == 0 {
        assert s[j] == rest[j - 1] && rest[j - 1] in rest;
      } else {
        assert s[i] == rest[i - 1] && s[j] == rest[j - 1];
      }
    }
  }

  lemma BeforeTotal(dir: Direction, a: string, b: string)
    requires a != b
    ensures Before(dir, a, b) || Before(dir, b, a)
  {
    StrLessTotal(a, b);
  }

  lemma BeforeAsymmetric(dir: Direction, a: string, b: string)
    requires Before(dir, a, b)
    ensures !Before(dir, b, a)
  {
    if dir == Asc { StrLessAsymmetric(a, b); } else { StrLessAsymmetric(b, a); }
  }

  /** An element the head of an ordered list does not sort before sorts
      no later than any of its elements. */
  lemma NotAfterHead<T>(x: T, s: seq<T>, key: T -> string, dir: Direction)
    requires Ordered(s, key, dir) && s != []
    requires !Before(dir, key(s[0]), key(x))
    ensures forall y | y in s :: !Before(dir, key(y), key(x))
  {
    forall y | y in s ensures !Before(dir, key(y), key(x)) {
      var j :| 0 <= j < |s| && s[j] == y;
      if Before(dir, key(y), key(x)) {
        if j == 0 {
          assert false;
        } else if key(y) == key(s[0]) {
          assert false;
        } else {
          BeforeTotal(dir, key(y), key(s[0]));
          BeforeTransitive(dir, key(s[0]), key(y), key(x));
        }
      }
    }
  }

  /** Insert `x` after the elements that sort strictly before it and
      ahead of the rest, so that it precedes its equals. */
  function Insert<T>(x: T, s: seq<T>, key: T -> string, dir: Direction): (r: seq<T>)
    requires Ordered(s, key, dir)
    ensures Ordered(r, key, dir)
    ensures multiset(r) == multiset(s) + multiset{x}
    ensures forall y | y in r :: y == x || y in s
  {
    if s == [] then [x]
    else if Before(dir, key(s[0]), key(x)) then
      assert s == [s[0]] + s[1..];
      assert Ordered(s[1..], key, dir);
      var rest := Insert(x, s[1..], key, dir);
      assert forall y | y in s[1..] :: !Before(dir, key(y), key(s[0])) by {
        forall y | y in s[1..] ensures !Before(dir, key(y), key(s[0])) {
          var k :| 0 <= k < |s[1..]| && s[1..][k] == y;
          assert s[k + 1] == y;
        }
      }
      BeforeAsymmetric(dir, key(s[0]), key(x));
      ConsOrdered(s[0], rest, key, dir);
      [s[0]] + rest
    else
      NotAfterHead(x, s, key, dir);
      ConsOrdered(x, s, key, dir);
      [x] + s
  }

  /** `[...s].sort(compare)` with the comparator of the table: a stable
      sort on `key`. The input is a value and is left as it was. */
  function Sort<T>(s: seq<T>, key: T -> string, dir: Direction): (r: seq<T>)
    ensures Ordered(r, key, dir)
    ensures multiset(r) == multiset(s)
    ensures |r| == |s|
  {
    if s == [] then []
    else
      assert s == [s[0]] + s[1..];
      Insert(s[0], Sort(s[1..], key, dir), key, dir)
  }

  /** When every row ties on the key, as on a column no row has, the
      sort leaves the table as it was. */
  lemma {:induction false} SortKeepsTies<T>(s: seq<T>, key: T -> string, dir: Direction)
    requires forall x, y | x in s && y in s :: key(x) == key(y)
    ensures Sort(s, key, dir) == s
  {
    if s != [] {
      assert s == [s[0]] + s[1..];
      SortKeepsTies(s[1..], key, dir);
      if s[1..] != [] {
        assert s[1..][0] in s;
        BeforeIrreflexive(dir, key(s[0]));
      }
    }
  }

  /** The elements whose key is `k`. */
  function KeyIs<T>(key: T -> string, k: string): T -> bool {
    y => key(y) == k
  }

  /** Inserting `x` puts it ahead of the elements that tie with it. */
  lemma {:induction false} InsertBeforeTies<T>(x: T, s: seq<T>, key: T -> string, dir: Direction, k: string)
    requires Ordered(s, key, dir)
    ensures Seqs.Filter(Insert(x, s, key, dir), KeyIs(key, k))
      == (if key(x) == k then [x] else []) + Seqs.Filter(s, KeyIs(key, k))
  {
    var p := KeyIs(key, k);
    FilterOne(x, p);
    if s == [] {
      assert Insert(x, s, key, dir) == [x];
    } else {
      InsertStep(x, s, key, dir);
      if Before(dir, key(s[0]), key(x)) {
        InsertBeforeTies(x, s[1..], key, dir, k);
        BeforeIrreflexive(dir, key(x));
        assert key(s[0]) != key(x);
        PassHead(x, s, Insert(x, s[1..], key, dir), p);
      } else {
        Seqs.FilterAppend([x], s, p);
      }
    }
  }

  /** Filtering a list whose head precedes `x`: when `rest` filters to
      `x`'s share followed by the tail's, so does the head put back. */
  lemma PassHead<T>(x: T, s: seq<T>, rest: seq<T>, p: T -> bool)
    requires s != [] && (p(x) ==> !p(s[0]))
    requires Seqs.Filter(rest, p) == (if p(x) then [x] else []) + Seqs.Filter(s[1..], p)
    ensures Seqs.Filter([s[0]] + rest, p) == (if p(x) then [x] else []) + Seqs.Filter(s, p)
  {
    var front := if p(x) then [x] else [];
    var head := Seqs.Filter([s[0]], p);
    var tail := Seqs.Filter(s[1..], p);
    Seqs.FilterAppend([s[0]], rest, p);
    Seqs.FilterAppend([s[0]], s[1..], p);
    assert s == [s[0]] + s[1..];
    assert Seqs.Filter(s, p) == head + tail;
    FilterOne(s[0], p);
    if p(x) {
      assert head == [];
    } else {
      assert front == [];
    }
  }

  lemma OrderedTail<T>(s: seq<T>, key: T -> string, dir: Direction)
    requires Ordered(s, key, dir) && s != []
    ensures Ordered(s[1..], key, dir)
  {
    forall i, j | 0 <= i < j < |s| - 1 ensures !Before(dir, key(s[1..][j]), key(s[1..][i])) {
      assert s[1..][j] == s[j + 1] && s[1..][i] == s[i + 1];
    }
  }

  /** One step of `Insert` on a non-empty list. */
  lemma InsertStep<T>(x: T, s: seq<T>, key: T -> string, dir: Direction)
    requires Ordered(s, key, dir) && s != []
    ensures Ordered(s[1..], key, dir)
    ensures Insert(x, s, key, dir)
      == if Before(dir, key(s[0]), key(x)) then [s[0]] + Insert(x, s[1..], key, dir) else [x] + s
  {
    OrderedTail(s, key, dir);
  }

  lemma FilterOne<T>(x: T, p: T -> bool)
    ensures Seqs.Filter([x], p) == if p(x) then [x] else []
  {
    assert [x][1..] == [];
  }

  /** The sort is stable: the rows that share a key come out in the
      order they came in, for every key. */
  lemma {:induction false} SortStable<T>(s: seq<T>, key: T -> string, dir: Direction, k: string)
    ensures Seqs.Filter(Sort(s, key, dir), KeyIs(key, k)) == Seqs.Filter(s, KeyIs(key, k))
  {
    if s != [] {
      assert s == [s[0]] + s[1..];
      SortStable(s[1..], key, dir, k);
      InsertBeforeTies(s[0], Sort(s[1..], key, dir), key, dir, k);
    }
  }

  /** A column absent from every row does not reorder the table. */
  lemma SortOnMissingColumn(rows: seq<Row>, field: string, dir: Direction)
    requires forall r | r in rows :: field !in r
    ensures Sort(rows, ByField(field), dir) == rows
  {
    SortKeepsTies(rows, ByField(field), dir);
  }

  /** The sort key of a column. */
  function ByField(field: string): Row -> string {
    row => Cell(row, field)
  }

  /** `Math.ceil(n / 10)`. */
  function TotalPages(n: nat): (t: nat)
    ensures n <= t * ItemsPerPage
    ensures t == 0 || (t - 1) * ItemsPerPage < n
  {
    (n + ItemsPerPage - 1) / ItemsPerPage
  }

  /** `s.slice(a, b)` for non-negative bounds: both are clamped to the
      length, and a reversed window is empty. */
  function Slice<T>(s: seq<T>, a: nat, b: nat): (r: seq<T>)
    ensures a <= |s| && a <= b <= |s| ==> r == s[a..b]
    ensures |s| <= a || b <= a ==> r == []
    ensures a <= b && a <= |s| < b ==> r == s[a..]
  {
    var lo := if a < |s| then a else |s|;
    var hi := if b < lo then lo else if b < |s| then b else |s|;
    s[lo..hi]
  }

  /** Rows shown on page `p` (1-based). */
  function Page(s: seq<Row>, p: nat): (r: seq<Row>)
    requires p >= 1
  {
    Slice(s, (p - 1) * ItemsPerPage, (p - 1) * ItemsPerPage + ItemsPerPage)
  }

  /** Every page up to the last holds one to ten consecutive rows, and
      each row is on page `i / 10 + 1` at position `i % 10`. */
  lemma PageContents(s: seq<Row>, p: nat)
    requires 1 <= p <= TotalPages(|s|)
    ensures var lo := (p - 1) * ItemsPerPage;
      var hi := if lo + ItemsPerPage < |s| then lo + ItemsPerPage else |s|;
      lo < hi && Page(s, p) == s[lo..hi] && 1 <= |Page(s, p)| <= ItemsPerPage
    ensures forall i | 0 <= i < |s| && i / ItemsPerPage + 1 == p :: Page(s, p)[i % ItemsPerPage] == s[i]
  {
  }

  /** A page past the last shows nothing. */
  lemma PagePastEnd(s: seq<Row>, p: nat)
    requires p > TotalPages(|s|)
    ensures Page(s, p) == []
  {
  }

  /** The pager is drawn only with pagination on and more than one page. */
  predicate PagerShown(n: nat, pagination: bool) {
    pagination && TotalPages(n) > 1
  }

  class Table {
    var sortField: Option<string>
    var sortDirection: Direction
    var searchTerm: string
    var currentPage: int

    ghost predicate Valid()
      reads this
    {
      currentPage >= 1
    }

    constructor ()
      ensures Valid()
      ensures sortField.None? && sortDirection == Asc && searchTerm == "" && currentPage == 1
    {
      sortField, sortDirection, searchTerm, currentPage := None, Asc, "", 1;
    }

    /** `handleSort`: the current field flips direction; another field is
        selected ascending. */
    method HandleSort(field: string)
      modifies this
      ensures old(sortField) == Some(field) ==> sortField == Some(field) && sortDirection == Flip(old(sortDirection))
      ensures old(sortField) != Some(field) ==> sortField == Some(field) && sortDirection == Asc
      ensures searchTerm == old(searchTerm) && currentPage == old(currentPage)
    {
      if sortField == Some(field) {
        sortDirection := if sortDirection == Asc then Desc else Asc;
      } else {
        sortField := Some(field);
        sortDirection := Asc;
      }
    }

    /** Typing in the search box: the term changes and the pager returns
        to page one. */
    method SetSearchTerm(term: string)
      modifies this
      ensures Valid()
      ensures searchTerm == term && currentPage == 1
      ensures sortField == old(sortField) && sortDirection == old(sortDirection)
    {
      searchTerm := term;
      currentPage := 1;
    }

    /** "Previous": one page back, never below page one. */
    method PreviousPage()
      requires Valid()
      modifies this
      ensures Valid()
      ensures currentPage == if old(currentPage) > 1 then old(currentPage) - 1 else 1
      ensures sortField == old(sortField) && sortDirection == old(sortDirection) && searchTerm == old(searchTerm)
    {
      currentPage := if currentPage - 1 > 1 then currentPage - 1 else 1;
    }

    /** "Next" (drawn only with the pager, so with more than one page of
        `n` rows): one page on, never past the last. */
    method NextPage(n: nat)
      requires Valid() && TotalPages(n) > 1
      modifies this
      ensures Valid()
      ensures currentPage <= TotalPages(n)
      ensures currentPage == if old(currentPage) + 1 < TotalPages(n) then old(currentPage) + 1 else TotalPages(n)
      ensures sortField == old(sortField) && sortDirection == old(sortDirection) && searchTerm == old(searchTerm)
    {
      currentPage := if currentPage + 1 < TotalPages(n) then currentPage + 1 else TotalPages(n);
    }

    /** A numbered page button (`page` counts from zero). */
    method GoToPage(n: nat, page: nat)
      requires page < TotalPages(n)
      modifies this
      ensures Valid() && currentPage == page + 1 && currentPage <= TotalPages(n)
      ensures sortField == old(sortField) && sortDirection == old(sortDirection) && searchTerm == old(searchTerm)
    {
      currentPage := page + 1;
    }

    /** The filtered rows, sorted when a sort field is set. */
    function SortedData(data: seq<Row>): (r: seq<Row>)
      reads this
      ensures multiset(r) == multiset(Search(data, searchTerm))
      ensures sortField.Some? && sortField.value != "" ==> Ordered(r, ByField(sortField.value), sortDirection)
      ensures sortField.None? || sortField.value == "" ==> r == Search(data, searchTerm)
    {
      var filtered := Search(data, searchTerm);
      if sortField.Some? && sortField.value != "" then Sort(filtered, ByField(sortField.value), sortDirection) else filtered
    }

    /** The rows in the table body: the current page, or every sorted row
        when pagination is off. */
    function Shown(data: seq<Row>, pagination: bool): (r: seq<Row>)
      reads this
      requires Valid()
      ensures !pagination ==> r == SortedData(data)
      ensures pagination ==> |r| <= ItemsPerPage
      ensures pagination ==> r == Page(SortedData(data), currentPage)
    {
      if pagination then Page(SortedData(data), currentPage) else SortedData(data)
    }
  }

  /** Every shown row is a row of the data that passes the search. */
  lemma ShownRowsComeFromData(t: Table, data: seq<Row>, pagination: bool)
    requires t.Valid()
    ensures forall row | row in t.Shown(data, pagination) ::
      row in data && (t.searchTerm == "" || Matches(row, t.searchTerm))
  {
    var sorted := t.SortedData(data);
    forall row | row in t.Shown(data, pagination)
      ensures row in data && (t.searchTerm == "" || Matches(row, t.searchTerm))
    {
      assert row in sorted;
      assert row in multiset(sorted);
      assert row in Search(data, t.searchTerm);
    }
  }
}
