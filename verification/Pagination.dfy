/** Keyset pagination of the agents and tools of a project. */
module Pagination {
  import opened Common

  /** A row of the agents or of the tools table; ids are ordered as the database orders UUIDs. */
  datatype Row = Row(id: nat, project: nat, organization: nat, createdAt: int, name: string)

  datatype ServiceError = NotFound

  datatype Page = Page(rows: seq<Row>, next: Option<nat>)

  /** Ids are primary keys. */
  ghost predicate IsTable(table: seq<Row>) {
    forall i, j :: 0 <= i < j < |table| ==> table[i].id != table[j].id
  }

  function Get(table: seq<Row>, id: nat): (r: Option<Row>)
    ensures r.Some? ==> r.value in table && r.value.id == id
    ensures r.None? ==> forall row :: row in table ==> row.id != id
  {
    if table == [] then None
    else if table[0].id == id then Some(table[0])
    else Get(table[1..], id)
  }

  // ---- The query ----

  /** Descending by creation time, then by id. */
  predicate Before(a: Row, b: Row) {
    a.createdAt > b.createdAt || (a.createdAt == b.createdAt && a.id > b.id)
  }

  predicate Matches(row: Row, project: nat, organization: nat, behind: Option<Row>) {
    row.project == project && row.organization == organization && (behind.Some? ==> Before(behind.value, row))
  }

  function Where(table: seq<Row>, project: nat, organization: nat, behind: Option<Row>): (rows: seq<Row>)
    ensures forall row :: row in rows <==> row in table && Matches(row, project, organization, behind)
  {
    if table == [] then []
    else (if Matches(table[0], project, organization, behind) then [table[0]] else [])
         + Where(table[1..], project, organization, behind)
  }

  function Insert(row: Row, rows: seq<Row>): (r: seq<Row>)
    ensures forall x :: x in r <==> x == row || x in rows
    ensures |r| == |rows| + 1
  {
    if rows == [] || Before(row, rows[0]) then [row] + rows else [rows[0]] + Insert(row, rows[1..])
  }

  function OrderBy(rows: seq<Row>): (r: seq<Row>)
    ensures forall x :: x in r <==> x in rows
    ensures |r| == |rows|
  {
    if rows == [] then [] else Insert(rows[0], OrderBy(rows[1..]))
  }

  function Limit(rows: seq<Row>, n: nat): seq<Row> {
    if |rows| > n then rows[..n] else rows
  }

  /** The cursor row is looked up by its id alone; an unknown cursor restricts nothing. */
  function ListInProject(table: seq<Row>, project: nat, organization: nat, limit: nat, cursor: Option<nat>): seq<Row> {
    var behind := if cursor.Some? then Get(table, cursor.value) else None;
    Limit(OrderBy(Where(table, project, organization, behind)), limit)
  }

  /** One row more than asked for tells whether there is a next page. */
  function List(table: seq<Row>, projects: map<nat, nat>, project: nat, limit: nat, cursor: Option<nat>)
    : Result<Page, ServiceError>
    requires limit >= 1
  {
    if project !in projects then Err(NotFound)
    else
      var rows := ListInProject(table, project, projects[project], limit + 1, cursor);
      if |rows| > limit then Ok(Page(rows[..limit], Some(rows[limit - 1].id))) else Ok(Page(rows, None))
  }

  // ---- The listing ----

  /** All rows of the project in listing order. */
  function Listing(table: seq<Row>, project: nat, organization: nat): seq<Row> {
    OrderBy(Where(table, project, organization, None))
  }

  ghost predicate Ordered(rows: seq<Row>) {
    forall i, j :: 0 <= i < j < |rows| ==> Before(rows[i], rows[j])
  }

  lemma {:induction false} InsertKeepsOrder(row: Row, rows: seq<Row>)
    requires Ordered(rows) && forall x :: x in rows ==> x.id != row.id
    ensures Ordered(Insert(row, rows))
  {
    if rows != [] && !Before(row, rows[0]) {
      InsertKeepsOrder(row, rows[1..]);
      var rest := Insert(row, rows[1..]);
      forall j | 0 <= j < |rest| ensures Before(rows[0], rest[j]) {
        assert rest[j] in rest;
        assert rows[0] in rows;
      }
    }
  }

  /** Sorting rows with distinct ids gives a strict order. */
  lemma {:induction false} OrderByOrders(rows: seq<Row>)
    requires IsTable(rows)
    ensures Ordered(OrderBy(rows))
  {
    if rows != [] {
      OrderByOrders(rows[1..]);
      InsertKeepsOrder(rows[0], OrderBy(rows[1..]));
    }
  }

  lemma {:induction false} WhereKeepsIdsDistinct(table: seq<Row>, project: nat, organization: nat, behind: Option<Row>)
    requires IsTable(table)
    ensures IsTable(Where(table, project, organization, behind))
  {
    if table != [] {
      WhereKeepsIdsDistinct(table[1..], project, organization, behind);
      var rest := Where(table[1..], project, organization, behind);
      forall j | 0 <= j < |rest| ensures rest[j].id != table[0].id {
        assert rest[j] in rest;
        var i :| 0 <= i < |table[1..]| && table[1..][i] == rest[j];
        assert table[i + 1] == rest[j];
      }
    }
  }

  /** Two strictly ordered sequences with the same rows are the same. */
  lemma {:induction false} OrderIsUnique(a: seq<Row>, b: seq<Row>)
    requires Ordered(a) && Ordered(b) && forall row :: row in a <==> row in b
    ensures a == b
  {
    assert b != [] ==> b[0] in b;
    if a != [] {
      assert a[0] in b;
      HeadComesFirst(a, b[0]);
      HeadComesFirst(b, a[0]);
      forall row ensures row in a[1..] <==> row in b[1..] {
        if row in a[1..] {
          SameTail(a, b, row);
        }
        if row in b[1..] {
          SameTail(b, a, row);
        }
      }
      OrderIsUnique(a[1..], b[1..]);
    }
  }

  lemma HeadComesFirst(rows: seq<Row>, row: Row)
    requires Ordered(rows) && row in rows
    ensures row == rows[0] || Before(rows[0], row)
  {
  }

  lemma SameTail(a: seq<Row>, b: seq<Row>, row: Row)
    requires Ordered(a) && a != [] && b != [] && a[0] == b[0] && row in a[1..] && row in b
    ensures row in b[1..]
  {
    var i :| 0 <= i < |a[1..]| && a[1..][i] == row;
    assert Before(a[0], a[i + 1]);
    var j :| 0 <= j < |b| && b[j] == row;
    assert j > 0 && b[1..][j - 1] == row;
  }

  /** The listing holds exactly the project's rows, each once, strictly ordered even when times are tied. */
  lemma ListingIsTheProject(table: seq<Row>, project: nat, organization: nat)
    requires IsTable(table)
    ensures Ordered(Listing(table, project, organization))
    ensures forall row :: row in Listing(table, project, organization)
                     <==> row in table && row.project == project && row.organization == organization
    ensures forall i, j :: 0 <= i < j < |Listing(table, project, organization)| ==>
      Listing(table, project, organization)[i] != Listing(table, project, organization)[j]
  {
    WhereKeepsIdsDistinct(table, project, organization, None);
    OrderByOrders(Where(table, project, organization, None));
  }

  // ---- One page ----

  /** What follows a row in the listing. */
  ghost predicate IsTailBehind(all: seq<Row>, behind: Row, tail: seq<Row>) {
    Ordered(tail) && forall row :: row in tail <==> row in all && Before(behind, row)
  }

  lemma TailAfter(all: seq<Row>, i: nat)
    requires Ordered(all) && i < |all|
    ensures IsTailBehind(all, all[i], all[i + 1..])
  {
    var tail := all[i + 1..];
    forall row ensures row in tail <==> row in all && Before(all[i], row) {
      if row in tail {
        var j :| 0 <= j < |tail| && tail[j] == row;
        assert all[i + 1 + j] == row;
      }
      if row in all && Before(all[i], row) {
        var j :| 0 <= j < |all| && all[j] == row;
        assert j > i;
        assert tail[j - i - 1] == row;
      }
    }
  }

  lemma GetFinds(table: seq<Row>, row: Row)
    requires IsTable(table) && row in table
    ensures Get(table, row.id) == Some(row)
  {
  }

  /** A page begins right behind its cursor, wherever in the table the cursor row is. */
  lemma CursorListsRowsBehind(table: seq<Row>, project: nat, organization: nat, limit: nat, cursor: Row)
    requires IsTable(table) && cursor in table
    ensures exists tail ::
      && IsTailBehind(Listing(table, project, organization), cursor, tail)
      && ListInProject(table, project, organization, limit, Some(cursor.id)) == Limit(tail, limit)
  {
    GetFinds(table, cursor);
    WhereKeepsIdsDistinct(table, project, organization, Some(cursor));
    OrderByOrders(Where(table, project, organization, Some(cursor)));
    var tail := OrderBy(Where(table, project, organization, Some(cursor)));
    assert IsTailBehind(Listing(table, project, organization), cursor, tail);
  }

  /** A cursor that names no row is ignored: the client gets the first page again. */
  lemma UnknownCursorStartsOver(table: seq<Row>, projects: map<nat, nat>, project: nat, limit: nat, cursor: nat)
    requires limit >= 1 && forall row :: row in table ==> row.id != cursor
    ensures List(table, projects, project, limit, Some(cursor)) == List(table, projects, project, limit, None)
  {
  }

  lemma ListBehindIndex(table: seq<Row>, project: nat, organization: nat, limit: nat, i: nat)
    requires IsTable(table) && i < |Listing(table, project, organization)|
    ensures ListInProject(table, project, organization, limit, Some(Listing(table, project, organization)[i].id))
         == Limit(Listing(table, project, organization)[i + 1..], limit)
  {
    hide Listing, ListInProject, IsTailBehind, IsTable;
    ListingIsTheProject(table, project, organization);
    var all := Listing(table, project, organization);
    assert all[i] in all;
    CursorListsRowsBehind(table, project, organization, limit, all[i]);
    var tail :| IsTailBehind(all, all[i], tail)
      && ListInProject(table, project, organization, limit, Some(all[i].id)) == Limit(tail, limit);
    TailAfter(all, i);
    OneTail(all, all[i], tail, all[i + 1..]);
  }

  lemma OneTail(all: seq<Row>, behind: Row, a: seq<Row>, b: seq<Row>)
    requires IsTailBehind(all, behind, a) && IsTailBehind(all, behind, b)
    ensures a == b
  {
    OrderIsUnique(a, b);
  }

  // ---- Following the cursors ----

  /** The k-th page a client gets by passing on each page's cursor, if the pages reach that far. */
  function PageAt(table: seq<Row>, projects: map<nat, nat>, project: nat, limit: nat, k: nat): Option<Page>
    requires limit >= 1 && project in projects
  {
    if k == 0 then Some(List(table, projects, project, limit, None).value)
    else
      match PageAt(table, projects, project, limit, k - 1)
      case None => None
      case Some(page) =>
        if page.next.None? then None else Some(List(table, projects, project, limit, page.next).value)
  }

  /** The rows of the first k pages, in the order received. */
  function Received(table: seq<Row>, projects: map<nat, nat>, project: nat, limit: nat, k: nat): seq<Row>
    requires limit >= 1 && project in projects
  {
    if k == 0 then []
    else
      Received(table, projects, project, limit, k - 1)
      + match PageAt(table, projects, project, limit, k - 1) { case None => [] case Some(page) => page.rows }
  }

  function Min(a: nat, b: nat): nat {
    if a < b then a else b
  }

  /** The page that starts at a position of the listing. */
  function PageFrom(all: seq<Row>, limit: nat, offset: nat): Page
    requires limit >= 1 && offset <= |all|
  {
    Page(all[offset..Min(|all|, offset + limit)],
         if |all| > offset + limit then Some(all[offset + limit - 1].id) else None)
  }

  function PageCount(n: nat, limit: nat): nat
    requires limit >= 1
  {
    if n == 0 then 1 else (n + limit - 1) / limit
  }

  /** Page k starts at k * limit, and exists when the listing reaches that far, or it is the first. */
  lemma {:induction false} PagesAreSlices(table: seq<Row>, projects: map<nat, nat>, project: nat, limit: nat, k: nat)
    requires IsTable(table) && limit >= 1 && project in projects
    ensures var all := Listing(table, project, projects[project]);
      PageAt(table, projects, project, limit, k)
        == if k == 0 || k * limit < |all| then Some(PageFrom(all, limit, k * limit)) else None
  {
    hide Listing, IsTable, Where, OrderBy, Get, List, ListInProject, PageFrom;
    var all := Listing(table, project, projects[project]);
    if k == 0 {
      FirstPage(table, projects, project, limit);
    } else {
      PagesAreSlices(table, projects, project, limit, k - 1);
      var offset := (k - 1) * limit;
      assert k * limit == offset + limit;
      if offset < |all| && |all| > offset + limit {
        ListBehindIndex(table, project, projects[project], limit + 1, offset + limit - 1);
        NextPage(table, projects, project, limit, offset);
        PageHasNext(all, limit, offset);
      } else if offset <= |all| {
        PageHasNext(all, limit, offset);
      }
    }
  }

  lemma PageHasNext(all: seq<Row>, limit: nat, offset: nat)
    requires limit >= 1 && offset <= |all|
    ensures PageFrom(all, limit, offset).next
      == if |all| > offset + limit then Some(all[offset + limit - 1].id) else None
  {
  }

  lemma FirstPage(table: seq<Row>, projects: map<nat, nat>, project: nat, limit: nat)
    requires limit >= 1 && project in projects
    ensures List(table, projects, project, limit, None).value
         == PageFrom(Listing(table, project, projects[project]), limit, 0)
  {
  }

  lemma NextPage(table: seq<Row>, projects: map<nat, nat>, project: nat, limit: nat, offset: nat)
    requires limit >= 1 && project in projects && |Listing(table, project, projects[project])| > offset + limit
    requires var all := Listing(table, project, projects[project]);
      ListInProject(table, project, projects[project], limit + 1, Some(all[offset + limit - 1].id))
        == Limit(all[offset + limit - 1 + 1..], limit + 1)
    ensures var all := Listing(table, project, projects[project]);
      List(table, projects, project, limit, Some(all[offset + limit - 1].id)).value
        == PageFrom(all, limit, offset + limit)
  {
    hide Listing, ListInProject;
  }

  lemma PageCountIsCeiling(n: nat, limit: nat)
    requires limit >= 1
    ensures PageCount(n, limit) >= 1 && n <= PageCount(n, limit) * limit
    ensures PageCount(n, limit) == 1 || (PageCount(n, limit) - 1) * limit < n
  {
    if n > 0 {
      var q, r := (n + limit - 1) / limit, (n + limit - 1) % limit;
      assert n + limit - 1 == q * limit + r;
      assert (q - 1) * limit == q * limit - limit;
      assert q * limit > 0;
      assert q > 0;
    }
  }

  lemma {:induction false} ReceivedIsPrefix(table: seq<Row>, projects: map<nat, nat>, project: nat, limit: nat, k: nat)
    requires IsTable(table) && limit >= 1 && project in projects
    ensures var all := Listing(table, project, projects[project]);
      Received(table, projects, project, limit, k) == all[..Min(|all|, k * limit)]
  {
    hide Listing, IsTable, PageAt;
    if k > 0 {
      ReceivedIsPrefix(table, projects, project, limit, k - 1);
      PagesAreSlices(table, projects, project, limit, k - 1);
      assert k * limit == (k - 1) * limit + limit;
    }
  }

  lemma Multiples(i: nat, j: nat, limit: nat)
    requires i <= j
    ensures i * limit <= j * limit
  {
  }

  /** Over an unchanging table, following the cursors from the start gives every row of the project exactly once, in
      listing order, in as many pages as it takes and never less than one; then it ends. */
  lemma FollowingCursorsListsTheProject(table: seq<Row>, projects: map<nat, nat>, project: nat, limit: nat)
    requires IsTable(table) && limit >= 1 && project in projects
    ensures var all := Listing(table, project, projects[project]);
      var count := PageCount(|all|, limit);
      && Received(table, projects, project, limit, count) == all
      && PageAt(table, projects, project, limit, count).None?
      && forall k: nat :: k < count ==>
           && PageAt(table, projects, project, limit, k).Some?
           && |PageAt(table, projects, project, limit, k).value.rows| <= limit
           && (PageAt(table, projects, project, limit, k).value.next.None? <==> k == count - 1)
  {
    hide Listing, IsTable, PageAt, PageCount, Received;
    var all := Listing(table, project, projects[project]);
    var count := PageCount(|all|, limit);
    PageCountIsCeiling(|all|, limit);
    ReceivedIsPrefix(table, projects, project, limit, count);
    PagesAreSlices(table, projects, project, limit, count);
    forall k: nat | k < count
      ensures PageAt(table, projects, project, limit, k).Some?
        && |PageAt(table, projects, project, limit, k).value.rows| <= limit
        && (PageAt(table, projects, project, limit, k).value.next.None? <==> k == count - 1)
    {
      PagesAreSlices(table, projects, project, limit, k);
      Multiples(k, count - 1, limit);
      assert (k + 1) * limit == k * limit + limit;
      if k < count - 1 {
        Multiples(k + 1, count - 1, limit);
      }
    }
  }

  /** A page is refused exactly for a project that does not exist. */
  lemma ListIsRefusedIff(table: seq<Row>, projects: map<nat, nat>, project: nat, limit: nat, cursor: Option<nat>)
    requires limit >= 1
    ensures List(table, projects, project, limit, cursor).Err? <==> project !in projects
    ensures List(table, projects, project, limit, cursor).Ok? ==>
      |List(table, projects, project, limit, cursor).value.rows| <= limit
  {
    hide ListInProject;
  }
}
