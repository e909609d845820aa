/** The paged, scoped listing of groups: filtering in the query before the page is cut. */
module GroupPaging {
  import opened Prelude
  import opened GroupGraph

  /** A listed row.  Ranks stand for the order of each sortable column. */
  datatype Row = Row(id: Id, active: bool, name: Name, nameRank: nat, createdRank: nat, updatedRank: nat)
  datatype Column = GroupName | CreatedAt | UpdatedAt
  datatype Order = Order(column: Column, descending: bool)

  /** A search term with the name matching of the database. */
  datatype Search = Search(term: string, like: (Name, string) -> bool)

  /** One query: its table, the footprint of each group, who asks and for what. */
  datatype Query = Query(rows: seq<Row>, footprint: Id -> set<ProjectId>, scope: AdminScope, search: Option<Search>)

  predicate UniqueIds(rows: seq<Row>) {
    forall i, j | 0 <= i < j < |rows| :: rows[i].id != rows[j].id
  }

  predicate Matches(q: Query, row: Row) {
    q.search.None? || q.search.value.like(row.name, q.search.value.term)
  }

  /** The predicate sent to the database. */
  predicate SqlSelects(q: Query, row: Row) {
    && row.active
    && (!q.scope.IsRoot() ==>
          && (exists p :: p in q.footprint(row.id))
          && !(exists p :: p in q.footprint(row.id) && p !in q.scope.projects))
    && Matches(q, row)
  }

  /** What the listing is meant to show. */
  predicate Visible(q: Query, row: Row) {
    row.active && Matches(q, row) && FootprintInScope(q.scope, q.footprint(row.id))
  }

  /** The query is skipped altogether for a caller without any project. */
  predicate Skipped(q: Query) {
    !q.scope.IsRoot() && q.scope.projects == {}
  }

  predicate Shown(q: Query, row: Row) {
    !Skipped(q) && SqlSelects(q, row)
  }

  /** The query shows exactly the visible rows unless the scope lists projects for a caller who is
      neither root nor admin; then it differs on every row inside those projects. */
  lemma QueryRefinesScope(q: Query, row: Row)
    ensures q.scope.IsAdmin() || q.scope.projects == {} ==> (Shown(q, row) <==> Visible(q, row))
    ensures !q.scope.IsAdmin() && q.scope.projects != {} ==>
              (Shown(q, row) != Visible(q, row) <==>
                 row.active && Matches(q, row) && q.footprint(row.id) != {} && q.footprint(row.id) <= q.scope.projects)
  {
    var fp := q.footprint(row.id);
    if !q.scope.IsRoot() {
      if fp != {} {
        var p :| p in fp;
        assert q.scope.AllowsAll(fp) ==> q.scope.AllowsProject(p);
      }
      if q.scope.IsAdmin() {
        assert q.scope.AllowsAll(fp) <==> !(exists p :: p in fp && p !in q.scope.projects) by {
          if p :| p in fp && p !in q.scope.projects { assert !q.scope.AllowsProject(p); }
        }
      }
    }
  }

  /** Every scope the system resolves meets that condition. */
  lemma ResolvedScopesRefine(g: Graph, u: Id, q: Query, row: Row)
    requires q.scope == ResolveScope(g, u)
    ensures Shown(q, row) <==> Visible(q, row)
  {
    QueryRefinesScope(q, row);
  }

  /** The condition is needed: a consumer's scope with a project would be shown its groups. */
  lemma ConsumerScopeWouldLeak() returns (q: Query, row: Row)
    ensures !q.scope.IsAdmin() && q.scope.projects != {} && Shown(q, row) && !Visible(q, row)
  {
    row := Row(1, true, "team", 0, 0, 0);
    q := Query([row], _ => {"p"}, AdminScope(7, Some(ConsumerUser), {"p"}), None);
    assert "p" in q.footprint(row.id);
    assert !q.scope.AllowsProject("p");
  }

  // ----- counting and ordering ------------------------------------------------------

  function Selected(q: Query, rows: seq<Row>): (out: seq<Row>)
    ensures forall r :: r in out <==> r in rows && Shown(q, r)
    ensures |out| <= |rows|
  {
    if rows == [] then []
    else
      var rest := Selected(q, rows[1..]);
      assert rows == [rows[0]] + rows[1..];
      if Shown(q, rows[0]) then [rows[0]] + rest else rest
  }

  function Rank(row: Row, c: Column): nat {
    match c
    case GroupName => row.nameRank
    case CreatedAt => row.createdRank
    case UpdatedAt => row.updatedRank
  }

  /** By the column, then by id, both in the same direction. */
  predicate Before(a: Row, b: Row, o: Order) {
    var x, y := if o.descending then b else a, if o.descending then a else b;
    Rank(x, o.column) < Rank(y, o.column) || (Rank(x, o.column) == Rank(y, o.column) && x.id < y.id)
  }

  predicate Ordered(out: seq<Row>, o: Order) {
    forall i, j | 0 <= i < j < |out| :: Before(out[i], out[j], o)
  }

  /** `out` is the full ordered result of the query. */
  ghost predicate Listing(q: Query, o: Order, out: seq<Row>) {
    Ordered(out, o) && multiset(out) == multiset(Selected(q, q.rows))
  }

  lemma SameHead(a: seq<Row>, b: seq<Row>, o: Order)
    requires Ordered(a, o) && Ordered(b, o) && a != [] && b != [] && a[0] in b && b[0] in a
    ensures a[0] == b[0]
  {
    var i :| 0 <= i < |b| && b[i] == a[0];
    var j :| 0 <= j < |a| && a[j] == b[0];
  }

  lemma TailOf(a: seq<Row>)
    requires a != []
    ensures multiset(a[1..]) == multiset(a) - multiset{a[0]}
  {
    assert a == [a[0]] + a[1..];
  }

  lemma {:induction false} OrderedIsUnique(a: seq<Row>, b: seq<Row>, o: Order)
    requires Ordered(a, o) && Ordered(b, o) && multiset(a) == multiset(b)
    ensures a == b
    decreases |a|
  {
    assert |multiset(a)| == |a| && |multiset(b)| == |b|;
    if a != [] {
      assert a[0] in multiset(b) && b[0] in multiset(a);
      SameHead(a, b, o);
      TailOf(a);
      TailOf(b);
      OrderedIsUnique(a[1..], b[1..], o);
      assert a == [a[0]] + a[1..] && b == [b[0]] + b[1..];
    }
  }

  /** The id breaks every tie, so two executions of the query agree on the whole order. */
  lemma ListingIsUnique(q: Query, o: Order, a: seq<Row>, b: seq<Row>)
    requires Listing(q, o, a) && Listing(q, o, b)
    ensures a == b
  {
    OrderedIsUnique(a, b, o);
  }

  /** A listing runs along the named column in the direction asked for, and rows that agree on the
      column run along their ids in that direction. */
  lemma ListingIsSorted(q: Query, o: Order, out: seq<Row>, i: nat, j: nat)
    requires Listing(q, o, out) && i < j < |out|
    ensures var x, y := if o.descending then out[j] else out[i], if o.descending then out[i] else out[j];
            && (o.column == GroupName ==>
                  x.nameRank < y.nameRank || (x.nameRank == y.nameRank && x.id < y.id))
            && (o.column == CreatedAt ==>
                  x.createdRank < y.createdRank || (x.createdRank == y.createdRank && x.id < y.id))
            && (o.column == UpdatedAt ==>
                  x.updatedRank < y.updatedRank || (x.updatedRank == y.updatedRank && x.id < y.id))
  {
    assert Before(out[i], out[j], o);
  }

  /** Listed are exactly the active rows whose name matches the term, if there is one, and whose
      projects the caller administers, each of them; a group without projects is for root alone. */
  lemma ListedRowsAre(q: Query, o: Order, out: seq<Row>, row: Row)
    requires Listing(q, o, out)
    ensures row in out <==>
              && row in q.rows && row.active
              && (q.search.Some? ==> q.search.value.like(row.name, q.search.value.term))
              && (q.scope.userType == Some(RootUser)
                  || (q.footprint(row.id) != {} && q.footprint(row.id) <= q.scope.projects))
  {
    assert row in out <==> row in multiset(out);
    assert row in Selected(q, q.rows) <==> row in multiset(Selected(q, q.rows));
    var fp := q.footprint(row.id);
    assert fp != {} <==> exists p :: p in fp;
    assert fp <= q.scope.projects <==> !(exists p :: p in fp && p !in q.scope.projects);
  }

  function Insert(row: Row, out: seq<Row>, o: Order): seq<Row> {
    if out == [] || Before(row, out[0], o) then [row] + out else [out[0]] + Insert(row, out[1..], o)
  }

  function Sort(rows: seq<Row>, o: Order): seq<Row> {
    if rows == [] then [] else Insert(rows[0], Sort(rows[1..], o), o)
  }

  lemma {:induction false} InsertAdds(row: Row, out: seq<Row>, o: Order)
    ensures multiset(Insert(row, out, o)) == multiset{row} + multiset(out)
    decreases |out|
  {
    if out != [] {
      assert out == [out[0]] + out[1..];
      if !Before(row, out[0], o) { InsertAdds(row, out[1..], o); }
    }
  }

  lemma OrderedFromHead(head: Row, rest: seq<Row>, o: Order)
    requires Ordered(rest, o) && forall r | r in rest :: Before(head, r, o)
    ensures Ordered([head] + rest, o)
  {
  }

  lemma {:induction false} InsertKeepsOrder(row: Row, out: seq<Row>, o: Order)
    requires Ordered(out, o) && forall r | r in out :: r.id != row.id
    ensures Ordered(Insert(row, out, o), o)
    decreases |out|
  {
    if out == [] {
    } else if Before(row, out[0], o) {
      OrderedFromHead(row, out, o);
    } else {
      InsertKeepsOrder(row, out[1..], o);
      InsertAdds(row, out[1..], o);
      var rest := Insert(row, out[1..], o);
      forall r | r in rest ensures Before(out[0], r, o) {
        assert r in multiset(rest);
        assert r == row || r in out[1..];
      }
      OrderedFromHead(out[0], rest, o);
    }
  }

  lemma {:induction false} SortIsListing(rows: seq<Row>, o: Order)
    requires UniqueIds(rows)
    ensures Ordered(Sort(rows, o), o) && multiset(Sort(rows, o)) == multiset(rows)
    decreases |rows|
  {
    if rows != [] {
      SortIsListing(rows[1..], o);
      assert rows == [rows[0]] + rows[1..];
      forall r | r in Sort(rows[1..], o) ensures r.id != rows[0].id {
        assert r in multiset(rows[1..]);
      }
      InsertKeepsOrder(rows[0], Sort(rows[1..], o), o);
      InsertAdds(rows[0], Sort(rows[1..], o), o);
    }
  }

  lemma {:induction false} SelectedHasUniqueIds(q: Query, rows: seq<Row>)
    requires UniqueIds(rows)
    ensures UniqueIds(Selected(q, rows))
    decreases |rows|
  {
    if rows != [] {
      SelectedHasUniqueIds(q, rows[1..]);
      var rest := Selected(q, rows[1..]);
      forall r | r in rest ensures r.id != rows[0].id {
        assert r in rows[1..];
      }
    }
  }

  lemma {:induction false} SelectedOnce(q: Query, rows: seq<Row>, row: Row)
    requires UniqueIds(rows)
    ensures multiset(Selected(q, rows))[row] == if row in rows && Shown(q, row) then 1 else 0
    decreases |rows|
  {
    if rows != [] {
      SelectedOnce(q, rows[1..], row);
      assert rows == [rows[0]] + rows[1..];
      if Shown(q, rows[0]) {
        assert multiset(Selected(q, rows)) == multiset{rows[0]} + multiset(Selected(q, rows[1..]));
      }
    }
  }

  /** A listing exists whenever ids are unique. */
  lemma ListingExists(q: Query, o: Order)
    requires UniqueIds(q.rows)
    ensures Listing(q, o, Sort(Selected(q, q.rows), o))
  {
    SelectedHasUniqueIds(q, q.rows);
    SortIsListing(Selected(q, q.rows), o);
  }

  // ----- pages ----------------------------------------------------------------------

  function Total(q: Query): nat {
    |Selected(q, q.rows)|
  }

  function Page(out: seq<Row>, limit: nat, offset: nat): seq<Row> {
    if offset >= |out| then [] else if offset + limit >= |out| then out[offset..] else out[offset..offset + limit]
  }

  /** The first `k` consecutive pages, each cut from its own execution of the query. */
  function Pages(runs: nat -> seq<Row>, limit: nat, k: nat): seq<Row> {
    if k == 0 then [] else Pages(runs, limit, k - 1) + Page(runs(k - 1), limit, (k - 1) * limit)
  }

  lemma {:induction false} PagesArePrefix(runs: nat -> seq<Row>, out: seq<Row>, limit: nat, k: nat)
    requires forall i :: runs(i) == out
    ensures Pages(runs, limit, k) == UpTo(out, k * limit)
    decreases k
  {
    if k > 0 {
      PagesArePrefix(runs, out, limit, k - 1);
      assert k * limit == (k - 1) * limit + limit;
      NextPage(out, limit, (k - 1) * limit);
    }
  }

  function UpTo(out: seq<Row>, a: nat): seq<Row> {
    out[..if a < |out| then a else |out|]
  }

  lemma NextPage(out: seq<Row>, limit: nat, a: nat)
    ensures UpTo(out, a) + Page(out, limit, a) == UpTo(out, a + limit)
  {
    if a < |out| {
      var b := if a + limit < |out| then a + limit else |out|;
      assert out[..b] == out[..a] + out[a..b];
    }
  }

  lemma RunsAgree(q: Query, o: Order, runs: nat -> seq<Row>)
    requires UniqueIds(q.rows) && forall i :: Listing(q, o, runs(i))
    ensures forall i :: runs(i) == Sort(Selected(q, q.rows), o)
    ensures Listing(q, o, Sort(Selected(q, q.rows), o)) && |Sort(Selected(q, q.rows), o)| == Total(q)
  {
    var out := Sort(Selected(q, q.rows), o);
    ListingExists(q, o);
    forall i ensures runs(i) == out {
      ListingIsUnique(q, o, runs(i), out);
    }
    assert |multiset(out)| == |multiset(Selected(q, q.rows))|;
  }

  lemma ListingShowsVisible(q: Query, o: Order, out: seq<Row>, row: Row)
    requires UniqueIds(q.rows) && (q.scope.IsAdmin() || q.scope.projects == {}) && Listing(q, o, out)
    ensures multiset(out)[row] == if row in q.rows && Visible(q, row) then 1 else 0
  {
    SelectedOnce(q, q.rows, row);
    QueryRefinesScope(q, row);
  }

  /** Consecutive pages, each from a separate execution, concatenate to the one ordered listing.  It
      has as many rows as the reported total, and shows each visible group once and nothing else. */
  lemma PagesAreComplete(q: Query, o: Order, runs: nat -> seq<Row>, limit: nat, k: nat)
    requires UniqueIds(q.rows) && (q.scope.IsAdmin() || q.scope.projects == {})
    requires forall i :: Listing(q, o, runs(i))
    requires k * limit >= Total(q)
    ensures Listing(q, o, Pages(runs, limit, k)) && |Pages(runs, limit, k)| == Total(q)
    ensures forall row :: multiset(Pages(runs, limit, k))[row] == if row in q.rows && Visible(q, row) then 1 else 0
  {
    var out := Sort(Selected(q, q.rows), o);
    RunsAgree(q, o, runs);
    PagesArePrefix(runs, out, limit, k);
    assert out[..|out|] == out;
    forall row ensures multiset(out)[row] == if row in q.rows && Visible(q, row) then 1 else 0 {
      ListingShowsVisible(q, o, out, row);
    }
  }
}
