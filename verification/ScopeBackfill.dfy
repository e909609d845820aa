/** The migration that gives existing groups an administrative project: two updates over the group
    tables, and the comparison of the tables before and after. */
module ScopeBackfill {
  import opened Prelude
  import opened GroupGraph
  import opened GroupTheorems

  /** A row of either group table; `rest` stands for the columns the migration does not know. */
  datatype GroupRow = GroupRow(
    id: Id, name: Name, active: bool, rest: Id, scope: Option<ProjectId>, updatedAt: nat)
  datatype LinkRow = LinkRow(id: Id, userGroup: Id, projectGroup: Id, active: bool, rest: Id)
  datatype ContentRow = ContentRow(id: Id, projectGroup: Id, project: ProjectId, active: bool, rest: Id)
  datatype MemberRow = MemberRow(id: Id, user: Id, userGroup: Id, active: bool, rest: Id)

  datatype Tables = Tables(
    userGroups: seq<GroupRow>, projectGroups: seq<GroupRow>,
    members: seq<MemberRow>, contents: seq<ContentRow>, links: seq<LinkRow>)

  // ----- footprints over rows -------------------------------------------------------

  function Bindings(rows: seq<GroupRow>, id: Id): set<ProjectId> {
    set r | r in rows && r.id == id && r.scope.Some? :: r.scope.value
  }

  /** The projects of a project group, bindings aside. */
  function Contained(t: Tables, pg: Id): set<ProjectId> {
    set c | c in t.contents && c.active && c.projectGroup == pg :: c.project
  }

  function ProjectProjects(t: Tables, pg: Id): set<ProjectId> {
    Bindings(t.projectGroups, pg) + Contained(t, pg)
  }

  /** The projects a user group's links lead to, its own binding aside. */
  function Linked(t: Tables, ug: Id): set<ProjectId> {
    set l, p | l in t.links && l.active && l.userGroup == ug && p in ProjectProjects(t, l.projectGroup) :: p
  }

  function UserProjects(t: Tables, ug: Id): set<ProjectId> {
    Bindings(t.userGroups, ug) + Linked(t, ug)
  }

  // ----- the two updates ------------------------------------------------------------

  function TheOne(ps: set<ProjectId>): (p: ProjectId)
    requires |ps| == 1
    ensures ps == {p}
  {
    OneElement(ps);
    var p :| p in ps; p
  }

  lemma OneElement(ps: set<ProjectId>)
    requires |ps| == 1
    ensures forall p, q | p in ps && q in ps :: p == q
    ensures forall p | p in ps :: ps == {p}
  {
    forall p | p in ps ensures ps == {p} {
      assert |ps - {p}| == 0;
    }
  }

  /** An unbound row takes the project it derives, if that is exactly one.  An update trigger may
      stamp the rows it touches with the current time. */
  function Fill(row: GroupRow, derived: set<ProjectId>, stamp: Option<nat>): GroupRow {
    if row.scope.None? && |derived| == 1
    then row.(scope := Some(TheOne(derived)), updatedAt := if stamp.Some? then stamp.value else row.updatedAt)
    else row
  }

  function FillProjectGroups(t: Tables, stamp: Option<nat>): Tables {
    t.(projectGroups := seq(|t.projectGroups|, i requires 0 <= i < |t.projectGroups| =>
                              Fill(t.projectGroups[i], Contained(t, t.projectGroups[i].id), stamp)))
  }

  function FillUserGroups(t: Tables, stamp: Option<nat>): Tables {
    t.(userGroups := seq(|t.userGroups|, i requires 0 <= i < |t.userGroups| =>
                           Fill(t.userGroups[i], Linked(t, t.userGroups[i].id), stamp)))
  }

  function Upgraded(t: Tables, stamp: Option<nat>): Tables {
    FillUserGroups(FillProjectGroups(t, stamp), stamp)
  }

  // ----- the comparison -------------------------------------------------------------

  predicate RowsPreserved(before: seq<GroupRow>, after: seq<GroupRow>) {
    && |before| == |after|
    && (forall i | 0 <= i < |before| ::
          after[i] == before[i].(scope := after[i].scope, updatedAt := after[i].updatedAt))
    && (forall i | 0 <= i < |before| ::
          && (before[i].scope.Some? ==> after[i].scope == before[i].scope)
          && (after[i].scope == before[i].scope ==> after[i].updatedAt == before[i].updatedAt))
  }

  predicate VerifyPreserved(before: Tables, after: Tables) {
    && RowsPreserved(before.userGroups, after.userGroups) && RowsPreserved(before.projectGroups, after.projectGroups)
    && after.members == before.members && after.contents == before.contents && after.links == before.links
  }

  // ----- meaning is preserved -------------------------------------------------------

  /** Binding rows to projects a group already reaches leaves what it reaches unchanged. */
  lemma FilledBindings(before: seq<GroupRow>, after: seq<GroupRow>, id: Id, reach: set<ProjectId>)
    requires RowsPreserved(before, after)
    requires forall i | 0 <= i < |before| && before[i].id == id && before[i].scope.None? && after[i].scope.Some? ::
               after[i].scope.value in reach
    ensures Bindings(after, id) + reach == Bindings(before, id) + reach
  {
    forall p | p in Bindings(after, id) && p !in reach ensures p in Bindings(before, id) {
      var r :| r in after && r.id == id && r.scope == Some(p);
      var i :| 0 <= i < |after| && after[i] == r;
      assert before[i] in before;
    }
    forall p | p in Bindings(before, id) ensures p in Bindings(after, id) {
      var r :| r in before && r.id == id && r.scope == Some(p);
      var i :| 0 <= i < |before| && before[i] == r;
      assert after[i] in after;
    }
  }

  lemma ProjectsStepPreserves(t: Tables, stamp: Option<nat>, pg: Id)
    ensures ProjectProjects(FillProjectGroups(t, stamp), pg) == ProjectProjects(t, pg)
    ensures RowsPreserved(t.projectGroups, FillProjectGroups(t, stamp).projectGroups)
  {
    FilledBindings(t.projectGroups, FillProjectGroups(t, stamp).projectGroups, pg, Contained(t, pg));
  }

  lemma LinkedDependsOnReach(t: Tables, t': Tables, ug: Id)
    requires t'.links == t.links && forall pg :: ProjectProjects(t', pg) == ProjectProjects(t, pg)
    ensures Linked(t', ug) == Linked(t, ug)
  {
  }

  lemma UsersStepPreserves(t: Tables, stamp: Option<nat>, ug: Id)
    ensures UserProjects(FillUserGroups(t, stamp), ug) == UserProjects(t, ug)
    ensures RowsPreserved(t.userGroups, FillUserGroups(t, stamp).userGroups)
  {
    var t' := FillUserGroups(t, stamp);
    forall pg ensures ProjectProjects(t', pg) == ProjectProjects(t, pg) {
      assert Contained(t', pg) == Contained(t, pg);
    }
    LinkedDependsOnReach(t, t', ug);
    FilledBindings(t.userGroups, t'.userGroups, ug, Linked(t, ug));
  }

  /** The backfill changes nobody's authorization: every footprint, hence every scope answer, is the
      same before and after, and the comparison accepts the result. */
  lemma BackfillPreservesMeaning(t: Tables, stamp: Option<nat>)
    ensures var t' := Upgraded(t, stamp);
            && (forall pg :: ProjectProjects(t', pg) == ProjectProjects(t, pg))
            && (forall ug :: UserProjects(t', ug) == UserProjects(t, ug))
            && (forall scope: AdminScope, pg ::
                FootprintInScope(scope, ProjectProjects(t', pg)) == FootprintInScope(scope, ProjectProjects(t, pg)))
            && (forall scope: AdminScope, ug ::
                FootprintInScope(scope, UserProjects(t', ug)) == FootprintInScope(scope, UserProjects(t, ug)))
            && VerifyPreserved(t, t')
  {
    var t1 := FillProjectGroups(t, stamp);
    var t' := FillUserGroups(t1, stamp);
    forall pg
      ensures ProjectProjects(t1, pg) == ProjectProjects(t, pg) && ProjectProjects(t', pg) == ProjectProjects(t, pg)
    {
      ProjectsStepPreserves(t, stamp, pg);
      assert Contained(t', pg) == Contained(t1, pg);
    }
    forall ug ensures UserProjects(t', ug) == UserProjects(t, ug) {
      UsersStepPreserves(t1, stamp, ug);
      LinkedDependsOnReach(t, t1, ug);
    }
    ProjectsStepPreserves(t, stamp, 0);
    UsersStepPreserves(t1, stamp, 0);
  }

  // ----- in terms of the group graph ------------------------------------------------

  /** Ids are primary keys. */
  predicate UniqueIds(rows: seq<GroupRow>) {
    forall i, j | 0 <= i < |rows| && 0 <= j < |rows| && rows[i].id == rows[j].id :: i == j
  }

  predicate Keyed(t: Tables) {
    UniqueIds(t.userGroups) && UniqueIds(t.projectGroups)
  }

  ghost function RowOf(rows: seq<GroupRow>, id: Id): GroupRow
    requires exists i :: 0 <= i < |rows| && rows[i].id == id
  {
    var i :| 0 <= i < |rows| && rows[i].id == id;
    rows[i]
  }

  ghost function GroupsOf(rows: seq<GroupRow>): map<Id, Group> {
    map id | id in set r | r in rows :: r.id :: var r := RowOf(rows, id); Group(r.name, r.active, r.scope)
  }

  /** The graph that the tables store: groups by id, and the active rows as edges. */
  ghost function GraphOf(t: Tables, users: map<Id, UserType>, projects: map<ProjectId, bool>): Graph {
    Graph(users, projects, GroupsOf(t.userGroups), GroupsOf(t.projectGroups),
          (set m | m in t.members && m.active :: (m.user, m.userGroup)),
          (set l | l in t.links && l.active :: (l.userGroup, l.projectGroup)),
          (set c | c in t.contents && c.active :: (c.projectGroup, c.project)))
  }

  lemma BindingsAreBound(rows: seq<GroupRow>, id: Id)
    requires UniqueIds(rows)
    ensures Bindings(rows, id) == Bound(GroupsOf(rows), id)
  {
    forall r | r in rows && r.id == id ensures RowOf(rows, id) == r {
      var i :| 0 <= i < |rows| && rows[i] == r;
    }
  }

  lemma ContainedInGraph(t: Tables, users: map<Id, UserType>, projects: map<ProjectId, bool>, pg: Id)
    requires Keyed(t)
    ensures ProjectProjects(t, pg) == ProjectFootprint(GraphOf(t, users, projects), pg)
  {
    var g := GraphOf(t, users, projects);
    BindingsAreBound(t.projectGroups, pg);
    forall p ensures p in Contained(t, pg) <==> p in set c | c in g.contents && c.0 == pg :: c.1 {
      if c :| c in t.contents && c.active && c.projectGroup == pg && c.project == p {
        assert (c.projectGroup, c.project) in g.contents;
      }
    }
  }

  lemma LinkedInGraph(t: Tables, users: map<Id, UserType>, projects: map<ProjectId, bool>, ug: Id)
    requires Keyed(t)
    ensures UserProjects(t, ug) == UserFootprint(GraphOf(t, users, projects), ug)
  {
    var g := GraphOf(t, users, projects);
    BindingsAreBound(t.userGroups, ug);
    forall p ensures p in UserProjects(t, ug) <==> p in UserFootprint(g, ug) {
      UserFootprintIs(g, ug, p);
      if p in Linked(t, ug) {
        var l :| l in t.links && l.active && l.userGroup == ug && p in ProjectProjects(t, l.projectGroup);
        ContainedInGraph(t, users, projects, l.projectGroup);
        assert (ug, l.projectGroup) in g.links;
      }
      if pg :| (ug, pg) in g.links && p in ProjectFootprint(g, pg) {
        ContainedInGraph(t, users, projects, pg);
        var l :| l in t.links && l.active && (l.userGroup, l.projectGroup) == (ug, pg);
        assert p in ProjectProjects(t, l.projectGroup);
      }
    }
  }

  lemma FootprintInGraph(t: Tables, users: map<Id, UserType>, projects: map<ProjectId, bool>, kind: Kind, id: Id)
    requires Keyed(t)
    ensures Footprint(GraphOf(t, users, projects), kind, id) ==
              if kind == UserKind then UserProjects(t, id) else ProjectProjects(t, id)
  {
    if kind == UserKind { LinkedInGraph(t, users, projects, id); } else { ContainedInGraph(t, users, projects, id); }
  }

  /** In the graph the tables store, every footprint and every scope answer is the same before and after
      the backfill. */
  lemma BackfillPreservesScopeAnswers(t: Tables, stamp: Option<nat>, users: map<Id, UserType>,
                                      projects: map<ProjectId, bool>, scope: AdminScope, kind: Kind, id: Id)
    requires Keyed(t)
    ensures var g, g' := GraphOf(t, users, projects), GraphOf(Upgraded(t, stamp), users, projects);
            && Footprint(g', kind, id) == Footprint(g, kind, id)
            && GroupInScope(g', scope, kind, id) == GroupInScope(g, scope, kind, id)
  {
    BackfillPreservesMeaning(t, stamp);
    FootprintInGraph(t, users, projects, kind, id);
    FootprintInGraph(Upgraded(t, stamp), users, projects, kind, id);
  }

  /** A group stays unbound exactly if it was unbound and does not derive exactly one project, in
      terms of the tables before the upgrade. */
  lemma UnboundExactlyWhenAmbiguous(t: Tables, stamp: Option<nat>, i: nat)
    ensures var t' := Upgraded(t, stamp);
            && (i < |t.projectGroups| ==>
                  (t'.projectGroups[i].scope.None? <==>
                     t.projectGroups[i].scope.None? && |Contained(t, t.projectGroups[i].id)| != 1))
            && (i < |t.userGroups| ==>
                  (t'.userGroups[i].scope.None? <==>
                     t.userGroups[i].scope.None? && |Linked(t, t.userGroups[i].id)| != 1))
  {
    var t1 := FillProjectGroups(t, stamp);
    forall pg ensures ProjectProjects(t1, pg) == ProjectProjects(t, pg) {
      ProjectsStepPreserves(t, stamp, pg);
    }
    if i < |t.userGroups| { LinkedDependsOnReach(t, t1, t.userGroups[i].id); }
  }

  /** A row the upgrade binds is bound to the one project it derived before. */
  lemma BoundToTheDerived(t: Tables, stamp: Option<nat>, i: nat, p: ProjectId)
    ensures var t' := Upgraded(t, stamp);
            && (i < |t.projectGroups| && t.projectGroups[i].scope.None? && t'.projectGroups[i].scope == Some(p) ==>
                  Contained(t, t.projectGroups[i].id) == {p})
            && (i < |t.userGroups| && t.userGroups[i].scope.None? && t'.userGroups[i].scope == Some(p) ==>
                  Linked(t, t.userGroups[i].id) == {p})
  {
    var t1 := FillProjectGroups(t, stamp);
    forall pg ensures ProjectProjects(t1, pg) == ProjectProjects(t, pg) {
      ProjectsStepPreserves(t, stamp, pg);
    }
    if i < |t.userGroups| { LinkedDependsOnReach(t, t1, t.userGroups[i].id); }
  }

  /** Applying the migration again, whenever, changes nothing. */
  lemma BackfillIsIdempotent(t: Tables, stamp: Option<nat>, again: Option<nat>)
    ensures Upgraded(Upgraded(t, stamp), again) == Upgraded(t, stamp)
  {
    var t' := Upgraded(t, stamp);
    BackfillPreservesMeaning(t, stamp);
    forall i | 0 <= i < |t'.projectGroups|
      ensures Fill(t'.projectGroups[i], Contained(t', t'.projectGroups[i].id), again) == t'.projectGroups[i]
    {
      UnboundExactlyWhenAmbiguous(t, stamp, i);
      assert Contained(t', t'.projectGroups[i].id) == Contained(t, t.projectGroups[i].id);
    }
    assert FillProjectGroups(t', again).projectGroups == t'.projectGroups;
    assert FillProjectGroups(t', again) == t';
    forall i | 0 <= i < |t'.userGroups|
      ensures Fill(t'.userGroups[i], Linked(t', t'.userGroups[i].id), again) == t'.userGroups[i]
    {
      UnboundExactlyWhenAmbiguous(t, stamp, i);
      LinkedDependsOnReach(t, t', t.userGroups[i].id);
    }
    assert FillUserGroups(t', again).userGroups == t'.userGroups;
  }

  // ----- what the comparison guarantees ---------------------------------------------

  /** Every row bound between the two tables got a project from `reach` of its group. */
  ghost predicate BoundWithin(before: seq<GroupRow>, after: seq<GroupRow>, reach: Id -> set<ProjectId>)
    requires |before| == |after|
  {
    forall i | 0 <= i < |before| && before[i].scope.None? && after[i].scope.Some? ::
        after[i].scope.value in reach(before[i].id)
  }

  lemma BindingsOnlyGrow(before: seq<GroupRow>, after: seq<GroupRow>, id: Id)
    requires RowsPreserved(before, after)
    ensures Bindings(before, id) <= Bindings(after, id)
    ensures forall i | 0 <= i < |after| && after[i].id == id && after[i].scope.Some? ::
              after[i].scope.value in Bindings(after, id)
  {
    forall p | p in Bindings(before, id) ensures p in Bindings(after, id) {
      var r :| r in before && r.id == id && r.scope == Some(p);
      var i :| 0 <= i < |before| && before[i] == r;
      assert after[i] in after;
    }
  }

  /** What the comparison lets pass between two rows of one group: a new binding where there was none,
      and a new timestamp only together with it. */
  predicate Kept(old': GroupRow, new': GroupRow) {
    && new'.id == old'.id && new'.name == old'.name && new'.active == old'.active && new'.rest == old'.rest
    && (old'.scope.Some? ==> new'.scope == old'.scope)
    && (new'.scope == old'.scope ==> new'.updatedAt == old'.updatedAt)
  }

  /** No group came, went or changed beyond that. */
  ghost predicate GroupsKept(before: seq<GroupRow>, after: seq<GroupRow>) {
    && (forall r | r in before :: ContinuesIn(r, after))
    && (forall r' | r' in after :: ComesFrom(r', before))
  }

  ghost predicate ContinuesIn(r: GroupRow, after: seq<GroupRow>) {
    exists r' :: r' in after && Kept(r, r')
  }

  ghost predicate ComesFrom(r': GroupRow, before: seq<GroupRow>) {
    exists r :: r in before && Kept(r, r')
  }

  ghost predicate SameRows<T(!new)>(before: seq<T>, after: seq<T>) {
    forall r :: r in before <==> r in after
  }

  /** The tables are read in the order of their primary keys. */
  ghost predicate InIdOrder(t: Tables) {
    && Ascending(t.userGroups, GroupKey()) && Ascending(t.projectGroups, GroupKey())
    && Ascending(t.members, (r: MemberRow) => r.id) && Ascending(t.contents, (r: ContentRow) => r.id)
    && Ascending(t.links, (r: LinkRow) => r.id)
  }

  ghost predicate Ascending<T(!new)>(rows: seq<T>, key: T -> Id) {
    Increasing(Keys(rows, key))
  }

  function Keys<T>(rows: seq<T>, key: T -> Id): seq<Id> {
    seq(|rows|, i requires 0 <= i < |rows| => key(rows[i]))
  }

  predicate Increasing(ids: seq<Id>) {
    forall i, j | 0 <= i < j < |ids| :: ids[i] < ids[j]
  }

  /** Two increasing sequences of the same elements are equal. */
  lemma {:induction false} SameIdsSameOrder(a: seq<Id>, b: seq<Id>)
    requires Increasing(a) && Increasing(b) && SameRows(a, b)
    ensures a == b
    decreases |a|
  {
    if b != [] { assert b[0] in a; }
    if a != [] {
      assert a[0] in b;
      assert a[0] == b[0];
      forall x ensures x in a[1..] <==> x in b[1..] {
        assert x in a[1..] <==> x in a && x != a[0];
        assert x in b[1..] <==> x in b && x != b[0];
      }
      SameIdsSameOrder(a[1..], b[1..]);
      assert a == [a[0]] + a[1..] && b == [b[0]] + b[1..];
    }
  }

  lemma KeyOfRow<T(!new)>(rows: seq<T>, key: T -> Id, r: T)
    requires r in rows
    ensures key(r) in Keys(rows, key)
  {
    var i :| 0 <= i < |rows| && rows[i] == r;
    assert Keys(rows, key)[i] == key(r);
  }

  lemma PlaceOfKey<T(!new)>(rows: seq<T>, key: T -> Id, i: nat, r: T)
    requires Ascending(rows, key) && i < |rows| && r in rows && key(r) == key(rows[i])
    ensures r == rows[i]
  {
    var j :| 0 <= j < |rows| && rows[j] == r;
    assert Keys(rows, key)[i] == Keys(rows, key)[j];
  }

  lemma SameRowsSameTable<T(!new)>(a: seq<T>, b: seq<T>, key: T -> Id)
    requires Ascending(a, key) && Ascending(b, key)
    ensures SameRows(a, b) <==> a == b
  {
    if SameRows(a, b) {
      forall x ensures x in Keys(a, key) <==> x in Keys(b, key) {
        if i :| 0 <= i < |a| && Keys(a, key)[i] == x { KeyOfRow(b, key, a[i]); }
        if i :| 0 <= i < |b| && Keys(b, key)[i] == x { KeyOfRow(a, key, b[i]); }
      }
      SameIdsSameOrder(Keys(a, key), Keys(b, key));
      forall i | 0 <= i < |a| ensures a[i] == b[i] {
        assert Keys(a, key)[i] == Keys(b, key)[i];
        PlaceOfKey(b, key, i, a[i]);
      }
    }
  }

  function GroupKey(): GroupRow -> Id {
    (r: GroupRow) => r.id
  }

  lemma KeptSameIds(before: seq<GroupRow>, after: seq<GroupRow>)
    requires GroupsKept(before, after)
    ensures SameRows(Keys(before, GroupKey()), Keys(after, GroupKey()))
  {
    forall i | 0 <= i < |before| ensures before[i].id in Keys(after, GroupKey()) {
      assert ContinuesIn(before[i], after);
      var r :| r in after && Kept(before[i], r);
      KeyOfRow(after, GroupKey(), r);
    }
    forall i | 0 <= i < |after| ensures after[i].id in Keys(before, GroupKey()) {
      assert ComesFrom(after[i], before);
      var r :| r in before && Kept(r, after[i]);
      KeyOfRow(before, GroupKey(), r);
    }
  }

  lemma KeptInPlace(before: seq<GroupRow>, after: seq<GroupRow>)
    requires Ascending(before, GroupKey()) && Ascending(after, GroupKey()) && GroupsKept(before, after)
    ensures |before| == |after| && forall i | 0 <= i < |before| :: Kept(before[i], after[i])
  {
    KeptSameIds(before, after);
    SameIdsSameOrder(Keys(before, GroupKey()), Keys(after, GroupKey()));
    forall i | 0 <= i < |before| ensures Kept(before[i], after[i]) {
      assert ContinuesIn(before[i], after);
      assert Keys(before, GroupKey())[i] == Keys(after, GroupKey())[i];
      var r :| r in after && Kept(before[i], r);
      PlaceOfKey(after, GroupKey(), i, r);
    }
  }

  lemma InPlaceIsKept(before: seq<GroupRow>, after: seq<GroupRow>)
    requires |before| == |after| && forall i | 0 <= i < |before| :: Kept(before[i], after[i])
    ensures GroupsKept(before, after)
  {
    forall r | r in before ensures ContinuesIn(r, after) {
      var i :| 0 <= i < |before| && before[i] == r;
      assert after[i] in after;
    }
    forall r' | r' in after ensures ComesFrom(r', before) {
      var i :| 0 <= i < |after| && after[i] == r';
      assert before[i] in before;
    }
  }

  lemma KeptAreRowsPreserved(before: seq<GroupRow>, after: seq<GroupRow>)
    requires Ascending(before, GroupKey()) && Ascending(after, GroupKey())
    ensures GroupsKept(before, after) <==> RowsPreserved(before, after)
  {
    if GroupsKept(before, after) { KeptInPlace(before, after); }
    if RowsPreserved(before, after) { InPlaceIsKept(before, after); }
  }

  /** The comparison accepts exactly when no member, content or link row came, went or changed, and no
      group came, went, was bound elsewhere or changed in any column but a first binding and, with it,
      the timestamp. */
  lemma AcceptedExactlyWhen(before: Tables, after: Tables)
    requires InIdOrder(before) && InIdOrder(after)
    ensures VerifyPreserved(before, after) <==>
              && GroupsKept(before.userGroups, after.userGroups)
              && GroupsKept(before.projectGroups, after.projectGroups)
              && SameRows(before.members, after.members) && SameRows(before.contents, after.contents)
              && SameRows(before.links, after.links)
  {
    KeptAreRowsPreserved(before.userGroups, after.userGroups);
    KeptAreRowsPreserved(before.projectGroups, after.projectGroups);
    SameRowsSameTable(before.members, after.members, (r: MemberRow) => r.id);
    SameRowsSameTable(before.contents, after.contents, (r: ContentRow) => r.id);
    SameRowsSameTable(before.links, after.links, (r: LinkRow) => r.id);
  }

  /** The comparison by itself does not look at which project an unbound group was given.  What it
      accepts keeps the project footprints exactly when each newly bound project group was bound to
      a project it already reached; and then likewise for user groups. */
  lemma AcceptedKeepsMeaningWhen(before: Tables, after: Tables)
    requires VerifyPreserved(before, after)
    ensures (forall pg :: ProjectProjects(after, pg) == ProjectProjects(before, pg)) <==>
              BoundWithin(before.projectGroups, after.projectGroups, (pg: Id) => ProjectProjects(before, pg))
    ensures (forall pg :: ProjectProjects(after, pg) == ProjectProjects(before, pg)) ==>
              ((forall ug :: UserProjects(after, ug) == UserProjects(before, ug)) <==>
                 BoundWithin(before.userGroups, after.userGroups, (ug: Id) => UserProjects(before, ug)))
  {
    forall pg ensures Contained(after, pg) == Contained(before, pg) {
    }
    GrowthStaysInside(before.projectGroups, after.projectGroups, (pg: Id) => Contained(before, pg),
                      (pg: Id) => ProjectProjects(before, pg));
    assert forall pg :: ProjectProjects(after, pg) == Bindings(after.projectGroups, pg) + Contained(before, pg);
    if forall pg :: ProjectProjects(after, pg) == ProjectProjects(before, pg) {
      forall ug ensures Linked(after, ug) == Linked(before, ug) {
        LinkedDependsOnReach(before, after, ug);
      }
      GrowthStaysInside(before.userGroups, after.userGroups, (ug: Id) => Linked(before, ug),
                        (ug: Id) => UserProjects(before, ug));
      assert forall ug :: UserProjects(after, ug) == Bindings(after.userGroups, ug) + Linked(before, ug);
    }
  }

  lemma GrowthStaysInside(before: seq<GroupRow>, after: seq<GroupRow>, derived: Id -> set<ProjectId>,
                          reach: Id -> set<ProjectId>)
    requires RowsPreserved(before, after) && forall id :: reach(id) == Bindings(before, id) + derived(id)
    ensures (forall id :: Bindings(after, id) + derived(id) == reach(id)) <==> BoundWithin(before, after, reach)
  {
    if BoundWithin(before, after, reach) {
      forall id ensures Bindings(after, id) + derived(id) == reach(id) {
        FilledBindings(before, after, id, reach(id));
        BindingsOnlyGrow(before, after, id);
      }
    }
    if forall id :: Bindings(after, id) + derived(id) == reach(id) {
      forall i | 0 <= i < |before| && before[i].scope.None? && after[i].scope.Some?
        ensures after[i].scope.value in reach(before[i].id)
      {
        BindingsOnlyGrow(before, after, before[i].id);
        assert after[i].scope.value in Bindings(after, before[i].id) + derived(before[i].id);
      }
    }
  }

  /** Two tables the comparison accepts although a group has gained a project. */
  lemma ComparisonMissesWrongBinding() returns (before: Tables, after: Tables)
    ensures VerifyPreserved(before, after) && ProjectProjects(after, 1) != ProjectProjects(before, 1)
  {
    before := Tables([], [GroupRow(1, "team", true, 0, None, 5)], [], [], []);
    after := before.(projectGroups := [GroupRow(1, "team", true, 0, Some("p"), 5)]);
    assert after.projectGroups[0] in after.projectGroups;
    assert "p" in ProjectProjects(after, 1) && "p" !in ProjectProjects(before, 1);
  }

  // ----- in place -------------------------------------------------------------------

  class Migration {
    var tables: Tables

    constructor (tables: Tables)
      ensures this.tables == tables
    {
      this.tables := tables;
    }

    method UpdateProjectGroups(stamp: Option<nat>)
      modifies this
      ensures tables == FillProjectGroups(old(tables), stamp)
    {
      var t := tables;
      ghost var filled := FillProjectGroups(t, stamp).projectGroups;
      for i := 0 to |t.projectGroups|
        invariant tables == t.(projectGroups := tables.projectGroups) && |tables.projectGroups| == |t.projectGroups|
        invariant tables.projectGroups[..i] == filled[..i] && tables.projectGroups[i..] == t.projectGroups[i..]
      {
        var row := tables.projectGroups[i];
        assert row == t.projectGroups[i..][0];
        assert Contained(tables, row.id) == Contained(t, row.id);
        tables := tables.(projectGroups := tables.projectGroups[i := Fill(row, Contained(tables, row.id), stamp)]);
      }
    }

    method UpdateUserGroups(stamp: Option<nat>)
      modifies this
      ensures tables == FillUserGroups(old(tables), stamp)
    {
      var t := tables;
      ghost var filled := FillUserGroups(t, stamp).userGroups;
      for i := 0 to |t.userGroups|
        invariant tables == t.(userGroups := tables.userGroups) && |tables.userGroups| == |t.userGroups|
        invariant tables.userGroups[..i] == filled[..i] && tables.userGroups[i..] == t.userGroups[i..]
      {
        var row := tables.userGroups[i];
        assert row == t.userGroups[i..][0];
        SameLinked(t, tables, row.id);
        tables := tables.(userGroups := tables.userGroups[i := Fill(row, Linked(tables, row.id), stamp)]);
      }
    }

    /** Runs the two updates row by row, in their order. */
    method ApplyBackfills(stamp: Option<nat>)
      modifies this
      ensures tables == Upgraded(old(tables), stamp)
      ensures VerifyPreserved(old(tables), tables)
    {
      UpdateProjectGroups(stamp);
      UpdateUserGroups(stamp);
      BackfillPreservesMeaning(old(tables), stamp);
    }
  }

  lemma SameLinked(t: Tables, t': Tables, ug: Id)
    requires t' == t.(userGroups := t'.userGroups)
    ensures Linked(t', ug) == Linked(t, ug)
  {
    forall pg ensures ProjectProjects(t', pg) == ProjectProjects(t, pg) {
      assert Contained(t', pg) == Contained(t, pg);
    }
    LinkedDependsOnReach(t, t', ug);
  }
}
