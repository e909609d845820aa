/** The administrative group graph: user groups hold users, project groups hold projects, and links
    grant a user group the projects of a project group.  Every write is preflighted against the
    footprints it would touch, and only then performed. */
module GroupGraph {
  import opened Prelude

  /** Project ids and group names, as the database collation compares them. */
  type ProjectId = string
  type Name = string

  datatype UserType = RootUser | AdminUser | ConsumerUser
  datatype Kind = UserKind | ProjectKind
  datatype Group = Group(name: Name, active: bool, binding: Option<ProjectId>)

  /** Edges are the active rows of the three relationship tables; an active project maps to whether
      it is not archived. */
  datatype Graph = Graph(
    users: map<Id, UserType>, projects: map<ProjectId, bool>,
    userGroups: map<Id, Group>, projectGroups: map<Id, Group>,
    members: set<(Id, Id)>, links: set<(Id, Id)>, contents: set<(Id, ProjectId)>)

  /** Edges only mention groups on record. */
  predicate WellFormed(g: Graph) {
    && (forall m | m in g.members :: m.1 in g.userGroups)
    && (forall l | l in g.links :: l.0 in g.userGroups && l.1 in g.projectGroups)
    && (forall c | c in g.contents :: c.0 in g.projectGroups)
  }

  // ----- footprints -----------------------------------------------------------------

  function Bound(groups: map<Id, Group>, id: Id): set<ProjectId> {
    if id in groups && groups[id].binding.Some? then {groups[id].binding.value} else {}
  }

  function ProjectFootprint(g: Graph, pg: Id): set<ProjectId> {
    Bound(g.projectGroups, pg) + set c | c in g.contents && c.0 == pg :: c.1
  }

  /** The three selects: own binding, bindings of linked project groups, projects in them. */
  function UserFootprint(g: Graph, ug: Id): set<ProjectId> {
    Bound(g.userGroups, ug)
    + (set l, p | l in g.links && l.0 == ug && p in Bound(g.projectGroups, l.1) :: p)
    + (set l, c | l in g.links && c in g.contents && l.0 == ug && c.0 == l.1 :: c.1)
  }

  function Footprint(g: Graph, kind: Kind, id: Id): set<ProjectId> {
    if kind == UserKind then UserFootprint(g, id) else ProjectFootprint(g, id)
  }

  // ----- scope of a caller ----------------------------------------------------------

  const ADMIN_PREFIX: Name := "admin_"

  predicate IsAdminName(n: Name) {
    ADMIN_PREFIX <= n
  }

  datatype AdminScope = AdminScope(user: Id, userType: Option<UserType>, projects: set<ProjectId>) {
    predicate IsRoot() {
      userType == Some(RootUser)
    }

    predicate IsAdmin() {
      userType == Some(RootUser) || userType == Some(AdminUser)
    }

    predicate AllowsProject(p: ProjectId) {
      IsRoot() || (userType == Some(AdminUser) && p in projects)
    }

    predicate AllowsAll(ps: set<ProjectId>) {
      forall p | p in ps :: AllowsProject(p)
    }
  }

  function FindGroup(groups: map<Id, Group>, id: Id): Option<Group> {
    if id in groups && groups[id].active then Some(groups[id]) else None
  }

  predicate Available(g: Graph, p: ProjectId) {
    p in g.projects && g.projects[p]
  }

  /** `u` reaches `p` through user group `ug` and project group `pg`. */
  predicate Chain(g: Graph, u: Id, ug: Id, pg: Id, p: ProjectId) {
    && (u, ug) in g.members && FindGroup(g.userGroups, ug).Some?
    && (ug, pg) in g.links && FindGroup(g.projectGroups, pg).Some?
    && (pg, p) in g.contents && Available(g, p)
  }

  /** The projects whose `admin_<project>` group leads the user to them. */
  function AssignedProjects(g: Graph, u: Id): set<ProjectId> {
    set m, l, c | m in g.members && l in g.links && c in g.contents
                  && m.0 == u && m.1 == l.0 && l.1 == c.0 && Chain(g, u, l.0, l.1, c.1)
                  && g.userGroups[l.0].name == ADMIN_PREFIX + c.1 :: c.1
  }

  function AccessibleProjects(g: Graph, u: Id): set<ProjectId> {
    set m, l, c | m in g.members && l in g.links && c in g.contents
                  && m.0 == u && m.1 == l.0 && l.1 == c.0 && Chain(g, u, l.0, l.1, c.1) :: c.1
  }

  function ResolveScope(g: Graph, u: Id): AdminScope {
    var t := Find(g.users, u);
    AdminScope(u, t, if t == Some(AdminUser) then AssignedProjects(g, u) else {})
  }

  /** An empty footprint is nobody's but root's. */
  predicate FootprintInScope(scope: AdminScope, ps: set<ProjectId>) {
    scope.IsRoot() || (ps != {} && scope.AllowsAll(ps))
  }

  predicate GroupInScope(g: Graph, scope: AdminScope, kind: Kind, id: Id) {
    FootprintInScope(scope, Footprint(g, kind, id))
  }

  predicate UserInScope(g: Graph, scope: AdminScope, u: Id) {
    || scope.IsRoot()
    || (scope.userType == Some(AdminUser)
        && (u == scope.user || (Find(g.users, u) != Some(RootUser) && AccessibleProjects(g, u) * scope.projects != {})))
  }

  // ----- requests -------------------------------------------------------------------

  datatype Rebind = KeepBinding | BlankBinding | BindTo(project: ProjectId)

  datatype Request =
    | CreateGroup(kind: Kind, id: Id, name: Name, project: Option<ProjectId>)
    | UpdateGroup(kind: Kind, id: Id, newName: Option<Name>, rebind: Rebind)
    | DeleteGroup(kind: Kind, id: Id)
    | AddProject(id: Id, p: ProjectId)
    | RemoveProject(id: Id, p: ProjectId)
    | GrantLink(id: Id, pg: Id)
    | RevokeLink(id: Id, pg: Id)
    | AddMembers(id: Id, users: seq<Id>)
    | RemoveMember(id: Id, user: Id)
    | BulkAssign(names: seq<Name>, users: seq<Id>)

  /** 403, the two 404s and the missing field. */
  datatype Refusal = Forbidden | GroupMissing | ProjectMissing | FieldMissing
  datatype Verdict = Granted(binding: Option<ProjectId>) | Refused(why: Refusal)

  function KindOf(r: Request): Kind {
    if r.CreateGroup? || r.UpdateGroup? || r.DeleteGroup? then r.kind
    else if r.AddProject? || r.RemoveProject? then ProjectKind else UserKind
  }

  function Groups(g: Graph, kind: Kind): map<Id, Group> {
    if kind == UserKind then g.userGroups else g.projectGroups
  }

  predicate Ordinary(scope: AdminScope, n: Name) {
    scope.IsRoot() || !IsAdminName(n)
  }

  predicate UsersInScope(g: Graph, scope: AdminScope, us: seq<Id>) {
    forall u | u in us && u in g.users :: UserInScope(g, scope, u)
  }

  /** The administrative project a new binding may name. */
  function ProjectBinding(g: Graph, scope: AdminScope, project: Option<ProjectId>): Verdict {
    if project.None? then if scope.IsRoot() then Granted(None) else Refused(FieldMissing)
    else if project.value !in g.projects then Refused(ProjectMissing)
    else if !scope.AllowsProject(project.value) then Refused(Forbidden)
    else Granted(project)
  }

  /** Every user group linked to the project group may be changed by the caller. */
  predicate LinkedGroupsAllowed(g: Graph, scope: AdminScope, pg: Id) {
    scope.IsRoot() || forall l | l in g.links && l.1 == pg && l.0 in g.userGroups ::
      Ordinary(scope, g.userGroups[l.0].name) && GroupInScope(g, scope, UserKind, l.0)
  }

  predicate Named(g: Graph, names: seq<Name>, ug: Id) {
    FindGroup(g.userGroups, ug).Some? && g.userGroups[ug].name in names
  }

  function RebindVerdict(g: Graph, scope: AdminScope, r: Rebind): Verdict {
    match r
    case KeepBinding => Granted(None)
    case BlankBinding => if scope.IsRoot() then Refused(FieldMissing) else Refused(Forbidden)
    case BindTo(p) => if scope.IsRoot() then ProjectBinding(g, scope, Some(p)) else Refused(Forbidden)
  }

  /** What the request touches beyond its own group. */
  function RelatedVerdict(g: Graph, scope: AdminScope, r: Request): Verdict {
    match r
    case UpdateGroup(_, _, _, rebind) => RebindVerdict(g, scope, rebind)
    case DeleteGroup(kind, id) =>
      if kind == ProjectKind && !LinkedGroupsAllowed(g, scope, id) then Refused(Forbidden) else Granted(None)
    case AddProject(id, p) =>
      if !LinkedGroupsAllowed(g, scope, id) || (p in g.projects && !scope.AllowsProject(p)) then Refused(Forbidden)
      else Granted(None)
    case RemoveProject(id, p) =>
      if !LinkedGroupsAllowed(g, scope, id) || (p in g.projects && !scope.AllowsProject(p)) then Refused(Forbidden)
      else Granted(None)
    case GrantLink(_, pg) =>
      if FindGroup(g.projectGroups, pg).Some? && !GroupInScope(g, scope, ProjectKind, pg) then Refused(Forbidden)
          else Granted(None)
    case RevokeLink(_, pg) =>
      if FindGroup(g.projectGroups, pg).Some? && !GroupInScope(g, scope, ProjectKind, pg) then Refused(Forbidden)
          else Granted(None)
    case AddMembers(_, us) => if UsersInScope(g, scope, us) then Granted(None) else Refused(Forbidden)
    case RemoveMember(_, u) => if UsersInScope(g, scope, [u]) then Granted(None) else Refused(Forbidden)
    case CreateGroup(_, _, _, _) => Granted(None)
    case BulkAssign(_, _) => Granted(None)
  }

  /** The preflight of a whole request, before its handler can write. */
  function Preflight(g: Graph, scope: AdminScope, r: Request): Verdict {
    if !scope.IsAdmin() then Refused(Forbidden)
    else if r.CreateGroup? then
      if r.kind == UserKind && !Ordinary(scope, r.name) then Refused(Forbidden) else ProjectBinding(g, scope, r.project)
    else if r.BulkAssign? then
      if (forall ug | ug in g.userGroups && Named(g, r.names, ug) ::
            Ordinary(scope, g.userGroups[ug].name) && GroupInScope(g, scope, UserKind, ug))
         && UsersInScope(g, scope, r.users)
      then Granted(None) else Refused(Forbidden)
    else
      var group := FindGroup(Groups(g, KindOf(r)), r.id);
      if group.None? then Refused(GroupMissing)
      else if KindOf(r) == UserKind
           && !(Ordinary(scope, group.value.name)
                && (r.UpdateGroup? && r.newName.Some? ==> Ordinary(scope, r.newName.value)))
      then Refused(Forbidden)
      else if !GroupInScope(g, scope, KindOf(r), r.id) then Refused(Forbidden)
      else RelatedVerdict(g, scope, r)
  }

  // ----- writes ---------------------------------------------------------------------

  function WithGroup(g: Graph, kind: Kind, id: Id, x: Group): Graph {
    if kind == UserKind then g.(userGroups := g.userGroups[id := x]) else g.(projectGroups := g.projectGroups[id := x])
  }

  /** The edit a granted request performs; unknown users, projects and targets are left out. */
  function Effect(g: Graph, r: Request, binding: Option<ProjectId>): Graph {
    match r
    case CreateGroup(kind, id, name, _) => WithGroup(g, kind, id, Group(name, true, binding))
    case UpdateGroup(kind, id, newName, rebind) =>
      if id !in Groups(g, kind) then g
      else
        var x := Groups(g, kind)[id];
        WithGroup(g, kind, id, x.(name := if newName.Some? then newName.value else x.name,
                                  binding := if rebind.BindTo? then binding else x.binding))
    case DeleteGroup(kind, id) =>
      if id !in Groups(g, kind) then g
      else
        var g' := WithGroup(g, kind, id, Groups(g, kind)[id].(active := false));
        if kind == UserKind then
          g'.(members := (set m | m in g.members && m.1 != id), links := (set l | l in g.links && l.0 != id))
        else
          g'.(contents := (set c | c in g.contents && c.0 != id), links := (set l | l in g.links && l.1 != id))
    case AddProject(id, p) => if p in g.projects then g.(contents := g.contents + {(id, p)}) else g
    case RemoveProject(id, p) => if p in g.projects then g.(contents := g.contents - {(id, p)}) else g
    case GrantLink(id, pg) => if FindGroup(g.projectGroups, pg).Some? then g.(links := g.links + {(id, pg)}) else g
    case RevokeLink(id, pg) => if FindGroup(g.projectGroups, pg).Some? then g.(links := g.links - {(id, pg)}) else g
    case AddMembers(id, us) => g.(members := g.members + set u | u in us && u in g.users :: (u, id))
    case RemoveMember(id, u) => g.(members := g.members - {(u, id)})
    case BulkAssign(names, us) =>
      g.(members := g.members + set u, ug | u in us && ug in g.userGroups && u in g.users && Named(g, names, ug) ::
         (u, ug))
  }

  /** New group ids are drawn fresh. */
  predicate Admissible(g: Graph, r: Request) {
    r.CreateGroup? ==> r.id !in Groups(g, r.kind)
  }

  /** One authorized write by user `u`, under the graph lock. */
  predicate Writes(g: Graph, u: Id, r: Request, g': Graph) {
    && Admissible(g, r)
    && var v := Preflight(g, ResolveScope(g, u), r);
    v.Granted? && g' == Effect(g, r, v.binding)
  }

  /** The projects whose API keys are invalidated after a granted request. */
  function AffectedProjects(g: Graph, r: Request): set<ProjectId> {
    if r.CreateGroup? then {}
    else if r.BulkAssign? then set ug, p | ug in g.userGroups && Named(g, r.names, ug) && p in UserFootprint(g, ug) :: p
    else
      Footprint(g, KindOf(r), r.id)
      + (if (r.GrantLink? || r.RevokeLink?) && FindGroup(g.projectGroups, r.pg).Some? then ProjectFootprint(g, r.pg)
         else {})
      + (if (r.AddProject? || r.RemoveProject?) && r.p in g.projects then {r.p} else {})
  }
}
