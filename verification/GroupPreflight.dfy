/** The preflight characterised both ways: what a request needs to be granted, and why it is refused. */
module GroupPreflight {
  import opened Prelude
  import opened GroupGraph
  import opened GroupTheorems

  // ----- names, footprints and scopes, spelled out ----------------------------------

  lemma AdminNames(n: Name)
    ensures IsAdminName(n) <==> exists rest: string :: n == "admin_" + rest
  {
    if IsAdminName(n) { assert n == "admin_" + n[6..]; }
  }

  predicate BoundTo(groups: map<Id, Group>, id: Id, p: ProjectId) {
    id in groups && groups[id].binding == Some(p)
  }

  lemma ProjectFootprintIs(g: Graph, pg: Id, p: ProjectId)
    ensures p in ProjectFootprint(g, pg) <==> BoundTo(g.projectGroups, pg, p) || (pg, p) in g.contents
  {
    if (pg, p) in g.contents {
      var c := (pg, p);
      assert c in g.contents && c.0 == pg && c.1 == p;
    }
  }

  /** A user group reaches its own project and, through its links, what project groups are bound to
      or contain; whether any of them is active does not matter. */
  lemma UserFootprintReaches(g: Graph, ug: Id, p: ProjectId)
    ensures p in UserFootprint(g, ug) <==>
              || BoundTo(g.userGroups, ug, p)
              || exists pg :: (ug, pg) in g.links && (BoundTo(g.projectGroups, pg, p) || (pg, p) in g.contents)
  {
    UserFootprintIs(g, ug, p);
    forall pg: Id ensures p in ProjectFootprint(g, pg) <==> BoundTo(g.projectGroups, pg, p) || (pg, p) in g.contents {
      ProjectFootprintIs(g, pg, p);
    }
  }

  /** A user accesses a project exactly along some path of active edges and groups. */
  lemma AccessIsByPath(g: Graph, u: Id, p: ProjectId)
    ensures p in AccessibleProjects(g, u) <==> exists ug, pg :: Chain(g, u, ug, pg, p)
  {
    if p in AccessibleProjects(g, u) {
      var ug, pg := AccessHasPath(g, u, p);
    }
    if ug, pg :| Chain(g, u, ug, pg, p) { PathIsAccess(g, u, ug, pg, p); }
  }

  /** A caller administers a project exactly if they are an admin user assigned to it: a member of its
      `admin_` group with a path to it. */
  lemma ResolvedProjectsAre(g: Graph, u: Id, p: ProjectId)
    ensures ResolveScope(g, u).user == u && ResolveScope(g, u).userType == Find(g.users, u)
    ensures p in ResolveScope(g, u).projects <==>
              Find(g.users, u) == Some(AdminUser) && exists ug, pg :: AssignedVia(g, u, ug, pg, p)
  {
    if p in AssignedProjects(g, u) {
      var ug, pg := AssignedHasPath(g, u, p);
    }
    if ug, pg :| AssignedVia(g, u, ug, pg, p) { PathIsAssigned(g, u, ug, pg, p); }
  }

  // ----- users a project admin may name ---------------------------------------------

  /** The caller, or a user who is not root and reaches one of the caller's projects. */
  ghost predicate MayName(g: Graph, scope: AdminScope, u: Id) {
    || u == scope.user
    || (Find(g.users, u) != Some(RootUser) && exists ug, pg, p :: Chain(g, u, ug, pg, p) && p in scope.projects)
  }

  lemma ReachingHasPath(g: Graph, scope: AdminScope, u: Id)
    requires AccessibleProjects(g, u) * scope.projects != {}
    ensures exists ug, pg, p :: Chain(g, u, ug, pg, p) && p in scope.projects
  {
    var p :| p in AccessibleProjects(g, u) && p in scope.projects;
    var ug, pg := AccessHasPath(g, u, p);
  }

  lemma ReachingMeansPath(g: Graph, scope: AdminScope, u: Id)
    ensures AccessibleProjects(g, u) * scope.projects != {} <==>
              exists ug, pg, p :: Chain(g, u, ug, pg, p) && p in scope.projects
  {
    if AccessibleProjects(g, u) * scope.projects != {} { ReachingHasPath(g, scope, u); }
    if ug, pg, p :| Chain(g, u, ug, pg, p) && p in scope.projects {
      PathIsAccess(g, u, ug, pg, p);
      assert p in AccessibleProjects(g, u) * scope.projects;
    }
  }

  lemma UserInScopeMeans(g: Graph, scope: AdminScope, u: Id)
    requires scope.userType == Some(AdminUser)
    ensures UserInScope(g, scope, u) <==> MayName(g, scope, u)
  {
    ReachingMeansPath(g, scope, u);
  }

  ghost predicate MayNameAll(g: Graph, scope: AdminScope, us: seq<Id>) {
    forall u | u in us && u in g.users :: MayName(g, scope, u)
  }

  lemma UsersInScopeMeans(g: Graph, scope: AdminScope, us: seq<Id>)
    requires scope.userType == Some(AdminUser)
    ensures UsersInScope(g, scope, us) <==> MayNameAll(g, scope, us)
  {
    forall u | u in us && u in g.users ensures UserInScope(g, scope, u) <==> MayName(g, scope, u) {
      UserInScopeMeans(g, scope, u);
    }
  }

  // ----- what a project admin may do ------------------------------------------------

  lemma OwnIsInScope(g: Graph, scope: AdminScope, kind: Kind, id: Id)
    requires scope.userType == Some(AdminUser)
    ensures GroupInScope(g, scope, kind, id) <==>
              Footprint(g, kind, id) != {} && Footprint(g, kind, id) <= scope.projects
  {
    if Footprint(g, kind, id) <= scope.projects {
      assert forall p | p in Footprint(g, kind, id) :: scope.AllowsProject(p);
    }
    if GroupInScope(g, scope, kind, id) { InScopeIsOwn(g, scope, kind, id); }
  }

  lemma LinkedMeansOwn(g: Graph, scope: AdminScope, pg: Id)
    requires WellFormed(g) && scope.userType == Some(AdminUser)
    ensures LinkedGroupsAllowed(g, scope, pg) <==> OwnLinked(g, scope, pg)
  {
    if LinkedGroupsAllowed(g, scope, pg) { LinkedAreOwn(g, scope, pg); }
    if OwnLinked(g, scope, pg) {
      forall l | l in g.links && l.1 == pg && l.0 in g.userGroups
        ensures Ordinary(scope, g.userGroups[l.0].name) && GroupInScope(g, scope, UserKind, l.0)
      {
        assert (l.0, pg) == l;
        OwnIsInScope(g, scope, UserKind, l.0);
      }
    }
  }

  /** The requirements on the group itself: active, ordinary under both names, inside the projects. */
  ghost predicate OwnGroup(g: Graph, scope: AdminScope, r: Request)
    requires !r.CreateGroup? && !r.BulkAssign?
  {
    && Own(g, scope, KindOf(r), r.id)
    && (r.UpdateGroup? && r.kind == UserKind && r.newName.Some? ==> !IsAdminName(r.newName.value))
  }

  /** The requirements on everything else the request names. */
  ghost predicate OwnRest(g: Graph, scope: AdminScope, r: Request) {
    match r
    case CreateGroup(_, _, _, _) => true
    case BulkAssign(_, _) => true
    case UpdateGroup(_, _, _, rebind) => rebind.KeepBinding?
    case DeleteGroup(kind, id) => kind == ProjectKind ==> OwnLinked(g, scope, id)
    case AddProject(id, p) => OwnLinked(g, scope, id) && (p in g.projects ==> p in scope.projects)
    case RemoveProject(id, p) => OwnLinked(g, scope, id) && (p in g.projects ==> p in scope.projects)
    case GrantLink(_, pg) => FindGroup(g.projectGroups, pg).Some? ==> Own(g, scope, ProjectKind, pg)
    case RevokeLink(_, pg) => FindGroup(g.projectGroups, pg).Some? ==> Own(g, scope, ProjectKind, pg)
    case AddMembers(_, us) => MayNameAll(g, scope, us)
    case RemoveMember(_, u) => MayNameAll(g, scope, [u])
  }

  /** All that a project admin needs for a request. */
  ghost predicate MayDo(g: Graph, scope: AdminScope, r: Request) {
    match r
    case CreateGroup(kind, _, name, project) =>
      && (kind == UserKind ==> !IsAdminName(name))
      && project.Some? && project.value in g.projects && project.value in scope.projects
    case BulkAssign(names, us) =>
      (forall ug | Named(g, names, ug) :: Own(g, scope, UserKind, ug)) && MayNameAll(g, scope, us)
    case _ => OwnGroup(g, scope, r) && OwnRest(g, scope, r)
  }

  lemma RestExactly(g: Graph, scope: AdminScope, r: Request)
    requires WellFormed(g) && scope.userType == Some(AdminUser) && !r.CreateGroup? && !r.BulkAssign?
    ensures RelatedVerdict(g, scope, r) == (if OwnRest(g, scope, r) then Granted(None) else Refused(Forbidden))
  {
    if r.DeleteGroup? || r.AddProject? || r.RemoveProject? { LinkedMeansOwn(g, scope, r.id); }
    if r.GrantLink? || r.RevokeLink? { OwnIsInScope(g, scope, ProjectKind, r.pg); }
    if r.AddMembers? { UsersInScopeMeans(g, scope, r.users); }
    if r.RemoveMember? { UsersInScopeMeans(g, scope, [r.user]); }
  }

  lemma NamedExactly(g: Graph, scope: AdminScope, names: seq<Name>)
    requires scope.userType == Some(AdminUser)
    ensures (forall ug | ug in g.userGroups && Named(g, names, ug) ::
               Ordinary(scope, g.userGroups[ug].name) && GroupInScope(g, scope, UserKind, ug)) <==>
            (forall ug | Named(g, names, ug) :: Own(g, scope, UserKind, ug))
  {
    forall ug ensures GroupInScope(g, scope, UserKind, ug) <==>
                        UserFootprint(g, ug) != {} && UserFootprint(g, ug) <= scope.projects {
      OwnIsInScope(g, scope, UserKind, ug);
    }
  }

  /** For a project admin: a request is granted exactly if the admin may do it, with the requested
      project as the binding of a new group; one that is refused is told what was missing, the group,
      the project or the field, and otherwise forbidden. */
  lemma GrantedExactlyWhen(g: Graph, scope: AdminScope, r: Request)
    requires WellFormed(g) && scope.userType == Some(AdminUser)
    ensures Preflight(g, scope, r) ==
              if MayDo(g, scope, r) then Granted(if r.CreateGroup? then r.project else None)
              else Refused(ReasonFor(g, scope, r))
  {
    if r.BulkAssign? {
      NamedExactly(g, scope, r.names);
      UsersInScopeMeans(g, scope, r.users);
    } else if !r.CreateGroup? {
      OwnIsInScope(g, scope, KindOf(r), r.id);
      RestExactly(g, scope, r);
    }
  }

  /** Why a project admin is refused. */
  function ReasonFor(g: Graph, scope: AdminScope, r: Request): Refusal {
    match r
    case CreateGroup(kind, _, name, project) =>
      if kind == UserKind && IsAdminName(name) then Forbidden
      else if project.None? then FieldMissing
      else if project.value !in g.projects then ProjectMissing
      else Forbidden
    case BulkAssign(_, _) => Forbidden
    case _ => if FindGroup(Groups(g, KindOf(r)), r.id).None? then GroupMissing else Forbidden
  }

  /** Naming a known user one may not name is forbidden, however fit the group. */
  lemma UnreachedUserIsForbidden(g: Graph, scope: AdminScope, r: Request, u: Id)
    requires WellFormed(g) && scope.userType == Some(AdminUser) && u in g.users && !MayName(g, scope, u)
    requires || (r.AddMembers? && u in r.users) || (r.RemoveMember? && u == r.user) || (r.BulkAssign? && u in r.users)
    requires !r.BulkAssign? ==> OwnGroup(g, scope, r)
    ensures Preflight(g, scope, r) == Refused(Forbidden)
  {
    GrantedExactlyWhen(g, scope, r);
  }

  // ----- everybody else -------------------------------------------------------------

  /** Root is refused nothing but what is not there: the group, a project, or the new binding. */
  lemma RootGrantedExactlyWhen(g: Graph, scope: AdminScope, r: Request)
    requires scope.IsRoot()
    ensures var project := if r.CreateGroup? then r.project
                           else if r.UpdateGroup? && r.rebind.BindTo? then Some(r.rebind.project) else None;
            Preflight(g, scope, r) ==
              if !r.CreateGroup? && !r.BulkAssign? && FindGroup(Groups(g, KindOf(r)), r.id).None?
              then Refused(GroupMissing)
              else if r.UpdateGroup? && r.rebind.BlankBinding? then Refused(FieldMissing)
              else if project.Some? && project.value !in g.projects then Refused(ProjectMissing)
              else Granted(project)
  {
  }

  /** Anyone who is neither root nor admin is forbidden everything. */
  lemma OthersAreForbidden(g: Graph, scope: AdminScope, r: Request)
    requires scope.userType != Some(RootUser) && scope.userType != Some(AdminUser)
    ensures Preflight(g, scope, r) == Refused(Forbidden)
  {
  }
}
