/** What authorized writes can and cannot change in the group graph, one at a time and over runs. */
module GroupTheorems {
  import opened Prelude
  import opened GroupGraph

  // ----- well-formedness ------------------------------------------------------------

  lemma WritesKeepWellFormed(g: Graph, u: Id, r: Request, g': Graph)
    requires WellFormed(g) && Writes(g, u, r, g')
    ensures WellFormed(g')
  {
    if !r.CreateGroup? && !r.BulkAssign? { GrantFindsGroup(g, ResolveScope(g, u), r); }
    EffectKeepsWellFormed(g, r, Preflight(g, ResolveScope(g, u), r).binding);
  }

  lemma GrantFindsGroup(g: Graph, scope: AdminScope, r: Request)
    requires Preflight(g, scope, r).Granted? && !r.CreateGroup? && !r.BulkAssign?
    ensures r.id in Groups(g, KindOf(r))
  {
  }

  lemma EffectKeepsWellFormed(g: Graph, r: Request, binding: Option<ProjectId>)
    requires WellFormed(g) && (!r.CreateGroup? && !r.BulkAssign? ==> r.id in Groups(g, KindOf(r)))
    ensures WellFormed(Effect(g, r, binding))
  {
  }

  // ----- confinement ----------------------------------------------------------------

  /** A project group's footprint depends on its binding and its contents only. */
  lemma SameProjectFootprint(g: Graph, g': Graph, pg: Id)
    requires Bound(g'.projectGroups, pg) == Bound(g.projectGroups, pg)
    requires forall p :: (pg, p) in g'.contents <==> (pg, p) in g.contents
    ensures ProjectFootprint(g', pg) == ProjectFootprint(g, pg)
  {
    assert forall c | c in g'.contents && c.0 == pg :: c == (pg, c.1) && c in g.contents;
    assert forall c | c in g.contents && c.0 == pg :: c == (pg, c.1) && c in g'.contents;
  }

  /** The three selects say: the own binding and the footprints of the linked project groups. */
  lemma UserFootprintIs(g: Graph, ug: Id, p: ProjectId)
    ensures p in UserFootprint(g, ug) <==>
              p in Bound(g.userGroups, ug) || exists pg :: (ug, pg) in g.links && p in ProjectFootprint(g, pg)
  {
    if p in UserFootprint(g, ug) && p !in Bound(g.userGroups, ug) {
      if l, c :| l in g.links && c in g.contents && l.0 == ug && c.0 == l.1 && c.1 == p {
        assert l == (ug, l.1) && p in ProjectFootprint(g, l.1);
      } else {
        var l :| l in g.links && l.0 == ug && p in Bound(g.projectGroups, l.1);
        assert l == (ug, l.1) && p in ProjectFootprint(g, l.1);
      }
    }
    if pg :| (ug, pg) in g.links && p in ProjectFootprint(g, pg) {
      var l := (ug, pg);
      if p !in Bound(g.projectGroups, pg) {
        var c :| c in g.contents && c.0 == pg && c.1 == p;
        assert l in g.links && l.0 == ug && c.0 == l.1;
      } else {
        assert l in g.links && l.0 == ug && p in Bound(g.projectGroups, l.1);
      }
    }
  }

  /** A user group keeps its footprint if its binding, its links and what they lead to stay. */
  lemma SameUserFootprint(g: Graph, g': Graph, ug: Id)
    requires Bound(g'.userGroups, ug) == Bound(g.userGroups, ug)
    requires forall pg :: (ug, pg) in g'.links <==> (ug, pg) in g.links
    requires forall pg | (ug, pg) in g.links :: ProjectFootprint(g', pg) == ProjectFootprint(g, pg)
    ensures UserFootprint(g', ug) == UserFootprint(g, ug)
  {
    forall p ensures p in UserFootprint(g', ug) <==> p in UserFootprint(g, ug) {
      UserFootprintIs(g, ug, p);
      UserFootprintIs(g', ug, p);
    }
  }

  /** The user group's links lead only into the given projects, and so does its binding. */
  lemma InsideWhenPartsAre(g: Graph, ug: Id, ps: set<ProjectId>)
    requires Bound(g.userGroups, ug) <= ps
    requires forall pg | (ug, pg) in g.links :: ProjectFootprint(g, pg) <= ps
    ensures UserFootprint(g, ug) <= ps
  {
    forall p | p in UserFootprint(g, ug) ensures p in ps {
      UserFootprintIs(g, ug, p);
    }
  }

  lemma PartsAreInside(g: Graph, ug: Id, pg: Id)
    ensures Bound(g.userGroups, ug) <= UserFootprint(g, ug)
    ensures (ug, pg) in g.links ==> ProjectFootprint(g, pg) <= UserFootprint(g, ug)
  {
    if (ug, pg) in g.links {
      forall p | p in ProjectFootprint(g, pg) ensures p in UserFootprint(g, ug) {
        UserFootprintIs(g, ug, p);
      }
    }
  }

  /** An existing group a project admin may write to. */
  predicate Own(g: Graph, scope: AdminScope, kind: Kind, id: Id) {
    && FindGroup(Groups(g, kind), id).Some?
    && (kind == UserKind ==> !IsAdminName(g.userGroups[id].name))
    && Footprint(g, kind, id) != {} && Footprint(g, kind, id) <= scope.projects
  }

  /** All user groups linked to the project group are the caller's own, active or not. */
  ghost predicate OwnLinked(g: Graph, scope: AdminScope, pg: Id) {
    forall ug | (ug, pg) in g.links ::
      && ug in g.userGroups && !IsAdminName(g.userGroups[ug].name)
      && UserFootprint(g, ug) != {} && UserFootprint(g, ug) <= scope.projects
  }

  /** What a project admin must own for each kind of write. */
  ghost predicate Permit(g: Graph, scope: AdminScope, r: Request, binding: Option<ProjectId>) {
    match r
    case CreateGroup(kind, id, name, _) =>
      (kind == UserKind ==> !IsAdminName(name)) && binding.Some? && binding.value in scope.projects
    case UpdateGroup(kind, id, newName, rebind) =>
      Own(g, scope, kind, id) && rebind.KeepBinding?
          && (kind == UserKind && newName.Some? ==> !IsAdminName(newName.value))
    case DeleteGroup(kind, id) => Own(g, scope, kind, id) && (kind == ProjectKind ==> OwnLinked(g, scope, id))
    case AddProject(id, p) => Own(g, scope, ProjectKind, id) && OwnLinked(g, scope, id)
        && (p in g.projects ==> p in scope.projects)
    case RemoveProject(id, p) => Own(g, scope, ProjectKind, id) && OwnLinked(g, scope, id)
    case GrantLink(id, pg) =>
      Own(g, scope, UserKind, id) && (FindGroup(g.projectGroups, pg).Some? ==> Own(g, scope, ProjectKind, pg))
    case RevokeLink(id, pg) => Own(g, scope, UserKind, id)
    case AddMembers(id, _) => Own(g, scope, UserKind, id)
    case RemoveMember(id, _) => Own(g, scope, UserKind, id)
    case BulkAssign(names, _) => forall ug | Named(g, names, ug) :: Own(g, scope, UserKind, ug)
  }

  lemma ScopeIsInside(scope: AdminScope, ps: set<ProjectId>)
    requires !scope.IsRoot() && scope.AllowsAll(ps)
    ensures ps <= scope.projects
  {
    forall p | p in ps ensures p in scope.projects {
      assert scope.AllowsProject(p);
    }
  }

  lemma InScopeIsOwn(g: Graph, scope: AdminScope, kind: Kind, id: Id)
    requires !scope.IsRoot() && GroupInScope(g, scope, kind, id)
    ensures Footprint(g, kind, id) != {} && Footprint(g, kind, id) <= scope.projects
  {
    ScopeIsInside(scope, Footprint(g, kind, id));
  }

  lemma LinkedAreOwn(g: Graph, scope: AdminScope, pg: Id)
    requires WellFormed(g) && !scope.IsRoot() && LinkedGroupsAllowed(g, scope, pg)
    ensures OwnLinked(g, scope, pg)
  {
    forall ug | (ug, pg) in g.links
      ensures ug in g.userGroups && !IsAdminName(g.userGroups[ug].name)
      ensures UserFootprint(g, ug) != {} && UserFootprint(g, ug) <= scope.projects
    {
      assert (ug, pg).1 == pg && (ug, pg).0 in g.userGroups;
      InScopeIsOwn(g, scope, UserKind, ug);
    }
  }

  lemma GrantMeansPermit(g: Graph, scope: AdminScope, r: Request)
    requires WellFormed(g) && !scope.IsRoot() && Preflight(g, scope, r).Granted?
    ensures Permit(g, scope, r, Preflight(g, scope, r).binding)
  {
    if r.BulkAssign? {
      forall ug | Named(g, r.names, ug) ensures Own(g, scope, UserKind, ug) {
        InScopeIsOwn(g, scope, UserKind, ug);
      }
    } else if !r.CreateGroup? {
      InScopeIsOwn(g, scope, KindOf(r), r.id);
      if r.GrantLink? && FindGroup(g.projectGroups, r.pg).Some? { InScopeIsOwn(g, scope, ProjectKind, r.pg); }
      if r.AddProject? || r.RemoveProject? || (r.DeleteGroup? && r.kind == ProjectKind) {
        LinkedAreOwn(g, scope, r.id);
      }
    }
  }

  /** Does the request rewrite the contents or binding of this project group? */
  predicate Rewrites(r: Request, pg: Id) {
    (r.AddProject? || r.RemoveProject? || ((r.DeleteGroup? || r.CreateGroup?) && r.kind == ProjectKind)) && r.id == pg
  }

  lemma OtherProjectGroupsStay(g: Graph, scope: AdminScope, r: Request, binding: Option<ProjectId>, pg: Id)
    requires Permit(g, scope, r, binding) && !Rewrites(r, pg)
    ensures ProjectFootprint(Effect(g, r, binding), pg) == ProjectFootprint(g, pg)
  {
    SameProjectFootprint(g, Effect(g, r, binding), pg);
  }

  lemma RewrittenStaysInside(g: Graph, scope: AdminScope, r: Request, binding: Option<ProjectId>, pg: Id)
    requires WellFormed(g) && Admissible(g, r) && Permit(g, scope, r, binding) && Rewrites(r, pg)
    ensures ProjectFootprint(Effect(g, r, binding), pg) <= scope.projects
  {
    var g' := Effect(g, r, binding);
    forall p | p in ProjectFootprint(g', pg) ensures p in scope.projects {
      if p !in Bound(g'.projectGroups, pg) {
        var c :| c in g'.contents && c.0 == pg && c.1 == p;
        assert c in g.contents ==> p in ProjectFootprint(g, pg);
      } else {
        assert !r.CreateGroup? ==> p in Bound(g.projectGroups, pg);
      }
    }
  }

  /** Does the request rewrite the links or binding of this user group? */
  predicate Relinks(r: Request, ug: Id) {
    (r.GrantLink? || r.RevokeLink? || ((r.DeleteGroup? || r.CreateGroup?) && r.kind == UserKind)) && r.id == ug
  }

  lemma UntouchedUserGroup(g: Graph, scope: AdminScope, r: Request, binding: Option<ProjectId>, ug: Id)
    requires Permit(g, scope, r, binding) && !Relinks(r, ug) && forall pg | (ug, pg) in g.links :: !Rewrites(r, pg)
    ensures UserFootprint(Effect(g, r, binding), ug) == UserFootprint(g, ug)
  {
    forall pg | (ug, pg) in g.links ensures ProjectFootprint(Effect(g, r, binding), pg) == ProjectFootprint(g, pg) {
      OtherProjectGroupsStay(g, scope, r, binding, pg);
    }
    SameUserFootprint(g, Effect(g, r, binding), ug);
  }

  lemma LinkedStaysInside(g: Graph, scope: AdminScope, r: Request, binding: Option<ProjectId>, ug: Id)
    requires WellFormed(g) && Admissible(g, r) && Permit(g, scope, r, binding)
    requires UserFootprint(g, ug) <= scope.projects && !(r.CreateGroup? && r.kind == UserKind && r.id == ug)
    ensures UserFootprint(Effect(g, r, binding), ug) <= scope.projects
  {
    var g' := Effect(g, r, binding);
    PartsAreInside(g, ug, 0);
    BindingsStay(g, scope, r, binding, ug);
    forall pg | (ug, pg) in g'.links ensures ProjectFootprint(g', pg) <= scope.projects {
      PartsAreInside(g, ug, pg);
      LinkStaysInside(g, scope, r, binding, ug, pg);
    }
    InsideWhenPartsAre(g', ug, scope.projects);
  }

  lemma BindingsStay(g: Graph, scope: AdminScope, r: Request, binding: Option<ProjectId>, ug: Id)
    requires Permit(g, scope, r, binding) && !(r.CreateGroup? && r.kind == UserKind && r.id == ug)
    ensures Bound(Effect(g, r, binding).userGroups, ug) == Bound(g.userGroups, ug)
  {
  }

  lemma LinkStaysInside(g: Graph, scope: AdminScope, r: Request, binding: Option<ProjectId>, ug: Id, pg: Id)
    requires WellFormed(g) && Admissible(g, r) && Permit(g, scope, r, binding)
               && (ug, pg) in Effect(g, r, binding).links
    requires (ug, pg) in g.links ==> ProjectFootprint(g, pg) <= scope.projects
    ensures ProjectFootprint(Effect(g, r, binding), pg) <= scope.projects
  {
    if Rewrites(r, pg) {
      RewrittenStaysInside(g, scope, r, binding, pg);
    } else {
      OtherProjectGroupsStay(g, scope, r, binding, pg);
      NewLinksAreOwn(g, scope, r, binding, ug, pg);
    }
  }

  lemma NewLinksAreOwn(g: Graph, scope: AdminScope, r: Request, binding: Option<ProjectId>, ug: Id, pg: Id)
    requires Permit(g, scope, r, binding) && (ug, pg) in Effect(g, r, binding).links
    ensures (ug, pg) in g.links || Own(g, scope, ProjectKind, pg)
  {
  }

  lemma NewUserGroupInside(g: Graph, scope: AdminScope, r: Request, binding: Option<ProjectId>)
    requires WellFormed(g) && Admissible(g, r) && Permit(g, scope, r, binding) && r.CreateGroup? && r.kind == UserKind
    ensures UserFootprint(Effect(g, r, binding), r.id) <= scope.projects
  {
    InsideWhenPartsAre(Effect(g, r, binding), r.id, scope.projects);
  }

  /** Who a write may touch: nothing changes, or the group is new, or it was the caller's own. */
  predicate Touches(g: Graph, scope: AdminScope, r: Request, g': Graph, kind: Kind, id: Id) {
    Footprint(g', kind, id) != Footprint(g, kind, id) ==>
      && ((r.CreateGroup? && r.kind == kind && r.id == id)
          || (Footprint(g, kind, id) != {} && Footprint(g, kind, id) <= scope.projects))
      && Footprint(g', kind, id) <= scope.projects
  }

  lemma ProjectGroupTouched(g: Graph, scope: AdminScope, r: Request, binding: Option<ProjectId>, pg: Id)
    requires WellFormed(g) && Admissible(g, r) && Permit(g, scope, r, binding)
    ensures Touches(g, scope, r, Effect(g, r, binding), ProjectKind, pg)
  {
    if Rewrites(r, pg) {
      RewrittenStaysInside(g, scope, r, binding, pg);
    } else {
      OtherProjectGroupsStay(g, scope, r, binding, pg);
    }
  }

  lemma UserGroupTouched(g: Graph, scope: AdminScope, r: Request, binding: Option<ProjectId>, ug: Id)
    requires WellFormed(g) && Admissible(g, r) && Permit(g, scope, r, binding)
    ensures Touches(g, scope, r, Effect(g, r, binding), UserKind, ug)
  {
    if r.CreateGroup? && r.kind == UserKind && r.id == ug {
      NewUserGroupInside(g, scope, r, binding);
    } else if Relinks(r, ug) {
      LinkedStaysInside(g, scope, r, binding, ug);
    } else if pg :| (ug, pg) in g.links && Rewrites(r, pg) {
      LinkedStaysInside(g, scope, r, binding, ug);
    } else {
      UntouchedUserGroup(g, scope, r, binding, ug);
    }
  }

  /** Confinement: a write by a caller who is not root changes the footprint only of a group it
      creates or of one whose footprint lay inside the caller's projects, and keeps it there. */
  lemma WritesAreConfined(g: Graph, u: Id, r: Request, g': Graph, kind: Kind, id: Id)
    requires WellFormed(g) && Writes(g, u, r, g') && !ResolveScope(g, u).IsRoot()
    ensures Touches(g, ResolveScope(g, u), r, g', kind, id)
  {
    var scope := ResolveScope(g, u);
    var binding := Preflight(g, scope, r).binding;
    GrantMeansPermit(g, scope, r);
    if kind == UserKind {
      UserGroupTouched(g, scope, r, binding, id);
    } else {
      ProjectGroupTouched(g, scope, r, binding, id);
    }
  }

  // ----- administrative assignments -------------------------------------------------

  predicate AdminGroup(g: Graph, ug: Id) {
    ug in g.userGroups && IsAdminName(g.userGroups[ug].name)
  }

  /** A project group some `admin_` group is linked to. */
  ghost predicate Assigning(g: Graph, pg: Id) {
    exists ug: Id :: AdminGroup(g, ug) && (ug, pg) in g.links
  }

  /** The same groups have `admin_` names, with the same members and links. */
  ghost predicate SameAdminGroups(g: Graph, g': Graph) {
    && (forall ug :: AdminGroup(g, ug) <==> AdminGroup(g', ug))
    && (forall ug | AdminGroup(g, ug) :: g'.userGroups[ug] == g.userGroups[ug])
    && (forall m: (Id, Id) | AdminGroup(g, m.1) :: m in g'.members <==> m in g.members)
    && (forall l: (Id, Id) | AdminGroup(g, l.0) :: l in g'.links <==> l in g.links)
  }

  /** Those links lead to the same projects. */
  ghost predicate SameReach(g: Graph, g': Graph) {
    && (forall c: (Id, ProjectId) | Assigning(g, c.0) :: c in g'.contents <==> c in g.contents)
    && (forall pg | Assigning(g, pg) :: FindGroup(g'.projectGroups, pg).Some? == FindGroup(g.projectGroups, pg).Some?)
  }

  /** Members, links and reachable projects of every `admin_` group are the same, and the same
      groups have such names. */
  ghost predicate SameAssignments(g: Graph, g': Graph) {
    g'.users == g.users && g'.projects == g.projects && SameAdminGroups(g, g') && SameReach(g, g')
  }

  lemma PermitKeepsAdminGroups(g: Graph, scope: AdminScope, r: Request, binding: Option<ProjectId>)
    requires Admissible(g, r) && Permit(g, scope, r, binding)
    ensures SameAdminGroups(g, Effect(g, r, binding))
  {
  }

  lemma PermitKeepsReach(g: Graph, scope: AdminScope, r: Request, binding: Option<ProjectId>)
    requires WellFormed(g) && Admissible(g, r) && Permit(g, scope, r, binding)
    ensures SameReach(g, Effect(g, r, binding))
  {
  }

  /** `u` administers `p` through this `admin_` group and project group. */
  predicate AssignedVia(g: Graph, u: Id, ug: Id, pg: Id, p: ProjectId) {
    Chain(g, u, ug, pg, p) && g.userGroups[ug].name == ADMIN_PREFIX + p
  }

  lemma AssignedHasPath(g: Graph, u: Id, p: ProjectId) returns (ug: Id, pg: Id)
    requires p in AssignedProjects(g, u)
    ensures AssignedVia(g, u, ug, pg, p)
  {
    var m, l, c :| m in g.members && l in g.links && c in g.contents && m.0 == u && m.1 == l.0 && l.1 == c.0
                   && Chain(g, u, l.0, l.1, c.1) && g.userGroups[l.0].name == ADMIN_PREFIX + c.1 && c.1 == p;
    ug, pg := l.0, l.1;
  }

  lemma PathIsAssigned(g: Graph, u: Id, ug: Id, pg: Id, p: ProjectId)
    requires AssignedVia(g, u, ug, pg, p)
    ensures p in AssignedProjects(g, u)
  {
    var m, l, c := (u, ug), (ug, pg), (pg, p);
    assert m in g.members && l in g.links && c in g.contents && m.0 == u && m.1 == l.0 && l.1 == c.0;
  }

  lemma PathSurvives(g: Graph, g': Graph, u: Id, ug: Id, pg: Id, p: ProjectId)
    requires SameAssignments(g, g') && AssignedVia(g, u, ug, pg, p)
    ensures AssignedVia(g', u, ug, pg, p)
  {
    assert AdminGroup(g, ug) && Assigning(g, pg);
    var m, l, c := (u, ug), (ug, pg), (pg, p);
    assert m.1 == ug && l.0 == ug && c.0 == pg;
  }

  lemma SameAssignmentsSameProjects(g: Graph, g': Graph, u: Id)
    requires SameAssignments(g, g')
    ensures AssignedProjects(g, u) <= AssignedProjects(g', u)
  {
    forall p | p in AssignedProjects(g, u) ensures p in AssignedProjects(g', u) {
      var ug, pg := AssignedHasPath(g, u, p);
      PathSurvives(g, g', u, ug, pg, p);
      PathIsAssigned(g', u, ug, pg, p);
    }
  }

  lemma SameAssignmentsBack(g: Graph, g': Graph)
    requires SameAssignments(g, g')
    ensures SameAssignments(g', g)
  {
    forall pg: Id ensures Assigning(g', pg) <==> Assigning(g, pg) {
      if ug: Id :| AdminGroup(g, ug) && (ug, pg) in g.links { assert (ug, pg) in g'.links; }
      if ug: Id :| AdminGroup(g', ug) && (ug, pg) in g'.links { assert AdminGroup(g, (ug, pg).0); }
    }
  }

  lemma SameAssignmentsSameScope(g: Graph, g': Graph, u: Id)
    requires SameAssignments(g, g')
    ensures ResolveScope(g', u) == ResolveScope(g, u)
  {
    SameAssignmentsSameProjects(g, g', u);
    SameAssignmentsBack(g, g');
    SameAssignmentsSameProjects(g', g, u);
  }

  /** No write by a caller who is not root changes any administrative assignment. */
  lemma WritesKeepAssignments(g: Graph, u: Id, r: Request, g': Graph)
    requires WellFormed(g) && Writes(g, u, r, g') && !ResolveScope(g, u).IsRoot()
    ensures SameAssignments(g, g')
    ensures forall v :: ResolveScope(g', v) == ResolveScope(g, v)
  {
    var scope := ResolveScope(g, u);
    var binding := Preflight(g, scope, r).binding;
    GrantMeansPermit(g, scope, r);
    PermitKeepsAdminGroups(g, scope, r, binding);
    PermitKeepsReach(g, scope, r, binding);
    EffectKeepsWorld(g, r, binding);
    forall v ensures ResolveScope(g', v) == ResolveScope(g, v) {
      SameAssignmentsSameScope(g, g', v);
    }
  }

  lemma EffectKeepsWorld(g: Graph, r: Request, binding: Option<ProjectId>)
    ensures Effect(g, r, binding).users == g.users && Effect(g, r, binding).projects == g.projects
  {
  }

  // ----- runs -----------------------------------------------------------------------

  datatype Act = Act(user: Id, request: Request)

  /** A sequence of authorized writes by callers who are not root. */
  ghost predicate AdminRun(g: Graph, acts: seq<Act>, h: Graph)
    decreases |acts|
  {
    if acts == [] then h == g
    else
      && !ResolveScope(g, acts[0].user).IsRoot()
      && exists g' :: Writes(g, acts[0].user, acts[0].request, g') && AdminRun(g', acts[1..], h)
  }

  lemma SameAssignmentsChain(g: Graph, g': Graph, h: Graph)
    requires SameAssignments(g, g') && SameAssignments(g', h)
    ensures SameAssignments(g, h)
  {
    forall pg: Id | Assigning(g, pg) ensures Assigning(g', pg) {
      var ug: Id :| AdminGroup(g, ug) && (ug, pg) in g.links;
      assert (ug, pg) in g'.links;
    }
  }

  /** Administrative assignments are invariant: whatever sequence of writes project admins get
      authorized, `admin_` groups keep their members, links and reachable projects, no group enters
      or leaves that name space, and nobody's administrative scope changes. */
  lemma {:induction false} RunsKeepAssignments(g: Graph, acts: seq<Act>, h: Graph)
    requires WellFormed(g) && AdminRun(g, acts, h)
    ensures WellFormed(h) && SameAssignments(g, h)
    ensures forall v :: ResolveScope(h, v) == ResolveScope(g, v)
    decreases |acts|
  {
    if acts != [] {
      var g' :| Writes(g, acts[0].user, acts[0].request, g') && AdminRun(g', acts[1..], h);
      WritesKeepWellFormed(g, acts[0].user, acts[0].request, g');
      WritesKeepAssignments(g, acts[0].user, acts[0].request, g');
      RunsKeepAssignments(g', acts[1..], h);
      SameAssignmentsChain(g, g', h);
    }
  }

  /** The caller could administer the group as it stands. */
  predicate Administers(g: Graph, u: Id, kind: Kind, id: Id) {
    Footprint(g, kind, id) != {} && Footprint(g, kind, id) <= ResolveScope(g, u).projects
  }

  /** A group none of the acting admins can administer keeps its footprint over the whole run. */
  lemma {:induction false} RunsSpareForeignGroups(g: Graph, acts: seq<Act>, h: Graph, kind: Kind, id: Id)
    requires WellFormed(g) && AdminRun(g, acts, h) && id in Groups(g, kind)
    requires forall a | a in acts :: !Administers(g, a.user, kind, id)
    ensures id in Groups(h, kind) && Footprint(h, kind, id) == Footprint(g, kind, id)
    decreases |acts|
  {
    if acts != [] {
      var u, r := acts[0].user, acts[0].request;
      var g' :| Writes(g, u, r, g') && AdminRun(g', acts[1..], h);
      WritesKeepWellFormed(g, u, r, g');
      WritesKeepAssignments(g, u, r, g');
      WritesAreConfined(g, u, r, g', kind, id);
      assert acts[0] in acts && !Administers(g, u, kind, id);
      EffectKeepsGroups(g, r, Preflight(g, ResolveScope(g, u), r).binding, kind, id);
      forall a | a in acts[1..] ensures !Administers(g', a.user, kind, id) {
        assert a in acts && ResolveScope(g', a.user) == ResolveScope(g, a.user);
      }
      RunsSpareForeignGroups(g', acts[1..], h, kind, id);
    }
  }

  lemma EffectKeepsGroups(g: Graph, r: Request, binding: Option<ProjectId>, kind: Kind, id: Id)
    requires id in Groups(g, kind)
    ensures id in Groups(Effect(g, r, binding), kind)
  {
  }

  /** No group, old or new, ends up reaching a project that it did not reach before and that is
      outside the scope of everyone who acted. */
  lemma {:induction false} RunsStayInScope(g: Graph, acts: seq<Act>, h: Graph, kind: Kind, id: Id, ps: set<ProjectId>)
    requires WellFormed(g) && AdminRun(g, acts, h) && Footprint(g, kind, id) <= ps
    requires forall a | a in acts :: ResolveScope(g, a.user).projects <= ps
    ensures Footprint(h, kind, id) <= ps
    decreases |acts|
  {
    if acts != [] {
      var u, r := acts[0].user, acts[0].request;
      var g' :| Writes(g, u, r, g') && AdminRun(g', acts[1..], h);
      WritesKeepWellFormed(g, u, r, g');
      WritesKeepAssignments(g, u, r, g');
      WritesAreConfined(g, u, r, g', kind, id);
      assert acts[0] in acts && ResolveScope(g, u).projects <= ps;
      forall a | a in acts[1..] ensures ResolveScope(g', a.user).projects <= ps {
        assert a in acts && ResolveScope(g', a.user) == ResolveScope(g, a.user);
      }
      RunsStayInScope(g', acts[1..], h, kind, id, ps);
    }
  }

  // ----- access changes are announced -----------------------------------------------

  lemma AccessHasPath(g: Graph, u: Id, p: ProjectId) returns (ug: Id, pg: Id)
    requires p in AccessibleProjects(g, u)
    ensures Chain(g, u, ug, pg, p)
  {
    var m, l, c :| m in g.members && l in g.links && c in g.contents && m.0 == u && m.1 == l.0 && l.1 == c.0
                   && Chain(g, u, l.0, l.1, c.1) && c.1 == p;
    ug, pg := l.0, l.1;
  }

  lemma PathIsAccess(g: Graph, u: Id, ug: Id, pg: Id, p: ProjectId)
    requires Chain(g, u, ug, pg, p)
    ensures p in AccessibleProjects(g, u)
  {
    var m, l, c := (u, ug), (ug, pg), (pg, p);
    assert m in g.members && l in g.links && c in g.contents && m.0 == u && m.1 == l.0 && l.1 == c.0;
  }

  lemma PathInFootprints(g: Graph, ug: Id, pg: Id, p: ProjectId)
    requires (pg, p) in g.contents
    ensures p in ProjectFootprint(g, pg)
    ensures (ug, pg) in g.links ==> p in UserFootprint(g, ug)
  {
    var c := (pg, p);
    assert c in g.contents && c.0 == pg;
    UserFootprintIs(g, ug, p);
  }

  lemma LostPathIsAffected(g: Graph, r: Request, binding: Option<ProjectId>, u: Id, ug: Id, pg: Id, p: ProjectId)
    requires Admissible(g, r) && Chain(g, u, ug, pg, p) && !Chain(Effect(g, r, binding), u, ug, pg, p)
    ensures p in AffectedProjects(g, r)
  {
    LossesCut(g, r, binding, u, ug, pg, p);
    PathInFootprints(g, ug, pg, p);
  }

  /** Which requests can cut a path, and where. */
  lemma LossesCut(g: Graph, r: Request, binding: Option<ProjectId>, u: Id, ug: Id, pg: Id, p: ProjectId)
    requires Admissible(g, r) && Chain(g, u, ug, pg, p) && !Chain(Effect(g, r, binding), u, ug, pg, p)
    ensures || (r.DeleteGroup? && r.id == (if r.kind == UserKind then ug else pg))
            || (r.RemoveProject? && r.p == p)
            || (r.RevokeLink? && r.id == ug)
            || (r.RemoveMember? && r.id == ug)
  {
  }

  lemma GainedPathIsAffected(g: Graph, r: Request, binding: Option<ProjectId>, u: Id, ug: Id, pg: Id, p: ProjectId)
    requires WellFormed(g) && Admissible(g, r) && !Chain(g, u, ug, pg, p) && Chain(Effect(g, r, binding), u, ug, pg, p)
    ensures p in AffectedProjects(g, r)
  {
    GainsJoin(g, r, binding, u, ug, pg, p);
    if (pg, p) in g.contents { PathInFootprints(g, ug, pg, p); }
  }

  /** Which requests can complete a path, and where. */
  lemma GainsJoin(g: Graph, r: Request, binding: Option<ProjectId>, u: Id, ug: Id, pg: Id, p: ProjectId)
    requires WellFormed(g) && Admissible(g, r) && !Chain(g, u, ug, pg, p) && Chain(Effect(g, r, binding), u, ug, pg, p)
    ensures || (r.AddProject? && r.p == p && p in g.projects)
            || (r.GrantLink? && r.pg == pg && FindGroup(g.projectGroups, pg).Some? && (pg, p) in g.contents)
            || (((r.AddMembers? && r.id == ug) || (r.BulkAssign? && Named(g, r.names, ug)))
                && (ug, pg) in g.links && (pg, p) in g.contents && ug in g.userGroups)
  {
  }

  /** Every change of a user's access, in either direction, is among the projects whose API keys the
      request invalidates; this holds for root callers too. */
  lemma AccessChangesAreAnnounced(g: Graph, caller: Id, r: Request, g': Graph, u: Id, p: ProjectId)
    requires WellFormed(g) && Writes(g, caller, r, g')
    requires (p in AccessibleProjects(g, u)) != (p in AccessibleProjects(g', u))
    ensures p in AffectedProjects(g, r)
  {
    var binding := Preflight(g, ResolveScope(g, caller), r).binding;
    if p in AccessibleProjects(g, u) {
      LostAccessIsAffected(g, r, binding, u, p);
    } else {
      GainedAccessIsAffected(g, r, binding, u, p);
    }
  }

  lemma LostAccessIsAffected(g: Graph, r: Request, binding: Option<ProjectId>, u: Id, p: ProjectId)
    requires Admissible(g, r) && p in AccessibleProjects(g, u) && p !in AccessibleProjects(Effect(g, r, binding), u)
    ensures p in AffectedProjects(g, r)
  {
    var ug, pg := AccessHasPath(g, u, p);
    if Chain(Effect(g, r, binding), u, ug, pg, p) { PathIsAccess(Effect(g, r, binding), u, ug, pg, p); }
    LostPathIsAffected(g, r, binding, u, ug, pg, p);
  }

  lemma GainedAccessIsAffected(g: Graph, r: Request, binding: Option<ProjectId>, u: Id, p: ProjectId)
    requires WellFormed(g) && Admissible(g, r)
    requires p !in AccessibleProjects(g, u) && p in AccessibleProjects(Effect(g, r, binding), u)
    ensures p in AffectedProjects(g, r)
  {
    var ug, pg := AccessHasPath(Effect(g, r, binding), u, p);
    if Chain(g, u, ug, pg, p) { PathIsAccess(g, u, ug, pg, p); }
    GainedPathIsAffected(g, r, binding, u, ug, pg, p);
  }
}
