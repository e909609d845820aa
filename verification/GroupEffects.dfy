/** What a granted write does: the graph afterwards, edge by edge, and what users gain and lose. */
module GroupEffects {
  import opened Prelude
  import opened GroupGraph
  import opened GroupTheorems
  import opened GroupPreflight

  // ----- membership -----------------------------------------------------------------

  /** A removed member is out; every other membership, and all else, is as before. */
  lemma RemoveMemberRemoves(g: Graph, c: Id, id: Id, user: Id, g': Graph)
    requires Writes(g, c, RemoveMember(id, user), g')
    ensures forall m :: m in g'.members <==> m in g.members && m != (user, id)
    ensures g' == g.(members := g'.members)
  {
  }

  /** All known users named are in; nobody else came or went. */
  lemma AddMembersAdds(g: Graph, c: Id, id: Id, us: seq<Id>, g': Graph)
    requires Writes(g, c, AddMembers(id, us), g')
    ensures forall m :: m in g'.members <==> m in g.members || (m.0 in us && m.0 in g.users && m.1 == id)
    ensures g' == g.(members := g'.members)
  {
  }

  /** All known users named are in all groups named; nobody else came or went. */
  lemma BulkAssignAdds(g: Graph, c: Id, names: seq<Name>, us: seq<Id>, g': Graph)
    requires Writes(g, c, BulkAssign(names, us), g')
    ensures forall m :: m in g'.members <==>
                          m in g.members
                          || (m.0 in us && m.0 in g.users && m.1 in g.userGroups && g.userGroups[m.1].active
                              && g.userGroups[m.1].name in names)
    ensures g' == g.(members := g'.members)
  {
  }

  // ----- links and contents ---------------------------------------------------------

  predicate ActiveProjectGroup(g: Graph, pg: Id) {
    pg in g.projectGroups && g.projectGroups[pg].active
  }

  lemma GrantLinkLinks(g: Graph, c: Id, id: Id, pg: Id, g': Graph)
    requires Writes(g, c, GrantLink(id, pg), g')
    ensures forall l :: l in g'.links <==> l in g.links || (l == (id, pg) && ActiveProjectGroup(g, pg))
    ensures g' == g.(links := g'.links)
  {
  }

  lemma RevokeLinkUnlinks(g: Graph, c: Id, id: Id, pg: Id, g': Graph)
    requires Writes(g, c, RevokeLink(id, pg), g')
    ensures forall l :: l in g'.links <==> l in g.links && !(l == (id, pg) && ActiveProjectGroup(g, pg))
    ensures g' == g.(links := g'.links)
  {
  }

  lemma AddProjectAdds(g: Graph, c: Id, id: Id, p: ProjectId, g': Graph)
    requires Writes(g, c, AddProject(id, p), g')
    ensures forall x :: x in g'.contents <==> x in g.contents || (x == (id, p) && p in g.projects)
    ensures g' == g.(contents := g'.contents)
  {
  }

  lemma RemoveProjectRemoves(g: Graph, c: Id, id: Id, p: ProjectId, g': Graph)
    requires Writes(g, c, RemoveProject(id, p), g')
    ensures forall x :: x in g'.contents <==> x in g.contents && !(x == (id, p) && p in g.projects)
    ensures g' == g.(contents := g'.contents)
  {
  }

  // ----- groups ---------------------------------------------------------------------

  /** Every group of this kind but one, and every group of the other kind, is as before. */
  predicate OnlyGroup(g: Graph, g': Graph, kind: Kind, id: Id) {
    && g'.users == g.users && g'.projects == g.projects
    && (if kind == UserKind then g'.projectGroups == g.projectGroups else g'.userGroups == g.userGroups)
    && Groups(g', kind).Keys == Groups(g, kind).Keys + {id}
    && forall x | x in Groups(g, kind) && x != id :: Groups(g', kind)[x] == Groups(g, kind)[x]
  }

  predicate SameEdges(g: Graph, g': Graph) {
    g'.members == g.members && g'.links == g.links && g'.contents == g.contents
  }

  /** A new group is active, has the requested name, is bound to the requested project and has no edge. */
  lemma CreateGroupCreates(g: Graph, c: Id, kind: Kind, id: Id, name: Name, project: Option<ProjectId>, g': Graph)
    requires Writes(g, c, CreateGroup(kind, id, name, project), g')
    ensures OnlyGroup(g, g', kind, id) && SameEdges(g, g')
    ensures Groups(g', kind)[id] == Group(name, true, project)
  {
    GrantedBinding(g, c, CreateGroup(kind, id, name, project));
  }

  /** An updated group has the requested name and binding, or keeps what was not requested. */
  lemma UpdateGroupUpdates(g: Graph, c: Id, kind: Kind, id: Id, newName: Option<Name>, rebind: Rebind, g': Graph)
    requires Writes(g, c, UpdateGroup(kind, id, newName, rebind), g')
    ensures id in Groups(g, kind) && OnlyGroup(g, g', kind, id) && SameEdges(g, g')
    ensures var x, y := Groups(g, kind)[id], Groups(g', kind)[id];
            && y.active == x.active && y.name == (if newName.Some? then newName.value else x.name)
            && y.binding == (if rebind.BindTo? then Some(rebind.project) else x.binding)
  {
    GrantedBinding(g, c, UpdateGroup(kind, id, newName, rebind));
  }

  lemma GrantedBinding(g: Graph, c: Id, r: Request)
    requires Preflight(g, ResolveScope(g, c), r).Granted?
    ensures r.CreateGroup? ==> Preflight(g, ResolveScope(g, c), r).binding == r.project
    ensures r.UpdateGroup? && r.rebind.BindTo? ==> Preflight(g, ResolveScope(g, c), r).binding == Some(r.rebind.project)
    ensures r.UpdateGroup? ==> r.id in Groups(g, r.kind)
  {
  }

  /** A deleted user group is inactive and loses exactly its members and links. */
  lemma DeleteUserGroupDeletes(g: Graph, c: Id, id: Id, g': Graph)
    requires Writes(g, c, DeleteGroup(UserKind, id), g')
    ensures id in g.userGroups && OnlyGroup(g, g', UserKind, id)
    ensures g'.userGroups[id] == g.userGroups[id].(active := false)
    ensures forall m :: m in g'.members <==> m in g.members && m.1 != id
    ensures forall l :: l in g'.links <==> l in g.links && l.0 != id
    ensures g'.contents == g.contents
  {
  }

  /** A deleted project group is inactive and loses exactly its contents and links. */
  lemma DeleteProjectGroupDeletes(g: Graph, c: Id, id: Id, g': Graph)
    requires Writes(g, c, DeleteGroup(ProjectKind, id), g')
    ensures id in g.projectGroups && OnlyGroup(g, g', ProjectKind, id)
    ensures g'.projectGroups[id] == g.projectGroups[id].(active := false)
    ensures forall x :: x in g'.contents <==> x in g.contents && x.0 != id
    ensures forall l :: l in g'.links <==> l in g.links && l.1 != id
    ensures g'.members == g.members
  {
  }

  // ----- access ---------------------------------------------------------------------

  /** From a member of `ug` on: the link, the project group, its content. */
  predicate Leads(g: Graph, ug: Id, pg: Id, p: ProjectId) {
    && FindGroup(g.userGroups, ug).Some? && (ug, pg) in g.links
    && FindGroup(g.projectGroups, pg).Some? && (pg, p) in g.contents && Available(g, p)
  }

  /** The paths after a granted request, in terms of those before. */
  predicate PathAfter(g: Graph, r: Request, v: Id, ug: Id, pg: Id, p: ProjectId) {
    match r
    case CreateGroup(_, _, _, _) => Chain(g, v, ug, pg, p)
    case UpdateGroup(_, _, _, _) => Chain(g, v, ug, pg, p)
    case DeleteGroup(kind, id) => Chain(g, v, ug, pg, p) && id != (if kind == UserKind then ug else pg)
    case RemoveProject(id, q) => Chain(g, v, ug, pg, p) && !(id == pg && q == p)
    case RevokeLink(id, x) => Chain(g, v, ug, pg, p) && !(id == ug && x == pg)
    case RemoveMember(id, u) => Chain(g, v, ug, pg, p) && !(id == ug && u == v)
    case AddProject(id, q) =>
      || Chain(g, v, ug, pg, p)
      || (id == pg && q == p && (v, ug) in g.members && FindGroup(g.userGroups, ug).Some? && (ug, pg) in g.links
          && FindGroup(g.projectGroups, pg).Some? && Available(g, p))
    case GrantLink(id, x) =>
      || Chain(g, v, ug, pg, p)
      || (id == ug && x == pg && (v, ug) in g.members && FindGroup(g.userGroups, ug).Some?
          && FindGroup(g.projectGroups, pg).Some? && (pg, p) in g.contents && Available(g, p))
    case AddMembers(id, us) => Chain(g, v, ug, pg, p) || (id == ug && v in us && v in g.users && Leads(g, ug, pg, p))
    case BulkAssign(names, us) =>
      Chain(g, v, ug, pg, p) || (Named(g, names, ug) && v in us && v in g.users && Leads(g, ug, pg, p))
  }

  lemma EffectPaths(g: Graph, r: Request, binding: Option<ProjectId>, v: Id, ug: Id, pg: Id, p: ProjectId)
    requires WellFormed(g) && Admissible(g, r)
    ensures Chain(Effect(g, r, binding), v, ug, pg, p) <==> PathAfter(g, r, v, ug, pg, p)
  {
  }

  lemma PathsAfter(g: Graph, r: Request, binding: Option<ProjectId>, g': Graph, v: Id, p: ProjectId)
    requires WellFormed(g) && Admissible(g, r) && g' == Effect(g, r, binding)
    ensures (exists ug, pg :: Chain(g', v, ug, pg, p)) <==> exists ug, pg :: PathAfter(g, r, v, ug, pg, p)
  {
    forall ug, pg ensures Chain(g', v, ug, pg, p) <==> PathAfter(g, r, v, ug, pg, p) {
      EffectPaths(g, r, binding, v, ug, pg, p);
    }
  }

  /** Access after any granted request: a user reaches exactly the projects of the paths that were
      there, less those the request cuts and with those it completes.  So a member who is removed
      loses every project reached through that group alone, and keeps the others. */
  lemma AccessAfter(g: Graph, c: Id, r: Request, g': Graph, v: Id, p: ProjectId)
    requires WellFormed(g) && Writes(g, c, r, g')
    ensures p in AccessibleProjects(g', v) <==> exists ug, pg :: PathAfter(g, r, v, ug, pg, p)
  {
    var binding := Preflight(g, ResolveScope(g, c), r).binding;
    PathsAfter(g, r, binding, g', v, p);
    AccessIsByPath(g', v, p);
  }
}
