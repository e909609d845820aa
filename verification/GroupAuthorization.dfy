/** The request-scoped authorizer: it walks the users and groups of a request, refuses at the first
    one out of scope, collects the affected projects, and performs a root rebinding itself. */
module GroupAuthorization {
  import opened Prelude
  import opened GroupGraph

  /** The unique key on group names. */
  predicate UniqueNames(g: Graph) {
    forall a, b | a in g.userGroups && b in g.userGroups && g.userGroups[a].name == g.userGroups[b].name :: a == b
  }

  /** The graph once a granted update has rebound its group. */
  function Rebound(g: Graph, r: Request, v: Verdict): Graph {
    if r.UpdateGroup? && r.rebind.BindTo? && v.Granted? && r.id in Groups(g, r.kind)
    then WithGroup(g, r.kind, r.id, Groups(g, r.kind)[r.id].(binding := v.binding))
    else g
  }

  /** Projects of the named groups among the first names of the list. */
  ghost function NamedProjects(g: Graph, names: seq<Name>): set<ProjectId> {
    set ug, p | ug in g.userGroups && Named(g, names, ug) && p in UserFootprint(g, ug) :: p
  }

  ghost predicate NamedAllowed(g: Graph, scope: AdminScope, names: seq<Name>) {
    forall ug | ug in g.userGroups && Named(g, names, ug) ::
      Ordinary(scope, g.userGroups[ug].name) && GroupInScope(g, scope, UserKind, ug)
  }

  lemma NoGroupNamed(g: Graph, scope: AdminScope, names: seq<Name>, n: Name)
    requires forall ug | ug in g.userGroups :: !(g.userGroups[ug].active && g.userGroups[ug].name == n)
    ensures NamedProjects(g, names + [n]) == NamedProjects(g, names)
    ensures NamedAllowed(g, scope, names + [n]) <==> NamedAllowed(g, scope, names)
  {
    assert forall ug | ug in g.userGroups :: Named(g, names + [n], ug) <==> Named(g, names, ug);
  }

  lemma OneGroupNamed(g: Graph, scope: AdminScope, names: seq<Name>, n: Name, ug: Id)
    requires UniqueNames(g) && ug in g.userGroups && g.userGroups[ug].active && g.userGroups[ug].name == n
    ensures NamedProjects(g, names + [n]) == NamedProjects(g, names) + UserFootprint(g, ug)
    ensures NamedAllowed(g, scope, names + [n]) <==>
              NamedAllowed(g, scope, names) && Ordinary(scope, n) && GroupInScope(g, scope, UserKind, ug)
  {
    assert forall x | x in g.userGroups :: Named(g, names + [n], x) <==> Named(g, names, x) || x == ug;
  }

  class Authorizer {
    const scope: AdminScope
    var graph: Graph
    var affected: set<ProjectId>

    constructor (scope: AdminScope, graph: Graph)
      ensures this.scope == scope && this.graph == graph && affected == {}
    {
      this.scope := scope;
      this.graph := graph;
      affected := {};
    }

    /** Unknown users are skipped; the first known one out of scope refuses the request. */
    method RequireUsers(us: seq<Id>) returns (ok: bool)
      ensures ok <==> UsersInScope(graph, scope, us)
    {
      for i := 0 to |us|
        invariant UsersInScope(graph, scope, us[..i])
      {
        assert us[..i + 1] == us[..i] + [us[i]];
        if us[i] in graph.users && !UserInScope(graph, scope, us[i]) { return false; }
      }
      assert us[..|us|] == us;
      return true;
    }

    method RequireGroup(kind: Kind, id: Id) returns (ok: bool)
      modifies this`affected
      ensures ok <==> GroupInScope(graph, scope, kind, id)
      ensures affected == if ok then old(affected) + Footprint(graph, kind, id) else old(affected)
    {
      ok := GroupInScope(graph, scope, kind, id);
      if ok { affected := affected + Footprint(graph, kind, id); }
    }

    /** The user groups linked to a project group, one by one. */
    method RequireLinkedGroups(pg: Id) returns (ok: bool)
      ensures ok <==> LinkedGroupsAllowed(graph, scope, pg)
    {
      if scope.IsRoot() { return true; }
      var todo := set l | l in graph.links && l.1 == pg && l.0 in graph.userGroups;
      while todo != {}
        invariant forall l | l in todo :: l in graph.links && l.1 == pg && l.0 in graph.userGroups
        invariant forall l | l in graph.links && l.1 == pg && l.0 in graph.userGroups && l !in todo ::
                    Ordinary(scope, graph.userGroups[l.0].name) && GroupInScope(graph, scope, UserKind, l.0)
        decreases todo
      {
        var l :| l in todo;
        if !Ordinary(scope, graph.userGroups[l.0].name) || !GroupInScope(graph, scope, UserKind, l.0) { return false; }
        todo := todo - {l};
      }
      return true;
    }

    /** The groups a bulk assignment names. */
    method RequireNamedGroups(names: seq<Name>) returns (ok: bool)
      requires UniqueNames(graph)
      modifies this`affected
      ensures ok <==> NamedAllowed(graph, scope, names)
      ensures ok ==> affected == old(affected) + NamedProjects(graph, names)
    {
      for i := 0 to |names|
        invariant NamedAllowed(graph, scope, names[..i])
        invariant affected == old(affected) + NamedProjects(graph, names[..i])
      {
        var n := names[i];
        assert names[..i + 1] == names[..i] + [n] && names == names[..i + 1] + names[i + 1..];
        if ug :| ug in graph.userGroups && graph.userGroups[ug].active && graph.userGroups[ug].name == n {
          OneGroupNamed(graph, scope, names[..i], n, ug);
          if !Ordinary(scope, n) {
            assert Named(graph, names, ug);
            return false;
          }
          var inside := RequireGroup(UserKind, ug);
          if !inside {
            assert Named(graph, names, ug);
            return false;
          }
        } else {
          NoGroupNamed(graph, scope, names[..i], n);
        }
      }
      assert names[..|names|] == names;
      return true;
    }

    /** The whole preflight.  It answers as the specification does, has collected exactly the
        affected projects when it grants, and writes nothing but a root rebinding. */
    method Authorize(r: Request) returns (v: Verdict)
      requires scope.IsAdmin() && UniqueNames(graph) && affected == {}
      modifies this
      ensures v == Preflight(old(graph), scope, r)
      ensures v.Granted? ==> affected == AffectedProjects(old(graph), r)
      ensures graph == Rebound(old(graph), r, v)
    {
      if r.CreateGroup? {
        if r.kind == UserKind && !Ordinary(scope, r.name) { return Refused(Forbidden); }
        return ProjectBinding(graph, scope, r.project);
      }
      if r.BulkAssign? {
        var groupsOk := RequireNamedGroups(r.names);
        if !groupsOk { return Refused(Forbidden); }
        var usersOk := RequireUsers(r.users);
        return if usersOk then Granted(None) else Refused(Forbidden);
      }
      v := AuthorizeGroup(r);
    }

    method AuthorizeGroup(r: Request) returns (v: Verdict)
      requires scope.IsAdmin() && affected == {} && !r.CreateGroup? && !r.BulkAssign?
      modifies this
      ensures v == Preflight(old(graph), scope, r)
      ensures v.Granted? ==> affected == AffectedProjects(old(graph), r)
      ensures graph == Rebound(old(graph), r, v)
    {
      var kind := KindOf(r);
      var group := FindGroup(Groups(graph, kind), r.id);
      if group.None? { return Refused(GroupMissing); }
      if kind == UserKind
         && (!Ordinary(scope, group.value.name)
             || (r.UpdateGroup? && r.newName.Some? && !Ordinary(scope, r.newName.value)))
      {
        return Refused(Forbidden);
      }
      var inside := RequireGroup(kind, r.id);
      if !inside { return Refused(Forbidden); }
      if kind == ProjectKind {
        var related := AuthorizeProjectRelationship(r);
        if !related { return Refused(Forbidden); }
      } else if r.GrantLink? || r.RevokeLink? {
        if FindGroup(graph.projectGroups, r.pg).Some? {
          var target := RequireGroup(ProjectKind, r.pg);
          if !target { return Refused(Forbidden); }
        }
      } else if r.AddMembers? || r.RemoveMember? {
        var usersOk := RequireUsers(if r.AddMembers? then r.users else [r.user]);
        if !usersOk { return Refused(Forbidden); }
      }
      if r.UpdateGroup? && !r.rebind.KeepBinding? {
        v := Rebinding(r);
      } else {
        v := Granted(None);
      }
    }

    method AuthorizeProjectRelationship(r: Request) returns (ok: bool)
      requires KindOf(r) == ProjectKind && !r.CreateGroup?
      modifies this`affected
      ensures ok <==> r.UpdateGroup? || RelatedVerdict(graph, scope, r).Granted?
      ensures ok ==> affected == old(affected) + if (r.AddProject? || r.RemoveProject?) && r.p in graph.projects
                then {r.p} else {}
    {
      if r.UpdateGroup? { return true; }
      ok := RequireLinkedGroups(r.id);
      if ok && (r.AddProject? || r.RemoveProject?) && r.p in graph.projects {
        if !scope.AllowsProject(r.p) { return false; }
        affected := affected + {r.p};
      }
    }

    method Rebinding(r: Request) returns (v: Verdict)
      requires r.UpdateGroup? && !r.rebind.KeepBinding? && r.id in Groups(graph, r.kind)
      modifies this`graph
      ensures v == RebindVerdict(old(graph), scope, r.rebind)
      ensures graph == Rebound(old(graph), r, v)
    {
      if !scope.IsRoot() { return Refused(Forbidden); }
      v := ProjectBinding(graph, scope, if r.rebind.BindTo? then Some(r.rebind.project) else None);
      if v.Granted? && v.binding.None? { return Refused(FieldMissing); }
      if v.Granted? {
        graph := WithGroup(graph, r.kind, r.id, Groups(graph, r.kind)[r.id].(binding := v.binding));
      }
    }
  }

  /** Rebinding during the preflight and renaming in the handler add up to the one write. */
  lemma RebindThenRename(g: Graph, scope: AdminScope, r: Request)
    requires r.UpdateGroup? && Preflight(g, scope, r).Granted?
    ensures var v := Preflight(g, scope, r);
            Effect(Rebound(g, r, v), r.(rebind := KeepBinding), None) == Effect(g, r, v.binding)
  {
    RebindOneGroup(g, r, Preflight(g, scope, r));
  }

  lemma RebindOneGroup(g: Graph, r: Request, v: Verdict)
    requires r.UpdateGroup? && v.Granted? && r.id in Groups(g, r.kind)
    ensures Effect(Rebound(g, r, v), r.(rebind := KeepBinding), None) == Effect(g, r, v.binding)
  {
    var x := Groups(g, r.kind)[r.id];
    var bound := x.(binding := if r.rebind.BindTo? then v.binding else x.binding);
    PutTwice(Groups(g, r.kind), r.id, bound, bound.(name := if r.newName.Some? then r.newName.value else x.name));
  }

  lemma PutTwice(groups: map<Id, Group>, id: Id, x: Group, y: Group)
    ensures groups[id := x][id := y] == groups[id := y]
  {
  }
}
