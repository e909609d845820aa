/** Concurrent group requests under the singleton graph lock.

    Each request opens a transaction, takes the lock, resolves the caller's scope, preflights, lets
    its handler write, and commits or rolls back.  Steps of any number of requests interleave. */
module GroupLock {
  import opened Prelude
  import opened GroupGraph
  import opened GroupTheorems

  datatype Stage =
    | Waiting
    | Locked
    | Resolved(scope: AdminScope)
    | Cleared(binding: Option<ProjectId>)
    | Written(result: Graph)
    | Ended(committed: bool)

  datatype Job = Job(user: Id, request: Request, stage: Stage)

  /** `graph` is what is committed; `log` records the commits in order. */
  datatype System = System(graph: Graph, lock: Option<nat>, jobs: map<nat, Job>, log: seq<Act>)

  datatype Move = Arrive(pid: nat, user: Id, request: Request) | Advance(pid: nat) | Abort(pid: nat)

  predicate Enabled(s: System, m: Move) {
    match m
    case Arrive(pid, _, _) => pid !in s.jobs
    case Advance(pid) =>
      && pid in s.jobs && !s.jobs[pid].stage.Ended?
      && (s.jobs[pid].stage.Waiting? ==> s.lock.None?)
      && (s.jobs[pid].stage.Resolved? ==> Admissible(s.graph, s.jobs[pid].request))
    case Abort(pid) => pid in s.jobs && !s.jobs[pid].stage.Ended?
  }

  function To(s: System, pid: nat, stage: Stage): System
    requires pid in s.jobs
  {
    s.(jobs := s.jobs[pid := s.jobs[pid].(stage := stage)])
  }

  function Release(s: System, pid: nat): System {
    if s.lock == Some(pid) then s.(lock := None) else s
  }

  function Next(s: System, m: Move): System
    requires Enabled(s, m)
  {
    match m
    case Arrive(pid, user, request) => s.(jobs := s.jobs[pid := Job(user, request, Waiting)])
    case Abort(pid) => Release(To(s, pid, Ended(false)), pid)
    case Advance(pid) =>
      var j := s.jobs[pid];
      match j.stage
      case Waiting => To(s, pid, Locked).(lock := Some(pid))
      case Locked => To(s, pid, Resolved(ResolveScope(s.graph, j.user)))
      case Resolved(scope) =>
        var v := Preflight(s.graph, scope, j.request);
        if v.Granted? then To(s, pid, Cleared(v.binding)) else Release(To(s, pid, Ended(false)), pid)
      case Cleared(binding) => To(s, pid, Written(Effect(s.graph, j.request, binding)))
      case Written(result) =>
        Release(To(s, pid, Ended(true)), pid).(graph := result, log := s.log + [Act(j.user, j.request)])
  }

  ghost predicate Run(s: System, ms: seq<Move>, t: System)
    decreases |ms|
  {
    if ms == [] then s == t else Enabled(s, ms[0]) && Run(Next(s, ms[0]), ms[1..], t)
  }

  predicate Initial(s: System) {
    WellFormed(s.graph) && s.lock.None? && s.jobs == map[] && s.log == []
  }

  /** What a request past the lock knows is still true of the committed graph. */
  predicate StageOK(s: System, pid: nat)
    requires pid in s.jobs
  {
    var j := s.jobs[pid];
    && (!j.stage.Waiting? && !j.stage.Ended? ==> s.lock == Some(pid))
    && match j.stage
       case Resolved(scope) => scope == ResolveScope(s.graph, j.user)
       case Cleared(binding) => Admissible(s.graph, j.request)
           && Preflight(s.graph, ResolveScope(s.graph, j.user), j.request) == Granted(binding)
       case Written(result) => Writes(s.graph, j.user, j.request, result)
       case _ => true
  }

  predicate Inv(s: System) {
    forall pid | pid in s.jobs :: StageOK(s, pid)
  }

  lemma NextKeepsInv(s: System, m: Move)
    requires Inv(s) && Enabled(s, m)
    ensures Inv(Next(s, m))
  {
    var t := Next(s, m);
    forall pid | pid in t.jobs ensures StageOK(t, pid) {
      if pid in s.jobs { assert StageOK(s, pid); }
      if m.pid in s.jobs { assert StageOK(s, m.pid); }
    }
  }

  // ----- interleavings are sequential -----------------------------------------------

  /** A sequence of authorized writes, each preflighted on the very graph it replaces. */
  ghost predicate AuthorizedRun(g: Graph, acts: seq<Act>, h: Graph)
    decreases |acts|
  {
    if acts == [] then h == g
    else exists g' :: Writes(g, acts[0].user, acts[0].request, g') && AuthorizedRun(g', acts[1..], h)
  }

  lemma {:induction false} AuthorizedRunExtends(g: Graph, acts: seq<Act>, h: Graph, a: Act, h': Graph)
    requires AuthorizedRun(g, acts, h) && Writes(h, a.user, a.request, h')
    ensures AuthorizedRun(g, acts + [a], h')
    decreases |acts|
  {
    if acts == [] {
      assert ([] + [a])[1..] == [] && AuthorizedRun(h', [], h');
    } else {
      var g' :| Writes(g, acts[0].user, acts[0].request, g') && AuthorizedRun(g', acts[1..], h);
      AuthorizedRunExtends(g', acts[1..], h, a, h');
      assert (acts + [a])[1..] == acts[1..] + [a] && (acts + [a])[0] == acts[0];
    }
  }

  lemma MoveExtendsLog(s: System, m: Move, g: Graph)
    requires Inv(s) && Enabled(s, m) && AuthorizedRun(g, s.log, s.graph)
    ensures AuthorizedRun(g, Next(s, m).log, Next(s, m).graph)
  {
    if m.Advance? && s.jobs[m.pid].stage.Written? {
      var j := s.jobs[m.pid];
      assert StageOK(s, m.pid);
      AuthorizedRunExtends(g, s.log, s.graph, Act(j.user, j.request), j.stage.result);
    }
  }

  lemma {:induction false} RunKeepsLog(s: System, ms: seq<Move>, t: System, g: Graph)
    requires Inv(s) && Run(s, ms, t) && AuthorizedRun(g, s.log, s.graph)
    ensures Inv(t) && AuthorizedRun(g, t.log, t.graph)
    decreases |ms|
  {
    if ms != [] {
      NextKeepsInv(s, ms[0]);
      MoveExtendsLog(s, ms[0], g);
      RunKeepsLog(Next(s, ms[0]), ms[1..], t, g);
    }
  }

  /** However requests interleave, the committed graph is the result of authorized writes done one
      after the other, in commit order. */
  lemma InterleavingsAreSequential(s: System, ms: seq<Move>, t: System)
    requires Initial(s) && Run(s, ms, t)
    ensures AuthorizedRun(s.graph, t.log, t.graph)
  {
    RunKeepsLog(s, ms, t, s.graph);
  }

  lemma {:induction false} WithoutRootIsAdminRun(g: Graph, acts: seq<Act>, h: Graph)
    requires AuthorizedRun(g, acts, h) && forall a | a in acts :: Find(g.users, a.user) != Some(RootUser)
    ensures AdminRun(g, acts, h)
    decreases |acts|
  {
    if acts != [] {
      assert acts[0] in acts;
      var r := acts[0].request;
      var g' :| Writes(g, acts[0].user, r, g') && AuthorizedRun(g', acts[1..], h);
      EffectKeepsWorld(g, r, Preflight(g, ResolveScope(g, acts[0].user), r).binding);
      assert forall a | a in acts[1..] :: a in acts;
      WithoutRootIsAdminRun(g', acts[1..], h);
    }
  }

  lemma {:induction false} AuthorizedRunKeepsWellFormed(g: Graph, acts: seq<Act>, h: Graph)
    requires WellFormed(g) && AuthorizedRun(g, acts, h)
    ensures WellFormed(h)
    decreases |acts|
  {
    if acts != [] {
      var g' :| Writes(g, acts[0].user, acts[0].request, g') && AuthorizedRun(g', acts[1..], h);
      WritesKeepWellFormed(g, acts[0].user, acts[0].request, g');
      AuthorizedRunKeepsWellFormed(g', acts[1..], h);
    }
  }

  /** Confinement under interleaving, commit by commit: whoever else commits before or in between, root
      included, a commit by a caller who is not root changes only footprints of groups it creates or
      that lay inside the caller's projects at that moment, keeps them inside, and moves no
      administrative assignment and nobody's scope. */
  lemma EveryCommitIsConfined(s: System, ms: seq<Move>, t: System, pid: nat, kind: Kind, id: Id)
    requires Initial(s) && Run(s, ms, t) && Enabled(t, Advance(pid)) && t.jobs[pid].stage.Written?
    requires !ResolveScope(t.graph, t.jobs[pid].user).IsRoot()
    ensures var j, after := t.jobs[pid], Next(t, Advance(pid)).graph;
            && Writes(t.graph, j.user, j.request, after)
            && Touches(t.graph, ResolveScope(t.graph, j.user), j.request, after, kind, id)
            && SameAssignments(t.graph, after)
            && forall v :: ResolveScope(after, v) == ResolveScope(t.graph, v)
  {
    RunKeepsLog(s, ms, t, s.graph);
    AuthorizedRunKeepsWellFormed(s.graph, t.log, t.graph);
    assert StageOK(t, pid);
    var j, after := t.jobs[pid], t.jobs[pid].stage.result;
    WritesAreConfined(t.graph, j.user, j.request, after, kind, id);
    WritesKeepAssignments(t.graph, j.user, j.request, after);
  }

  /** The graph changes only by such commits. */
  lemma OnlyCommitsChangeTheGraph(s: System, m: Move)
    requires Enabled(s, m) && Next(s, m).graph != s.graph
    ensures m.Advance? && s.jobs[m.pid].stage.Written?
  {
  }

  /** Confinement and invariance hold for interleaved requests too: when nobody who commits is root,
      no administrative assignment moves, no scope changes, a group that none of them could
      administer keeps its footprint, and none comes to reach a project outside their scopes. */
  lemma InterleavedAdminsAreConfined(s: System, ms: seq<Move>, t: System, kind: Kind, id: Id)
    requires Initial(s) && Run(s, ms, t)
    requires forall a | a in t.log :: Find(s.graph.users, a.user) != Some(RootUser)
    ensures SameAssignments(s.graph, t.graph)
    ensures forall v :: ResolveScope(t.graph, v) == ResolveScope(s.graph, v)
    ensures id in Groups(s.graph, kind) && (forall a | a in t.log :: !Administers(s.graph, a.user, kind, id)) ==>
              Footprint(t.graph, kind, id) == Footprint(s.graph, kind, id)
    ensures forall ps | Footprint(s.graph, kind, id) <= ps
                        && (forall a | a in t.log :: ResolveScope(s.graph, a.user).projects <= ps) ::
              Footprint(t.graph, kind, id) <= ps
  {
    InterleavingsAreSequential(s, ms, t);
    WithoutRootIsAdminRun(s.graph, t.log, t.graph);
    RunsKeepAssignments(s.graph, t.log, t.graph);
    if id in Groups(s.graph, kind) && forall a | a in t.log :: !Administers(s.graph, a.user, kind, id) {
      RunsSpareForeignGroups(s.graph, t.log, t.graph, kind, id);
    }
    forall ps | Footprint(s.graph, kind, id) <= ps
        && (forall a | a in t.log :: ResolveScope(s.graph, a.user).projects <= ps)
      ensures Footprint(t.graph, kind, id) <= ps
    {
      RunsStayInScope(s.graph, t.log, t.graph, kind, id, ps);
    }
  }

  // ----- progress -------------------------------------------------------------------

  /** At most one request is past the lock. */
  lemma LockExcludes(s: System, ms: seq<Move>, t: System, p: nat, q: nat)
    requires Initial(s) && Run(s, ms, t) && p in t.jobs && q in t.jobs
    requires !t.jobs[p].stage.Waiting? && !t.jobs[p].stage.Ended?
    requires !t.jobs[q].stage.Waiting? && !t.jobs[q].stage.Ended?
    ensures p == q
  {
    RunKeepsLog(s, ms, t, s.graph);
    assert StageOK(t, p) && StageOK(t, q);
  }

  lemma Advances(s: System, pid: nat, t: System, rest: seq<Move>, end: System)
    requires Enabled(s, Advance(pid)) && Next(s, Advance(pid)) == t && Run(t, rest, end)
    ensures Run(s, [Advance(pid)] + rest, end)
  {
    assert ([Advance(pid)] + rest)[0] == Advance(pid) && ([Advance(pid)] + rest)[1..] == rest;
  }

  /** How a request that nothing interleaves with ends: a granted one has its write committed, a
      refused one changes nothing, and both give the lock back. */
  lemma UndisturbedRequestEnds(s: System, pid: nat) returns (ms: seq<Move>, t: System)
    requires pid in s.jobs && s.jobs[pid].stage.Waiting? && s.lock.None? && Admissible(s.graph, s.jobs[pid].request)
    ensures Run(s, ms, t) && t.lock.None?
    ensures var j := s.jobs[pid];
            var v := Preflight(s.graph, ResolveScope(s.graph, j.user), j.request);
            && t.jobs == s.jobs[pid := Job(j.user, j.request, Ended(v.Granted?))]
            && t.graph == (if v.Granted? then Effect(s.graph, j.request, v.binding) else s.graph)
            && t.log == s.log + (if v.Granted? then [Act(j.user, j.request)] else [])
  {
    var j := s.jobs[pid];
    var scope := ResolveScope(s.graph, j.user);
    var s1 := Next(s, Advance(pid));
    var s2 := Next(s1, Advance(pid));
    var s3 := Next(s2, Advance(pid));
    if Preflight(s.graph, scope, j.request).Granted? {
      var s4 := Next(s3, Advance(pid));
      t := Next(s4, Advance(pid));
      Advances(s4, pid, t, [], t);
      Advances(s3, pid, s4, [Advance(pid)] + [], t);
      ms := [Advance(pid)] + ([Advance(pid)] + []);
    } else {
      t, ms := s3, [];
    }
    Advances(s2, pid, s3, ms, t);
    Advances(s1, pid, s2, [Advance(pid)] + ms, t);
    Advances(s, pid, s1, [Advance(pid)] + ([Advance(pid)] + ms), t);
    ms := [Advance(pid)] + ([Advance(pid)] + ([Advance(pid)] + ms));
  }
}
