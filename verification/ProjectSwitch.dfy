/** Which project a rotation ends on: the target of a project switch, or else where it was. */
module ProjectSwitch {
  import opened Prelude
  import opened TokenFamily
  import opened RotationProtocol
  import opened RotationInvariant
  import opened RotationPreservation
  import opened RotationTheorems
  import opened SessionLifetime

  /** All that `h` issued and stored is scoped to the project of this hash. */
  predicate OnProject(h: Gen, hash: Id) {
    && h.session.scope == ProjectScope && HashOf(h.session.project) == Some(hash)
    && h.session.collection == ProjectHash(hash)
    && h.access.scope == ProjectScope && h.access.collection == ProjectHash(hash)
    && h.refresh.scope == ProjectScope && h.refresh.collection == ProjectHash(hash)
    && h.family.body.Some? && h.family.body.value.scope == ProjectScope
    && h.family.body.value.projectHash == Some(hash)
    && h.anchor.scope == ProjectScope && HashOf(h.anchor.project) == Some(hash)
    && h.anchor.collection == ProjectHash(hash)
  }

  predicate OnPlatform(h: Gen) {
    && h.session.scope == PlatformScope && h.session.project.None? && h.session.collection == PlatformSentinel
    && h.access.scope == PlatformScope && h.access.collection == PlatformSentinel
    && h.refresh.scope == PlatformScope && h.refresh.collection == PlatformSentinel
    && h.family.body.Some? && h.family.body.value.scope == PlatformScope && h.family.body.value.projectHash.None?
    && h.anchor.scope == PlatformScope && h.anchor.project.None? && h.anchor.collection == PlatformSentinel
  }

  /** A generation is on the platform or on its one project. */
  lemma CoherentIsSomewhere(g: Gen)
    requires Coherent(g)
    ensures g.session.scope == PlatformScope ==> OnPlatform(g)
    ensures g.session.scope == ProjectScope ==> g.session.project.Some? && OnProject(g, g.session.project.value.hash)
  {
  }

  /** Where a rotation of `g` with this target must end. */
  predicate Lands(g: Gen, target: Option<Project>, h: Gen) {
    match target
    case Some(q) => OnProject(h, q.hash)
    case None =>
      if g.session.scope == PlatformScope then OnPlatform(h)
      else g.session.project.Some? && OnProject(h, g.session.project.value.hash)
  }

  /** Whether it started from the session or the anchor, with or without a switch, a built rotation
      ends where it must: on the target, or where `g` was. */
  lemma RotationLands(g: Gen, ctx: Session, target: Option<Project>, granted: Option<Project>, idx: nat, now: nat,
                      access: Id, refresh: Id)
    requires Coherent(g) && Grants(ctx, granted)
    requires ctx == Retarget(g.session, target) || ctx == Retarget(AnchorSeed(g.anchor), target)
    ensures var h := BuildRotated(g.refresh, ctx, g.family, granted, idx, now, access, refresh);
            h.Some? ==> Lands(g, target, h.value) && h.value.session.project == granted
  {
  }

  // ----- every run ------------------------------------------------------------------

  /** What a rotation built, it built for its own target. */
  ghost predicate AimOK(s: State, p: Proc) {
    p.Rotate? && (p.rpc.RBuilt? || p.rpc.RWatched? || p.rpc.RFamilyAgain? || p.rpc.RTokenAgain? || p.rpc.RReady?) ==>
      p.c.jti in s.hist && Lands(s.hist[p.c.jti], p.target, p.rpc.g)
  }

  ghost predicate AimsOK(s: State) {
    forall pid | pid in s.procs :: AimOK(s, s.procs[pid])
  }

  lemma AimIsStable(s: State, t: State, p: Proc)
    requires Advances(s, t) && AimOK(s, p)
    ensures AimOK(t, p)
  {
  }

  /** A program keeps what it built until it commits or gives up. */
  lemma RotateStepKeepsAim(s: State, c: RefreshClaims, target: Option<Project>, pc: RotatePc, ch: Choice)
    requires !pc.RContext? && !pc.RReady? && AimOK(s, Rotate(c, target, pc))
    ensures AimOK(s, RotateStep(s, c, target, pc, ch))
  {
  }

  lemma BuildTakesAim(s: State, pid: nat, c: RefreshClaims, target: Option<Project>, f: Family, r: TokenRecord,
                      ctx: Session, ch: Choice)
    requires c.jti in s.hist && Coherent(s.hist[c.jti]) && s.hist[c.jti].refresh == c && f == s.hist[c.jti].family
    requires ctx == Retarget(s.hist[c.jti].session, target) || ctx == Retarget(AnchorSeed(s.hist[c.jti].anchor), target)
    requires !ch.denied ==> Grants(ctx, ch.granted)
    ensures var t := BuildStep(s, pid, c, target, f, r, Built(s, c, f, ctx, ch), ch);
            pid in t.procs && AimOK(s, t.procs[pid])
  {
    var built := Built(s, c, f, ctx, ch);
    BuildResults(s, BuildStep(s, pid, c, target, f, r, built, ch), pid, c, target, f, r, built, ch);
    if !ch.denied {
      RotationLands(s.hist[c.jti], ctx, target, ch.granted, s.hist[c.jti].idx + 1, s.now, ch.access, ch.refresh);
    }
  }

  lemma ContextIsGrounded(s: State, pid: nat, c: RefreshClaims, target: Option<Project>, pc: RotatePc)
    requires RotateOK(s, pid, c, target, pc) && pc.RContext? && ContentOK(s, c.jti)
    ensures Coherent(s.hist[c.jti]) && s.hist[c.jti].refresh == c && pc.f == s.hist[c.jti].family
    ensures || pc.ctx == Retarget(s.hist[c.jti].session, target)
            || pc.ctx == Retarget(AnchorSeed(s.hist[c.jti].anchor), target)
  {
  }

  lemma ContextTakesAim(s: State, pid: nat, ch: Choice)
    requires Inv(s) && Enabled(s, Step(pid, ch)) && s.procs[pid].Rotate? && s.procs[pid].rpc.RContext?
    ensures var t := ProcStep(s, pid, ch); pid in t.procs && AimOK(s, t.procs[pid])
  {
    var c, target, pc := s.procs[pid].c, s.procs[pid].target, s.procs[pid].rpc;
    assert ProcOK(s, pid, s.procs[pid]) && ContentOK(s, c.jti);
    ContextIsGrounded(s, pid, c, target, pc);
    ContextAims(s, pid, c, target, pc, ch);
    ContextStepBuilds(s, pid, ch);
  }

  lemma ContextAims(s: State, pid: nat, c: RefreshClaims, target: Option<Project>, pc: RotatePc, ch: Choice)
    requires c.jti in s.hist && Coherent(s.hist[c.jti]) && s.hist[c.jti].refresh == c && pc.RContext?
    requires pc.f == s.hist[c.jti].family && (!ch.denied ==> Grants(pc.ctx, ch.granted))
    requires || pc.ctx == Retarget(s.hist[c.jti].session, target)
             || pc.ctx == Retarget(AnchorSeed(s.hist[c.jti].anchor), target)
    ensures var t := BuildStep(s, pid, c, target, pc.f, pc.t, Built(s, c, pc.f, pc.ctx, ch), ch);
            pid in t.procs && AimOK(s, t.procs[pid])
  {
    BuildTakesAim(s, pid, c, target, pc.f, pc.t, pc.ctx, ch);
  }

  /** Only rotations go on as rotations. */
  lemma OthersDoNotRotate(s: State, pid: nat, ch: Choice)
    requires pid in s.procs && !s.procs[pid].Done? && !s.procs[pid].Rotate?
    ensures var t := ProcStep(s, pid, ch); pid in t.procs && !t.procs[pid].Rotate?
  {
    match s.procs[pid]
    case Revoke(fid, reason, pc) => RevokeDoesNotRotate(s, pid, fid, reason, pc);
    case Classify(_, _, _) =>
    case Validate(_, _) =>
    case OAuth(_, _, _) =>
  }

  lemma RevokeDoesNotRotate(s: State, pid: nat, fid: Id, reason: Reason, pc: RevokePc)
    ensures var t := RevokeStep(s, pid, fid, reason, pc); pid in t.procs && !t.procs[pid].Rotate?
  {
  }

  lemma RotationKeepsAim(s: State, pid: nat, ch: Choice)
    requires pid in s.procs && s.procs[pid].Rotate? && AimOK(s, s.procs[pid])
    requires !s.procs[pid].rpc.RContext? && !s.procs[pid].rpc.RReady?
    ensures var t := ProcStep(s, pid, ch); pid in t.procs && AimOK(s, t.procs[pid])
  {
    RotateStepKeepsAim(s, s.procs[pid].c, s.procs[pid].target, s.procs[pid].rpc, ch);
  }

  lemma StepKeepsAim(s: State, pid: nat, ch: Choice)
    requires Inv(s) && AimsOK(s) && Enabled(s, Step(pid, ch))
    ensures var t := ProcStep(s, pid, ch); pid in t.procs && AimOK(s, t.procs[pid])
  {
    if !s.procs[pid].Rotate? {
      OthersDoNotRotate(s, pid, ch);
    } else if s.procs[pid].rpc.RContext? {
      ContextTakesAim(s, pid, ch);
    } else if s.procs[pid].rpc.RReady? {
      ExecEndsRotation(s, pid, ch);
    } else {
      RotationKeepsAim(s, pid, ch);
    }
  }

  lemma ExecEndsRotation(s: State, pid: nat, ch: Choice)
    requires pid in s.procs && s.procs[pid].Rotate? && s.procs[pid].rpc.RReady?
    ensures var t := ProcStep(s, pid, ch); pid in t.procs && !t.procs[pid].Rotate?
  {
    var c, pc := s.procs[pid].c, s.procs[pid].rpc;
    if pc.f.body.Some? { CommitShape(s, pid, c, pc.f, pc.t, pc.g); }
  }

  lemma ApplyKeepsAims(s: State, a: Action)
    requires Inv(s) && AimsOK(s) && Enabled(s, a)
    ensures AimsOK(Apply(s, a))
  {
    var t := Apply(s, a);
    ApplyKeepsInv(s, a);
    if a.Step? { StepShape(s, a.pid, a.ch); StepKeepsAim(s, a.pid, a.ch); }
    forall pid | pid in t.procs ensures AimOK(t, t.procs[pid]) {
      if a.Step? && pid == a.pid {
        AimIsStable(s, t, t.procs[pid]);
      } else if pid in s.procs {
        OthersStandStill(s, a, pid);
        AimIsStable(s, t, t.procs[pid]);
      }
    }
  }

  lemma {:induction false} RunKeepsAims(s: State, acts: seq<Action>, t: State)
    requires Inv(s) && AimsOK(s) && Run(s, acts, t)
    ensures AimsOK(t)
    decreases |acts|
  {
    if acts != [] {
      ApplyKeepsInv(s, acts[0]);
      ApplyKeepsAims(s, acts[0]);
      RunKeepsAims(Apply(s, acts[0]), acts[1..], t);
    }
  }

  lemma ReachableAims(t: State)
    requires Reachable(t)
    ensures AimsOK(t)
  {
    var s: State, acts: seq<Action> :| Initial(s) && Run(s, acts, t);
    RunKeepsAims(s, acts, t);
  }

  /** In every run, what a committing rotation leaves in the store is where its target says: family,
      session, anchor and both tokens. */
  lemma CommitLands(s: State, pid: nat, ch: Choice)
    requires Reachable(s) && pid in s.procs && s.procs[pid].Rotate? && s.procs[pid].rpc.RReady?
    requires ProcStep(s, pid, ch).procs[pid].Done?
    ensures var c, g := s.procs[pid].c, s.procs[pid].rpc.g;
            && c.jti in s.hist && Lands(s.hist[c.jti], s.procs[pid].target, g)
            && Holds(ProcStep(s, pid, ch).db, c.familyId, g)
  {
    ReachableAims(s);
    ReachableInv(s);
    assert AimOK(s, s.procs[pid]) && ProcOK(s, pid, s.procs[pid]);
    CommittedMeansUnmoved(s, pid, ch);
    NewAccessIsNew(s, pid, s.procs[pid].c, s.procs[pid].target, s.procs[pid].rpc);
    CommitLeaves(s, pid, s.procs[pid].c, s.procs[pid].rpc);
  }

  /** The store has all that a generation wrote. */
  predicate Holds(db: Store, fid: Id, g: Gen) {
    && Find(db.families, fid) == Some(g.family) && Find(db.anchors, fid) == Some(g.anchor)
    && Find(db.sessions, g.access.jti) == Some(g.session) && Find(db.tokens, g.refresh.jti) == Some(g.token)
  }

  lemma NewAccessIsNew(s: State, pid: nat, c: RefreshClaims, target: Option<Project>, pc: RotatePc)
    requires HistInv(s) && pc.RReady? && RotateOK(s, pid, c, target, pc) && pc.f.body.Some?
    ensures pc.g.access.jti != pc.f.body.value.currentAccess && pc.g.fid == c.familyId
  {
    assert GenOK(s, c.jti);
    PendingIsUnused(s, pid, pc.g.refresh.jti, pc.g.access.jti);
  }

  lemma CommitLeaves(s: State, pid: nat, c: RefreshClaims, pc: RotatePc)
    requires pc.RReady? && pc.f.body.Some? && pc.g.fid == c.familyId
    requires pc.g.access.jti != pc.f.body.value.currentAccess
    ensures Holds(Commit(s, pid, c, pc.f, pc.t, pc.g).db, c.familyId, pc.g)
  {
  }
}
