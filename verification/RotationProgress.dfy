/** The protocol does go through: a rotation that nothing interleaves with commits, and writes what
    the sequential rotation writes. */
module RotationProgress {
  import opened Prelude
  import opened TokenFamily
  import opened RotationProtocol
  import opened RotationPreservation
  import opened RotationTheorems
  import opened SessionLifetime
  import opened AuthStore

  /** `n` steps of a partial function. */
  function Iterate<S>(step: S -> Option<S>, n: nat, s: S): Option<S> {
    if n == 0 then Some(s)
    else
      var r := Iterate(step, n - 1, s);
      if r.None? then None else step(r.value)
  }

  lemma {:induction false} IterateCompose<S>(step: S -> Option<S>, n: nat, s: S, t: S, m: nat)
    requires Iterate(step, n, s) == Some(t)
    ensures Iterate(step, n + m, s) == Iterate(step, m, t)
    decreases m
  {
    if m > 0 { IterateCompose(step, n, s, t, m - 1); }
  }

  lemma IterateNext<S>(step: S -> Option<S>, n: nat, s: S, t: S, u: S)
    requires Iterate(step, n, s) == Some(t) && step(t) == Some(u)
    ensures Iterate(step, n + 1, s) == Some(u)
  {
  }

  /** One step of the program, with the given answers from the world. */
  function StepOf(pid: nat, ch: Choice): State -> Option<State> {
    (s: State) => if Enabled(s, Step(pid, ch)) then Some(Apply(s, Step(pid, ch))) else None
  }

  /** `n` consecutive steps of this program alone, each enabled, lead from `s` to `t`. */
  ghost predicate StepsTo(s: State, pid: nat, ch: Choice, n: nat, t: State) {
    Iterate(StepOf(pid, ch), n, s) == Some(t)
  }

  lemma StepsCompose(s: State, pid: nat, ch: Choice, n: nat, t: State, m: nat, u: State)
    requires StepsTo(s, pid, ch, n, t) && StepsTo(t, pid, ch, m, u)
    ensures StepsTo(s, pid, ch, n + m, u)
  {
    IterateCompose(StepOf(pid, ch), n, s, t, m);
  }

  /** The program at a given point, everything else as in `s`. */
  function At(s: State, pid: nat, c: RefreshClaims, target: Option<Project>, pc: RotatePc): State {
    Goto(s, pid, Rotate(c, target, pc))
  }

  lemma ReadingStep(s: State, pid: nat, c: RefreshClaims, target: Option<Project>, ch: Choice, pc: RotatePc,
                    next: RotatePc)
    requires !pc.RContext? && !pc.RReady?
    requires RotateStep(At(s, pid, c, target, pc), c, target, pc, ch) == Rotate(c, target, next)
    ensures StepsTo(At(s, pid, c, target, pc), pid, ch, 1, At(s, pid, c, target, next))
  {
    var a := At(s, pid, c, target, pc);
    assert a.procs[pid := Rotate(c, target, next)] == s.procs[pid := Rotate(c, target, next)];
    assert Apply(a, Step(pid, ch)) == At(s, pid, c, target, next);
    IterateNext(StepOf(pid, ch), 0, a, a, At(s, pid, c, target, next));
  }

  lemma TwoSteps(s: State, pid: nat, c: RefreshClaims, target: Option<Project>, ch: Choice, p: RotatePc, q: RotatePc,
                 r: RotatePc, n: nat)
    requires StepsTo(At(s, pid, c, target, p), pid, ch, n, At(s, pid, c, target, q))
    requires !q.RContext? && !q.RReady?
    requires RotateStep(At(s, pid, c, target, q), c, target, q, ch) == Rotate(c, target, r)
    ensures StepsTo(At(s, pid, c, target, p), pid, ch, n + 1, At(s, pid, c, target, r))
  {
    ReadingStep(s, pid, c, target, ch, q, r);
    StepsCompose(At(s, pid, c, target, p), pid, ch, n, At(s, pid, c, target, q), 1, At(s, pid, c, target, r));
  }

  /** From the start to the authorized context: six reads. */
  lemma ReadsContext(s: State, pid: nat, c: RefreshClaims, target: Option<Project>, ch: Choice, ctx: Session)
    requires FoundCurrent(s.db, c, ctx)
    ensures var f, t := s.db.families[c.familyId], s.db.tokens[c.jti];
            StepsTo(At(s, pid, c, target, RStart), pid, ch, 6,
                    At(s, pid, c, target, RContext(f, t, Retarget(ctx, target))))
  {
    var f, t := s.db.families[c.familyId], s.db.tokens[c.jti];
    var os := Find(s.db.sessions, f.body.value.currentAccess);
    ReadsCurrent(s, pid, c, target, ch, f, t);
    TwoSteps(s, pid, c, target, ch, RStart, RCurrent(f, t), RSession(f, t, os), 4);
    SessionGivesContext(At(s, pid, c, target, RSession(f, t, os)), c, target, f, t, os, ctx, ch);
    TwoSteps(s, pid, c, target, ch, RStart, RSession(f, t, os), RContext(f, t, Retarget(ctx, target)), 5);
  }

  /** With or without its session record, a token found current leads to its context. */
  lemma SessionGivesContext(s: State, c: RefreshClaims, target: Option<Project>, f: Family, t: TokenRecord,
                            os: Option<Session>, ctx: Session, ch: Choice)
    requires FoundCurrent(s.db, c, ctx) && f == s.db.families[c.familyId]
    requires os == Find(s.db.sessions, f.body.value.currentAccess)
    ensures RotateStep(s, c, target, RSession(f, t, os), ch) == Rotate(c, target, RContext(f, t, Retarget(ctx, target)))
  {
  }

  lemma ReadsCurrent(s: State, pid: nat, c: RefreshClaims, target: Option<Project>, ch: Choice, f: Family,
                     t: TokenRecord)
    requires LiveIn(s.db, c.familyId) && c.familyId !in s.db.tombs && f == s.db.families[c.familyId]
    requires Find(s.db.tokens, c.jti) == Some(t) && t.status == Current && t.digest == c
               && f.body.value.currentRefresh == c.jti
    ensures StepsTo(At(s, pid, c, target, RStart), pid, ch, 4, At(s, pid, c, target, RCurrent(f, t)))
  {
    ReadingStep(s, pid, c, target, ch, RStart, RFamily(f));
    TwoSteps(s, pid, c, target, ch, RStart, RFamily(f), RToken(f, t), 1);
    TwoSteps(s, pid, c, target, ch, RStart, RToken(f, t), RSeen(f, t), 2);
    TwoSteps(s, pid, c, target, ch, RStart, RSeen(f, t), RCurrent(f, t), 3);
  }

  /** The state once the identifiers of the new generation are drawn. */
  function WithDraws(s: State, pid: nat, ch: Choice): State {
    s.(drawn := s.drawn[ch.access := Pending(pid)][ch.refresh := Pending(pid)])
  }

  lemma Builds(s: State, pid: nat, c: RefreshClaims, target: Option<Project>, ch: Choice, f: Family, t: TokenRecord,
               ctx: Session, g: Gen)
    requires Fresh(s, ch.access) && Fresh(s, ch.refresh) && ch.access != ch.refresh && !ch.denied
    requires Grants(ctx, ch.granted) && Built(s, c, f, ctx, ch) == Some(g)
    ensures StepsTo(At(s, pid, c, target, RContext(f, t, ctx)), pid, ch, 1,
                    At(WithDraws(s, pid, ch), pid, c, target, RBuilt(f, t, g)))
  {
    var a := At(s, pid, c, target, RContext(f, t, ctx));
    var b := At(WithDraws(s, pid, ch), pid, c, target, RBuilt(f, t, g));
    assert Built(a, c, f, ctx, ch) == Some(g);
    ContextStepBuilds(a, pid, ch);
    BuildResults(a, ProcStep(a, pid, ch), pid, c, target, f, t, Some(g), ch);
    PutTwice(s.procs, pid, Rotate(c, target, RContext(f, t, ctx)), Rotate(c, target, RBuilt(f, t, g)));
    assert Enabled(a, Step(pid, ch));
    IterateNext(StepOf(pid, ch), 0, a, a, b);
  }

  /** Watching and reading again: four steps. */
  lemma Rechecks(s: State, pid: nat, c: RefreshClaims, target: Option<Project>, ch: Choice, g: Gen, ctx: Session)
    requires FoundCurrent(s.db, c, ctx)
    ensures var f, t, snap := s.db.families[c.familyId], s.db.tokens[c.jti], Snap(s, RotationKeys(c));
            StepsTo(At(s, pid, c, target, RBuilt(f, t, g)), pid, ch, 4,
                    At(s, pid, c, target, RReady(f, t, g, snap, f, t)))
  {
    var f, t, snap := s.db.families[c.familyId], s.db.tokens[c.jti], Snap(s, RotationKeys(c));
    Rereads(s, pid, c, target, ch, f, t, g, snap);
    TwoSteps(s, pid, c, target, ch, RBuilt(f, t, g), RTokenAgain(f, t, g, snap, Some(f), Some(t)),
             RReady(f, t, g, snap, f, t), 3);
  }

  lemma Rereads(s: State, pid: nat, c: RefreshClaims, target: Option<Project>, ch: Choice, f: Family, t: TokenRecord,
                g: Gen, snap: Snapshot)
    requires Find(s.db.families, c.familyId) == Some(f) && Find(s.db.tokens, c.jti) == Some(t)
    requires snap == Snap(s, RotationKeys(c))
    ensures StepsTo(At(s, pid, c, target, RBuilt(f, t, g)), pid, ch, 3,
                    At(s, pid, c, target, RTokenAgain(f, t, g, snap, Some(f), Some(t))))
  {
    var built, watched := RBuilt(f, t, g), RWatched(f, t, g, snap);
    var again := RFamilyAgain(f, t, g, snap, Some(f));
    WatchGivesSnapshot(s, pid, c, target, f, t, g, ch);
    ReadingStep(s, pid, c, target, ch, built, watched);
    TwoSteps(s, pid, c, target, ch, built, watched, again, 1);
    TwoSteps(s, pid, c, target, ch, built, again, RTokenAgain(f, t, g, snap, Some(f), Some(t)), 2);
  }

  lemma WatchGivesSnapshot(s: State, pid: nat, c: RefreshClaims, target: Option<Project>, f: Family, t: TokenRecord,
                           g: Gen, ch: Choice)
    ensures RotateStep(At(s, pid, c, target, RBuilt(f, t, g)), c, target, RBuilt(f, t, g), ch) ==
              Rotate(c, target, RWatched(f, t, g, Snap(s, RotationKeys(c))))
  {
    assert Snap(At(s, pid, c, target, RBuilt(f, t, g)), RotationKeys(c)) == Snap(s, RotationKeys(c));
  }

  lemma Executes(s: State, pid: nat, c: RefreshClaims, target: Option<Project>, ch: Choice, f: Family, t: TokenRecord,
                 g: Gen)
    returns (done: State)
    requires f.body.Some?
    ensures StepsTo(At(s, pid, c, target, RReady(f, t, g, Snap(s, RotationKeys(c)), f, t)), pid, ch, 1, done)
    ensures done.procs == s.procs[pid := Done(Rotated(c.jti, g.refresh.jti))]
    ensures done.db == CommitRotation(s.db, t, f.body.value.currentAccess, g)
  {
    var pc := RReady(f, t, g, Snap(s, RotationKeys(c)), f, t);
    var a := At(s, pid, c, target, pc);
    done := Commit(a, pid, c, f, t, g);
    assert Unmoved(a, pc.snap);
    assert Apply(a, Step(pid, ch)) == done;
    IterateNext(StepOf(pid, ch), 0, a, a, done);
    CommittedState(s, pid, c, target, pc, f, t, g);
  }

  /** A rotation of the current token, undisturbed, allowed by the database and within its lifetime,
      commits after twelve steps; the store is then what the sequential rotation leaves. */
  lemma UndisturbedRotationCommits(s: State, pid: nat, c: RefreshClaims, target: Option<Project>, ch: Choice,
                                   ctx: Session, g: Gen)
    returns (t: State)
    requires pid in s.procs && s.procs[pid] == Rotate(c, target, RStart)
    requires FoundCurrent(s.db, c, ctx) && c.jti in s.hist
    requires Fresh(s, ch.access) && Fresh(s, ch.refresh) && ch.access != ch.refresh && !ch.denied
    requires Grants(Retarget(ctx, target), ch.granted)
    requires BuildRotated(c, Retarget(ctx, target), s.db.families[c.familyId], ch.granted, s.hist[c.jti].idx + 1,
                          s.now, ch.access, ch.refresh) == Some(g)
    ensures StepsTo(s, pid, ch, 12, t)
    ensures t.procs == s.procs[pid := Done(Rotated(c.jti, g.refresh.jti))]
    ensures t.db == CommitRotation(s.db, s.db.tokens[c.jti], s.db.families[c.familyId].body.value.currentAccess, g)
  {
    t := TwelveSteps(s, pid, c, target, ch, ctx, g);
    assert At(s, pid, c, target, RStart) == s by { assert s.procs[pid := s.procs[pid]] == s.procs; }
  }

  lemma TwelveSteps(s: State, pid: nat, c: RefreshClaims, target: Option<Project>, ch: Choice, ctx: Session, g: Gen)
    returns (done: State)
    requires FoundCurrent(s.db, c, ctx)
    requires Fresh(s, ch.access) && Fresh(s, ch.refresh) && ch.access != ch.refresh && !ch.denied
    requires Grants(Retarget(ctx, target), ch.granted)
    requires Built(s, c, s.db.families[c.familyId], Retarget(ctx, target), ch) == Some(g)
    ensures StepsTo(At(s, pid, c, target, RStart), pid, ch, 12, done)
    ensures done.procs == s.procs[pid := Done(Rotated(c.jti, g.refresh.jti))]
    ensures done.db == CommitRotation(s.db, s.db.tokens[c.jti], s.db.families[c.familyId].body.value.currentAccess, g)
  {
    var f, t, d := s.db.families[c.familyId], s.db.tokens[c.jti], WithDraws(s, pid, ch);
    GetsReady(s, pid, c, target, ch, ctx, g);
    var ready := At(d, pid, c, target, RReady(f, t, g, Snap(d, RotationKeys(c)), f, t));
    done := Executes(d, pid, c, target, ch, f, t, g);
    StepsCompose(At(s, pid, c, target, RStart), pid, ch, 11, ready, 1, done);
  }

  /** Eleven steps lead from the start to the EXEC. */
  lemma GetsReady(s: State, pid: nat, c: RefreshClaims, target: Option<Project>, ch: Choice, ctx: Session, g: Gen)
    requires FoundCurrent(s.db, c, ctx)
    requires Fresh(s, ch.access) && Fresh(s, ch.refresh) && ch.access != ch.refresh && !ch.denied
    requires Grants(Retarget(ctx, target), ch.granted)
    requires Built(s, c, s.db.families[c.familyId], Retarget(ctx, target), ch) == Some(g)
    ensures var f, t, d := s.db.families[c.familyId], s.db.tokens[c.jti], WithDraws(s, pid, ch);
            StepsTo(At(s, pid, c, target, RStart), pid, ch, 11,
                    At(d, pid, c, target, RReady(f, t, g, Snap(d, RotationKeys(c)), f, t)))
  {
    var f, t, d := s.db.families[c.familyId], s.db.tokens[c.jti], WithDraws(s, pid, ch);
    var a, ctx' := At(s, pid, c, target, RStart), Retarget(ctx, target);
    ReadsContext(s, pid, c, target, ch, ctx);
    Builds(s, pid, c, target, ch, f, t, ctx', g);
    StepsCompose(a, pid, ch, 6, At(s, pid, c, target, RContext(f, t, ctx')), 1, At(d, pid, c, target, RBuilt(f, t, g)));
    Rechecks(d, pid, c, target, ch, g, ctx);
    StepsCompose(a, pid, ch, 7, At(d, pid, c, target, RBuilt(f, t, g)), 4,
                 At(d, pid, c, target, RReady(f, t, g, Snap(d, RotationKeys(c)), f, t)));
  }

  lemma CommittedState(s: State, pid: nat, c: RefreshClaims, target: Option<Project>, pc: RotatePc, f: Family,
                       t: TokenRecord, g: Gen)
    requires f.body.Some?
    ensures var done := Commit(At(s, pid, c, target, pc), pid, c, f, t, g);
            && done.procs == s.procs[pid := Done(Rotated(c.jti, g.refresh.jti))]
            && done.db == CommitRotation(s.db, t, f.body.value.currentAccess, g)
  {
    var a := At(s, pid, c, target, pc);
    CommitShape(a, pid, c, f, t, g);
    PutTwice(s.procs, pid, Rotate(c, target, pc), Done(Rotated(c.jti, g.refresh.jti)));
    CommitStores(a, pid, c, f, t, g);
  }

  lemma PutTwice(procs: map<nat, Proc>, pid: nat, p: Proc, q: Proc)
    ensures procs[pid := p][pid := q] == procs[pid := q]
  {
  }

  lemma CommitStores(s: State, pid: nat, c: RefreshClaims, f: Family, t: TokenRecord, g: Gen)
    requires f.body.Some?
    ensures Commit(s, pid, c, f, t, g).db == CommitRotation(s.db, t, f.body.value.currentAccess, g)
  {
  }
}
