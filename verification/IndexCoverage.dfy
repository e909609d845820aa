/** The per-user indexes are complete as long as they have not lapsed, so a sweep that walks them
    reaches every session and every live family of the user. */
module IndexCoverage {
  import opened Prelude
  import opened TokenFamily
  import opened RotationProtocol
  import opened RotationInvariant
  import opened RotationPreservation
  import opened RotationTheorems
  import opened AuthStore

  /** Every stored session and every live family of the user is in the user's index. */
  ghost predicate Covered(db: Store, u: Id) {
    && (forall a | a in db.sessions && db.sessions[a].user.id == u :: a in Members(db.userSessions, u))
    && (forall fid | LiveIn(db, fid) && db.families[fid].body.value.userId == u :: fid in Members(db.userFamilies, u))
  }

  /** Neither index of the user lapses. */
  predicate KeepsIndexes(a: Action, u: Id) {
    a != Lapse(UserSessionsKey(u)) && a != Lapse(UserFamiliesKey(u))
  }

  /** Sessions only go, live families stay as they are, and the indexes of the user are the same. */
  ghost predicate Calm(a: Store, b: Store, u: Id) {
    && (forall x | x in b.sessions :: x in a.sessions && b.sessions[x] == a.sessions[x])
    && (forall fid | LiveIn(b, fid) :: LiveIn(a, fid) && b.families[fid] == a.families[fid])
    && Members(b.userSessions, u) == Members(a.userSessions, u)
    && Members(b.userFamilies, u) == Members(a.userFamilies, u)
  }

  lemma CalmKeepsCover(a: Store, b: Store, u: Id)
    requires Calm(a, b, u) && Covered(a, u)
    ensures Covered(b, u)
  {
  }

  /** Adding a coherent generation and its entries in the indexes keeps them complete. */
  lemma IssueKeepsCover(db: Store, g: Gen, u: Id)
    requires Covered(db, u) && Coherent(g)
    ensures Covered(Issue(db, g), u)
  {
  }

  lemma RotationKeepsCover(db: Store, r: TokenRecord, oldAccess: Id, g: Gen, u: Id)
    requires Covered(db, u) && Coherent(g)
    ensures Covered(CommitRotation(db, r, oldAccess, g), u)
  {
    var after := CommitRotation(db, r, oldAccess, g);
    forall a | a in after.sessions && after.sessions[a].user.id == u ensures a in Members(after.userSessions, u) {
      assert a != g.access.jti ==> a in db.sessions && a != oldAccess && after.sessions[a] == db.sessions[a];
    }
    forall fid | LiveIn(after, fid) && after.families[fid].body.value.userId == u
      ensures fid in Members(after.userFamilies, u)
    {
      assert fid != g.fid ==> LiveIn(db, fid) && after.families[fid] == db.families[fid];
    }
  }

  // ----- steps ----------------------------------------------------------------------

  lemma BuildIsCalm(s: State, pid: nat, c: RefreshClaims, target: Option<Project>, f: Family, r: TokenRecord,
                    g: Option<Gen>, ch: Choice)
    ensures BuildStep(s, pid, c, target, f, r, g, ch).db == s.db
  {
  }

  lemma RevokeIsCalm(s: State, pid: nat, fid: Id, reason: Reason, pc: RevokePc, u: Id)
    ensures Calm(s.db, RevokeStep(s, pid, fid, reason, pc).db, u)
  {
  }

  lemma RotateStepIsCalm(s: State, pid: nat, ch: Choice)
    requires pid in s.procs && s.procs[pid].Rotate? && !s.procs[pid].rpc.RReady?
    ensures ProcStep(s, pid, ch).db == s.db
  {
    var c, target, pc := s.procs[pid].c, s.procs[pid].target, s.procs[pid].rpc;
    if pc.RContext? { BuildIsCalm(s, pid, c, target, pc.f, pc.t, Built(s, c, pc.f, pc.ctx, ch), ch); }
  }

  lemma OtherStepIsCalm(s: State, pid: nat, ch: Choice, u: Id)
    requires pid in s.procs && !s.procs[pid].Done? && !s.procs[pid].Rotate?
    ensures Calm(s.db, ProcStep(s, pid, ch).db, u)
  {
    match s.procs[pid]
    case Revoke(f, reason, pc) => RevokeIsCalm(s, pid, f, reason, pc, u);
    case Classify(_, _, _) =>
    case Validate(_, _) =>
    case OAuth(_, _, _) =>
  }

  lemma BuiltIsCoherent(s: State, pid: nat, c: RefreshClaims, target: Option<Project>, pc: RotatePc)
    requires pc.RReady? && RotateOK(s, pid, c, target, pc)
    ensures Coherent(pc.g)
  {
  }

  lemma CommitStoresRotation(s: State, pid: nat, c: RefreshClaims, f: Family, r: TokenRecord, g: Gen)
    requires f.body.Some?
    ensures Commit(s, pid, c, f, r, g).db == CommitRotation(s.db, r, f.body.value.currentAccess, g)
  {
  }

  lemma ExecKeepsCover(s: State, pid: nat, ch: Choice, u: Id)
    requires pid in s.procs && s.procs[pid].Rotate? && s.procs[pid].rpc.RReady? && Coherent(s.procs[pid].rpc.g)
    requires Covered(s.db, u)
    ensures Covered(ProcStep(s, pid, ch).db, u)
  {
    var c, pc := s.procs[pid].c, s.procs[pid].rpc;
    if pc.f.body.Some? {
      CommitStoresRotation(s, pid, c, pc.f, pc.t, pc.g);
      RotationKeepsCover(s.db, pc.t, pc.f.body.value.currentAccess, pc.g, u);
    }
  }

  lemma StepKeepsCover(s: State, pid: nat, ch: Choice, u: Id)
    requires pid in s.procs && !s.procs[pid].Done? && ProcOK(s, pid, s.procs[pid]) && Covered(s.db, u)
    ensures Covered(ProcStep(s, pid, ch).db, u)
  {
    if !s.procs[pid].Rotate? {
      OtherStepIsCalm(s, pid, ch, u);
      CalmKeepsCover(s.db, ProcStep(s, pid, ch).db, u);
    } else if s.procs[pid].rpc.RReady? {
      BuiltIsCoherent(s, pid, s.procs[pid].c, s.procs[pid].target, s.procs[pid].rpc);
      ExecKeepsCover(s, pid, ch, u);
    } else {
      RotateStepIsCalm(s, pid, ch);
    }
  }

  lemma LapseKeepsCover(db: Store, k: Key, u: Id)
    requires Covered(db, u) && k != UserSessionsKey(u) && k != UserFamiliesKey(u)
    ensures Covered(Without(db, k), u)
  {
    assert Calm(db, Without(db, k), u);
  }

  lemma LapseLiveKeepsCover(db: Store, fid: Id, u: Id)
    requires Covered(db, u) && LiveIn(db, fid)
    ensures Covered(DropLive(db, fid), u)
  {
    assert Calm(db, DropLive(db, fid), u);
  }

  lemma SignInKeepsCover(s: State, a: Action, u: Id)
    requires a.SignInAs? && Enabled(s, a) && Covered(s.db, u)
    ensures Covered(Apply(s, a).db, u)
  {
    var g := SignIn(a.user, a.project, a.remember, s.now, a.fid, a.sid, a.access, a.refresh);
    SignInIsCoherent(a.user, a.project, a.remember, s.now, a.fid, a.sid, a.access, a.refresh);
    SignInStores(s, a, g);
    IssueKeepsCover(s.db, g, u);
  }

  lemma SignInStores(s: State, a: Action, g: Gen)
    requires a.SignInAs? && Enabled(s, a)
    requires g == SignIn(a.user, a.project, a.remember, s.now, a.fid, a.sid, a.access, a.refresh)
    ensures Apply(s, a).db == Issue(s.db, g)
  {
  }

  lemma ApplyKeepsCover(s: State, a: Action, u: Id)
    requires Inv(s) && Enabled(s, a) && Covered(s.db, u) && KeepsIndexes(a, u)
    ensures Covered(Apply(s, a).db, u)
  {
    match a
    case Tick(_) =>
    case Start(_, _) =>
    case SignInAs(_, _, _, _, _, _, _) => SignInKeepsCover(s, a, u);
    case Step(pid, ch) =>
      assert ProcOK(s, pid, s.procs[pid]);
      StepKeepsCover(s, pid, ch, u);
    case Lapse(k) => LapseKeepsCover(s.db, k, u);
    case LapseLive(fid) => LapseLiveKeepsCover(s.db, fid, u);
  }

  /** In every run from the empty store in which the user's index keys do not lapse, every stored
      session and every live family of the user is in the user's indexes. */
  lemma IndexesAreComplete(s: State, acts: seq<Action>, t: State, u: Id)
    requires Initial(s) && Run(s, acts, t) && forall a | a in acts :: KeepsIndexes(a, u)
    ensures Covered(t.db, u)
  {
    RunKeepsCover(s, acts, t, u);
  }

  lemma {:induction false} RunKeepsCover(s: State, acts: seq<Action>, t: State, u: Id)
    requires Inv(s) && Run(s, acts, t) && Covered(s.db, u) && forall a | a in acts :: KeepsIndexes(a, u)
    ensures Covered(t.db, u)
    decreases |acts|
  {
    if acts != [] {
      assert acts[0] in acts;
      ApplyKeepsInv(s, acts[0]);
      ApplyKeepsCover(s, acts[0], u);
      assert forall a | a in acts[1..] :: a in acts;
      RunKeepsCover(Apply(s, acts[0]), acts[1..], t, u);
    }
  }

  /** So ending all sign-ins of a user over complete indexes leaves the user without any session and
      without any live family. */
  lemma FullRevocationEndsEverything(db0: Store, db: Store, u: Id, reason: Reason)
    requires Covered(db0, u)
    requires Purged(db0, db, Members(db0.userFamilies, u), Members(db0.userSessions, u), reason)
    ensures forall a | a in db.sessions :: db.sessions[a].user.id != u
    ensures forall fid | LiveIn(db, fid) :: db.families[fid].body.value.userId != u
  {
    forall fid | LiveIn(db, fid) ensures db.families[fid].body.value.userId != u {
      assert Find(db.families, fid) == Some(db.families[fid]);
    }
  }

  /** And ending all others leaves exactly the sign-in that was named. */
  lemma OthersAreEnded(db0: Store, db: Store, u: Id, access: Id, family: Id, reason: Reason)
    requires Covered(db0, u)
    requires Purged(db0, db, Doomed(db0, u, Some(access), Some(family)), OtherSessions(db0, u, Some(access)), reason)
    ensures forall a | a in db.sessions && db.sessions[a].user.id == u :: a == access
    ensures forall fid | LiveIn(db, fid) && db.families[fid].body.value.userId == u :: fid == family
  {
    forall fid | LiveIn(db, fid) && db.families[fid].body.value.userId == u ensures fid == family {
      assert Find(db.families, fid) == Some(db.families[fid]);
    }
  }
}
