/** Every step of the rotation protocol keeps the invariant. */
module RotationPreservation {
  import opened Prelude
  import opened TokenFamily
  import opened RotationProtocol
  import opened RotationInvariant

  /** Enough to carry the invariant over one step: nothing moved under the other programs,
      Redis is still a view of the history, and the mover knows what its new point says. */
  lemma StepKeepsInv(s: State, t: State, mover: int)
    requires Inv(s) && Extends(s, t, mover) && StoreInv(t) && ContentInv(t)
    requires forall pid | pid in t.procs && pid != mover :: pid in s.procs && t.procs[pid] == s.procs[pid]
    requires forall pid | pid in t.procs && pid == mover :: ProcOK(t, pid, t.procs[pid])
    ensures Inv(t) && Advances(s, t)
  {
    forall pid | pid in t.procs ensures ProcOK(t, pid, t.procs[pid]) {
      if pid != mover {
        ProcIsStable(s, t, mover, pid, t.procs[pid]);
      }
    }
  }

  // ----- steps that commit nothing ---------------------------------------------------

  /** Nothing is committed; records vanish or turn dead; live families keep all they have. */
  ghost predicate Shrinks(s: State, t: State) {
    && t.hist == s.hist && t.spine == s.spine && t.byAccess == s.byAccess
    && s.now <= t.now && t.grace == s.grace
    && (forall i | i in s.drawn :: i in t.drawn && t.drawn[i] == s.drawn[i])
    && (forall fid | fid in t.db.families ::
          || (t.db.families[fid].id == fid && t.db.families[fid].status != Active)
          || (fid in s.db.families && t.db.families[fid] == s.db.families[fid]
              && (t.db.families[fid].Live() ==> Keeps(s, t, fid))))
    && (forall j | j in t.db.tokens :: j in s.db.tokens && t.db.tokens[j] == s.db.tokens[j])
    && (forall a | a in t.db.sessions :: a in s.db.sessions && t.db.sessions[a] == s.db.sessions[a])
    && (forall fid | fid in t.db.anchors :: fid in s.db.anchors && t.db.anchors[fid] == s.db.anchors[fid])
    && (forall u | u in t.db.userSessions :: u in s.db.userSessions && t.db.userSessions[u] == s.db.userSessions[u])
    && (forall u | u in t.db.userFamilies :: u in s.db.userFamilies && t.db.userFamilies[u] == s.db.userFamilies[u])
    && t.db.tombs <= s.db.tombs + s.spine.Keys && t.db.used.Keys <= s.db.used.Keys
  }

  ghost predicate Keeps(s: State, t: State, fid: Id)
    requires fid in t.db.families && t.db.families[fid].Live()
  {
    var cur := t.db.families[fid].body.value.currentRefresh;
    && (fid in t.db.tombs ==> fid in s.db.tombs)
    && Find(t.db.anchors, fid) == Find(s.db.anchors, fid)
    && Members(t.db.used, fid) == Members(s.db.used, fid)
    && Find(t.db.tokens, cur) == Find(s.db.tokens, cur)
  }

  lemma ShrinkKeepsHist(s: State, t: State)
    requires HistInv(s) && Shrinks(s, t)
    ensures HistInv(t)
  {
    forall j | j in t.hist ensures GenOK(t, j) { assert GenOK(s, j); }
    forall fid | fid in t.spine ensures LineOK(t, fid) { assert LineOK(s, fid); }
    forall a | a in t.byAccess ensures AccessOK(t, a) { assert AccessOK(s, a); }
  }

  lemma SameHistSameContent(s: State, t: State, j: Id)
    requires t.hist == s.hist && t.spine == s.spine && j in s.hist && ContentOK(s, j)
    ensures ContentOK(t, j)
  {
  }

  lemma ShrinkKeepsContent(s: State, t: State)
    requires ContentInv(s) && t.hist == s.hist && t.spine == s.spine
    ensures ContentInv(t)
  {
    forall j | j in t.hist ensures ContentOK(t, j) { SameHistSameContent(s, t, j); }
  }

  lemma ShrinkKeepsFamily(s: State, t: State, fid: Id)
    requires HistInv(s) && HistInv(t) && StoreInv(s) && Shrinks(s, t) && fid in t.db.families
    ensures FamilyOK(t, fid)
  {
    if t.db.families[fid].status == Active {
      assert FamilyOK(s, fid) && LiveOK(s, fid) && LineOK(s, fid);
      assert GenOK(s, s.spine[fid][|s.spine[fid]| - 1]);
    }
  }

  lemma ShrinkKeepsRecords(s: State, t: State, i: Id)
    requires HistInv(s) && HistInv(t) && Shrinks(s, t)
    ensures i in t.db.tokens && TokenOK(s, i) ==> TokenOK(t, i)
    ensures i in t.db.sessions && SessionOK(s, i) ==> SessionOK(t, i)
  {
  }

  lemma ShrinkKeepsIndexes(s: State, t: State, i: Id)
    requires HistInv(s) && HistInv(t) && Shrinks(s, t)
    ensures i in t.db.anchors && AnchorOK(s, i) ==> AnchorOK(t, i)
    ensures i in t.db.userSessions && UserSessionsOK(s, i) ==> UserSessionsOK(t, i)
    ensures i in t.db.userFamilies && UserFamiliesOK(s, i) ==> UserFamiliesOK(t, i)
  {
  }

  lemma ShrinkKeepsStore(s: State, t: State)
    requires HistInv(s) && HistInv(t) && StoreInv(s) && Shrinks(s, t)
    ensures StoreInv(t)
  {
    forall fid | fid in t.db.families ensures FamilyOK(t, fid) { ShrinkKeepsFamily(s, t, fid); }
    forall j | j in t.db.tokens ensures TokenOK(t, j) { ShrinkKeepsRecords(s, t, j); }
    forall a | a in t.db.sessions ensures SessionOK(t, a) { ShrinkKeepsRecords(s, t, a); }
    forall fid | fid in t.db.anchors ensures AnchorOK(t, fid) { ShrinkKeepsIndexes(s, t, fid); }
    forall u | u in t.db.userSessions ensures UserSessionsOK(t, u) { ShrinkKeepsIndexes(s, t, u); }
    forall u | u in t.db.userFamilies ensures UserFamiliesOK(t, u) { ShrinkKeepsIndexes(s, t, u); }
  }

  /** Only the bumped keys changed, and whoever watches one of them holds a spent or dead token. */
  ghost predicate Bumps(s: State, t: State, keys: set<Key>) {
    && t.ver == Bump(s.ver, keys)
    && (forall k: Key | k !in keys :: SameAt(s.db, t.db, k))
    && (forall j, k | j in s.hist && k in keys && k in RotationKeys(s.hist[j].refresh) :: SpentOrDead(t, j))
  }

  lemma BumpsAdvanceKeys(s: State, t: State, keys: set<Key>)
    requires Bumps(s, t, keys)
    ensures KeysAdvance(s, t)
  {
    assert forall k: Key :: Ver(t, k) == Ver(s, k) + (if k in keys then 1 else 0);
  }

  lemma ShrinkAdvances(s: State, t: State, mover: int)
    requires Shrinks(s, t)
    ensures HistAdvances(s, t, mover)
  {
  }

  lemma ShrinkKeepsInv(s: State, t: State, mover: int, keys: set<Key>)
    requires Inv(s) && Shrinks(s, t) && Bumps(s, t, keys)
    requires forall pid | pid in t.procs && pid != mover :: pid in s.procs && t.procs[pid] == s.procs[pid]
    requires forall pid | pid in t.procs && pid == mover :: ProcOK(t, pid, t.procs[pid])
    ensures Inv(t) && Advances(s, t)
  {
    ShrinkKeepsHist(s, t);
    ShrinkKeepsContent(s, t);
    ShrinkKeepsStore(s, t);
    BumpsAdvanceKeys(s, t, keys);
    ShrinkAdvances(s, t, mover);
    StepKeepsInv(s, t, mover);
  }

  /** The state apart from clock, draws and programs is the same. */
  ghost predicate SameCore(s: State, t: State) {
    && t.db == s.db && t.ver == s.ver && t.grace == s.grace && s.now <= t.now
    && t.hist == s.hist && t.spine == s.spine && t.byAccess == s.byAccess
    && forall i | i in s.drawn :: i in t.drawn && t.drawn[i] == s.drawn[i]
  }

  lemma SameCoreShrinks(s: State, t: State)
    requires SameCore(s, t)
    ensures Shrinks(s, t) && Bumps(s, t, {})
  {
    assert Bump(s.ver, {}) == s.ver;
  }

  lemma SameCoreKeepsInv(s: State, t: State, pid: int)
    requires Inv(s) && SameCore(s, t)
    requires forall q | q in t.procs && q != pid :: q in s.procs && t.procs[q] == s.procs[q]
    requires forall q | q in t.procs && q == pid :: ProcOK(t, q, t.procs[q])
    ensures Inv(t) && Advances(s, t)
  {
    SameCoreShrinks(s, t);
    ShrinkKeepsInv(s, t, pid, {});
  }

  lemma GotoKnows(s: State, t: State, pid: nat, p: Proc)
    requires HistInv(s) && HistInv(t) && Shrinks(s, t) && Bumps(s, t, {}) && ProcOK(s, pid, p)
    ensures ProcOK(t, pid, p)
  {
    BumpsAdvanceKeys(s, t, {});
    ShrinkAdvances(s, t, pid + 1);
    ProcIsStable(s, t, pid + 1, pid, p);
  }

  lemma GotoKeepsInv(s: State, t: State, pid: nat, p: Proc)
    requires Inv(s) && t == Goto(s, pid, p) && ProcOK(s, pid, p)
    ensures Inv(t) && Advances(s, t)
  {
    SameCoreShrinks(s, t);
    ShrinkKeepsHist(s, t);
    GotoKnows(s, t, pid, p);
    ShrinkKeepsInv(s, t, pid, {});
  }

  // ----- reading Redis ---------------------------------------------------------------

  /** Reading a family: a live value is the newest generation. */
  lemma ReadFamily(s: State, j: Id)
    requires HistInv(s) && StoreInv(s) && j in s.hist && s.hist[j].fid in s.db.families
    ensures CopyOK(s, j, s.db.families[s.hist[j].fid])
    ensures LiveIn(s.db, s.hist[j].fid) ==>
              (s.db.families[s.hist[j].fid].body.value.currentRefresh == j <==> !Spent(s, j))
    ensures LiveIn(s.db, s.hist[j].fid) && Spent(s, j) ==>
              s.hist[j].idx < s.hist[s.db.families[s.hist[j].fid].body.value.currentRefresh].idx
  {
    var fid := s.hist[j].fid;
    assert GenOK(s, j) && FamilyOK(s, fid) && LineOK(s, fid);
    if LiveIn(s.db, fid) {
      assert LiveOK(s, fid);
      assert GenOK(s, s.spine[fid][|s.spine[fid]| - 1]);
    }
  }

  /** Reading a token record: it is the recorded one, and a live family's newest token is there. */
  lemma ReadToken(s: State, j: Id)
    requires HistInv(s) && StoreInv(s) && j in s.hist
    ensures j in s.db.tokens ==> TokenCopyOK(s, j, s.db.tokens[j])
    ensures !(j in s.db.tokens && s.db.tokens[j].status == Current) ==> SpentOrDead(s, j)
  {
    assert GenOK(s, j);
    var fid := s.hist[j].fid;
    assert LineOK(s, fid);
    if j in s.db.tokens { assert TokenOK(s, j); }
    if LiveIn(s.db, fid) { assert FamilyOK(s, fid) && LiveOK(s, fid); }
  }

  /** The record of a spent token names its successor. */
  lemma ReadSpentToken(s: State, j: Id)
    requires HistInv(s) && StoreInv(s) && j in s.db.tokens && Spent(s, j)
    ensures s.db.tokens[j] == Spend(s.hist[j].token, Child(s, j))
  {
    assert TokenOK(s, j);
  }

  lemma ReadSession(s: State, g: Gen)
    requires HistInv(s) && StoreInv(s) && g.refresh.jti in s.hist && s.hist[g.refresh.jti] == g
    ensures g.access.jti in s.db.sessions ==> s.db.sessions[g.access.jti] == g.session
  {
    assert GenOK(s, g.refresh.jti);
    if g.access.jti in s.db.sessions { assert SessionOK(s, g.access.jti); }
  }

  lemma ReadAnchor(s: State, j: Id)
    requires HistInv(s) && StoreInv(s) && j in s.hist && s.hist[j].fid in s.db.anchors
    requires s.db.anchors[s.hist[j].fid].currentRefresh == j
    ensures s.db.anchors[s.hist[j].fid] == s.hist[j].anchor
  {
    var fid := s.hist[j].fid;
    assert GenOK(s, j) && AnchorOK(s, fid) && LineOK(s, fid);
    assert GenOK(s, s.spine[fid][|s.spine[fid]| - 1]);
  }

  // Each lemma below: the program point reached knows what it must know.

  lemma RotateReadsFamily(s: State, pid: nat, c: RefreshClaims, target: Option<Project>, ch: Choice)
    requires HistInv(s) && StoreInv(s) && RotateOK(s, pid, c, target, RStart)
    ensures ProcOK(s, pid, RotateStep(s, c, target, RStart, ch))
  {
    assert GenOK(s, c.jti);
    if c.familyId in s.db.families { ReadFamily(s, c.jti); }
  }

  lemma RotateReadsToken(s: State, pid: nat, c: RefreshClaims, target: Option<Project>, f: Family, ch: Choice)
    requires HistInv(s) && StoreInv(s) && RotateOK(s, pid, c, target, RFamily(f))
    ensures ProcOK(s, pid, RotateStep(s, c, target, RFamily(f), ch))
  {
    ReadToken(s, c.jti);
  }

  /** What the checks before the rotation proper tell: the copies are those of the presented token's
      generation, or the token is spent. */
  lemma CopiesTell(s: State, j: Id, f: Family, t: TokenRecord)
    requires HistInv(s) && j in s.hist && CopyOK(s, j, f) && TokenCopyOK(s, j, t) && f.Live()
    ensures f.body.value.currentRefresh == j && t.status == Current ==> CurrentCopies(s, j, f, t)
    ensures f.body.value.currentRefresh != j || t.status != Current ==> Spent(s, j)
  {
    assert GenOK(s, j) && GenOK(s, f.body.value.currentRefresh);
  }

  lemma RotateChecksCurrent(s: State, pid: nat, c: RefreshClaims, target: Option<Project>,
                            f: Family, t: TokenRecord, ch: Choice)
    requires HistInv(s) && c.jti in s.hist && s.hist[c.jti].refresh == c && s.hist[c.jti].fid == c.familyId
    requires f.Live() && f.body.value.currentRefresh == c.jti && t.status == Current ==> CurrentCopies(s, c.jti, f, t)
    requires f.Live() && (f.body.value.currentRefresh != c.jti || t.status != Current) ==> Spent(s, c.jti)
    ensures ProcOK(s, pid, RotateStep(s, c, target, RSeen(f, t), ch))
  {
  }

  lemma RotateReadsSession(s: State, pid: nat, c: RefreshClaims, target: Option<Project>,
                           f: Family, t: TokenRecord, ch: Choice)
    requires HistInv(s) && StoreInv(s) && RotateOK(s, pid, c, target, RCurrent(f, t))
    ensures ProcOK(s, pid, RotateStep(s, c, target, RCurrent(f, t), ch))
  {
    assert GenOK(s, c.jti);
    ReadSession(s, s.hist[c.jti]);
  }

  lemma RotateReadsAnchor(s: State, pid: nat, c: RefreshClaims, target: Option<Project>,
                          f: Family, t: TokenRecord, os: Option<Session>, ch: Choice)
    requires RotateOK(s, pid, c, target, RSession(f, t, os)) && c.familyId in s.spine
    requires c.familyId in s.db.anchors && s.db.anchors[c.familyId].currentRefresh == c.jti ==>
               s.db.anchors[c.familyId] == s.hist[c.jti].anchor
    ensures ProcOK(s, pid, RotateStep(s, c, target, RSession(f, t, os), ch))
  {
  }

  /** What a rotation builds is the successor of the generation it presented. */
  lemma RotateBuilds(s: State, pid: nat, c: RefreshClaims, target: Option<Project>,
                     f: Family, r: TokenRecord, ctx: Session, ch: Choice)
    requires RotateOK(s, pid, c, target, RContext(f, r, ctx))
    requires Coherent(s.hist[c.jti]) && s.hist[c.jti].at <= s.now
    requires Grants(ctx, ch.granted)
    ensures var g := Built(s, c, f, ctx, ch);
            g.Some? ==> Succeeds(s.hist[c.jti], g.value) && g.value.at == s.now
                        && g.value.refresh.jti == ch.refresh && g.value.access.jti == ch.access
  {
    var g := s.hist[c.jti];
    var src := if ctx == Retarget(g.session, target) then g.session else AnchorSeed(g.anchor);
    RotationSucceeds(g, src, target, ch.granted, s.now, ch.access, ch.refresh);
  }

  lemma RotateWatches(s: State, pid: nat, c: RefreshClaims, target: Option<Project>,
                      f: Family, t: TokenRecord, g: Gen, ch: Choice)
    requires RotateOK(s, pid, c, target, RBuilt(f, t, g))
    ensures ProcOK(s, pid, RotateStep(s, c, target, RBuilt(f, t, g), ch))
  {
  }

  lemma FamilyFitsUnlessSpent(s: State, c: RefreshClaims)
    requires HistInv(s) && StoreInv(s) && c.jti in s.hist && s.hist[c.jti].refresh == c
    ensures FamilyStillFits(c, Find(s.db.families, c.familyId)) || SpentOrDead(s, c.jti)
  {
    assert GenOK(s, c.jti);
    if c.familyId in s.db.families { ReadFamily(s, c.jti); }
  }

  lemma RotateRereadsFamily(s: State, pid: nat, c: RefreshClaims, target: Option<Project>,
                            f: Family, t: TokenRecord, g: Gen, snap: Snapshot, ch: Choice)
    requires RotateOK(s, pid, c, target, RWatched(f, t, g, snap))
    requires FamilyStillFits(c, Find(s.db.families, c.familyId)) || SpentOrDead(s, c.jti)
    ensures ProcOK(s, pid, RotateStep(s, c, target, RWatched(f, t, g, snap), ch))
  {
  }

  lemma RotateRereadsToken(s: State, pid: nat, c: RefreshClaims, target: Option<Project>,
                           f: Family, t: TokenRecord, g: Gen, snap: Snapshot, wf: Option<Family>, ch: Choice)
    requires RotateOK(s, pid, c, target, RFamilyAgain(f, t, g, snap, wf))
    requires c.jti in s.db.tokens ==> s.db.tokens[c.jti].digest == c
    requires TokenStillFits(Find(s.db.tokens, c.jti)) || SpentOrDead(s, c.jti)
    ensures ProcOK(s, pid, RotateStep(s, c, target, RFamilyAgain(f, t, g, snap, wf), ch))
  {
  }

  lemma RotateRechecks(s: State, pid: nat, c: RefreshClaims, target: Option<Project>, f: Family, t: TokenRecord,
                       g: Gen, snap: Snapshot, wf: Option<Family>, wt: Option<TokenRecord>, ch: Choice)
    requires HistInv(s) && StoreInv(s) && RotateOK(s, pid, c, target, RTokenAgain(f, t, g, snap, wf, wt))
    ensures ProcOK(s, pid, RotateStep(s, c, target, RTokenAgain(f, t, g, snap, wf, wt), ch))
  {
    assert GenOK(s, c.jti);
    if c.familyId in s.db.families { TombedIsDead(s, c.familyId); }
    RecheckIsSound(s, pid, c, target, f, t, g, snap, wf, wt, ch);
  }

  lemma TombedIsDead(s: State, fid: Id)
    requires HistInv(s) && fid in s.db.families && FamilyOK(s, fid)
    ensures fid in s.db.tombs ==> !LiveIn(s.db, fid)
  {
  }

  lemma RecheckIsSound(s: State, pid: nat, c: RefreshClaims, target: Option<Project>, f: Family, t: TokenRecord,
                       g: Gen, snap: Snapshot, wf: Option<Family>, wt: Option<TokenRecord>, ch: Choice)
    requires HistInv(s) && RotateOK(s, pid, c, target, RTokenAgain(f, t, g, snap, wf, wt))
    requires s.hist[c.jti].fid == c.familyId && (c.familyId in s.db.tombs ==> !LiveIn(s.db, c.familyId))
    ensures ProcOK(s, pid, RotateStep(s, c, target, RTokenAgain(f, t, g, snap, wf, wt), ch))
  {
  }

  lemma ClassifyReadsFamily(s: State, pid: nat, fid: Id, j: Id)
    requires HistInv(s) && StoreInv(s) && ClassifyOK(s, fid, j, CStart)
    ensures ProcOK(s, pid, ClassifyStep(s, fid, j, CStart))
  {
    if fid in s.db.families { ReadFamily(s, j); }
  }

  lemma ClassifyReadsToken(s: State, pid: nat, fid: Id, j: Id, f: Family)
    requires HistInv(s) && StoreInv(s) && ClassifyOK(s, fid, j, CFamily(f))
    ensures ProcOK(s, pid, ClassifyStep(s, fid, j, CFamily(f)))
  {
    assert GenOK(s, j);
    if f.Live() {
      assert GenOK(s, f.body.value.currentRefresh);
      if j in s.db.tokens { ReadSpentToken(s, j); }
    }
  }

  lemma ClassifyChecksFamily(s: State, pid: nat, fid: Id, j: Id, f: Family, t: TokenRecord)
    requires ClassifyOK(s, fid, j, CToken(f, t))
    ensures ProcOK(s, pid, ClassifyStep(s, fid, j, CToken(f, t)))
  {
    assert ClassifyOK(s, fid, j, CSeen(f, t));
  }

  lemma ClassifyChecksToken(s: State, pid: nat, fid: Id, j: Id, f: Family, t: TokenRecord)
    requires ClassifyOK(s, fid, j, CSeen(f, t))
    ensures ProcOK(s, pid, ClassifyStep(s, fid, j, CSeen(f, t)))
  {
    assert GenOK(s, j);
  }

  lemma ClassifyChecksUsed(s: State, pid: nat, fid: Id, j: Id, f: Family, t: TokenRecord)
    requires ClassifyOK(s, fid, j, CMember(f, t))
    ensures ProcOK(s, pid, ClassifyStep(s, fid, j, CMember(f, t)))
  {
    assert GenOK(s, j);
  }

  lemma ValidateSteps(s: State, pid: nat, a: AccessClaims, pc: ValidatePc, ch: Choice)
    requires ProcOK(s, pid, Validate(a, pc))
    requires LiveIn(s.db, a.familyId) ==> a.familyId in s.spine
    ensures ProcOK(s, pid, ValidateStep(s, a, pc, ch))
  {
  }

  lemma OAuthReadsFamily(s: State, pid: nat, r: Authorization, tries: nat, pc: OAuthPc, ch: Choice)
    requires OAuthOK(s, r, pc) && (pc.OStart? || pc.OWatched? || pc.OFamily?)
    ensures ProcOK(s, pid, OAuthStep(s, r, tries, pc, ch))
  {
  }

  lemma OAuthReadsSession(s: State, pid: nat, r: Authorization, tries: nat, pc: OAuthPc, ch: Choice)
    requires OAuthOK(s, r, pc) && (pc.OClear? || pc.OWatchedSession?)
    ensures ProcOK(s, pid, OAuthStep(s, r, tries, pc, ch))
  {
  }

  lemma OAuthDecides(s: State, pid: nat, r: Authorization, tries: nat, pc: OAuthPc, ch: Choice)
    requires OAuthOK(s, r, pc) && (pc.OSession? || pc.OReady?)
    requires LiveIn(s.db, r.familyId) ==> r.familyId in s.spine
    ensures ProcOK(s, pid, OAuthStep(s, r, tries, pc, ch))
  {
  }

  // ----- composing the local steps --------------------------------------------------

  lemma RotateReadsOK(s: State, pid: nat, c: RefreshClaims, target: Option<Project>, pc: RotatePc, ch: Choice)
    requires HistInv(s) && StoreInv(s) && RotateOK(s, pid, c, target, pc)
    requires pc.RStart? || pc.RFamily? || pc.RToken? || pc.RSeen? || pc.RCurrent? || pc.RSession?
    ensures ProcOK(s, pid, RotateStep(s, c, target, pc, ch))
  {
    assert GenOK(s, c.jti);
    match pc
    case RStart => RotateReadsFamily(s, pid, c, target, ch);
    case RFamily(f) => RotateReadsToken(s, pid, c, target, f, ch);
    case RToken(f, t) =>
    case RSeen(f, t) =>
      if f.Live() { CopiesTell(s, c.jti, f, t); }
      RotateChecksCurrent(s, pid, c, target, f, t, ch);
    case RCurrent(f, t) => RotateReadsSession(s, pid, c, target, f, t, ch);
    case RSession(f, t, os) =>
      if c.familyId in s.db.anchors && s.db.anchors[c.familyId].currentRefresh == c.jti { ReadAnchor(s, c.jti); }
      RotateReadsAnchor(s, pid, c, target, f, t, os, ch);
  }

  lemma RotateWatchesOK(s: State, pid: nat, c: RefreshClaims, target: Option<Project>, pc: RotatePc, ch: Choice)
    requires HistInv(s) && StoreInv(s) && RotateOK(s, pid, c, target, pc)
    requires pc.RBuilt? || pc.RWatched? || pc.RFamilyAgain? || pc.RTokenAgain?
    ensures ProcOK(s, pid, RotateStep(s, c, target, pc, ch))
  {
    assert GenOK(s, c.jti);
    match pc
    case RBuilt(f, t, g) => RotateWatches(s, pid, c, target, f, t, g, ch);
    case RWatched(f, t, g, snap) =>
      FamilyFitsUnlessSpent(s, c);
      RotateRereadsFamily(s, pid, c, target, f, t, g, snap, ch);
    case RFamilyAgain(f, t, g, snap, wf) =>
      ReadToken(s, c.jti);
      RotateRereadsToken(s, pid, c, target, f, t, g, snap, wf, ch);
    case RTokenAgain(f, t, g, snap, wf, wt) => RotateRechecks(s, pid, c, target, f, t, g, snap, wf, wt, ch);
  }

  lemma RotateLocalOK(s: State, pid: nat, c: RefreshClaims, target: Option<Project>, pc: RotatePc, ch: Choice)
    requires HistInv(s) && StoreInv(s) && RotateOK(s, pid, c, target, pc) && !pc.RContext? && !pc.RReady?
    ensures ProcOK(s, pid, RotateStep(s, c, target, pc, ch))
  {
    if pc.RBuilt? || pc.RWatched? || pc.RFamilyAgain? || pc.RTokenAgain? {
      RotateWatchesOK(s, pid, c, target, pc, ch);
    } else {
      RotateReadsOK(s, pid, c, target, pc, ch);
    }
  }

  lemma OtherLocalOK(s: State, pid: nat, p: Proc, ch: Choice)
    requires HistInv(s) && StoreInv(s) && ProcOK(s, pid, p)
    ensures p.Classify? ==> ProcOK(s, pid, ClassifyStep(s, p.fid, p.jti, p.cpc))
    ensures p.Validate? ==> ProcOK(s, pid, ValidateStep(s, p.a, p.apc, ch))
    ensures p.OAuth? ==> ProcOK(s, pid, OAuthStep(s, p.record, p.tries, p.opc, ch))
  {
    match p
    case Classify(fid, j, pc) =>
      match pc {
        case CStart => ClassifyReadsFamily(s, pid, fid, j);
        case CFamily(f) => ClassifyReadsToken(s, pid, fid, j, f);
        case CToken(f, t) => ClassifyChecksFamily(s, pid, fid, j, f, t);
        case CSeen(f, t) => ClassifyChecksToken(s, pid, fid, j, f, t);
        case CMember(f, t) => ClassifyChecksUsed(s, pid, fid, j, f, t);
      }
    case Validate(a, pc) =>
      assert a.familyId in s.db.families ==> FamilyOK(s, a.familyId);
      ValidateSteps(s, pid, a, pc, ch);
    case OAuth(r, tries, pc) =>
      assert r.familyId in s.db.families ==> FamilyOK(s, r.familyId);
      if pc.OStart? || pc.OWatched? || pc.OFamily? { OAuthReadsFamily(s, pid, r, tries, pc, ch); }
      else if pc.OClear? || pc.OWatchedSession? { OAuthReadsSession(s, pid, r, tries, pc, ch); }
      else { OAuthDecides(s, pid, r, tries, pc, ch); }
    case Rotate(_, _, _) =>
    case Revoke(_, _, _) =>
    case Done(_) =>
  }

  /** The state after a rotation drew its identifiers and built `g`. */
  function Drawn(s: State, pid: nat, p: Proc, access: Id, refresh: Id): State {
    Goto(s.(drawn := s.drawn[access := Pending(pid)][refresh := Pending(pid)]), pid, p)
  }

  lemma DrawKnows(s: State, t: State, pid: nat, c: RefreshClaims, target: Option<Project>, f: Family, r: TokenRecord,
                  g: Gen)
    requires Fresh(s, g.access.jti) && Fresh(s, g.refresh.jti) && g.access.jti != g.refresh.jti
    requires c.jti in s.hist && s.hist[c.jti].refresh == c && CurrentCopies(s, c.jti, f, r)
    requires Succeeds(s.hist[c.jti], g) && g.at == s.now
    requires t == Drawn(s, pid, Rotate(c, target, RBuilt(f, r, g)), g.access.jti, g.refresh.jti)
    ensures SameCore(s, t)
    ensures forall q | q in t.procs && q == pid :: ProcOK(t, q, t.procs[q])
    ensures forall q | q in t.procs && q != pid :: q in s.procs && t.procs[q] == s.procs[q]
  {
    assert RotateOK(t, pid, c, target, RBuilt(f, r, g));
  }

  lemma DrawKeepsInv(s: State, t: State, pid: nat, c: RefreshClaims, target: Option<Project>, f: Family, r: TokenRecord,
                     g: Gen)
    requires Inv(s) && Fresh(s, g.access.jti) && Fresh(s, g.refresh.jti) && g.access.jti != g.refresh.jti
    requires c.jti in s.hist && s.hist[c.jti].refresh == c && CurrentCopies(s, c.jti, f, r)
    requires Succeeds(s.hist[c.jti], g) && g.at == s.now
    requires t == Drawn(s, pid, Rotate(c, target, RBuilt(f, r, g)), g.access.jti, g.refresh.jti)
    ensures Inv(t) && Advances(s, t)
  {
    DrawKnows(s, t, pid, c, target, f, r, g);
    SameCoreKeepsInv(s, t, pid);
  }

  lemma BuildResults(s: State, t: State, pid: nat, c: RefreshClaims, target: Option<Project>,
                     f: Family, r: TokenRecord, g: Option<Gen>, ch: Choice)
    requires t == BuildStep(s, pid, c, target, f, r, g, ch)
    ensures ch.denied ==> t == Goto(s, pid, Revoke(c.familyId, OtherReason(1), VStart))
    ensures !ch.denied && g.None? ==> t == Goto(s, pid, Done(Refused))
    ensures !ch.denied && g.Some? ==> t == Drawn(s, pid, Rotate(c, target, RBuilt(f, r, g.value)), ch.access,
                                                 ch.refresh)
  {
  }

  lemma BuiltKeepsInv(s: State, t: State, pid: nat, c: RefreshClaims, target: Option<Project>,
                      f: Family, r: TokenRecord, ctx: Session, g: Gen, ch: Choice)
    requires Inv(s) && RotateOK(s, pid, c, target, RContext(f, r, ctx))
    requires Coherent(s.hist[c.jti]) && s.hist[c.jti].at <= s.now
    requires Grants(ctx, ch.granted) && ch.access != ch.refresh && Fresh(s, ch.access) && Fresh(s, ch.refresh)
    requires Built(s, c, f, ctx, ch) == Some(g)
    requires t == Drawn(s, pid, Rotate(c, target, RBuilt(f, r, g)), ch.access, ch.refresh)
    ensures Inv(t) && Advances(s, t)
  {
    RotateBuilds(s, pid, c, target, f, r, ctx, ch);
    DrawKeepsInv(s, t, pid, c, target, f, r, g);
  }

  lemma BuildStops(s: State, t: State, pid: nat, c: RefreshClaims, target: Option<Project>,
                   f: Family, r: TokenRecord, g: Option<Gen>, ch: Choice)
    requires Inv(s) && c.familyId in s.spine && (ch.denied || g.None?)
    requires t == BuildStep(s, pid, c, target, f, r, g, ch)
    ensures Inv(t) && Advances(s, t)
  {
    BuildResults(s, t, pid, c, target, f, r, g, ch);
    GotoKeepsInv(s, t, pid, if ch.denied then Revoke(c.familyId, OtherReason(1), VStart) else Done(Refused));
  }

  lemma BuildKeepsInv(s: State, t: State, pid: nat, c: RefreshClaims, target: Option<Project>,
                      f: Family, r: TokenRecord, ctx: Session, ch: Choice)
    requires Inv(s) && RotateOK(s, pid, c, target, RContext(f, r, ctx))
    requires Coherent(s.hist[c.jti]) && s.hist[c.jti].at <= s.now && c.familyId in s.spine
    requires !ch.denied ==>
               Grants(ctx, ch.granted) && ch.access != ch.refresh && Fresh(s, ch.access) && Fresh(s, ch.refresh)
    requires t == BuildStep(s, pid, c, target, f, r, Built(s, c, f, ctx, ch), ch)
    ensures Inv(t) && Advances(s, t)
  {
    var g := Built(s, c, f, ctx, ch);
    if ch.denied || g.None? {
      BuildStops(s, t, pid, c, target, f, r, g, ch);
    } else {
      BuildResults(s, t, pid, c, target, f, r, g, ch);
      BuiltKeepsInv(s, t, pid, c, target, f, r, ctx, g.value, ch);
    }
  }

  /** The local steps of a rotation, drawing identifiers included. */
  lemma RotateKeepsInv(s: State, t: State, pid: nat, c: RefreshClaims, target: Option<Project>, pc: RotatePc,
                       ch: Choice)
    requires Inv(s) && pid in s.procs && s.procs[pid] == Rotate(c, target, pc) && !pc.RReady? && !pc.RContext?
    requires t == Goto(s, pid, RotateStep(s, c, target, pc, ch))
    ensures Inv(t) && Advances(s, t)
  {
    assert ProcOK(s, pid, s.procs[pid]);
    RotateLocalOK(s, pid, c, target, pc, ch);
    GotoKeepsInv(s, t, pid, RotateStep(s, c, target, pc, ch));
  }

  // ----- steps that take something out of Redis -------------------------------------

  /** Recorded generations carry their own identifiers. */
  ghost predicate Labelled(s: State) {
    forall j | j in s.hist :: s.hist[j].refresh.jti == j && s.hist[j].refresh.familyId == s.hist[j].fid
  }

  lemma HistIsLabelled(s: State)
    requires HistInv(s)
    ensures Labelled(s)
  {
    forall j | j in s.hist ensures s.hist[j].refresh.jti == j && s.hist[j].refresh.familyId == s.hist[j].fid {
      assert GenOK(s, j);
    }
  }

  /** Touching keys of a dead family disturbs no one who could still win. */
  lemma DeadFamilyBumps(s: State, t: State, fid: Id, keys: set<Key>)
    requires Labelled(s) && t.hist == s.hist && t.ver == Bump(s.ver, keys) && !LiveIn(t.db, fid)
    requires keys <= {FamilyKey(fid), AnchorKey(fid), TombKey(fid), UsedKey(fid)}
    requires forall k: Key | k !in keys :: SameAt(s.db, t.db, k)
    ensures Bumps(s, t, keys)
  {
  }

  lemma SetFamilyShrinks(s: State, t: State, fid: Id, copy: Option<Family>, reason: Reason)
    requires t.db == s.db.(families := s.db.families[fid := RevokedCopy(fid, copy, reason)])
    requires t == s.(db := t.db, ver := Bump(s.ver, {FamilyKey(fid)}), procs := t.procs)
    requires copy.Some? ==> copy.value.id == fid
    ensures Shrinks(s, t) && !LiveIn(t.db, fid)
    ensures forall k: Key | k != FamilyKey(fid) :: SameAt(s.db, t.db, k)
  {
  }

  lemma SetTombShrinks(s: State, t: State, fid: Id)
    requires t == s.(db := s.db.(tombs := s.db.tombs + {fid}), ver := Bump(s.ver, {TombKey(fid)}), procs := t.procs)
    requires !LiveIn(s.db, fid) && fid in s.spine
    ensures Shrinks(s, t) && !LiveIn(t.db, fid)
    ensures forall k: Key | k != TombKey(fid) :: SameAt(s.db, t.db, k)
  {
  }

  /** Dropping a record that no live family depends on. */
  lemma DropShrinks(s: State, t: State, k: Key)
    requires MayLapseAlone(s.db, k) && !k.TokenKey?
    requires t == s.(db := Without(s.db, k), ver := Bump(s.ver, {k}), procs := t.procs)
    ensures Shrinks(s, t)
  {
    forall fid | fid in t.db.families && t.db.families[fid].Live() ensures Keeps(s, t, fid) {
    }
  }

  lemma DropTouchesOneKey(s: State, t: State, k: Key)
    requires t.db == Without(s.db, k)
    ensures forall k': Key | k' != k :: SameAt(s.db, t.db, k')
  {
  }

  /** The current token of a live family is on record as current. */
  lemma LiveTokenIsCurrent(s: State, fid: Id)
    requires HistInv(s) && StoreInv(s) && LiveIn(s.db, fid)
    ensures var cur := s.db.families[fid].body.value.currentRefresh;
            cur in s.db.tokens && s.db.tokens[cur].status == Current && s.db.tokens[cur].familyId == fid
            && cur in s.hist && s.hist[cur].fid == fid
  {
    assert FamilyOK(s, fid) && LiveOK(s, fid) && LineOK(s, fid);
    assert GenOK(s, s.spine[fid][|s.spine[fid]| - 1]);
  }

  /** Dropping the record of a spent token, or of a token of a dead family. */
  lemma DropTokenShrinks(s: State, t: State, j: Id)
    requires forall fid | LiveIn(s.db, fid) :: s.db.families[fid].body.value.currentRefresh != j
    requires t == s.(db := Without(s.db, TokenKey(j)), ver := Bump(s.ver, {TokenKey(j)}), procs := t.procs)
    ensures Shrinks(s, t)
  {
    forall fid | fid in t.db.families && t.db.families[fid].Live() ensures Keeps(s, t, fid) {
      assert LiveIn(s.db, fid);
    }
  }

  lemma SetFamilyKeepsInv(s: State, t: State, pid: nat, fid: Id, reason: Reason, copy: Option<Family>)
    requires Inv(s) && pid in s.procs && s.procs[pid] == Revoke(fid, reason, VRead(copy))
    requires t == RevokeStep(s, pid, fid, reason, VRead(copy))
    ensures Inv(t) && Advances(s, t)
  {
    assert ProcOK(s, pid, s.procs[pid]);
    SetFamilyShrinks(s, t, fid, copy, reason);
    HistIsLabelled(s);
    DeadFamilyBumps(s, t, fid, {FamilyKey(fid)});
    ShrinkKeepsInv(s, t, pid, {FamilyKey(fid)});
  }

  lemma SetTombKeepsInv(s: State, t: State, pid: nat, fid: Id, reason: Reason)
    requires Inv(s) && pid in s.procs && s.procs[pid] == Revoke(fid, reason, VTomb)
    requires t == RevokeStep(s, pid, fid, reason, VTomb)
    ensures Inv(t) && Advances(s, t)
  {
    assert ProcOK(s, pid, s.procs[pid]);
    SetTombShrinks(s, t, fid);
    HistIsLabelled(s);
    DeadFamilyBumps(s, t, fid, {TombKey(fid)});
    ShrinkKeepsInv(s, t, pid, {TombKey(fid)});
  }

  lemma DropAnchorKeepsInv(s: State, t: State, pid: nat, fid: Id, reason: Reason)
    requires Inv(s) && pid in s.procs && s.procs[pid] == Revoke(fid, reason, VAnchor)
    requires t == RevokeStep(s, pid, fid, reason, VAnchor)
    ensures Inv(t) && Advances(s, t)
  {
    assert ProcOK(s, pid, s.procs[pid]);
    DroppedAnchorKeepsInv(s, t, pid, fid);
  }

  lemma DroppedAnchorKeepsInv(s: State, t: State, pid: nat, fid: Id)
    requires Inv(s) && !LiveIn(s.db, fid)
    requires t == s.(db := Without(s.db, AnchorKey(fid)), ver := Bump(s.ver, {AnchorKey(fid)}),
                     procs := s.procs[pid := Done(RevokedFamily(fid))])
    ensures Inv(t) && Advances(s, t)
  {
    HistIsLabelled(s);
    DropAnchorBumps(s, t, fid);
    EndKeepsInv(s, t, pid, RevokedFamily(fid), {AnchorKey(fid)});
  }

  /** A program that ends with nothing issued leaves nothing to know about it. */
  lemma EndKeepsInv(s: State, t: State, pid: nat, o: Outcome, keys: set<Key>)
    requires Inv(s) && Shrinks(s, t) && Bumps(s, t, keys) && t.procs == s.procs[pid := Done(o)] && !o.Rotated?
    ensures Inv(t) && Advances(s, t)
  {
    ShrinkKeepsInv(s, t, pid, keys);
  }

  lemma DropAnchorBumps(s: State, t: State, fid: Id)
    requires Labelled(s) && !LiveIn(s.db, fid)
    requires t == s.(db := Without(s.db, AnchorKey(fid)), ver := Bump(s.ver, {AnchorKey(fid)}), procs := t.procs)
    ensures Shrinks(s, t) && Bumps(s, t, {AnchorKey(fid)})
  {
    DropShrinks(s, t, AnchorKey(fid));
    DropTouchesOneKey(s, t, AnchorKey(fid));
    DeadFamilyBumps(s, t, fid, {AnchorKey(fid)});
  }

  lemma RevokeKeepsInv(s: State, t: State, pid: nat, fid: Id, reason: Reason, pc: RevokePc)
    requires Inv(s) && pid in s.procs && s.procs[pid] == Revoke(fid, reason, pc)
    requires t == RevokeStep(s, pid, fid, reason, pc)
    ensures Inv(t) && Advances(s, t)
  {
    match pc
    case VStart =>
      assert ProcOK(s, pid, s.procs[pid]);
      assert fid in s.db.families ==> FamilyOK(s, fid);
      GotoKeepsInv(s, t, pid, Revoke(fid, reason, VRead(Find(s.db.families, fid))));
    case VRead(copy) => SetFamilyKeepsInv(s, t, pid, fid, reason, copy);
    case VTomb => SetTombKeepsInv(s, t, pid, fid, reason);
    case VAnchor => DropAnchorKeepsInv(s, t, pid, fid, reason);
  }

  lemma TombsAreDead(s: State)
    requires HistInv(s) && StoreInv(s)
    ensures forall fid | fid in s.db.tombs :: !LiveIn(s.db, fid)
  {
    forall fid | fid in s.db.tombs ensures !LiveIn(s.db, fid) {
      assert fid in s.db.families ==> FamilyOK(s, fid);
    }
  }

  /** Whoever watches a lapsing record holds a spent or dead token. */
  lemma LapseBumps(s: State, t: State, k: Key)
    requires Labelled(s) && MayLapseAlone(s.db, k) && !k.TokenKey?
    requires forall fid | fid in s.db.tombs :: !LiveIn(s.db, fid)
    requires t == s.(db := Without(s.db, k), ver := Bump(s.ver, {k}))
    ensures Bumps(s, t, {k})
  {
    DropTouchesOneKey(s, t, k);
  }

  lemma LapsingTokenIsOver(s: State, t: State, j: Id)
    requires HistInv(s) && StoreInv(s) && MayLapseAlone(s.db, TokenKey(j))
    requires t.hist == s.hist && t.spine == s.spine && t.db.families == s.db.families
    ensures SpentOrDead(t, j)
    ensures forall fid | LiveIn(s.db, fid) :: s.db.families[fid].body.value.currentRefresh != j
  {
    assert TokenOK(s, j) && GenOK(s, j);
    forall fid | LiveIn(s.db, fid) ensures s.db.families[fid].body.value.currentRefresh != j {
      LiveTokenIsCurrent(s, fid);
    }
  }

  lemma LapseKeepsInv(s: State, t: State, k: Key)
    requires Inv(s) && MayLapseAlone(s.db, k) && !k.TokenKey?
    requires t == s.(db := Without(s.db, k), ver := Bump(s.ver, {k}))
    ensures Inv(t) && Advances(s, t)
  {
    HistIsLabelled(s);
    TombsAreDead(s);
    LapseBumps(s, t, k);
    DropShrinks(s, t, k);
    ShrinkKeepsInv(s, t, -1, {k});
  }

  lemma LapseTokenBumps(s: State, t: State, j: Id)
    requires Labelled(s) && SpentOrDead(t, j)
    requires t == s.(db := Without(s.db, TokenKey(j)), ver := Bump(s.ver, {TokenKey(j)}))
    ensures Bumps(s, t, {TokenKey(j)})
  {
    DropTouchesOneKey(s, t, TokenKey(j));
  }

  lemma LapseTokenKeepsInv(s: State, t: State, j: Id)
    requires Inv(s) && MayLapseAlone(s.db, TokenKey(j))
    requires t == s.(db := Without(s.db, TokenKey(j)), ver := Bump(s.ver, {TokenKey(j)}))
    ensures Inv(t) && Advances(s, t)
  {
    HistIsLabelled(s);
    LapsingTokenIsOver(s, t, j);
    DropTokenShrinks(s, t, j);
    LapseTokenBumps(s, t, j);
    ShrinkKeepsInv(s, t, -1, {TokenKey(j)});
  }

  /** The records of a live family lapsing together. */
  lemma LapseLiveShrinks(s: State, t: State, fid: Id)
    requires LiveIn(s.db, fid)
    requires forall f | LiveIn(s.db, f) && f != fid ::
               s.db.families[f].body.value.currentRefresh != s.db.families[fid].body.value.currentRefresh
    requires t == s.(db := DropLive(s.db, fid), ver := Bump(s.ver, LapseLiveKeys(s.db, fid)))
    ensures Shrinks(s, t)
  {
    forall f | f in t.db.families && t.db.families[f].Live() ensures Keeps(s, t, f) {
      assert LiveIn(s.db, f);
    }
  }

  lemma LapseLiveBumps(s: State, t: State, fid: Id)
    requires Labelled(s) && LiveIn(s.db, fid)
    requires var cur := s.db.families[fid].body.value.currentRefresh; cur in s.hist && s.hist[cur].fid == fid
    requires t == s.(db := DropLive(s.db, fid), ver := Bump(s.ver, LapseLiveKeys(s.db, fid)))
    ensures Bumps(s, t, LapseLiveKeys(s.db, fid))
  {
  }

  lemma LapseLiveKeepsInv(s: State, t: State, fid: Id)
    requires Inv(s) && LiveIn(s.db, fid)
    requires t == s.(db := DropLive(s.db, fid), ver := Bump(s.ver, LapseLiveKeys(s.db, fid)))
    ensures Inv(t) && Advances(s, t)
  {
    forall f | LiveIn(s.db, f)
      ensures var cur := s.db.families[f].body.value.currentRefresh; cur in s.hist && s.hist[cur].fid == f
    {
      LiveTokenIsCurrent(s, f);
    }
    HistIsLabelled(s);
    LapseLiveShrinks(s, t, fid);
    LapseLiveBumps(s, t, fid);
    ShrinkKeepsInv(s, t, -1, LapseLiveKeys(s.db, fid));
  }

  // ----- steps that commit a generation ---------------------------------------------

  ghost function Line(s: State, fid: Id): seq<Id> {
    if fid in s.spine then s.spine[fid] else []
  }

  /** `t` records one more generation, the newest of its family. */
  ghost predicate Grows(s: State, t: State, g: Gen) {
    var j, a := g.refresh.jti, g.access.jti;
    && j !in s.hist && a !in s.byAccess
    && Tagged(g) && g.idx == |Line(s, g.fid)| && g.at <= s.now
    && t.now == s.now && t.grace == s.grace
    && t.hist == s.hist[j := g] && t.spine == s.spine[g.fid := Line(s, g.fid) + [j]]
    && t.byAccess == s.byAccess[a := j]
    && j in t.drawn && t.drawn[j].Committed? && a in t.drawn && t.drawn[a].Committed? && g.fid in t.drawn
    && forall i | i in s.drawn :: i in t.drawn && (s.drawn[i].Committed? ==> t.drawn[i] == s.drawn[i])
  }

  lemma GrowKeepsGen(s: State, t: State, g: Gen, j: Id)
    requires Grows(s, t, g) && j in s.hist && GenOK(s, j)
    ensures j in t.hist && GenOK(t, j)
  {
  }

  lemma GrowKeepsLine(s: State, t: State, g: Gen, fid: Id)
    requires Grows(s, t, g) && fid in t.spine && (fid in s.spine ==> LineOK(s, fid))
    ensures LineOK(t, fid)
  {
  }

  lemma GrowKeepsHist(s: State, t: State, g: Gen)
    requires HistInv(s) && Grows(s, t, g)
    ensures HistInv(t)
  {
    forall j | j in t.hist ensures GenOK(t, j) {
      if j != g.refresh.jti { GrowKeepsGen(s, t, g, j); }
    }
    forall fid | fid in t.spine ensures LineOK(t, fid) { GrowKeepsLine(s, t, g, fid); }
    forall a | a in t.byAccess ensures AccessOK(t, a) {
      if a != g.access.jti { assert AccessOK(s, a); }
    }
  }

  lemma GrowKeepsContentAt(s: State, t: State, g: Gen, j: Id)
    requires Grows(s, t, g) && j in s.hist && GenOK(s, j) && ContentOK(s, j)
    ensures j in t.hist && ContentOK(t, j)
  {
  }

  lemma NewContent(s: State, t: State, g: Gen)
    requires Grows(s, t, g) && Coherent(g) && (g.idx > 0 ==> g.fid in s.spine && LineOK(s, g.fid))
    requires if g.idx > 0 then Succeeds(s.hist[s.spine[g.fid][g.idx - 1]], g) else Original(g)
    ensures ContentOK(t, g.refresh.jti)
  {
  }

  lemma GrowKeepsContent(s: State, t: State, g: Gen)
    requires HistInv(s) && ContentInv(s) && Grows(s, t, g) && Coherent(g)
    requires if g.idx > 0 then Succeeds(Last(s, g.fid), g) else Original(g)
    ensures ContentInv(t)
  {
    NewestContent(s, t, g);
    GrowKeepsOldContent(s, t, g);
    HistGrowsByOne(s, t, g);
  }

  lemma HistGrowsByOne(s: State, t: State, g: Gen)
    requires Grows(s, t, g)
    ensures forall j | j in t.hist :: j in s.hist || j == g.refresh.jti
  {
  }

  lemma NewestContent(s: State, t: State, g: Gen)
    requires HistInv(s) && Grows(s, t, g) && Coherent(g)
    requires if g.idx > 0 then Succeeds(Last(s, g.fid), g) else Original(g)
    ensures g.refresh.jti in t.hist && ContentOK(t, g.refresh.jti)
  {
    assert g.idx > 0 ==> LineOK(s, g.fid);
    NewContent(s, t, g);
  }

  lemma GrowKeepsOldContent(s: State, t: State, g: Gen)
    requires HistInv(s) && ContentInv(s) && Grows(s, t, g)
    ensures forall j | j in s.hist :: j in t.hist && ContentOK(t, j)
  {
    forall j | j in s.hist ensures j in t.hist && ContentOK(t, j) {
      assert GenOK(s, j) && ContentOK(s, j);
      GrowKeepsContentAt(s, t, g, j);
    }
  }

  /** Committing spends the previous newest token and changes nothing about the others. */
  lemma GrowSpends(s: State, t: State, g: Gen, j: Id)
    requires Grows(s, t, g) && j in s.hist && GenOK(s, j)
    ensures j in t.hist && t.hist[j] == s.hist[j]
    ensures s.hist[j].fid == g.fid ==> Spent(t, j)
    ensures s.hist[j].fid != g.fid ==> (Spent(t, j) <==> Spent(s, j))
    ensures Spent(s, j) ==> Spent(t, j)
  {
  }

  lemma GrowKeepsChild(s: State, t: State, g: Gen, j: Id)
    requires HistInv(s) && HistInv(t) && Grows(s, t, g) && Spent(s, j)
    ensures Spent(t, j) && Child(t, j) == Child(s, j)
  {
    assert GenOK(s, j);
    GrowSpends(s, t, g, j);
    assert LineOK(s, s.hist[j].fid);
  }

  /** What a commit of `g` leaves in Redis, compared with before. */
  ghost predicate Writes(s: State, t: State, g: Gen) {
    var j, a, fid, u := g.refresh.jti, g.access.jti, g.fid, g.session.user.id;
    && t.db.families == s.db.families[fid := g.family] && t.db.anchors == s.db.anchors[fid := g.anchor]
    && t.db.tombs == s.db.tombs && fid !in t.db.tombs
    && Find(t.db.tokens, j) == Some(g.token) && s.db.tokens.Keys <= t.db.tokens.Keys
    && (forall i | i in t.db.tokens && i != j :: TokenAfter(s, t, g, i))
    && (forall b | b in t.db.sessions && b != a ::
          b in s.db.sessions && t.db.sessions[b] == s.db.sessions[b]
          && b in s.byAccess && s.byAccess[b] in s.hist && s.hist[s.byAccess[b]].fid != fid)
    && Find(t.db.sessions, a) == Some(g.session)
    && (forall v | v in t.db.userSessions ::
          t.db.userSessions[v] <= Members(s.db.userSessions, v) + (if v == u then {a} else {}))
    && (forall v | v in t.db.userFamilies ::
          t.db.userFamilies[v] <= Members(s.db.userFamilies, v) + (if v == u then {fid} else {}))
    && (forall f | f != fid :: Members(t.db.used, f) == Members(s.db.used, f))
    && Members(t.db.used, fid) == Elems(Line(s, fid))
    && t.db.used.Keys <= s.db.used.Keys + {fid}
  }

  /** Other token records stay, except that the previous newest one is now spent. */
  ghost predicate TokenAfter(s: State, t: State, g: Gen, i: Id)
    requires i in t.db.tokens
  {
    && i in s.db.tokens && i in s.hist
    && t.db.tokens[i] ==
         (if s.hist[i].fid == g.fid && !Spent(s, i) then Spend(s.hist[i].token, g) else s.db.tokens[i])
  }

  lemma GrowKeepsLast(s: State, t: State, g: Gen, fid: Id)
    requires HistInv(s) && HistInv(t) && Grows(s, t, g) && fid in t.spine
    ensures Last(t, g.fid) == g
    ensures fid != g.fid ==> fid in s.spine && Last(t, fid) == Last(s, fid)
  {
    if fid != g.fid { assert LineOK(s, fid); }
  }

  lemma GrowMakesLive(s: State, t: State, g: Gen)
    requires HistInv(s) && HistInv(t) && Grows(s, t, g) && Writes(s, t, g)
    ensures FamilyOK(t, g.fid)
  {
    GrowKeepsLast(s, t, g, g.fid);
    var line := Line(s, g.fid);
    assert t.spine[g.fid] == line + [g.refresh.jti];
    assert t.spine[g.fid][..|line|] == line;
  }

  lemma GrowKeepsFamily(s: State, t: State, g: Gen, fid: Id)
    requires HistInv(s) && HistInv(t) && Grows(s, t, g) && Writes(s, t, g)
    requires fid != g.fid && fid in s.db.families && FamilyOK(s, fid)
    ensures FamilyOK(t, fid)
  {
    if s.db.families[fid].Live() {
      GrowKeepsLast(s, t, g, fid);
      assert LineOK(s, fid);
      var last := s.spine[fid][|s.spine[fid]| - 1];
      assert GenOK(s, last);
      assert TokenAfter(s, t, g, last);
    }
  }

  lemma NewestIsChild(s: State, t: State, g: Gen, j: Id)
    requires HistInv(s) && HistInv(t) && Grows(s, t, g) && j in s.hist && s.hist[j].fid == g.fid && !Spent(s, j)
    ensures Spent(t, j) && Child(t, j) == g
  {
    NewestIsLast(s, g.fid, j);
    GrownLine(s, t, g, s.hist[j].idx + 1);
    assert LineOK(t, g.fid);
  }

  lemma GrownLine(s: State, t: State, g: Gen, i: nat)
    requires Grows(s, t, g) && g.fid in s.spine && i == |s.spine[g.fid]|
    ensures g.fid in t.spine && |t.spine[g.fid]| == i + 1 && t.spine[g.fid][i] == g.refresh.jti
    ensures t.hist == s.hist[g.refresh.jti := g] && g.refresh.jti !in s.hist
  {
  }

  lemma NewestIsLast(s: State, fid: Id, j: Id)
    requires HistInv(s) && j in s.hist && s.hist[j].fid == fid && !Spent(s, j)
    ensures fid in s.spine && s.hist[j].idx + 1 == |s.spine[fid]|
  {
    assert GenOK(s, j);
  }

  lemma GrowKeepsToken(s: State, t: State, g: Gen, j: Id)
    requires HistInv(s) && HistInv(t) && Grows(s, t, g)
    requires j in s.db.tokens && j in t.db.tokens && TokenOK(s, j) && TokenAfter(s, t, g, j)
    ensures TokenOK(t, j)
  {
    if Spent(s, j) {
      GrowKeepsChild(s, t, g, j);
    } else if s.hist[j].fid == g.fid {
      NewestIsChild(s, t, g, j);
    } else {
      assert GenOK(s, j);
      GrowSpends(s, t, g, j);
    }
  }

  lemma GrowKeepsSession(s: State, t: State, g: Gen, a: Id)
    requires HistInv(s) && HistInv(t) && Grows(s, t, g) && Writes(s, t, g)
    requires a in t.db.sessions && a != g.access.jti && a in s.db.sessions && SessionOK(s, a)
    ensures SessionOK(t, a)
  {
    assert GenOK(s, s.byAccess[a]);
    GrowSpends(s, t, g, s.byAccess[a]);
  }

  lemma GrowKeepsUserSessions(s: State, t: State, g: Gen, u: Id)
    requires Grows(s, t, g) && Writes(s, t, g) && (u in s.db.userSessions ==> UserSessionsOK(s, u))
    ensures u in t.db.userSessions ==> UserSessionsOK(t, u)
  {
  }

  lemma GrowKeepsOwner(s: State, t: State, g: Gen, u: Id, fid: Id)
    requires HistInv(s) && HistInv(t) && Grows(s, t, g)
    requires g.fid in s.spine ==> Last(s, g.fid).session.user.id == g.session.user.id
    requires (u == g.session.user.id && fid == g.fid) || (fid in s.spine && Last(s, fid).session.user.id == u)
    ensures fid in t.spine && Last(t, fid).session.user.id == u
  {
    GrowKeepsLast(s, t, g, fid);
  }

  lemma GrowKeepsUserFamilies(s: State, t: State, g: Gen, u: Id)
    requires HistInv(s) && HistInv(t) && Grows(s, t, g)
    requires g.fid in s.spine ==> Last(s, g.fid).session.user.id == g.session.user.id
    requires u in t.db.userFamilies && (u in s.db.userFamilies ==> UserFamiliesOK(s, u))
    requires t.db.userFamilies[u] <= Members(s.db.userFamilies, u) + (if u == g.session.user.id then {g.fid} else {})
    ensures UserFamiliesOK(t, u)
  {
    forall fid | fid in t.db.userFamilies[u] ensures fid in t.spine && Last(t, fid).session.user.id == u {
      GrowKeepsOwner(s, t, g, u, fid);
    }
  }

  lemma GrowKeepsRecords(s: State, t: State, g: Gen)
    requires HistInv(s) && HistInv(t) && StoreInv(s) && Grows(s, t, g) && Writes(s, t, g)
    ensures forall j | j in t.db.tokens :: TokenOK(t, j)
    ensures forall a | a in t.db.sessions :: SessionOK(t, a)
  {
    forall j | j in t.db.tokens ensures TokenOK(t, j) {
      if j != g.refresh.jti {
        assert TokenAfter(s, t, g, j);
        GrowKeepsToken(s, t, g, j);
      }
    }
    forall a | a in t.db.sessions ensures SessionOK(t, a) {
      if a != g.access.jti { GrowKeepsSession(s, t, g, a); }
    }
  }

  lemma GrowKeepsStore(s: State, t: State, g: Gen)
    requires HistInv(s) && HistInv(t) && StoreInv(s) && Grows(s, t, g) && Writes(s, t, g)
    requires g.fid in s.spine ==> Last(s, g.fid).session.user.id == g.session.user.id
    ensures StoreInv(t)
  {
    forall fid | fid in t.db.families ensures FamilyOK(t, fid) {
      if fid == g.fid { GrowMakesLive(s, t, g); } else { GrowKeepsFamily(s, t, g, fid); }
    }
    GrowKeepsRecords(s, t, g);
    forall fid | fid in t.db.anchors ensures AnchorOK(t, fid) {
      if fid != g.fid { assert AnchorOK(s, fid); }
      GrowKeepsLast(s, t, g, fid);
    }
    forall u | u in t.db.userSessions ensures UserSessionsOK(t, u) { GrowKeepsUserSessions(s, t, g, u); }
    forall u | u in t.db.userFamilies ensures UserFamiliesOK(t, u) {
      GrowKeepsUserFamilies(s, t, g, u);
    }
  }

  /** The keys a commit of `g` may touch. */
  ghost predicate CommitTouches(s: State, g: Gen, keys: set<Key>) {
    && (forall k | k in keys && k.TokenKey? :: k.id == g.refresh.jti || (k.id in s.hist && s.hist[k.id].fid == g.fid))
    && (forall k | k in keys && (k.FamilyKey? || k.AnchorKey? || k.TombKey?) :: k.id == g.fid)
  }

  lemma GrowBumps(s: State, t: State, g: Gen, keys: set<Key>)
    requires HistInv(s) && Grows(s, t, g) && CommitTouches(s, g, keys)
    ensures forall j, k | j in s.hist && k in keys && k in RotationKeys(s.hist[j].refresh) :: SpentOrDead(t, j)
  {
    forall j, k | j in s.hist && k in keys && k in RotationKeys(s.hist[j].refresh) ensures SpentOrDead(t, j) {
      assert GenOK(s, j);
      GrowSpends(s, t, g, j);
    }
  }

  lemma GrowAdvances(s: State, t: State, g: Gen, mover: int)
    requires Grows(s, t, g) && t.db.families == s.db.families[g.fid := g.family]
    requires g.fid in s.spine ==> LiveIn(s.db, g.fid)
    requires forall i | i in s.drawn :: (s.drawn[i].Pending? && s.drawn[i].pid == mover) || t.drawn[i] == s.drawn[i]
    ensures HistAdvances(s, t, mover)
  {
  }

  /** One step that commits `g`, touching `keys`: what must be shown of it. */
  ghost predicate CommitStep(s: State, t: State, g: Gen, mover: int, keys: set<Key>)
    requires HistInv(s)
  {
    && Grows(s, t, g) && Writes(s, t, g) && Coherent(g)
    && (if g.idx > 0 then g.fid in s.spine && Succeeds(Last(s, g.fid), g) && LiveIn(s.db, g.fid) else Original(g))
    && t.ver == Bump(s.ver, keys) && CommitTouches(s, g, keys)
    && (forall k: Key | k !in keys :: SameAt(s.db, t.db, k))
    && (forall i | i in s.drawn :: (s.drawn[i].Pending? && s.drawn[i].pid == mover) || t.drawn[i] == s.drawn[i])
  }

  lemma CommitStepKeepsStore(s: State, t: State, g: Gen, mover: int, keys: set<Key>)
    requires HistInv(s) && StoreInv(s) && ContentInv(s) && CommitStep(s, t, g, mover, keys)
    ensures HistInv(t) && StoreInv(t) && ContentInv(t) && Extends(s, t, mover)
  {
    assert g.fid in s.spine ==> LineOK(s, g.fid);
    GrowKeepsHist(s, t, g);
    GrowKeepsContent(s, t, g);
    GrowKeepsStore(s, t, g);
    GrowBumps(s, t, g, keys);
    BumpsAdvanceKeys(s, t, keys);
    GrowAdvances(s, t, g, mover);
  }

  lemma SignInGrows(s: State, t: State, g: Gen, sid: Id)
    requires g.fid !in s.spine && g.refresh.jti !in s.hist && g.access.jti !in s.byAccess
    requires Fresh(s, g.fid) && Fresh(s, sid) && Fresh(s, g.access.jti) && Fresh(s, g.refresh.jti)
    requires Tagged(g) && g.idx == 0 && g.at == s.now
    requires t == Record(s.(db := t.db, ver := t.ver, drawn := s.drawn[g.fid := Committed(0)][sid := Committed(0)]),
                         g, [g.refresh.jti], 0)
    ensures Grows(s, t, g)
    ensures forall i | i in s.drawn :: t.drawn[i] == s.drawn[i]
  {
    assert Line(s, g.fid) + [g.refresh.jti] == [g.refresh.jti];
  }

  function SignInKeys(g: Gen): set<Key> {
    {FamilyKey(g.fid), TokenKey(g.refresh.jti), AnchorKey(g.fid), SessionKey(g.access.jti),
     UserSessionsKey(g.session.user.id), UserFamiliesKey(g.session.user.id)}
  }

  lemma SignInTouches(s: State, t: State, g: Gen)
    requires t.db == Issue(s.db, g)
    ensures forall k: Key | k !in SignInKeys(g) :: SameAt(s.db, t.db, k)
    ensures CommitTouches(s, g, SignInKeys(g))
  {
  }

  lemma SignInKeepsStore(s: State, t: State, user: User, project: Option<Project>, remember: bool,
                         fid: Id, sid: Id, access: Id, refresh: Id)
    requires HistInv(s) && StoreInv(s) && ContentInv(s)
    requires Enabled(s, SignInAs(user, project, remember, fid, sid, access, refresh))
    requires t == Apply(s, SignInAs(user, project, remember, fid, sid, access, refresh))
    ensures HistInv(t) && StoreInv(t) && ContentInv(t) && Extends(s, t, -1) && t.procs == s.procs
  {
    var g := SignIn(user, project, remember, s.now, fid, sid, access, refresh);
    SignInIsCoherent(user, project, remember, s.now, fid, sid, access, refresh);
    FreshIsUnused(s, fid, access, refresh);
    CoherentIsTagged(g);
    SignInGrows(s, t, g, sid);
    SignInWrites(s, t, g);
    SignInTouches(s, t, g);
    CommitStepKeepsStore(s, t, g, -1, SignInKeys(g));
  }

  lemma SignInKeepsInv(s: State, t: State, user: User, project: Option<Project>, remember: bool,
                       fid: Id, sid: Id, access: Id, refresh: Id)
    requires Inv(s)
    requires Enabled(s, SignInAs(user, project, remember, fid, sid, access, refresh))
    requires t == Apply(s, SignInAs(user, project, remember, fid, sid, access, refresh))
    ensures Inv(t) && Advances(s, t)
  {
    SignInKeepsStore(s, t, user, project, remember, fid, sid, access, refresh);
    StepKeepsInv(s, t, -1);
  }

  lemma FreshIsUnused(s: State, fid: Id, access: Id, refresh: Id)
    requires HistInv(s) && StoreInv(s) && Fresh(s, fid) && Fresh(s, access) && Fresh(s, refresh)
    ensures fid !in s.spine && refresh !in s.hist && access !in s.byAccess
    ensures fid !in s.db.tombs && fid !in s.db.used
    ensures forall j | j in s.hist :: s.hist[j].fid != fid
    ensures forall a | a in s.db.sessions :: a in s.byAccess && s.byAccess[a] in s.hist
    ensures forall j | j in s.db.tokens :: j in s.hist
  {
    assert fid in s.spine ==> LineOK(s, fid);
    assert refresh in s.hist ==> GenOK(s, refresh);
    assert access in s.byAccess ==> AccessOK(s, access) && GenOK(s, s.byAccess[access]);
    forall j | j in s.hist ensures s.hist[j].fid != fid { assert GenOK(s, j); }
    forall a | a in s.db.sessions ensures a in s.byAccess && s.byAccess[a] in s.hist { assert SessionOK(s, a); }
    forall j | j in s.db.tokens ensures j in s.hist { assert TokenOK(s, j); }
  }

  lemma SignInWrites(s: State, t: State, g: Gen)
    requires t.db == Issue(s.db, g)
    requires g.fid !in s.spine && g.refresh.jti !in s.hist && g.access.jti !in s.byAccess
    requires g.fid !in s.db.tombs && g.fid !in s.db.used
    requires forall j | j in s.hist :: s.hist[j].fid != g.fid
    requires forall a | a in s.db.sessions :: a in s.byAccess && s.byAccess[a] in s.hist
    requires forall j | j in s.db.tokens :: j in s.hist
    ensures Writes(s, t, g)
  {
  }

  // ----- the EXEC of a rotation -----------------------------------------------------

  /** No lost update: when nothing watched has moved, the family being replaced is the very copy
      the rotation read before it started watching, the token record is the one it read, and the
      presented token is the newest of its family. */
  lemma NoLostUpdate(s: State, pid: nat, c: RefreshClaims, target: Option<Project>, f: Family, t: TokenRecord,
                     g: Gen, snap: Snapshot, wf: Family, wt: TokenRecord)
    requires HistInv(s) && StoreInv(s) && RotateOK(s, pid, c, target, RReady(f, t, g, snap, wf, wt))
    requires Unmoved(s, snap)
    ensures Find(s.db.families, c.familyId) == Some(f)
    ensures Find(s.db.tokens, c.jti) == Some(t)
    ensures c.familyId in s.spine && Last(s, c.familyId) == s.hist[c.jti] && !Spent(s, c.jti)
    ensures c.familyId !in s.db.tombs && Members(s.db.used, c.familyId) ==
              Elems(s.spine[c.familyId][..|s.spine[c.familyId]| - 1])
  {
    var fid := c.familyId;
    assert GenOK(s, c.jti) && FamilyOK(s, fid) && LiveOK(s, fid) && LineOK(s, fid);
    assert GenOK(s, s.spine[fid][|s.spine[fid]| - 1]);
  }

  lemma CommitSpendsOne(s: State, t: State, c: RefreshClaims, r: TokenRecord, g: Gen, i: Id)
    requires t.db.tokens == s.db.tokens[r.jti := Spend(r, g)][g.refresh.jti := g.token]
    requires c.jti in s.hist && s.hist[c.jti].fid == g.fid && r == s.hist[c.jti].token && r.jti == c.jti
    requires Find(s.db.tokens, c.jti) == Some(r) && !Spent(s, c.jti)
    requires i in s.db.tokens && i in s.hist && (s.hist[i].fid == g.fid && i != c.jti ==> Spent(s, i))
    requires i != g.refresh.jti
    ensures TokenAfter(s, t, g, i)
  {
  }

  lemma CommitIndexes(db: Store, r: TokenRecord, oldAccess: Id, g: Gen)
    ensures var db', u := CommitRotation(db, r, oldAccess, g), g.session.user.id;
            && (forall v | v in db'.userSessions ::
                  db'.userSessions[v] <= Members(db.userSessions, v) + (if v == u then {g.access.jti} else {}))
            && (forall v | v in db'.userFamilies ::
                  db'.userFamilies[v] <= Members(db.userFamilies, v) + (if v == u then {g.fid} else {}))
            && (forall f | f != g.fid :: Members(db'.used, f) == Members(db.used, f))
            && Members(db'.used, g.fid) == Members(db.used, g.fid) + {r.jti}
            && db'.used.Keys <= db.used.Keys + {g.fid}
  {
  }

  lemma CommitSessions(db: Store, r: TokenRecord, oldAccess: Id, g: Gen)
    requires g.access.jti != oldAccess
    ensures var after := CommitRotation(db, r, oldAccess, g).sessions;
            && Find(after, g.access.jti) == Some(g.session)
            && forall b | b in after && b != g.access.jti :: b in db.sessions && after[b] == db.sessions[b]
                && b != oldAccess
  {
  }

  lemma CommitRecords(db: Store, r: TokenRecord, oldAccess: Id, g: Gen)
    ensures var after := CommitRotation(db, r, oldAccess, g);
            && after.families == db.families[g.fid := g.family] && after.anchors == db.anchors[g.fid := g.anchor]
            && after.tombs == db.tombs && Find(after.tokens, g.refresh.jti) == Some(g.token)
            && db.tokens.Keys <= after.tokens.Keys
  {
  }

  lemma CommitWrites(s: State, t: State, c: RefreshClaims, r: TokenRecord, oldAccess: Id, g: Gen)
    requires t.db == CommitRotation(s.db, r, oldAccess, g) && r.jti == c.jti
    requires g.access.jti != oldAccess && g.fid !in s.db.tombs
    requires g.fid in s.spine && |s.spine[g.fid]| > 0 && s.spine[g.fid][|s.spine[g.fid]| - 1] == c.jti
    requires Members(s.db.used, g.fid) == Elems(s.spine[g.fid][..|s.spine[g.fid]| - 1])
    requires forall a | a in s.db.sessions && a != oldAccess ::
               a in s.byAccess && s.byAccess[a] in s.hist && s.hist[s.byAccess[a]].fid != g.fid
    requires forall i | i in t.db.tokens && i != g.refresh.jti :: TokenAfter(s, t, g, i)
    ensures Writes(s, t, g)
  {
    ElemsOfLast(s.spine[g.fid]);
    CommitSessions(s.db, r, oldAccess, g);
    CommitRecords(s.db, r, oldAccess, g);
    CommitIndexes(s.db, r, oldAccess, g);
  }

  lemma ElemsOfLast(line: seq<Id>)
    requires |line| > 0
    ensures Elems(line) == Elems(line[..|line| - 1]) + {line[|line| - 1]}
  {
    assert line == line[..|line| - 1] + [line[|line| - 1]];
  }

  /** The newest generation of a family owns the only session record of that family. */
  lemma OneSessionPerFamily(s: State, j: Id, a: Id)
    requires HistInv(s) && StoreInv(s) && j in s.hist && !Spent(s, j) && a in s.db.sessions
    ensures a in s.byAccess && s.byAccess[a] in s.hist
    ensures s.hist[s.byAccess[a]].fid == s.hist[j].fid ==> s.byAccess[a] == j && a == s.hist[j].access.jti
  {
    assert SessionOK(s, a) && GenOK(s, j) && GenOK(s, s.byAccess[a]) && AccessOK(s, a);
  }

  lemma OthersAreSpent(s: State, j: Id, i: Id)
    requires HistInv(s) && j in s.hist && !Spent(s, j) && i in s.hist && i != j && s.hist[i].fid == s.hist[j].fid
    ensures Spent(s, i)
  {
    assert GenOK(s, j) && GenOK(s, i);
  }

  lemma PendingIsUnused(s: State, pid: nat, j: Id, a: Id)
    requires HistInv(s) && PendingFor(s, j, pid) && PendingFor(s, a, pid)
    ensures j !in s.hist && a !in s.byAccess
  {
    assert j in s.hist ==> GenOK(s, j);
    assert a in s.byAccess ==> AccessOK(s, a) && GenOK(s, s.byAccess[a]);
  }

  lemma CommitGrows(s: State, t: State, pid: nat, c: RefreshClaims, f: Family, r: TokenRecord, g: Gen)
    requires g.refresh.jti !in s.hist && g.access.jti !in s.byAccess && Tagged(g) && g.at <= s.now
    requires g.fid == c.familyId && g.fid in s.spine && g.idx == |s.spine[g.fid]| && g.fid in s.drawn
    requires PendingFor(s, g.refresh.jti, pid) && PendingFor(s, g.access.jti, pid)
    requires f.body.Some? && t == Commit(s, pid, c, f, r, g)
    ensures Grows(s, t, g)
    ensures forall i | i in s.drawn :: (s.drawn[i].Pending? && s.drawn[i].pid == pid) || t.drawn[i] == s.drawn[i]
  {
  }

  lemma CommitTouchesOnly(s: State, t: State, c: RefreshClaims, r: TokenRecord, oldAccess: Id, g: Gen)
    requires t.db == CommitRotation(s.db, r, oldAccess, g) && r.jti == c.jti && g.fid == c.familyId
    requires c.jti in s.hist && s.hist[c.jti].fid == g.fid
    ensures forall k: Key | k !in CommitKeys(c, oldAccess, g) :: SameAt(s.db, t.db, k)
    ensures CommitTouches(s, g, CommitKeys(c, oldAccess, g))
  {
  }

  lemma CommitIsSound(s: State, t: State, pid: nat, c: RefreshClaims, f: Family, r: TokenRecord, g: Gen)
    requires HistInv(s) && StoreInv(s) && c.jti in s.hist && s.hist[c.jti].refresh == c
    requires f == s.hist[c.jti].family && r == s.hist[c.jti].token && g.fid == c.familyId
    requires Find(s.db.tokens, c.jti) == Some(r) && g.refresh.jti !in s.hist && g.access.jti !in s.byAccess
    requires c.familyId in s.spine && Last(s, c.familyId) == s.hist[c.jti] && !Spent(s, c.jti)
    requires c.familyId !in s.db.tombs
    requires |s.spine[c.familyId]| > 0
    requires Members(s.db.used, c.familyId) == Elems(s.spine[c.familyId][..|s.spine[c.familyId]| - 1])
    requires f.body.Some? && t.db == CommitRotation(s.db, r, f.body.value.currentAccess, g)
    ensures Writes(s, t, g)
  {
    assert GenOK(s, c.jti) && LineOK(s, c.familyId);
    var oldAccess := f.body.value.currentAccess;
    forall a | a in s.db.sessions && a != oldAccess
      ensures a in s.byAccess && s.byAccess[a] in s.hist && s.hist[s.byAccess[a]].fid != g.fid
    {
      OneSessionPerFamily(s, c.jti, a);
    }
    forall j | j in t.db.tokens && j != g.refresh.jti ensures TokenAfter(s, t, g, j) {
      assert TokenOK(s, j);
      if s.hist[j].fid == g.fid && j != c.jti { OthersAreSpent(s, c.jti, j); }
      CommitSpendsOne(s, t, c, r, g, j);
    }
    CommitWrites(s, t, c, r, oldAccess, g);
  }

  /** What the successful EXEC of a rotation does, all in all. */
  lemma CommitFacts(s: State, t: State, pid: nat, c: RefreshClaims, target: Option<Project>, pc: RotatePc)
    requires HistInv(s) && StoreInv(s) && pc.RReady? && RotateOK(s, pid, c, target, pc)
    requires Unmoved(s, pc.snap) && pc.f.body.Some? && t == Commit(s, pid, c, pc.f, pc.t, pc.g)
    ensures CommitStep(s, t, pc.g, pid, CommitKeys(c, pc.f.body.value.currentAccess, pc.g))
    ensures t.procs == s.procs[pid := Done(Rotated(c.jti, pc.g.refresh.jti))]
    ensures ProcOK(t, pid, Done(Rotated(c.jti, pc.g.refresh.jti)))
  {
    NoLostUpdate(s, pid, c, target, pc.f, pc.t, pc.g, pc.snap, pc.seenFamily, pc.seenToken);
    SuccessorIsTagged(s.hist[c.jti], pc.g);
    assert GenOK(s, c.jti) && LineOK(s, c.familyId);
    PendingIsUnused(s, pid, pc.g.refresh.jti, pc.g.access.jti);
    CommitGrows(s, t, pid, c, pc.f, pc.t, pc.g);
    CommitIsSound(s, t, pid, c, pc.f, pc.t, pc.g);
    CommitIsDone(s, t, pid, c, pc.f, pc.t, pc.g);
    CommitTouchesOnly(s, t, c, pc.t, pc.f.body.value.currentAccess, pc.g);
  }

  lemma CommitIsDone(s: State, t: State, pid: nat, c: RefreshClaims, f: Family, r: TokenRecord, g: Gen)
    requires f.body.Some? && t == Commit(s, pid, c, f, r, g) && g.token.parent == Some(c.jti)
               && g.refresh.jti != g.access.jti
    ensures t.procs == s.procs[pid := Done(Rotated(c.jti, g.refresh.jti))]
    ensures ProcOK(t, pid, Done(Rotated(c.jti, g.refresh.jti)))
  {
  }

  lemma CommitKeepsStore(s: State, t: State, pid: nat, c: RefreshClaims, target: Option<Project>, pc: RotatePc)
    requires HistInv(s) && StoreInv(s) && ContentInv(s) && pc.RReady? && RotateOK(s, pid, c, target, pc)
    requires Unmoved(s, pc.snap) && pc.f.body.Some? && t == Commit(s, pid, c, pc.f, pc.t, pc.g)
    ensures HistInv(t) && StoreInv(t) && ContentInv(t) && Extends(s, t, pid)
    ensures forall q | q in t.procs && q == pid :: ProcOK(t, q, t.procs[q])
    ensures forall q | q in t.procs && q != pid :: q in s.procs && t.procs[q] == s.procs[q]
  {
    CommitFacts(s, t, pid, c, target, pc);
    CommitStepKeepsStore(s, t, pc.g, pid, CommitKeys(c, pc.f.body.value.currentAccess, pc.g));
  }

  lemma CommitKeepsInv(s: State, t: State, pid: nat, c: RefreshClaims, target: Option<Project>, pc: RotatePc)
    requires Inv(s) && pid in s.procs && pc.RReady? && RotateOK(s, pid, c, target, pc)
    requires Unmoved(s, pc.snap) && pc.f.body.Some? && t == Commit(s, pid, c, pc.f, pc.t, pc.g)
    ensures Inv(t) && Advances(s, t)
  {
    CommitKeepsStore(s, t, pid, c, target, pc);
    StepKeepsInv(s, t, pid);
  }

  /** An EXEC that does not commit goes on to classify a token that is spent or dead. */
  lemma FailedExecKnows(s: State, pid: nat, c: RefreshClaims, target: Option<Project>, pc: RotatePc)
    requires HistInv(s) && pc.RReady? && RotateOK(s, pid, c, target, pc) && !(Unmoved(s, pc.snap) && pc.f.body.Some?)
    ensures ProcOK(s, pid, Classify(c.familyId, c.jti, CStart))
  {
    assert GenOK(s, c.jti);
  }

  // ----- all steps ------------------------------------------------------------------

  lemma StartKeepsInv(s: State, t: State, pid: nat, p: Proc)
    requires Inv(s) && Enabled(s, Start(pid, p)) && t == Apply(s, Start(pid, p))
    ensures Inv(t) && Advances(s, t)
  {
    GotoKeepsInv(s, t, pid, p);
  }

  lemma ExecKeepsInv(s: State, t: State, pid: nat, ch: Choice)
    requires Inv(s) && pid in s.procs && s.procs[pid].Rotate? && s.procs[pid].rpc.RReady? && t == ProcStep(s, pid, ch)
    ensures Inv(t) && Advances(s, t)
  {
    var c, target, pc := s.procs[pid].c, s.procs[pid].target, s.procs[pid].rpc;
    assert ProcOK(s, pid, s.procs[pid]);
    if Unmoved(s, pc.snap) && pc.f.body.Some? {
      CommitKeepsInv(s, t, pid, c, target, pc);
    } else {
      FailedExecKnows(s, pid, c, target, pc);
      GotoKeepsInv(s, t, pid, Classify(c.familyId, c.jti, CStart));
    }
  }

  lemma ContextKeepsInv(s: State, t: State, pid: nat, ch: Choice)
    requires Inv(s) && Enabled(s, Step(pid, ch)) && s.procs[pid].Rotate? && s.procs[pid].rpc.RContext?
    requires t == ProcStep(s, pid, ch)
    ensures Inv(t) && Advances(s, t)
  {
    assert ProcOK(s, pid, s.procs[pid]);
    var c, target, pc := s.procs[pid].c, s.procs[pid].target, s.procs[pid].rpc;
    assert GenOK(s, c.jti) && ContentOK(s, c.jti);
    BuildKeepsInv(s, t, pid, c, target, pc.f, pc.t, pc.ctx, ch);
  }

  lemma RotateProcKeepsInv(s: State, t: State, pid: nat, ch: Choice)
    requires Inv(s) && pid in s.procs && s.procs[pid].Rotate? && !s.procs[pid].rpc.RReady?
               && !s.procs[pid].rpc.RContext?
    requires t == ProcStep(s, pid, ch)
    ensures Inv(t) && Advances(s, t)
  {
    RotateKeepsInv(s, t, pid, s.procs[pid].c, s.procs[pid].target, s.procs[pid].rpc, ch);
  }

  lemma OtherProcKeepsInv(s: State, t: State, pid: nat, ch: Choice)
    requires Inv(s) && pid in s.procs && (s.procs[pid].Classify? || s.procs[pid].Validate? || s.procs[pid].OAuth?)
    requires t == ProcStep(s, pid, ch)
    ensures Inv(t) && Advances(s, t)
  {
    assert ProcOK(s, pid, s.procs[pid]);
    OtherLocalOK(s, pid, s.procs[pid], ch);
    GotoKeepsInv(s, t, pid, t.procs[pid]);
  }

  /** Every enabled step keeps the invariant. */
  lemma ApplyKeepsInv(s: State, a: Action)
    requires Inv(s) && Enabled(s, a)
    ensures Inv(Apply(s, a)) && Advances(s, Apply(s, a))
  {
    var t := Apply(s, a);
    match a
    case Tick(_) => SameCoreKeepsInv(s, t, -1);
    case SignInAs(user, project, remember, fid, sid, access, refresh) =>
      SignInKeepsInv(s, t, user, project, remember, fid, sid, access, refresh);
    case Start(pid, p) => StartKeepsInv(s, t, pid, p);
    case Step(pid, ch) =>
      if s.procs[pid].Rotate? {
        if s.procs[pid].rpc.RReady? { ExecKeepsInv(s, t, pid, ch); }
        else if s.procs[pid].rpc.RContext? { ContextKeepsInv(s, t, pid, ch); }
        else { RotateProcKeepsInv(s, t, pid, ch); }
      }
      else if s.procs[pid].Revoke? {
        RevokeKeepsInv(s, t, pid, s.procs[pid].fid, s.procs[pid].reason, s.procs[pid].vpc);
      } else { OtherProcKeepsInv(s, t, pid, ch); }
    case Lapse(k) => if k.TokenKey? { LapseTokenKeepsInv(s, t, k.id); } else { LapseKeepsInv(s, t, k); }
    case LapseLive(fid) => LapseLiveKeepsInv(s, t, fid);
  }

  lemma {:induction false} RunKeepsInv(s: State, acts: seq<Action>, t: State)
    requires Inv(s) && Run(s, acts, t)
    ensures Inv(t)
    decreases |acts|
  {
    if acts != [] {
      ApplyKeepsInv(s, acts[0]);
      RunKeepsInv(Apply(s, acts[0]), acts[1..], t);
    }
  }

  /** Every reachable state satisfies the invariant. */
  lemma ReachableInv(t: State)
    requires Reachable(t)
    ensures Inv(t)
  {
    var s: State, acts: seq<Action> :| Initial(s) && Run(s, acts, t);
    RunKeepsInv(s, acts, t);
  }
}
