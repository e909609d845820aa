/** The inductive invariant of the rotation protocol, and why it survives the steps of others.

    The idea: an active family value is determined by its current refresh jti, which is
    drawn fresh.  So every active copy a program ever read is the family value of one
    recorded generation, and Redis is a view of the recorded history. */
module RotationInvariant {
  import opened Prelude
  import opened TokenFamily
  import opened RotationProtocol

  // ----- the recorded history -------------------------------------------------------

  /** Generation `j` sits at its place in the line of its family. */
  ghost predicate GenOK(s: State, j: Id)
    requires j in s.hist
  {
    var g := s.hist[j];
    && g.refresh.jti == j && Tagged(g) && g.at <= s.now
    && g.fid in s.spine && g.idx < |s.spine[g.fid]| && s.spine[g.fid][g.idx] == j
    && g.access.jti in s.byAccess && s.byAccess[g.access.jti] == j
    && j in s.drawn && s.drawn[j].Committed?
    && g.access.jti in s.drawn && s.drawn[g.access.jti].Committed?
  }

  ghost predicate LineOK(s: State, fid: Id)
    requires fid in s.spine
  {
    && |s.spine[fid]| > 0 && fid in s.drawn
    && forall i | 0 <= i < |s.spine[fid]| ::
         s.spine[fid][i] in s.hist && s.hist[s.spine[fid][i]].fid == fid && s.hist[s.spine[fid][i]].idx == i
  }

  ghost predicate AccessOK(s: State, a: Id)
    requires a in s.byAccess
  {
    s.byAccess[a] in s.hist && s.hist[s.byAccess[a]].access.jti == a
  }

  ghost predicate HistInv(s: State) {
    && (forall j | j in s.hist :: GenOK(s, j))
    && (forall fid | fid in s.spine :: LineOK(s, fid))
    && (forall a | a in s.byAccess :: AccessOK(s, a))
  }

  /** Every generation is coherent and continues the one before it. */
  ghost predicate ContentOK(s: State, j: Id)
    requires j in s.hist
  {
    var g := s.hist[j];
    && Coherent(g) && (g.idx == 0 ==> Original(g))
    && (g.idx > 0 ==>
          && g.fid in s.spine && g.idx <= |s.spine[g.fid]|
          && s.spine[g.fid][g.idx - 1] in s.hist && Succeeds(s.hist[s.spine[g.fid][g.idx - 1]], g))
  }

  ghost predicate ContentInv(s: State) {
    forall j | j in s.hist :: ContentOK(s, j)
  }

  /** The newest generation of a family. */
  ghost function Last(s: State, fid: Id): Gen
    requires HistInv(s) && fid in s.spine
  {
    assert LineOK(s, fid);
    s.hist[s.spine[fid][|s.spine[fid]| - 1]]
  }

  /** The token has been rotated away. */
  ghost predicate Spent(s: State, j: Id) {
    j in s.hist && s.hist[j].fid in s.spine && s.hist[j].idx + 1 < |s.spine[s.hist[j].fid]|
  }

  ghost predicate SpentOrDead(s: State, j: Id) {
    j in s.hist && (Spent(s, j) || !LiveIn(s.db, s.hist[j].fid))
  }

  /** The token that replaced a spent one. */
  ghost function Child(s: State, j: Id): Gen
    requires HistInv(s) && Spent(s, j)
  {
    assert LineOK(s, s.hist[j].fid);
    s.hist[s.spine[s.hist[j].fid][s.hist[j].idx + 1]]
  }

  // ----- Redis as a view of the history ---------------------------------------------

  ghost function Elems(line: seq<Id>): set<Id> {
    set x | x in line
  }

  /** A live family is its newest generation, with everything that generation wrote. */
  ghost predicate LiveOK(s: State, fid: Id)
    requires HistInv(s) && fid in s.db.families
  {
    && fid in s.spine && |s.spine[fid]| > 0 && s.db.families[fid] == Last(s, fid).family && fid !in s.db.tombs
    && Find(s.db.anchors, fid) == Some(Last(s, fid).anchor)
    && Find(s.db.tokens, Last(s, fid).refresh.jti) == Some(Last(s, fid).token)
    && Members(s.db.used, fid) == Elems(s.spine[fid][..|s.spine[fid]| - 1])
  }

  ghost predicate FamilyOK(s: State, fid: Id)
    requires HistInv(s) && fid in s.db.families
  {
    && s.db.families[fid].id == fid
    && (s.db.families[fid].status == Active ==> s.db.families[fid].Live())
    && (s.db.families[fid].Live() ==> LiveOK(s, fid))
  }

  ghost predicate TokenOK(s: State, j: Id)
    requires HistInv(s) && j in s.db.tokens
  {
    && j in s.hist
    && s.db.tokens[j] == (if Spent(s, j) then Spend(s.hist[j].token, Child(s, j)) else s.hist[j].token)
  }

  /** A session record belongs to the newest generation of its family. */
  ghost predicate SessionOK(s: State, a: Id)
    requires HistInv(s) && a in s.db.sessions
  {
    && a in s.byAccess && s.byAccess[a] in s.hist
    && s.db.sessions[a] == s.hist[s.byAccess[a]].session
    && !Spent(s, s.byAccess[a])
  }

  ghost predicate AnchorOK(s: State, fid: Id)
    requires HistInv(s) && fid in s.db.anchors
  {
    fid in s.spine && s.db.anchors[fid] == Last(s, fid).anchor
  }

  ghost predicate UserSessionsOK(s: State, u: Id)
    requires u in s.db.userSessions
  {
    forall a | a in s.db.userSessions[u] ::
      a in s.byAccess && s.byAccess[a] in s.hist && s.hist[s.byAccess[a]].session.user.id == u
  }

  ghost predicate UserFamiliesOK(s: State, u: Id)
    requires HistInv(s) && u in s.db.userFamilies
  {
    forall fid | fid in s.db.userFamilies[u] :: fid in s.spine && Last(s, fid).session.user.id == u
  }

  ghost predicate StoreInv(s: State)
    requires HistInv(s)
  {
    && (forall fid | fid in s.db.families :: FamilyOK(s, fid))
    && (forall j | j in s.db.tokens :: TokenOK(s, j))
    && (forall a | a in s.db.sessions :: SessionOK(s, a))
    && (forall fid | fid in s.db.anchors :: AnchorOK(s, fid))
    && (forall u | u in s.db.userSessions :: UserSessionsOK(s, u))
    && (forall u | u in s.db.userFamilies :: UserFamiliesOK(s, u))
    && s.db.tombs <= s.spine.Keys && s.db.used.Keys <= s.spine.Keys
  }

  // ----- what running programs know -------------------------------------------------

  /** A family copy: if it was live, it is a recorded generation no older than the token. */
  ghost predicate CopyOK(s: State, j: Id, f: Family)
    requires j in s.hist
  {
    && f.id == s.hist[j].fid
    && (f.status == Active ==> f.Live())
    && (f.Live() ==>
          var cur := f.body.value.currentRefresh;
          cur in s.hist && s.hist[cur].family == f && s.hist[cur].fid == f.id && s.hist[j].idx <= s.hist[cur].idx)
  }

  ghost predicate TokenCopyOK(s: State, j: Id, t: TokenRecord)
    requires j in s.hist
  {
    && t.digest == s.hist[j].refresh
    && (t.status == Current ==> t == s.hist[j].token)
    && (t.status != Current ==> Spent(s, j))
  }

  ghost predicate CurrentCopies(s: State, j: Id, f: Family, t: TokenRecord)
    requires j in s.hist
  {
    f == s.hist[j].family && t == s.hist[j].token
  }

  ghost predicate PendingFor(s: State, i: Id, pid: nat) {
    i in s.drawn && s.drawn[i] == Pending(pid)
  }

  /** The generation a rotation built but has not committed. */
  ghost predicate BuiltOK(s: State, pid: nat, j: Id, g: Gen)
    requires j in s.hist
  {
    && Succeeds(s.hist[j], g) && g.at <= s.now && g.refresh.jti != g.access.jti
    && PendingFor(s, g.refresh.jti, pid) && PendingFor(s, g.access.jti, pid)
  }

  ghost predicate NotAhead(s: State, snap: Snapshot) {
    forall k | k in snap :: snap[k] <= Ver(s, k)
  }

  /** Watching: a moved key means the presented token is spent or its family dead. */
  ghost predicate WatchOK(s: State, c: RefreshClaims, snap: Snapshot) {
    && snap.Keys == RotationKeys(c) && NotAhead(s, snap)
    && (!Unmoved(s, snap) ==> SpentOrDead(s, c.jti))
  }

  ghost predicate SawFamily(s: State, snap: Snapshot, fid: Id, wf: Option<Family>) {
    FamilyKey(fid) in snap && (Ver(s, FamilyKey(fid)) == snap[FamilyKey(fid)] ==> Find(s.db.families, fid) == wf)
  }

  ghost predicate SawToken(s: State, snap: Snapshot, j: Id, wt: Option<TokenRecord>) {
    TokenKey(j) in snap && (Ver(s, TokenKey(j)) == snap[TokenKey(j)] ==> Find(s.db.tokens, j) == wt)
  }

  ghost predicate SawNoTomb(s: State, snap: Snapshot, fid: Id) {
    TombKey(fid) in snap && (Ver(s, TombKey(fid)) == snap[TombKey(fid)] ==> fid !in s.db.tombs)
  }

  ghost predicate SawSession(s: State, snap: Snapshot, a: Id, os: Option<Session>) {
    SessionKey(a) in snap && (Ver(s, SessionKey(a)) == snap[SessionKey(a)] ==> Find(s.db.sessions, a) == os)
  }

  ghost predicate FamilyStillFits(c: RefreshClaims, wf: Option<Family>) {
    wf.Some? && wf.value.Live() && wf.value.body.value.currentRefresh == c.jti
  }

  ghost predicate TokenStillFits(wt: Option<TokenRecord>) {
    wt.Some? && wt.value.status == Current
  }

  ghost predicate RotateOK(s: State, pid: nat, c: RefreshClaims, target: Option<Project>, pc: RotatePc) {
    && c.jti in s.hist && s.hist[c.jti].refresh == c
    && var j, g := c.jti, s.hist[c.jti];
    match pc
    case RStart => true
    case RFamily(f) => CopyOK(s, j, f)
    case RToken(f, t) => CopyOK(s, j, f) && TokenCopyOK(s, j, t)
    case RSeen(f, t) => CopyOK(s, j, f) && TokenCopyOK(s, j, t)
    case RCurrent(f, t) => CurrentCopies(s, j, f, t)
    case RSession(f, t, os) => CurrentCopies(s, j, f, t) && (os.Some? ==> os.value == g.session)
    case RContext(f, t, ctx) =>
      && CurrentCopies(s, j, f, t)
      && (ctx == Retarget(g.session, target) || ctx == Retarget(AnchorSeed(g.anchor), target))
    case RBuilt(f, t, n) => CurrentCopies(s, j, f, t) && BuiltOK(s, pid, j, n)
    case RWatched(f, t, n, snap) => CurrentCopies(s, j, f, t) && BuiltOK(s, pid, j, n) && WatchOK(s, c, snap)
    case RFamilyAgain(f, t, n, snap, wf) =>
      && CurrentCopies(s, j, f, t) && BuiltOK(s, pid, j, n) && WatchOK(s, c, snap)
      && SawFamily(s, snap, c.familyId, wf) && (!FamilyStillFits(c, wf) ==> SpentOrDead(s, j))
    case RTokenAgain(f, t, n, snap, wf, wt) =>
      && CurrentCopies(s, j, f, t) && BuiltOK(s, pid, j, n) && WatchOK(s, c, snap)
      && SawFamily(s, snap, c.familyId, wf) && (!FamilyStillFits(c, wf) ==> SpentOrDead(s, j))
      && SawToken(s, snap, j, wt) && (!TokenStillFits(wt) ==> SpentOrDead(s, j))
      && (wt.Some? ==> wt.value.digest == c)
    case RReady(f, t, n, snap, seenFamily, seenToken) =>
      && CurrentCopies(s, j, f, t) && BuiltOK(s, pid, j, n) && WatchOK(s, c, snap)
      && SawFamily(s, snap, c.familyId, Some(seenFamily)) && FamilyStillFits(c, Some(seenFamily))
      && SawToken(s, snap, j, Some(seenToken)) && TokenStillFits(Some(seenToken))
  }

  /** Classification works on a token that is spent or whose family is dead. */
  ghost predicate ClassifyOK(s: State, fid: Id, j: Id, pc: ClassifyPc) {
    && HistInv(s) && SpentOrDead(s, j) && s.hist[j].fid == fid
    && (!pc.CStart? ==>
          CopyOK(s, j, pc.f) && (pc.f.Live() ==> s.hist[j].idx < s.hist[pc.f.body.value.currentRefresh].idx))
    && (pc.CToken? || pc.CSeen? || pc.CMember? ==>
          pc.f.Live() ==> Spent(s, j) && pc.t == Spend(s.hist[j].token, Child(s, j)))
    && (pc.CMember? ==> pc.f.Live())
  }

  ghost predicate RevokeOK(s: State, fid: Id, pc: RevokePc) {
    && fid in s.spine
    && (pc.VRead? && pc.copy.Some? ==> pc.copy.value.id == fid)
    && (pc.VTomb? || pc.VAnchor? ==> !LiveIn(s.db, fid))
  }

  ghost predicate OAuthOK(s: State, r: Authorization, pc: OAuthPc) {
    var fid := r.familyId;
    match pc
    case OStart => true
    case OWatched(snap) => NotAhead(s, snap) && {FamilyKey(fid), TombKey(fid)} <= snap.Keys
    case OFamily(snap, f) =>
      NotAhead(s, snap) && {FamilyKey(fid), TombKey(fid)} <= snap.Keys && f.Live() && SawFamily(s, snap, fid, Some(f))
    case OClear(snap, f) =>
      NotAhead(s, snap) && f.Live() && SawFamily(s, snap, fid, Some(f)) && SawNoTomb(s, snap, fid)
    case OWatchedSession(snap, f) =>
      && NotAhead(s, snap) && f.Live() && SawFamily(s, snap, fid, Some(f)) && SawNoTomb(s, snap, fid)
      && SessionKey(f.body.value.currentAccess) in snap
    case OSession(snap, f, os) =>
      && NotAhead(s, snap) && f.Live() && SawFamily(s, snap, fid, Some(f)) && SawNoTomb(s, snap, fid)
      && SawSession(s, snap, f.body.value.currentAccess, os)
    case OReady(snap, f, se) =>
      && NotAhead(s, snap) && f.Live() && SawFamily(s, snap, fid, Some(f)) && SawNoTomb(s, snap, fid)
      && SawSession(s, snap, f.body.value.currentAccess, Some(se)) && BoundTo(r, f, se)
  }

  ghost predicate ProcOK(s: State, pid: nat, p: Proc) {
    match p
    case Rotate(c, target, pc) => RotateOK(s, pid, c, target, pc)
    case Classify(fid, j, pc) => ClassifyOK(s, fid, j, pc)
    case Revoke(fid, _, pc) => RevokeOK(s, fid, pc)
    case Validate(a, pc) => pc.AFamily? || pc.ASeen? ==> a.familyId in s.spine
    case OAuth(r, _, pc) => OAuthOK(s, r, pc)
    case Done(o) =>
      o.Rotated? ==>
        && o.issued in s.hist && s.hist[o.issued].token.parent == Some(o.presented)
        && o.issued in s.drawn && s.drawn[o.issued] == Committed(pid)
  }

  ghost predicate Inv(s: State) {
    && HistInv(s) && StoreInv(s) && ContentInv(s)
    && forall pid | pid in s.procs :: ProcOK(s, pid, s.procs[pid])
  }

  // ----- how far one step can move the ground under the others ----------------------

  /** Keys only move forward; an unmoved key is unchanged; a moved one costs its watchers nothing
      that was still theirs. */
  ghost predicate KeysAdvance(s: State, t: State) {
    && (forall k: Key :: Ver(s, k) <= Ver(t, k))
    && (forall k: Key :: Ver(s, k) == Ver(t, k) ==> SameAt(s.db, t.db, k))
    && (forall j, k: Key | j in s.hist && k in RotationKeys(s.hist[j].refresh) && Ver(s, k) != Ver(t, k) ::
          SpentOrDead(t, j))
  }

  /** The record only grows, only live families gain generations, and a dead family stays dead. */
  ghost predicate Advances(s: State, t: State) {
    && s.now <= t.now && s.grace == t.grace
    && (forall j | j in s.hist :: j in t.hist && t.hist[j] == s.hist[j])
    && (forall fid | fid in s.spine :: fid in t.spine && s.spine[fid] <= t.spine[fid])
    && (forall fid | fid in s.spine && !LiveIn(s.db, fid) :: !LiveIn(t.db, fid) && t.spine[fid] == s.spine[fid])
  }

  ghost predicate HistAdvances(s: State, t: State, mover: int) {
    && Advances(s, t)
    && (forall i | i in s.drawn ::
          i in t.drawn && ((s.drawn[i].Pending? && s.drawn[i].pid == mover) || t.drawn[i] == s.drawn[i]))
  }

  /** What holds between the states before and after any step taken by `mover`, which is
      negative when no program moves. */
  ghost predicate Extends(s: State, t: State, mover: int) {
    HistInv(s) && HistInv(t) && HistAdvances(s, t, mover) && KeysAdvance(s, t)
  }

  lemma SpentIsStable(s: State, t: State, mover: int, j: Id)
    requires Extends(s, t, mover)
    ensures Spent(s, j) ==> Spent(t, j) && Child(t, j) == Child(s, j)
    ensures SpentOrDead(s, j) ==> SpentOrDead(t, j)
  {
    if j in s.hist {
      assert GenOK(s, j);
      var fid := s.hist[j].fid;
      assert s.spine[fid] <= t.spine[fid];
      if Spent(s, j) {
        assert LineOK(s, fid) && LineOK(t, fid);
      }
    }
  }

  lemma WatchIsStable(s: State, t: State, mover: int, c: RefreshClaims, snap: Snapshot)
    requires Extends(s, t, mover) && c.jti in s.hist && s.hist[c.jti].refresh == c
    requires WatchOK(s, c, snap)
    ensures WatchOK(t, c, snap)
  {
    SpentIsStable(s, t, mover, c.jti);
    if !Unmoved(t, snap) && Unmoved(s, snap) {
      var k :| k in snap && Ver(t, k) != snap[k];
      assert Ver(s, k) != Ver(t, k);
    }
  }

  lemma CopiesAreStable(s: State, t: State, mover: int, j: Id)
    requires Extends(s, t, mover) && j in s.hist
    ensures forall f: Family :: CopyOK(s, j, f) ==> CopyOK(t, j, f)
    ensures forall r: TokenRecord :: TokenCopyOK(s, j, r) ==> TokenCopyOK(t, j, r)
    ensures forall f: Family, r: TokenRecord :: CurrentCopies(s, j, f, r) ==> CurrentCopies(t, j, f, r)
  {
    SpentIsStable(s, t, mover, j);
  }

  lemma BuiltIsStable(s: State, t: State, mover: int, pid: nat, j: Id, g: Gen)
    requires Extends(s, t, mover) && pid != mover && j in s.hist && BuiltOK(s, pid, j, g)
    ensures BuiltOK(t, pid, j, g)
  {
  }

  lemma SightsAreStable(s: State, t: State, mover: int, snap: Snapshot)
    requires Extends(s, t, mover) && NotAhead(s, snap)
    ensures NotAhead(t, snap)
    ensures forall fid, wf :: SawFamily(s, snap, fid, wf) ==> SawFamily(t, snap, fid, wf)
    ensures forall j, wt :: SawToken(s, snap, j, wt) ==> SawToken(t, snap, j, wt)
    ensures forall fid :: SawNoTomb(s, snap, fid) ==> SawNoTomb(t, snap, fid)
    ensures forall a, os :: SawSession(s, snap, a, os) ==> SawSession(t, snap, a, os)
  {
    assert forall k | k in snap && Ver(t, k) == snap[k] :: Ver(s, k) == Ver(t, k) && SameAt(s.db, t.db, k);
  }

  lemma RotateIsStable(s: State, t: State, mover: int, pid: nat, c: RefreshClaims, target: Option<Project>,
                       pc: RotatePc)
    requires Extends(s, t, mover) && pid != mover && RotateOK(s, pid, c, target, pc)
    ensures RotateOK(t, pid, c, target, pc)
  {
    CopiesAreStable(s, t, mover, c.jti);
    if pc.RBuilt? {
      BuiltIsStable(s, t, mover, pid, c.jti, pc.g);
    } else if pc.RWatched? || pc.RFamilyAgain? {
      WatcherIsStable(s, t, mover, pid, c, target, pc);
    } else if pc.RTokenAgain? {
      ReaderIsStable(s, t, mover, pid, c, target, pc);
    } else if pc.RReady? {
      CommitterIsStable(s, t, mover, pid, c, target, pc);
    }
  }

  lemma WatcherIsStable(s: State, t: State, mover: int, pid: nat, c: RefreshClaims, target: Option<Project>,
                        pc: RotatePc)
    requires Extends(s, t, mover) && pid != mover && RotateOK(s, pid, c, target, pc)
               && (pc.RWatched? || pc.RFamilyAgain?)
    ensures RotateOK(t, pid, c, target, pc)
  {
    CopiesAreStable(s, t, mover, c.jti);
    BuiltIsStable(s, t, mover, pid, c.jti, pc.g);
    WatchIsStable(s, t, mover, c, pc.snap);
    SightsAreStable(s, t, mover, pc.snap);
    SpentIsStable(s, t, mover, c.jti);
  }

  lemma ReaderIsStable(s: State, t: State, mover: int, pid: nat, c: RefreshClaims, target: Option<Project>,
                       pc: RotatePc)
    requires Extends(s, t, mover) && pid != mover && RotateOK(s, pid, c, target, pc) && pc.RTokenAgain?
    ensures RotateOK(t, pid, c, target, pc)
  {
    CopiesAreStable(s, t, mover, c.jti);
    BuiltIsStable(s, t, mover, pid, c.jti, pc.g);
    WatchIsStable(s, t, mover, c, pc.snap);
    SightsAreStable(s, t, mover, pc.snap);
    SpentIsStable(s, t, mover, c.jti);
  }

  lemma CommitterIsStable(s: State, t: State, mover: int, pid: nat, c: RefreshClaims, target: Option<Project>,
                          pc: RotatePc)
    requires Extends(s, t, mover) && pid != mover && RotateOK(s, pid, c, target, pc) && pc.RReady?
    ensures RotateOK(t, pid, c, target, pc)
  {
    CopiesAreStable(s, t, mover, c.jti);
    BuiltIsStable(s, t, mover, pid, c.jti, pc.g);
    WatchIsStable(s, t, mover, c, pc.snap);
    SightsAreStable(s, t, mover, pc.snap);
  }

  lemma OAuthIsStable(s: State, t: State, mover: int, r: Authorization, pc: OAuthPc)
    requires Extends(s, t, mover) && OAuthOK(s, r, pc)
    ensures OAuthOK(t, r, pc)
  {
    if !pc.OStart? {
      SightsAreStable(s, t, mover, pc.snap);
    }
  }

  /** Whatever one program knows survives a step of another. */
  lemma ProcIsStable(s: State, t: State, mover: int, pid: nat, p: Proc)
    requires Extends(s, t, mover) && pid != mover && ProcOK(s, pid, p)
    ensures ProcOK(t, pid, p)
  {
    match p
    case Rotate(c, target, pc) => RotateIsStable(s, t, mover, pid, c, target, pc);
    case Classify(fid, j, pc) => SpentIsStable(s, t, mover, j);
    case Revoke(fid, _, pc) =>
    case Validate(_, _) =>
    case OAuth(r, _, pc) => OAuthIsStable(s, t, mover, r, pc);
    case Done(o) =>
  }
}
