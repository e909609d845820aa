/** Refresh rotation, replay classification, revocation, access validation and
    session-bound OAuth authorization as concurrent programs over one Redis.

    Every Redis command of a program is one step, and steps of any number of programs
    interleave freely.  `WATCH` records key versions and `EXEC` commits only if none of
    them moved.  A step may also find that records have lapsed. */
module RotationProtocol {
  import opened Prelude
  import opened TokenFamily

  // ----- Redis ----------------------------------------------------------------------

  datatype Store = Store(
    families: map<Id, Family>, tokens: map<Id, TokenRecord>, sessions: map<Id, Session>,
    anchors: map<Id, Anchor>, tombs: set<Id>, used: map<Id, set<Id>>,
    userSessions: map<Id, set<Id>>, userFamilies: map<Id, set<Id>>)

  /** Keys that programs watch or that can lapse on their own. */
  datatype Key = FamilyKey(id: Id) | TokenKey(id: Id) | AnchorKey(id: Id) | TombKey(id: Id)
               | SessionKey(id: Id) | UserSessionsKey(id: Id) | UserFamiliesKey(id: Id) | UsedKey(id: Id)

  /** The two stores hold the same value, or nothing, under `k`. */
  predicate SameAt(a: Store, b: Store, k: Key) {
    match k
    case FamilyKey(i) => Find(a.families, i) == Find(b.families, i)
    case TokenKey(i) => Find(a.tokens, i) == Find(b.tokens, i)
    case AnchorKey(i) => Find(a.anchors, i) == Find(b.anchors, i)
    case TombKey(i) => (i in a.tombs) == (i in b.tombs)
    case SessionKey(i) => Find(a.sessions, i) == Find(b.sessions, i)
    case UserSessionsKey(i) => Find(a.userSessions, i) == Find(b.userSessions, i)
    case UserFamiliesKey(i) => Find(a.userFamilies, i) == Find(b.userFamilies, i)
    case UsedKey(i) => Find(a.used, i) == Find(b.used, i)
  }

  function Without(db: Store, k: Key): Store {
    match k
    case FamilyKey(i) => db.(families := db.families - {i})
    case TokenKey(i) => db.(tokens := db.tokens - {i})
    case AnchorKey(i) => db.(anchors := db.anchors - {i})
    case TombKey(i) => db.(tombs := db.tombs - {i})
    case SessionKey(i) => db.(sessions := db.sessions - {i})
    case UserSessionsKey(i) => db.(userSessions := db.userSessions - {i})
    case UserFamiliesKey(i) => db.(userFamilies := db.userFamilies - {i})
    case UsedKey(i) => db.(used := db.used - {i})
  }

  function Members(m: map<Id, set<Id>>, k: Id): set<Id> {
    if k in m then m[k] else {}
  }

  /** Everything a sign-in writes. */
  function Issue(db: Store, g: Gen): Store {
    var u := g.session.user.id;
    db.(sessions := db.sessions[g.access.jti := g.session],
        families := db.families[g.fid := g.family],
        tokens := db.tokens[g.refresh.jti := g.token],
        anchors := db.anchors[g.fid := g.anchor],
        userSessions := db.userSessions[u := Members(db.userSessions, u) + {g.access.jti}],
        userFamilies := db.userFamilies[u := Members(db.userFamilies, u) + {g.fid}])
  }

  /** Everything the MULTI/EXEC of a rotation writes, in one go. */
  function CommitRotation(db: Store, spent: TokenRecord, oldAccess: Id, g: Gen): Store {
    var u := g.session.user.id;
    db.(tokens := db.tokens[spent.jti := Spend(spent, g)][g.refresh.jti := g.token],
        used := db.used[g.fid := Members(db.used, g.fid) + {spent.jti}],
        families := db.families[g.fid := g.family],
        sessions := db.sessions[g.access.jti := g.session] - {oldAccess},
        anchors := db.anchors[g.fid := g.anchor],
        userSessions := db.userSessions[u := Members(db.userSessions, u) - {oldAccess} + {g.access.jti}],
        userFamilies := db.userFamilies[u := Members(db.userFamilies, u) + {g.fid}])
  }

  // ----- programs -------------------------------------------------------------------

  /** What an OAuth transaction recorded about the session that started it. */
  datatype Authorization = Authorization(
    userId: Id, userHash: Id, familyId: Id, scope: Scope, projectHash: Option<Id>, sessionId: Id)

  type Snapshot = map<Key, nat>

  /** Program points of `rotate_refresh_family`; each holds the local variables so far. */
  datatype RotatePc =
    | RStart
    | RFamily(f: Family)
    | RToken(f: Family, t: TokenRecord)
    | RSeen(f: Family, t: TokenRecord)
    | RCurrent(f: Family, t: TokenRecord)
    | RSession(f: Family, t: TokenRecord, os: Option<Session>)
    | RContext(f: Family, t: TokenRecord, ctx: Session)
    | RBuilt(f: Family, t: TokenRecord, g: Gen)
    | RWatched(f: Family, t: TokenRecord, g: Gen, snap: Snapshot)
    | RFamilyAgain(f: Family, t: TokenRecord, g: Gen, snap: Snapshot, wf: Option<Family>)
    | RTokenAgain(f: Family, t: TokenRecord, g: Gen, snap: Snapshot, wf: Option<Family>, wt: Option<TokenRecord>)
    | RReady(f: Family, t: TokenRecord, g: Gen, snap: Snapshot, seenFamily: Family, seenToken: TokenRecord)

  /** Program points of `classify_refresh_token_state`. */
  datatype ClassifyPc =
    | CStart
    | CFamily(f: Family)
    | CToken(f: Family, t: TokenRecord)
    | CSeen(f: Family, t: TokenRecord)
    | CMember(f: Family, t: TokenRecord)

  /** Program points of `revoke_refresh_family`, up to the end of its writes to family keys. */
  datatype RevokePc = VStart | VRead(copy: Option<Family>) | VTomb | VAnchor

  /** Program points of `validate_access_session`. */
  datatype ValidatePc =
    | AStart
    | ASession(s: Session)
    | AFamily(s: Session, f: Family)
    | ASeen(s: Session, f: Family)

  /** Program points of `authorize_oauth_session`. */
  datatype OAuthPc =
    | OStart
    | OWatched(snap: Snapshot)
    | OFamily(snap: Snapshot, f: Family)
    | OClear(snap: Snapshot, f: Family)
    | OWatchedSession(snap: Snapshot, f: Family)
    | OSession(snap: Snapshot, f: Family, os: Option<Session>)
    | OReady(snap: Snapshot, f: Family, s: Session)

  datatype Outcome =
    | Refused
    | Rotated(presented: Id, issued: Id)
    | Replayed
    | RevokedFamily(fid: Id)
    | Validated(claims: AccessClaims)
    | Authorized(record: Authorization)

  datatype Proc =
    | Rotate(c: RefreshClaims, target: Option<Project>, rpc: RotatePc)
    | Classify(fid: Id, jti: Id, cpc: ClassifyPc)
    | Revoke(fid: Id, reason: Reason, vpc: RevokePc)
    | Validate(a: AccessClaims, apc: ValidatePc)
    | OAuth(record: Authorization, tries: nat, opc: OAuthPc)
    | Done(outcome: Outcome)

  /** Who drew a fresh identifier, and whether it has been committed. */
  datatype Draw = Pending(pid: nat) | Committed(pid: nat)

  /** Redis plus the running programs.  `hist`, `spine` and `byAccess` only record what was
      committed: every generation under its refresh jti, the order within each family, and
      which generation owns an access jti. */
  datatype State = State(
    db: Store, ver: map<Key, nat>, now: nat, grace: nat, drawn: map<Id, Draw>,
    hist: map<Id, Gen>, spine: map<Id, seq<Id>>, byAccess: map<Id, Id>, procs: map<nat, Proc>)

  function Ver(s: State, k: Key): nat {
    if k in s.ver then s.ver[k] else 0
  }

  function Bump(ver: map<Key, nat>, keys: set<Key>): map<Key, nat> {
    map k | k in ver.Keys + keys :: (if k in ver then ver[k] else 0) + (if k in keys then 1 else 0)
  }

  function Snap(s: State, keys: set<Key>): Snapshot {
    map k | k in keys :: Ver(s, k)
  }

  predicate Unmoved(s: State, snap: Snapshot) {
    forall k | k in snap :: Ver(s, k) == snap[k]
  }

  /** The four keys a rotation watches. */
  function RotationKeys(c: RefreshClaims): set<Key> {
    {FamilyKey(c.familyId), TokenKey(c.jti), AnchorKey(c.familyId), TombKey(c.familyId)}
  }

  function Goto(s: State, pid: nat, p: Proc): State {
    s.(procs := s.procs[pid := p])
  }

  /** How the world answers a step: the database may deny, and identifiers are drawn fresh. */
  datatype Choice = Choice(denied: bool, granted: Option<Project>, access: Id, refresh: Id)

  predicate RecheckPasses(c: RefreshClaims, wf: Option<Family>, wt: Option<TokenRecord>, tombed: bool) {
    && wf.Some? && wt.Some? && !tombed && wf.value.Live()
    && wf.value.body.value.currentRefresh == c.jti
    && wt.value.status == Current && wt.value.digest == c
  }

  /** A rotation step that only reads. */
  function RotateStep(s: State, c: RefreshClaims, target: Option<Project>, pc: RotatePc, ch: Choice): (p: Proc)
    requires !pc.RContext? && !pc.RReady?
    ensures p.Rotate? || p.Classify? || p.Revoke? || p == Done(Refused)
  {
    var db, fid := s.db, c.familyId;
    match pc
    case RStart =>
      if fid in db.families then Rotate(c, target, RFamily(db.families[fid])) else Done(Refused)
    case RFamily(f) =>
      if c.jti in db.tokens then Rotate(c, target, RToken(f, db.tokens[c.jti])) else Done(Refused)
    case RToken(f, t) =>
      if !f.Live() || (fid in db.families && db.families[fid].status != Active) then Done(Refused)
      else Rotate(c, target, RSeen(f, t))
    case RSeen(f, t) =>
      if !f.Live() || fid in db.tombs || t.digest != c then Done(Refused)
      else if f.body.value.currentRefresh != c.jti || t.status != Current then Classify(fid, c.jti, CStart)
      else Rotate(c, target, RCurrent(f, t))
    case RCurrent(f, t) =>
      if !f.Live() then Done(Refused)
      else Rotate(c, target, RSession(f, t, Find(db.sessions, f.body.value.currentAccess)))
    case RSession(f, t, os) =>
      if !f.Live() then Done(Refused)
      else if os.None? && fid !in db.anchors then Revoke(fid, OtherReason(0), VStart)
      else if os.None? && !AnchorMatches(db.anchors[fid], c, f) then Done(Refused)
      else
        var seed := if os.Some? then os.value else AnchorSeed(db.anchors[fid]);
        if RefreshClaimsMatch(c, f, seed) then Rotate(c, target, RContext(f, t, Retarget(seed, target)))
        else Done(Refused)
    case RBuilt(f, t, g) => Rotate(c, target, RWatched(f, t, g, Snap(s, RotationKeys(c))))
    case RWatched(f, t, g, snap) => Rotate(c, target, RFamilyAgain(f, t, g, snap, Find(db.families, fid)))
    case RFamilyAgain(f, t, g, snap, wf) =>
      Rotate(c, target, RTokenAgain(f, t, g, snap, wf, Find(db.tokens, c.jti)))
    case RTokenAgain(f, t, g, snap, wf, wt) =>
      if RecheckPasses(c, wf, wt, fid in db.tombs) then Rotate(c, target, RReady(f, t, g, snap, wf.value, wt.value))
      else Classify(fid, c.jti, CStart)
  }

  /** The generation a rotation builds from its copies, with identifiers drawn by `ch`. */
  function Built(s: State, c: RefreshClaims, f: Family, ctx: Session, ch: Choice): Option<Gen> {
    if !f.Live() then None
    else BuildRotated(c, ctx, f, ch.granted, if c.jti in s.hist then s.hist[c.jti].idx + 1 else 0,
                      s.now, ch.access, ch.refresh)
  }

  /** The database denies the context, or the rotation goes on with what it built. */
  function BuildStep(s: State, pid: nat, c: RefreshClaims, target: Option<Project>,
                     f: Family, t: TokenRecord, built: Option<Gen>, ch: Choice): State
  {
    if ch.denied then Goto(s, pid, Revoke(c.familyId, OtherReason(1), VStart))
    else if built.None? then Goto(s, pid, Done(Refused))
    else Goto(s.(drawn := s.drawn[ch.access := Pending(pid)][ch.refresh := Pending(pid)]), pid,
              Rotate(c, target, RBuilt(f, t, built.value)))
  }

  function Verdict(s: State, fid: Id, f: Family, t: TokenRecord): Proc
  {
    if Benign(f, t, s.now, s.grace) then Done(Replayed) else Revoke(fid, RefreshReuse, VStart)
  }

  function ClassifyStep(s: State, fid: Id, jti: Id, pc: ClassifyPc): (p: Proc)
    ensures p.Classify? || p.Revoke? || p == Done(Refused) || p == Done(Replayed)
  {
    var db := s.db;
    match pc
    case CStart =>
      if fid in db.families then Classify(fid, jti, CFamily(db.families[fid])) else Done(Refused)
    case CFamily(f) =>
      if jti in db.tokens then Classify(fid, jti, CToken(f, db.tokens[jti])) else Done(Refused)
    case CToken(f, t) =>
      if !f.Live() || (fid in db.families && db.families[fid].status != Active) then Done(Refused)
      else Classify(fid, jti, CSeen(f, t))
    case CSeen(f, t) =>
      if !f.Live() || fid in db.tombs then Done(Refused)
      else if f.body.value.currentRefresh == jti && t.status == Current then Done(Refused)
      else if t.status != Current then Verdict(s, fid, f, t)
      else Classify(fid, jti, CMember(f, t))
    case CMember(f, t) =>
      if jti in Members(db.used, fid) then Verdict(s, fid, f, t) else Done(Refused)
  }

  function ValidateStep(s: State, a: AccessClaims, pc: ValidatePc, ch: Choice): (p: Proc)
    ensures (p.Validate? && p.a == a) || p.Revoke? || p == Done(Refused) || (p == Done(Validated(a)) && pc.ASeen?)
  {
    var db, fid := s.db, a.familyId;
    match pc
    case AStart =>
      if a.jti in db.sessions && AccessClaimsMatch(a, db.sessions[a.jti]) then Validate(a, ASession(db.sessions[a.jti]))
      else Done(Refused)
    case ASession(se) =>
      if fid in db.families && db.families[fid].Live() then Validate(a, AFamily(se, db.families[fid]))
          else Done(Refused)
    case AFamily(se, f) =>
      if fid in db.families && db.families[fid].status != Active then Done(Refused) else Validate(a, ASeen(se, f))
    case ASeen(se, f) =>
      if !f.Live() || fid in db.tombs || !FamilyMatches(f, a.jti, se) then Done(Refused)
      else if ch.denied then Revoke(fid, OtherReason(2), VStart) else Done(Validated(a))
  }

  /** Both payloads unexpired and bound to what the transaction recorded. */
  predicate BoundTo(r: Authorization, f: Family, s: Session) {
    && f.Live()
    && var b := f.body.value;
    && b.userId == r.userId && b.userHash == r.userHash && f.id == r.familyId
    && b.scope == r.scope && b.projectHash == r.projectHash
    && s.user.id == r.userId && s.user.hash == r.userHash && s.familyId == r.familyId
    && s.scope == r.scope && HashOf(s.project) == r.projectHash
    && s.sessionId == r.sessionId && s.accessJti == b.currentAccess && s.refreshJti == b.currentRefresh
  }

  predicate Unexpired(f: Family, s: Session, now: nat)
    requires f.body.Some?
  {
    f.body.value.expiresAt > now && s.expiresAt.Some? && s.expiresAt.value > now
  }

  function OAuthRetry(r: Authorization, tries: nat): Proc {
    if tries <= 1 then Done(Refused) else OAuth(r, tries - 1, OStart)
  }

  function OAuthStep(s: State, r: Authorization, tries: nat, pc: OAuthPc, ch: Choice): (p: Proc)
    ensures (p.OAuth? && p.record == r) || p.Revoke? || p == Done(Refused) || (p == Done(Authorized(r)) && pc.OReady?)
  {
    var db, fid := s.db, r.familyId;
    match pc
    case OStart => OAuth(r, tries, OWatched(Snap(s, {FamilyKey(fid), TombKey(fid)})))
    case OWatched(snap) =>
      if fid in db.families && db.families[fid].Live() then OAuth(r, tries, OFamily(snap, db.families[fid]))
      else Done(Refused)
    case OFamily(snap, f) => if fid in db.tombs then Done(Refused) else OAuth(r, tries, OClear(snap, f))
    case OClear(snap, f) =>
      if !f.Live() then Done(Refused)
      else OAuth(r, tries, OWatchedSession(snap + Snap(s, {SessionKey(f.body.value.currentAccess)}), f))
    case OWatchedSession(snap, f) =>
      if !f.Live() then Done(Refused)
      else OAuth(r, tries, OSession(snap, f, Find(db.sessions, f.body.value.currentAccess)))
    case OSession(snap, f, os) =>
      if Find(db.families, fid) != Some(f) then OAuthRetry(r, tries)
      else if os.None? || !BoundTo(r, f, os.value) || !Unexpired(f, os.value, s.now) then Done(Refused)
      else if ch.denied then Revoke(fid, OtherReason(3), VStart)
      else OAuth(r, tries, OReady(snap, f, os.value))
    case OReady(snap, f, se) => if Unmoved(s, snap) then Done(Authorized(r)) else OAuthRetry(r, tries)
  }

  // ----- steps of the whole system --------------------------------------------------

  datatype Action =
    | Tick(elapsed: nat)
    | SignInAs(user: User, project: Option<Project>, remember: bool, fid: Id, sid: Id, access: Id, refresh: Id)
    | Start(pid: nat, p: Proc)
    | Step(pid: nat, ch: Choice)
    | Lapse(k: Key)
    | LapseLive(fid: Id)

  predicate Fresh(s: State, i: Id) {
    i !in s.drawn
  }

  predicate LiveIn(db: Store, fid: Id) {
    fid in db.families && db.families[fid].Live()
  }

  /** Every rotation of an ordinary family sets the record it spends to the same lifetime, so those
      records lapse in the order in which they were spent; a remember-me family gives no such order. */
  predicate NextToLapse(db: Store, i: Id)
    requires i in db.tokens && LiveIn(db, db.tokens[i].familyId)
  {
    || db.families[db.tokens[i].familyId].body.value.remember
    || db.tokens[i].parent.None? || db.tokens[i].parent.value !in db.tokens
  }

  /** Records that can lapse by themselves.  The family, anchor, current token and used set of
      a live family were written by one EXEC with one lifetime and lapse together instead. */
  predicate MayLapseAlone(db: Store, k: Key) {
    match k
    case FamilyKey(i) => !LiveIn(db, i)
    case AnchorKey(i) => !LiveIn(db, i)
    case UsedKey(i) => !LiveIn(db, i)
    case TokenKey(i) =>
      i in db.tokens && (LiveIn(db, db.tokens[i].familyId) ==> db.tokens[i].status != Current && NextToLapse(db, i))
    case TombKey(i) => i in db.tombs
    case SessionKey(_) => true
    case UserSessionsKey(_) => true
    case UserFamiliesKey(_) => true
  }

  /** Programs start from tokens the system issued and families it created. */
  predicate MayStart(s: State, p: Proc) {
    match p
    case Rotate(c, _, pc) => pc.RStart? && c.jti in s.hist && s.hist[c.jti].refresh == c
    case Revoke(fid, _, pc) => pc.VStart? && fid in s.spine
    case Validate(a, pc) => pc.AStart?
    case OAuth(_, tries, pc) => pc.OStart? && tries == 3
    case Classify(_, _, _) => false
    case Done(_) => false
  }

  predicate Enabled(s: State, a: Action) {
    match a
    case Tick(_) => true
    case SignInAs(_, _, _, fid, sid, access, refresh) =>
      && s.now >= SECOND
      && Fresh(s, fid) && Fresh(s, sid) && Fresh(s, access) && Fresh(s, refresh)
      && fid != sid && fid != access && fid != refresh && sid != access && sid != refresh && access != refresh
    case Start(pid, p) => pid !in s.procs && MayStart(s, p)
    case Step(pid, ch) =>
      && pid in s.procs && !s.procs[pid].Done?
      && (s.procs[pid].Rotate? && s.procs[pid].rpc.RContext? && !ch.denied ==>
            Fresh(s, ch.access) && Fresh(s, ch.refresh) && ch.access != ch.refresh
            && Grants(s.procs[pid].rpc.ctx, ch.granted))
    case Lapse(k) => MayLapseAlone(s.db, k)
    case LapseLive(fid) => LiveIn(s.db, fid)
  }

  /** Adds a generation to the record of what was committed. */
  function Record(s: State, g: Gen, line: seq<Id>, pid: nat): State {
    s.(hist := s.hist[g.refresh.jti := g], spine := s.spine[g.fid := line],
       byAccess := s.byAccess[g.access.jti := g.refresh.jti],
       drawn := s.drawn[g.refresh.jti := Committed(pid)][g.access.jti := Committed(pid)])
  }

  function CommitKeys(c: RefreshClaims, oldAccess: Id, g: Gen): set<Key> {
    {FamilyKey(c.familyId), TokenKey(c.jti), TokenKey(g.refresh.jti), AnchorKey(c.familyId),
     SessionKey(oldAccess), SessionKey(g.access.jti), UsedKey(c.familyId),
     UserSessionsKey(g.session.user.id), UserFamiliesKey(g.session.user.id)}
  }

  /** The EXEC of a rotation that passed: all its writes, and the generation is recorded. */
  function Commit(s: State, pid: nat, c: RefreshClaims, f: Family, t: TokenRecord, g: Gen): State
    requires f.body.Some?
  {
    var oldAccess := f.body.value.currentAccess;
    var line := (if c.familyId in s.spine then s.spine[c.familyId] else []) + [g.refresh.jti];
    var s1 := s.(db := CommitRotation(s.db, t, oldAccess, g), ver := Bump(s.ver, CommitKeys(c, oldAccess, g)));
    Goto(Record(s1, g, line, pid), pid, Done(Rotated(c.jti, g.refresh.jti)))
  }

  function RevokeStep(s: State, pid: nat, fid: Id, reason: Reason, pc: RevokePc): State {
    match pc
    case VStart => Goto(s, pid, Revoke(fid, reason, VRead(Find(s.db.families, fid))))
    case VRead(copy) =>
      Goto(s.(db := s.db.(families := s.db.families[fid := RevokedCopy(fid, copy, reason)]),
              ver := Bump(s.ver, {FamilyKey(fid)})), pid, Revoke(fid, reason, VTomb))
    case VTomb =>
      Goto(s.(db := s.db.(tombs := s.db.tombs + {fid}), ver := Bump(s.ver, {TombKey(fid)})),
           pid, Revoke(fid, reason, VAnchor))
    case VAnchor =>
      Goto(s.(db := Without(s.db, AnchorKey(fid)), ver := Bump(s.ver, {AnchorKey(fid)})),
           pid, Done(RevokedFamily(fid)))
  }

  function ProcStep(s: State, pid: nat, ch: Choice): State
    requires pid in s.procs && !s.procs[pid].Done?
  {
    match s.procs[pid]
    case Rotate(c, target, pc) =>
      if pc.RReady? then
        if Unmoved(s, pc.snap) && pc.f.body.Some? then Commit(s, pid, c, pc.f, pc.t, pc.g)
        else Goto(s, pid, Classify(c.familyId, c.jti, CStart))
      else if pc.RContext? then BuildStep(s, pid, c, target, pc.f, pc.t, Built(s, c, pc.f, pc.ctx, ch), ch)
      else Goto(s, pid, RotateStep(s, c, target, pc, ch))
    case Classify(fid, jti, pc) => Goto(s, pid, ClassifyStep(s, fid, jti, pc))
    case Revoke(fid, reason, pc) => RevokeStep(s, pid, fid, reason, pc)
    case Validate(a, pc) => Goto(s, pid, ValidateStep(s, a, pc, ch))
    case OAuth(r, tries, pc) => Goto(s, pid, OAuthStep(s, r, tries, pc, ch))
  }

  function LapseLiveKeys(db: Store, fid: Id): set<Key>
    requires LiveIn(db, fid)
  {
    {FamilyKey(fid), AnchorKey(fid), UsedKey(fid), TokenKey(db.families[fid].body.value.currentRefresh)}
  }

  function DropLive(db: Store, fid: Id): Store
    requires LiveIn(db, fid)
  {
    db.(families := db.families - {fid}, anchors := db.anchors - {fid}, used := db.used - {fid},
        tokens := db.tokens - {db.families[fid].body.value.currentRefresh})
  }

  function Apply(s: State, a: Action): State
    requires Enabled(s, a)
  {
    match a
    case Tick(elapsed) => s.(now := s.now + elapsed)
    case SignInAs(user, project, remember, fid, sid, access, refresh) =>
      var g := SignIn(user, project, remember, s.now, fid, sid, access, refresh);
      var keys := {FamilyKey(fid), TokenKey(refresh), AnchorKey(fid), SessionKey(access),
                   UserSessionsKey(user.id), UserFamiliesKey(user.id)};
      Record(s.(db := Issue(s.db, g), ver := Bump(s.ver, keys),
                drawn := s.drawn[fid := Committed(0)][sid := Committed(0)]), g, [refresh], 0)
    case Start(pid, p) => Goto(s, pid, p)
    case Step(pid, ch) => ProcStep(s, pid, ch)
    case Lapse(k) => s.(db := Without(s.db, k), ver := Bump(s.ver, {k}))
    case LapseLive(fid) => s.(db := DropLive(s.db, fid), ver := Bump(s.ver, LapseLiveKeys(s.db, fid)))
  }

  // ----- runs -----------------------------------------------------------------------

  const EMPTY_STORE := Store(map[], map[], map[], map[], {}, map[], map[], map[])

  predicate Initial(s: State) {
    && s.db == EMPTY_STORE && s.ver == map[] && s.drawn == map[]
    && s.hist == map[] && s.spine == map[] && s.byAccess == map[] && s.procs == map[]
  }

  /** `acts` leads from `s` to `t`. */
  ghost predicate Run(s: State, acts: seq<Action>, t: State)
    decreases |acts|
  {
    if acts == [] then s == t
    else Enabled(s, acts[0]) && Run(Apply(s, acts[0]), acts[1..], t)
  }

  ghost predicate Reachable(t: State) {
    exists s: State, acts: seq<Action> :: Initial(s) && Run(s, acts, t)
  }
}
