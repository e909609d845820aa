/** The records behind one sign-in, and the pure functions that build and match them.

    A sign-in creates a refresh family.  Each family has at any time one current
    refresh token, one access token with its session record, and one anchor that
    outlives the session record.  A `Gen` is everything one issuance writes: the
    sign-in writes generation 0 and every rotation writes the next one. */
module TokenFamily {
  import opened Prelude

  /** Clock readings are microseconds; token claims and cache lifetimes are seconds. */
  const SECOND: nat := 1_000_000
  const ACCESS_TTL_SECONDS: nat := 15 * 60
  const REFRESH_FAMILY_TTL_SECONDS: nat := 72 * 60 * 60
  const REMEMBER_ME_REFRESH_TTL_SECONDS: nat := 30 * 24 * 60 * 60

  datatype Scope = PlatformScope | ProjectScope

  /** The `collection` claim: the platform sentinel or a project hash. */
  datatype Collection = PlatformSentinel | ProjectHash(hash: Id)

  datatype User = User(id: Id, hash: Id, name: Id, kind: Id)
  datatype Project = Project(id: Id, hash: Id, name: Id)

  datatype FamilyStatus = Active | Revoked | Reused
  datatype TokenStatus = Current | Used | Withdrawn
  datatype Reason = RefreshReuse | OtherReason(code: Id)

  datatype FamilyBody = FamilyBody(
    userId: Id, userHash: Id, scope: Scope, projectId: Option<Id>, projectHash: Option<Id>,
    currentRefresh: Id, currentAccess: Id, createdAt: nat, updatedAt: nat, authTime: Option<nat>,
    expiresAt: nat, remember: bool, ttl: nat, absolute: Option<nat>)

  /** A family record.  Revoking a family whose record is gone writes one without a body. */
  datatype Family = Family(id: Id, status: FamilyStatus, body: Option<FamilyBody>, reason: Option<Reason>) {
    predicate Live() {
      status == Active && body.Some?
    }
  }

  datatype Session = Session(
    accessJti: Id, sessionId: Id, familyId: Id, refreshJti: Id, user: User, scope: Scope,
    collection: Collection, project: Option<Project>, issuedAt: nat, authTime: Option<nat>,
    expiresAt: Option<nat>, remember: bool, ttl: nat, absolute: Option<nat>)

  datatype Anchor = Anchor(
    familyId: Id, sessionId: Id, status: FamilyStatus, user: User, scope: Scope,
    collection: Collection, project: Option<Project>, currentAccess: Id, currentRefresh: Id,
    createdAt: nat, updatedAt: nat, expiresAt: nat, remember: bool, ttl: nat, absolute: Option<nat>)

  /** Signed claims.  A signed token is its claims, and a token hash is the token itself. */
  datatype RefreshClaims = RefreshClaims(
    jti: Id, familyId: Id, sessionId: Id, userHash: Id, collection: Collection, scope: Scope,
    iat: nat, exp: nat)
  datatype AccessClaims = AccessClaims(
    jti: Id, familyId: Id, sessionId: Id, userHash: Id, collection: Collection, scope: Scope,
    authTime: Option<nat>, iat: nat, exp: nat)

  datatype TokenRecord = TokenRecord(
    jti: Id, familyId: Id, userId: Id, digest: RefreshClaims, status: TokenStatus,
    parent: Option<Id>, child: Option<Id>, issuedAt: nat, usedAt: Option<nat>,
    expiresAt: nat, remember: bool, ttl: nat, absolute: Option<nat>)

  /** All that one issuance writes.  `at` is its clock reading, `idx` its place in the family. */
  datatype Gen = Gen(
    fid: Id, idx: nat, at: nat, family: Family, session: Session, anchor: Anchor,
    token: TokenRecord, refresh: RefreshClaims, access: AccessClaims)

  // ----- arithmetic and fallbacks -------------------------------------------------

  /** Whole seconds left, truncated, never negative. */
  function SecondsUntil(expiresAt: nat, now: nat): (r: nat)
    ensures now + r * SECOND <= expiresAt || r == 0
    ensures now + (r + 1) * SECOND > expiresAt
  {
    if expiresAt <= now then 0 else (expiresAt - now) / SECOND
  }

  /** `a or b` on optional epoch times: zero and absent both fall through. */
  function OrTime(a: Option<nat>, b: Option<nat>): Option<nat> {
    if a.Some? && a.value != 0 then a else b
  }

  function CollectionFor(scope: Scope, project: Option<Project>, otherwise: Collection): Collection {
    if scope == PlatformScope then PlatformSentinel
    else if project.Some? then ProjectHash(project.value.hash) else otherwise
  }

  function ProjectId(p: Option<Project>): Option<Id> {
    if p.Some? then Some(p.value.id) else None
  }

  function HashOf(p: Option<Project>): Option<Id> {
    if p.Some? then Some(p.value.hash) else None
  }

  // ----- signed claims ------------------------------------------------------------

  function MakeAccess(s: Session, now: nat): AccessClaims {
    AccessClaims(s.accessJti, s.familyId, s.sessionId, s.user.hash, s.collection, s.scope,
                 s.authTime, now / SECOND, (now + ACCESS_TTL_SECONDS * SECOND) / SECOND)
  }

  function MakeRefresh(s: Session, ttl: nat, now: nat): RefreshClaims {
    RefreshClaims(s.refreshJti, s.familyId, s.sessionId, s.user.hash, s.collection, s.scope,
                  now / SECOND, (now + ttl * SECOND) / SECOND)
  }

  // ----- anchor -------------------------------------------------------------------

  function BuildAnchor(s: Session, b: FamilyBody): Anchor {
    Anchor(s.familyId, s.sessionId, Active, s.user, s.scope,
           CollectionFor(s.scope, None, s.collection),
           if s.scope == ProjectScope then s.project else None,
           b.currentAccess, b.currentRefresh, b.createdAt, b.updatedAt, b.expiresAt,
           b.remember || s.remember, b.ttl,
           if b.absolute.Some? then b.absolute else s.absolute)
  }

  /** May this anchor stand in for the expired session of the presented token? */
  predicate AnchorMatches(a: Anchor, c: RefreshClaims, f: Family)
    requires f.body.Some?
  {
    var b := f.body.value;
    var expected :=
      if b.scope == PlatformScope then Some(PlatformSentinel)
      else if b.projectHash.Some? then Some(ProjectHash(b.projectHash.value))
      else if a.project.Some? then Some(ProjectHash(a.project.value.hash)) else None;
    && a.status == Active
    && a.familyId == f.id && a.sessionId == c.sessionId && a.user.hash == b.userHash
    && a.scope == b.scope && a.currentRefresh == c.jti
    && a.currentAccess == b.currentAccess
    && expected == Some(a.collection) && c.collection == a.collection
  }

  /** The session a matching anchor is turned back into. */
  function AnchorSeed(a: Anchor): Session {
    Session(a.currentAccess, a.sessionId, a.familyId, a.currentRefresh, a.user, a.scope,
            CollectionFor(a.scope, None, a.collection),
            if a.scope == ProjectScope then a.project else None,
            a.updatedAt, None, None, a.remember, a.ttl, a.absolute)
  }

  /** The checks a presented refresh token must pass against family and session context. */
  predicate RefreshClaimsMatch(c: RefreshClaims, f: Family, s: Session)
    requires f.body.Some?
  {
    && c.sessionId == s.sessionId && c.familyId == f.id && c.userHash == s.user.hash
    && c.scope == s.scope && c.jti == s.refreshJti && c.jti == f.body.value.currentRefresh
    && c.collection == (if s.scope == PlatformScope then PlatformSentinel else s.collection)
  }

  /** The checks a presented access token must pass against its session record. */
  predicate AccessClaimsMatch(c: AccessClaims, s: Session) {
    && c.jti == s.accessJti && c.sessionId == s.sessionId && c.familyId == s.familyId
    && c.userHash == s.user.hash && c.scope == s.scope && c.collection == s.collection
  }

  /** The checks a live family must pass against a session record. */
  predicate FamilyMatches(f: Family, jti: Id, s: Session)
    requires f.body.Some?
  {
    var b := f.body.value;
    && b.currentAccess == jti && b.userHash == s.user.hash && b.scope == s.scope
    && (s.scope == ProjectScope ==> b.projectHash == HashOf(s.project))
  }

  // ----- issuance -----------------------------------------------------------------

  /** Generation 0: a sign-in to a project, or to the platform when `project` is absent. */
  function SignIn(user: User, project: Option<Project>, remember: bool, now: nat,
                  fid: Id, sid: Id, access: Id, refresh: Id): Gen
  {
    var scope := if project.Some? then ProjectScope else PlatformScope;
    var ttl := if remember then REMEMBER_ME_REFRESH_TTL_SECONDS else REFRESH_FAMILY_TTL_SECONDS;
    var expiresAt := now + ttl * SECOND;
    var absolute := if remember then Some(expiresAt) else None;
    var authTime := Some(now / SECOND);
    var s := Session(access, sid, fid, refresh, user, scope,
                     CollectionFor(scope, project, PlatformSentinel), project, now, authTime,
                     Some(now + ACCESS_TTL_SECONDS * SECOND), remember, ttl, absolute);
    var b := FamilyBody(user.id, user.hash, scope, ProjectId(project), HashOf(project),
                        refresh, access, now, now, authTime, expiresAt, remember, ttl, absolute);
    var c := MakeRefresh(s, ttl, now);
    var t := TokenRecord(refresh, fid, user.id, c, Current, None, None, now, None,
                         expiresAt, remember, ttl, absolute);
    Gen(fid, 0, now, Family(fid, Active, Some(b), None), s, BuildAnchor(s, b), t, c, MakeAccess(s, now))
  }

  /** A project switch re-scopes the session context before it is re-authorized. */
  function Retarget(s: Session, target: Option<Project>): Session {
    if target.None? then s
    else s.(scope := ProjectScope, project := target, collection := ProjectHash(target.value.hash))
  }

  /** The next generation, from the presented claims, a family copy, the session context
      and the project the database granted; nothing when a remember-me family has expired. */
  function BuildRotated(c: RefreshClaims, ctx: Session, f: Family, granted: Option<Project>,
                        idx: nat, now: nat, access: Id, refresh: Id): Option<Gen>
    requires f.body.Some?
  {
    var b := f.body.value;
    var remember := b.remember || ctx.remember;
    var limit := if b.absolute.Some? then b.absolute.value else b.expiresAt;
    var ttl := if remember then SecondsUntil(limit, now)
               else if b.ttl != 0 then b.ttl else REFRESH_FAMILY_TTL_SECONDS;
    if remember && ttl == 0 then None
    else
      var expiresAt := if remember then limit else now + ttl * SECOND;
      var absolute := if remember then Some(limit) else None;
      var project := if ctx.scope == PlatformScope then None
                     else if granted.Some? then granted else ctx.project;
      var s := ctx.(accessJti := access, sessionId := c.sessionId, familyId := c.familyId,
                    refreshJti := refresh,
                    collection := CollectionFor(ctx.scope, ctx.project, ctx.collection),
                    project := project, issuedAt := now,
                    authTime := OrTime(b.authTime, ctx.authTime),
                    expiresAt := Some(now + ACCESS_TTL_SECONDS * SECOND),
                    remember := remember, ttl := ttl, absolute := absolute);
      var b' := b.(currentRefresh := refresh, currentAccess := access, updatedAt := now,
                   expiresAt := expiresAt, remember := remember, ttl := ttl, absolute := absolute,
                   scope := s.scope,
                   projectId := if s.scope == ProjectScope then ProjectId(project) else None,
                   projectHash := if s.scope == ProjectScope then HashOf(project) else None);
      var c' := MakeRefresh(s, ttl, now);
      var t := TokenRecord(refresh, c.familyId, s.user.id, c', Current, Some(c.jti), None, now, None,
                           expiresAt, remember, ttl, absolute);
      Some(Gen(c.familyId, idx, now, f.(body := Some(b')), s, BuildAnchor(s, b'), t, c', MakeAccess(s, now)))
  }

  /** The record a spent token leaves behind: it names its successor and when it was used. */
  function Spend(t: TokenRecord, next: Gen): TokenRecord {
    t.(status := Used, usedAt := Some(next.at), child := Some(next.refresh.jti))
  }

  /** What a revocation writes over whatever copy it read earlier. */
  function RevokedCopy(fid: Id, copy: Option<Family>, reason: Reason): (f: Family)
    ensures !f.Live() && f.id == (if copy.Some? then copy.value.id else fid)
    ensures f.reason == Some(reason) && f.body == (if copy.Some? then copy.value.body else None)
    ensures f.status == Reused <==> reason == RefreshReuse
  {
    var base := if copy.Some? then copy.value else Family(fid, Revoked, None, None);
    base.(status := if reason == RefreshReuse then Reused else Revoked, reason := Some(reason))
  }

  /** A duplicate of the token that was just rotated, as opposed to a reuse. */
  predicate Benign(f: Family, t: TokenRecord, now: nat, grace: nat) {
    && grace > 0
    && t.status == Used
    && f.body.Some? && t.child == Some(f.body.value.currentRefresh)
    && t.usedAt.Some?
    && t.usedAt.value <= now <= t.usedAt.value + grace * SECOND
  }

  // ----- coherence of one generation ----------------------------------------------

  /** Family, session, anchor, token record and both signed tokens of a generation agree. */
  predicate Coherent(g: Gen) {
    && g.family.id == g.fid && g.family.Live()
    && var b, s := g.family.body.value, g.session;
    && s.familyId == g.fid && s.accessJti == b.currentAccess && s.refreshJti == b.currentRefresh
    && s.user.id == b.userId && s.user.hash == b.userHash
    && s.scope == b.scope && (s.scope == ProjectScope <==> s.project.Some?)
    && b.projectHash == HashOf(s.project) && b.projectId == ProjectId(s.project)
    && s.collection == CollectionFor(s.scope, s.project, PlatformSentinel)
    && s.remember == b.remember && s.ttl == b.ttl && b.ttl > 0 && s.absolute == b.absolute
    && b.remember == b.absolute.Some? && (b.remember ==> b.absolute == Some(b.expiresAt))
    && s.authTime == b.authTime && b.authTime.Some? && b.authTime.value > 0
    && s.issuedAt == g.at && s.expiresAt == Some(g.at + ACCESS_TTL_SECONDS * SECOND) && b.updatedAt == g.at
    && g.anchor == BuildAnchor(s, b)
    && g.refresh == MakeRefresh(s, b.ttl, g.at) && g.access == MakeAccess(s, g.at)
    && g.token.jti == g.refresh.jti && g.token.familyId == g.fid && g.token.digest == g.refresh
    && g.token.status == Current && g.token.child.None? && g.token.usedAt.None?
    && g.token.userId == b.userId && g.token.issuedAt == g.at && g.token.expiresAt == b.expiresAt
    && g.token.remember == b.remember && g.token.ttl == b.ttl && g.token.absolute == b.absolute
  }

  /** The identifiers of a generation line up: the part of coherence that tracking it needs. */
  predicate Tagged(g: Gen) {
    && g.family.id == g.fid && g.family.Live()
    && g.family.body.value.currentRefresh == g.refresh.jti
    && g.family.body.value.currentAccess == g.access.jti
    && g.refresh.familyId == g.fid && g.anchor.currentRefresh == g.refresh.jti
    && g.token.jti == g.refresh.jti && g.token.familyId == g.fid
    && g.token.digest == g.refresh && g.token.status == Current
  }

  /** What only a sign-in establishes: its clock reading is the sign-in time and starts the lifetime. */
  predicate Original(g: Gen) {
    && g.family.body.Some?
    && var b := g.family.body.value;
    && b.authTime == Some(g.at / SECOND) && b.createdAt == g.at
    && b.ttl == (if b.remember then REMEMBER_ME_REFRESH_TTL_SECONDS else REFRESH_FAMILY_TTL_SECONDS)
    && b.expiresAt == g.at + b.ttl * SECOND && g.token.parent.None?
  }

  lemma CoherentIsTagged(g: Gen)
    requires Coherent(g)
    ensures Tagged(g)
  {
  }

  /** `h` continues the family of `g`: what a rotation must carry over unchanged. */
  predicate Succeeds(g: Gen, h: Gen) {
    && Coherent(g) && Coherent(h)
    && h.fid == g.fid && h.idx == g.idx + 1 && g.at <= h.at
    && h.token.parent == Some(g.refresh.jti)
    && h.session.sessionId == g.session.sessionId && h.session.user == g.session.user
    && var b, d := g.family.body.value, h.family.body.value;
    && d.authTime == b.authTime && d.remember == b.remember && d.createdAt == b.createdAt
    && d.absolute == b.absolute
    && (b.remember ==> d.ttl == SecondsUntil(b.absolute.value, h.at))
    && (!b.remember ==> d.ttl == b.ttl && d.expiresAt == h.at + d.ttl * SECOND)
  }

  lemma SuccessorIsTagged(g: Gen, h: Gen)
    requires Succeeds(g, h)
    ensures Tagged(h) && h.fid == g.fid && h.idx == g.idx + 1 && h.session.user == g.session.user
  {
  }

  /** The two contexts a rotation of `g` can start from: its session, or its anchor once
      the session record has gone. */
  predicate ContextOf(g: Gen, s: Session) {
    s == g.session || s == AnchorSeed(g.anchor)
  }

  /** The database answers a project lookup with the project of that hash. */
  predicate Grants(ctx: Session, granted: Option<Project>) {
    if ctx.scope == PlatformScope then granted.None?
    else granted.Some? && ctx.project.Some? && granted.value.hash == ctx.project.value.hash
  }

  lemma SignInIsCoherent(user: User, project: Option<Project>, remember: bool, now: nat,
                         fid: Id, sid: Id, access: Id, refresh: Id)
    requires now >= SECOND
    ensures var g := SignIn(user, project, remember, now, fid, sid, access, refresh);
            Coherent(g) && Original(g)
  {
  }

  /** A sign-in is for the given user and project, under the given identifiers, starting now. */
  lemma SignInIsFor(user: User, project: Option<Project>, remember: bool, now: nat,
                    fid: Id, sid: Id, access: Id, refresh: Id)
    ensures var g := SignIn(user, project, remember, now, fid, sid, access, refresh);
            && g.fid == fid && g.at == now && g.idx == 0 && g.family.body.Some?
            && g.session.user == user && g.session.project == project && g.session.sessionId == sid
            && g.session.scope == (if project.Some? then ProjectScope else PlatformScope)
            && g.access.jti == access && g.refresh.jti == refresh
            && g.family.body.value.remember == remember
            && g.access.collection == g.refresh.collection
                 == (if project.Some? then ProjectHash(project.value.hash) else PlatformSentinel)
  {
  }

  /** Family and anchor name the same identifiers, tokens, scope, project, user and expiry. */
  predicate AnchorAgrees(b: FamilyBody, a: Anchor, fid: Id) {
    && a.familyId == fid && a.currentRefresh == b.currentRefresh && a.currentAccess == b.currentAccess
    && a.scope == b.scope && HashOf(a.project) == b.projectHash && ProjectId(a.project) == b.projectId
    && a.user.id == b.userId && a.user.hash == b.userHash && a.expiresAt == b.expiresAt
    && a.remember == b.remember && a.absolute == b.absolute && a.ttl == b.ttl && a.status == Active
    && a.createdAt == b.createdAt && a.updatedAt == b.updatedAt
  }

  /** A session record agrees with both. */
  predicate SessionAgrees(b: FamilyBody, a: Anchor, se: Session) {
    && se.accessJti == b.currentAccess && se.refreshJti == b.currentRefresh
    && se.familyId == a.familyId && se.sessionId == a.sessionId && se.user == a.user && se.scope == a.scope
    && se.project == a.project && se.collection == a.collection && se.authTime == b.authTime
  }

  lemma CoherentAgrees(g: Gen)
    requires Coherent(g)
    ensures AnchorAgrees(g.family.body.value, g.anchor, g.fid)
    ensures SessionAgrees(g.family.body.value, g.anchor, g.session)
  {
  }

  /** After the session record has gone, the anchor of the same generation is accepted. */
  lemma AnchorStandsIn(g: Gen)
    requires Coherent(g)
    ensures AnchorMatches(g.anchor, g.refresh, g.family)
    ensures forall s | ContextOf(g, s) :: RefreshClaimsMatch(g.refresh, g.family, s)
  {
  }

  /** Rotating from the anchor and rotating from the session build the same generation:
      same scope, collection, project, user, sign-in time and expiry. */
  lemma AnchorPathEqualsSessionPath(g: Gen, target: Option<Project>, granted: Option<Project>,
                                    idx: nat, now: nat, access: Id, refresh: Id)
    requires Coherent(g)
    ensures BuildRotated(g.refresh, Retarget(AnchorSeed(g.anchor), target), g.family, granted, idx, now, access,
                         refresh)
         == BuildRotated(g.refresh, Retarget(g.session, target), g.family, granted, idx, now, access, refresh)
  {
  }

  /** Every built rotation continues its family coherently, whichever context it used. */
  lemma RotationSucceeds(g: Gen, s: Session, target: Option<Project>, granted: Option<Project>,
                         now: nat, access: Id, refresh: Id)
    requires Coherent(g) && ContextOf(g, s) && g.at <= now
    requires Grants(Retarget(s, target), granted)
    ensures var h := BuildRotated(g.refresh, Retarget(s, target), g.family, granted, g.idx + 1, now, access, refresh);
            && (h.Some? ==> (Succeeds(g, h.value) && h.value.at == now
                             && h.value.refresh.jti == refresh && h.value.access.jti == access))
            && (h.None? <==> (g.family.body.value.remember
                              && SecondsUntil(g.family.body.value.absolute.value, now) == 0))
  {
    AnchorPathEqualsSessionPath(g, target, granted, g.idx + 1, now, access, refresh);
  }
}
