/** The session store as its callers use it: revocation sweeps, replay classification and the
    sequential rotation, each a loop or a chain of commands over the stored records. */
module AuthStore {
  import opened Prelude
  import opened TokenFamily
  import opened RotationProtocol

  // ----- what one revocation writes -------------------------------------------------

  /** Session records of the family that its current pointer or its owner's index leads to. */
  function Swept(db: Store, fid: Id): set<Id> {
    var f := Find(db.families, fid);
    if f.None? || f.value.body.None? then {}
    else OfFamily(db.sessions, {f.value.body.value.currentAccess} + Members(db.userSessions, f.value.body.value.userId),
                  fid)
  }

  function OfFamily(sessions: map<Id, Session>, among: set<Id>, fid: Id): set<Id> {
    set a | a in among && a in sessions && sessions[a].familyId == fid
  }

  function RevokedStore(db: Store, fid: Id, reason: Reason): Store {
    db.(families := db.families[fid := RevokedCopy(fid, Find(db.families, fid), reason)],
        tombs := db.tombs + {fid}, anchors := db.anchors - {fid}, sessions := db.sessions - Swept(db, fid))
  }

  /** A family nothing accepts any more: its record is not live, tombstoned, without anchor. */
  predicate Barred(db: Store, fid: Id) {
    fid in db.families && !db.families[fid].Live() && fid in db.tombs && fid !in db.anchors
  }

  /** The access token passes validation, database permitting. */
  predicate AccessValid(db: Store, c: AccessClaims) {
    && c.jti in db.sessions && AccessClaimsMatch(c, db.sessions[c.jti])
    && LiveIn(db, c.familyId) && c.familyId !in db.tombs
    && FamilyMatches(db.families[c.familyId], c.jti, db.sessions[c.jti])
  }

  /** Everything rotation and validation read about one family and one session record. */
  predicate SameRecords(a: Store, b: Store, fid: Id, access: Id) {
    && Find(a.families, fid) == Find(b.families, fid) && Find(a.sessions, access) == Find(b.sessions, access)
    && Find(a.anchors, fid) == Find(b.anchors, fid) && (fid in a.tombs <==> fid in b.tombs)
    && a.tokens == b.tokens && a.used == b.used
  }

  // ----- classification -------------------------------------------------------------

  datatype Standing = InvalidToken | DeadFamily | CurrentToken | DuplicateToken | ReusedToken

  predicate IsRevoked(db: Store, fid: Id) {
    (fid in db.families && db.families[fid].status != Active) || fid in db.tombs
  }

  function Classified(db: Store, fid: Id, jti: Id, now: nat, grace: nat): Standing {
    if fid !in db.families || jti !in db.tokens then InvalidToken
    else
      var f, t := db.families[fid], db.tokens[jti];
      if IsRevoked(db, fid) then DeadFamily
      else if f.body.Some? && f.body.value.currentRefresh == jti && t.status == Current then CurrentToken
      else if t.status != Current || jti in Members(db.used, fid) then
        if Benign(f, t, now, grace) then DuplicateToken else ReusedToken
      else InvalidToken
  }

  /** An authentic token of a live family that has already been rotated away. */
  predicate SpentIn(db: Store, c: RefreshClaims) {
    && LiveIn(db, c.familyId) && c.familyId !in db.tombs
    && c.jti in db.tokens && db.tokens[c.jti].digest == c && db.tokens[c.jti].status == Used
  }

  /** The presented token is the current one of a live family, on record as such. */
  predicate PresentedCurrent(db: Store, c: RefreshClaims) {
    && LiveIn(db, c.familyId) && c.familyId !in db.tombs
    && db.families[c.familyId].body.value.currentRefresh == c.jti
    && c.jti in db.tokens && db.tokens[c.jti].status == Current && db.tokens[c.jti].digest == c
  }

  /** Less than a second is left of a remember-me lifetime. */
  predicate OutOfTime(b: FamilyBody, ctx: Session, now: nat) {
    (b.remember || ctx.remember) && now + SECOND > if b.absolute.Some? then b.absolute.value else b.expiresAt
  }

  /** Some session context, from the record or the anchor, goes with the presented token. */
  ghost predicate HasContext(db: Store, c: RefreshClaims) {
    exists ctx :: FoundCurrent(db, c, ctx)
  }

  /** An authentic token of an active family that is not, or no longer, its current one. */
  predicate Stale(db: Store, c: RefreshClaims) {
    && c.familyId in db.families && c.jti in db.tokens && !IsRevoked(db, c.familyId) && db.tokens[c.jti].digest == c
    && var f := db.families[c.familyId];
    (f.body.None? || f.body.value.currentRefresh != c.jti || db.tokens[c.jti].status != Current)
  }

  /** What a refused rotation costs: the family, for a reuse, for a current token without any context
      left, and for one the database denies; otherwise nothing. */
  ghost function CostOfDenial(db: Store, c: RefreshClaims, denied: bool, now: nat, grace: nat): Option<Reason> {
    if Stale(db, c) then
      if Classified(db, c.familyId, c.jti, now, grace) == ReusedToken then Some(RefreshReuse) else None
    else if PresentedCurrent(db, c) && db.families[c.familyId].body.value.currentAccess !in db.sessions
            && c.familyId !in db.anchors
    then Some(OtherReason(0))
    else if HasContext(db, c) && denied then Some(OtherReason(1))
    else None
  }

  datatype Rotation = Issued(ctx: Session, g: Gen) | Denied

  /** What a rotation that issues tokens must have found. */
  predicate FoundCurrent(db: Store, c: RefreshClaims, ctx: Session) {
    && LiveIn(db, c.familyId) && c.familyId !in db.tombs
    && var f := db.families[c.familyId];
    && f.body.value.currentRefresh == c.jti
    && c.jti in db.tokens && db.tokens[c.jti].status == Current && db.tokens[c.jti].digest == c
    && RefreshClaimsMatch(c, f, ctx)
    && (if f.body.value.currentAccess in db.sessions then ctx == db.sessions[f.body.value.currentAccess]
        else
          && c.familyId in db.anchors && AnchorMatches(db.anchors[c.familyId], c, f)
          && ctx == AnchorSeed(db.anchors[c.familyId]))
  }

  /** Counters of a sweep over index sets. */
  datatype Summary = Summary(seen: nat, missing: nat, skipped: nat, preserved: nat, revoked: nat, familiesRevoked: nat)

  // ----- losing access to projects --------------------------------------------------

  /** Sessions on a candidate project whose user no longer has access to it. */
  function Losing(db: Store, projects: set<Id>, access: set<(Id, Id)>): set<Id> {
    set a | a in db.sessions && db.sessions[a].project.Some? && db.sessions[a].project.value.id in projects
            && (db.sessions[a].user.id, db.sessions[a].project.value.id) !in access
  }

  function FamiliesOf(db: Store, gone: set<Id>): set<Id> {
    set a | a in gone && a in db.sessions :: db.sessions[a].familyId
  }

  /** The store with the sessions `gone` and their families revoked, nothing else changed. */
  function Expelled(db: Store, gone: set<Id>, reason: Reason): Store {
    var fams := FamiliesOf(db, gone);
    db.(sessions := db.sessions - gone, tombs := db.tombs + fams, anchors := db.anchors - fams,
        families := RevokedFamilies(db, fams, reason))
  }

  /** The family records once each of `fams` has been revoked. */
  function RevokedFamilies(db: Store, fams: set<Id>, reason: Reason): map<Id, Family> {
    map f | f in db.families.Keys + fams ::
      if f in fams then RevokedCopy(f, Find(db.families, f), reason) else db.families[f]
  }

  predicate OneSessionEach(db: Store) {
    forall a, b | a in db.sessions && b in db.sessions && db.sessions[a].familyId == db.sessions[b].familyId :: a == b
  }

  function IndexedUnder(db: Store, users: set<Id>): set<Id> {
    set u, a | u in users && a in Members(db.userSessions, u) :: a
  }

  /** The store during the sweep: `seen` reviewed, everything but the session indexes settled. */
  ghost predicate Reviewed(db0: Store, db: Store, gone: set<Id>, reason: Reason) {
    db == Expelled(db0, gone, reason).(userSessions := db.userSessions)
  }

  /** Every counted session has exactly one fate. */
  predicate Balanced(n: Summary, gone: set<Id>) {
    n.seen == n.missing + n.skipped + n.preserved + n.revoked && n.revoked == |gone| && n.familiesRevoked == |gone|
  }

  predicate CountsGone(n: Summary, gone: set<Id>) {
    n.revoked == |gone| && n.familiesRevoked == |gone|
  }

  /** An index keeps the sessions that were on record and keep their access. */
  function Kept(db0: Store, index: set<Id>, projects: set<Id>, access: set<(Id, Id)>): set<Id> {
    set a | a in index && a in db0.sessions && a !in Losing(db0, projects, access)
  }

  lemma ExpelledFamilies(db: Store, gone: set<Id>, a: Id, reason: Reason)
    requires a in db.sessions && db.sessions[a].familyId !in FamiliesOf(db, gone)
    ensures var fid, before := db.sessions[a].familyId, Expelled(db, gone, reason);
            && FamiliesOf(db, gone + {a}) == FamiliesOf(db, gone) + {fid}
            && before.families[fid := RevokedCopy(fid, Find(before.families, fid), reason)] ==
                Expelled(db, gone + {a}, reason).families
  {
    assert FamiliesOf(db, gone + {a}) == FamiliesOf(db, gone) + {db.sessions[a].familyId};
  }

  lemma ExpelledSessions(db: Store, gone: set<Id>, a: Id, swept: set<Id>)
    requires swept <= {a}
    ensures db.sessions - gone - swept - {a} == db.sessions - (gone + {a})
  {
  }

  lemma SweepTakesOnlyIt(db: Store, before: Store, a: Id)
    requires OneSessionEach(db) && a in db.sessions && before.sessions.Keys <= db.sessions.Keys
    requires forall x | x in before.sessions :: before.sessions[x] == db.sessions[x]
    ensures Swept(before, db.sessions[a].familyId) <= {a}
  {
  }

  lemma FamilyStillLeft(db: Store, gone: set<Id>, a: Id)
    requires OneSessionEach(db) && a in db.sessions && a !in gone
    ensures db.sessions[a].familyId !in FamiliesOf(db, gone)
  {
  }

  /** Revoking the family of one more session adds exactly that session to those expelled. */
  lemma ExpelledGrows(db: Store, gone: set<Id>, a: Id, reason: Reason, index: map<Id, set<Id>>)
    requires OneSessionEach(db) && a in db.sessions && a !in gone
    ensures var before := Expelled(db, gone, reason).(userSessions := index);
            var after := RevokedStore(before, db.sessions[a].familyId, reason);
            after.(sessions := after.sessions - {a}) == Expelled(db, gone + {a}, reason).(userSessions := index)
  {
    var fid := db.sessions[a].familyId;
    var before := Expelled(db, gone, reason).(userSessions := index);
    FamilyStillLeft(db, gone, a);
    ExpelledFamilies(db, gone, a, reason);
    SweepTakesOnlyIt(db, before, a);
    ExpelledSessions(db, gone, a, Swept(before, fid));
    assert db.anchors - FamiliesOf(db, gone) - {fid} == db.anchors - FamiliesOf(db, gone + {a});
    assert db.tombs + FamiliesOf(db, gone) + {fid} == db.tombs + FamiliesOf(db, gone + {a});
  }

  function Unindex(db: Store, u: Id, a: Id): Store {
    db.(userSessions := db.userSessions[u := Members(db.userSessions, u) - {a}])
  }

  datatype Fate = Missing | Skipped | Preserved | Expelling

  function FateOf(db: Store, a: Id, projects: set<Id>, access: set<(Id, Id)>): Fate {
    if a !in db.sessions then Missing
    else
      var s := db.sessions[a];
      if s.project.None? || s.project.value.id !in projects then Skipped
      else if (s.user.id, s.project.value.id) in access then Preserved else Expelling
  }

  function Counted(n: Summary, fate: Fate): Summary {
    var m := n.(seen := n.seen + 1);
    match fate
    case Missing => m.(missing := n.missing + 1)
    case Skipped => m.(skipped := n.skipped + 1)
    case Preserved => m.(preserved := n.preserved + 1)
    case Expelling => m.(revoked := n.revoked + 1, familiesRevoked := n.familiesRevoked + 1)
  }

  function AfterReview(db: Store, u: Id, a: Id, projects: set<Id>, access: set<(Id, Id)>, reason: Reason): Store {
    match FateOf(db, a, projects, access)
    case Missing => Unindex(db, u, a)
    case Skipped => db
    case Preserved => db
    case Expelling =>
      var after := RevokedStore(db, db.sessions[a].familyId, reason);
      Unindex(after.(sessions := after.sessions - {a}), u, a)
  }

  lemma ExpelledNone(db: Store, reason: Reason)
    ensures Expelled(db, {}, reason) == db
  {
  }

  /** Sessions seen so far that had lost access. */
  function Gone(db0: Store, seen: set<Id>, projects: set<Id>, access: set<(Id, Id)>): set<Id> {
    set a | a in seen && a in Losing(db0, projects, access)
  }

  lemma FateInSweep(db0: Store, db: Store, seen: set<Id>, a: Id, projects: set<Id>, access: set<(Id, Id)>,
                    reason: Reason)
    requires Reviewed(db0, db, Gone(db0, seen, projects, access), reason)
    ensures var gone, fate := Gone(db0, seen, projects, access), FateOf(db, a, projects, access);
            && Gone(db0, seen + {a}, projects, access) == gone + (if fate == Expelling then {a} else {})
            && (fate == Expelling ==> a in db0.sessions && a !in gone && db.sessions[a] == db0.sessions[a])
            && (fate == Skipped || fate == Preserved <==> a in Kept(db0, {a}, projects, access))
            && (fate == Skipped <==> FateOf(db0, a, projects, access) == Skipped)
            && (fate == Preserved <==> FateOf(db0, a, projects, access) == Preserved)
  {
    var gone := Gone(db0, seen, projects, access);
    assert db.sessions == db0.sessions - gone;
  }

  lemma ExpelNext(db0: Store, db: Store, u: Id, gone: set<Id>, a: Id, reason: Reason)
    requires OneSessionEach(db0) && Reviewed(db0, db, gone, reason)
    requires a in db0.sessions && a !in gone && a in db.sessions && db.sessions[a] == db0.sessions[a]
    ensures var after := RevokedStore(db, db.sessions[a].familyId, reason);
            Reviewed(db0, Unindex(after.(sessions := after.sessions - {a}), u, a), gone + {a}, reason)
  {
    ExpelledGrows(db0, gone, a, reason, db.userSessions);
  }

  /** The sweep after reviewing `seen`: the store and the counters. */
  ghost predicate MidReview(db0: Store, db: Store, n: Summary, seen: set<Id>, projects: set<Id>, access: set<(Id, Id)>,
                            reason: Reason) {
    Reviewed(db0, db, Gone(db0, seen, projects, access), reason) && CountsGone(n, Gone(db0, seen, projects, access))
  }

  // ----- the counters of a sweep

  /** The entries of the users' indexes: who and which session. */
  function Entries(db: Store, users: set<Id>): set<(Id, Id)> {
    set u, a | u in users && a in Members(db.userSessions, u) :: (u, a)
  }

  function WithFate(db: Store, entries: set<(Id, Id)>, fate: Fate, projects: set<Id>,
                    access: set<(Id, Id)>): set<(Id, Id)> {
    set e | e in entries && FateOf(db, e.1, projects, access) == fate
  }

  /** What the counters stand for: the entries seen, in four piles. */
  datatype Ledger<E(==)> = Ledger(seen: set<E>, missing: set<E>, skipped: set<E>, preserved: set<E>, revoked: set<E>)

  ghost predicate Posted<E>(n: Summary, l: Ledger<E>) {
    && n.seen == |l.seen| && n.missing == |l.missing| && n.skipped == |l.skipped|
    && n.preserved == |l.preserved| && n.revoked == |l.revoked|
  }

  /** Every entry seen is in exactly one pile. */
  ghost predicate Partitioned<E(!new)>(l: Ledger<E>) {
    && (forall e :: e in l.seen <==> e in l.missing || e in l.skipped || e in l.preserved || e in l.revoked)
    && l.missing !! l.skipped && l.missing !! l.preserved && l.missing !! l.revoked
    && l.skipped !! l.preserved && l.skipped !! l.revoked && l.preserved !! l.revoked
  }

  ghost function Post<E>(l: Ledger<E>, e: E, fate: Fate): Ledger<E> {
    var m := l.(seen := l.seen + {e});
    match fate
    case Missing => m.(missing := l.missing + {e})
    case Skipped => m.(skipped := l.skipped + {e})
    case Preserved => m.(preserved := l.preserved + {e})
    case Expelling => m.(revoked := l.revoked + {e})
  }

  lemma PostCounts<E(!new)>(n: Summary, l: Ledger<E>, e: E, fate: Fate)
    requires Posted(n, l) && Partitioned(l) && e !in l.seen
    ensures Posted(Counted(n, fate), Post(l, e, fate)) && Partitioned(Post(l, e, fate))
  {
  }

  /** So the counters add up. */
  lemma LedgerBalances<E(!new)>(n: Summary, l: Ledger<E>)
    requires Posted(n, l) && Partitioned(l)
    ensures n.seen == n.missing + n.skipped + n.preserved + n.revoked
  {
    var two := l.missing + l.skipped;
    var three := two + l.preserved;
    assert l.seen == three + l.revoked;
    assert two * l.preserved == {} && three * l.revoked == {};
  }

  /** The ledger holds the entries of the users in `done`, and of `u` those not left in `todo`, and
      puts a session aside by what it was before the sweep. */
  ghost predicate LedgerOf(l: Ledger<(Id, Id)>, db0: Store, done: set<Id>, u: Id, todo: set<Id>, projects: set<Id>,
                           access: set<(Id, Id)>)
  {
    && Partitioned(l)
    && (forall e :: e in l.seen <==>
                      e.1 in Members(db0.userSessions, e.0) && (e.0 in done || (e.0 == u && e.1 !in todo)))
    && (forall e | e in l.seen :: e in l.skipped <==> FateOf(db0, e.1, projects, access) == Skipped)
    && (forall e | e in l.seen :: e in l.preserved <==> FateOf(db0, e.1, projects, access) == Preserved)
  }

  lemma LedgerGrows(l: Ledger<(Id, Id)>, db0: Store, db: Store, seen: set<Id>, done: set<Id>, u: Id, todo: set<Id>,
                    a: Id, projects: set<Id>, access: set<(Id, Id)>, reason: Reason)
    requires LedgerOf(l, db0, done, u, todo, projects, access) && u !in done
    requires a in todo && a in Members(db0.userSessions, u)
    requires Reviewed(db0, db, Gone(db0, seen, projects, access), reason)
    ensures (u, a) !in l.seen
    ensures LedgerOf(Post(l, (u, a), FateOf(db, a, projects, access)), db0, done, u, todo - {a}, projects, access)
  {
    FateInSweep(db0, db, seen, a, projects, access, reason);
  }

  lemma LedgerStarts(l: Ledger<(Id, Id)>, db0: Store, done: set<Id>, v: Id, u: Id, index: set<Id>, projects: set<Id>,
                     access: set<(Id, Id)>)
    requires LedgerOf(l, db0, done, v, Members(db0.userSessions, v), projects, access)
    requires index == Members(db0.userSessions, u)
    ensures LedgerOf(l, db0, done, u, index, projects, access)
  {
  }

  lemma LedgerEnds(l: Ledger<(Id, Id)>, db0: Store, done: set<Id>, u: Id, projects: set<Id>, access: set<(Id, Id)>)
    requires LedgerOf(l, db0, done, u, {}, projects, access)
    ensures LedgerOf(l, db0, done + {u}, u, Members(db0.userSessions, u), projects, access)
  {
  }

  lemma LedgerMeans(l: Ledger<(Id, Id)>, db0: Store, users: set<Id>, u: Id, projects: set<Id>, access: set<(Id, Id)>)
    requires LedgerOf(l, db0, users, u, Members(db0.userSessions, u), projects, access)
    ensures var entries := Entries(db0, users);
            && l.seen == entries && l.skipped == WithFate(db0, entries, Skipped, projects, access)
            && l.preserved == WithFate(db0, entries, Preserved, projects, access)
  {
  }

  /** The counters over whole indexes: every entry seen, skipped or preserved by what it was before. */
  predicate Totals(n: Summary, db0: Store, users: set<Id>, projects: set<Id>, access: set<(Id, Id)>) {
    var entries := Entries(db0, users);
    && n.seen == |entries| && n.skipped == |WithFate(db0, entries, Skipped, projects, access)|
    && n.preserved == |WithFate(db0, entries, Preserved, projects, access)|
  }

  /** The indexes while those of `u` are reviewed and `todo` is left. */
  ghost predicate MidIndex(db0: Store, now: map<Id, set<Id>>, before: map<Id, set<Id>>, u: Id, todo: set<Id>,
                           projects: set<Id>, access: set<(Id, Id)>)
  {
    && todo <= Members(before, u)
    && Members(now, u) == Kept(db0, Members(before, u) - todo, projects, access) + todo
    && forall v | v != u :: Members(now, v) == Members(before, v)
  }

  lemma TakenOne(all: set<Id>, todo: set<Id>, a: Id)
    requires a in todo && todo <= all
    ensures all - todo + {a} == all - (todo - {a}) && a !in all - todo
  {
  }

  lemma OneLess(seen: set<Id>, index: set<Id>, todo: set<Id>, a: Id)
    requires a in todo && todo <= index
    ensures seen + (index - todo) + {a} == seen + (index - (todo - {a}))
  {
  }

  lemma NoneLeft(db0: Store, seen: set<Id>, index: set<Id>, projects: set<Id>, access: set<(Id, Id)>)
    ensures seen + (index - {}) == seen + index
    ensures Kept(db0, index - {}, projects, access) + {} == Kept(db0, index, projects, access)
  {
    assert index - {} == index;
  }

  lemma KeptGrows(db0: Store, index: set<Id>, todo: set<Id>, a: Id, projects: set<Id>, access: set<(Id, Id)>)
    requires todo <= index && a in todo
    ensures Kept(db0, index - todo, projects, access) + todo - ({a} - Kept(db0, {a}, projects, access)) ==
              Kept(db0, index - (todo - {a}), projects, access) + (todo - {a})
  {
  }

  lemma IndexStep(db0: Store, now: map<Id, set<Id>>, next: map<Id, set<Id>>, before: map<Id, set<Id>>, u: Id,
                  todo: set<Id>, a: Id, projects: set<Id>, access: set<(Id, Id)>)
    requires MidIndex(db0, now, before, u, todo, projects, access) && a in todo
    requires next == if a in Kept(db0, {a}, projects, access) then now else now[u := Members(now, u) - {a}]
    ensures MidIndex(db0, next, before, u, todo - {a}, projects, access)
  {
    KeptGrows(db0, Members(before, u), todo, a, projects, access);
    if a in Kept(db0, {a}, projects, access) {
      assert Members(now, u) - ({a} - Kept(db0, {a}, projects, access)) == Members(now, u);
    } else {
      assert {a} - Kept(db0, {a}, projects, access) == {a};
    }
  }

  lemma AfterReviewIndex(db: Store, u: Id, a: Id, projects: set<Id>, access: set<(Id, Id)>, reason: Reason)
    ensures var fate := FateOf(db, a, projects, access);
            AfterReview(db, u, a, projects, access, reason).userSessions ==
              if fate == Missing || fate == Expelling
              then db.userSessions[u := Members(db.userSessions, u) - {a}] else db.userSessions
  {
  }

  lemma IndexAdvances(db0: Store, db: Store, before: map<Id, set<Id>>, u: Id, seen: set<Id>, todo: set<Id>, a: Id,
                      projects: set<Id>, access: set<(Id, Id)>, reason: Reason, n: Summary)
    requires MidReview(db0, db, n, seen, projects, access, reason) && a in todo
    requires MidIndex(db0, db.userSessions, before, u, todo, projects, access)
    ensures MidIndex(db0, AfterReview(db, u, a, projects, access, reason).userSessions, before, u, todo - {a}, projects,
                     access)
  {
    FateInSweep(db0, db, seen, a, projects, access, reason);
    AfterReviewIndex(db, u, a, projects, access, reason);
    IndexStep(db0, db.userSessions, AfterReview(db, u, a, projects, access, reason).userSessions, before, u, todo, a,
              projects, access);
  }

  /** Reviewing one more session keeps the sweep exact and its counters balanced. */
  lemma ReviewAdvances(db0: Store, db: Store, u: Id, seen: set<Id>, a: Id, projects: set<Id>, access: set<(Id, Id)>,
                       reason: Reason, n: Summary)
    requires OneSessionEach(db0) && MidReview(db0, db, n, seen, projects, access, reason)
    ensures MidReview(db0, AfterReview(db, u, a, projects, access, reason), Counted(n, FateOf(db, a, projects, access)),
                      seen + {a}, projects, access, reason)
  {
    FateInSweep(db0, db, seen, a, projects, access, reason);
    var gone := Gone(db0, seen, projects, access);
    if FateOf(db, a, projects, access) == Expelling {
      ExpelNext(db0, db, u, gone, a, reason);
      BalanceGrows(n, gone, a);
    } else {
      assert gone + {} == gone;
    }
  }

  lemma BalanceGrows(n: Summary, gone: set<Id>, a: Id)
    requires CountsGone(n, gone) && a !in gone
    ensures CountsGone(Counted(n, Expelling), gone + {a})
  {
  }

  lemma OfFamilyGrows(sessions: map<Id, Session>, among: set<Id>, a: Id, fid: Id)
    requires a in among
    ensures OfFamily(sessions, among, fid) ==
              OfFamily(sessions, among - {a}, fid) + if a in sessions && sessions[a].familyId == fid then {a} else {}
  {
  }

  lemma IndexedMore(db: Store, done: set<Id>, u: Id)
    ensures IndexedUnder(db, done + {u}) == IndexedUnder(db, done) + Members(db.userSessions, u)
  {
  }

  /** The sweep after the users `done`: the store, the counters and what is left of every index. */
  ghost predicate MidSweep(db0: Store, db: Store, n: Summary, l: Ledger<(Id, Id)>, done: set<Id>, gone: set<Id>,
                           projects: set<Id>, access: set<(Id, Id)>, reason: Reason)
  {
    && GoneOf(gone, db0, done, projects, access) && Reviewed(db0, db, gone, reason) && CountsGone(n, gone)
    && Posted(n, l) && LedgerOf(l, db0, done, 0, Members(db0.userSessions, 0), projects, access)
    && IndexesKept(db0, db.userSessions, done, projects, access)
  }

  /** `gone` are the sessions indexed under `done` that had lost access. */
  ghost predicate GoneOf(gone: set<Id>, db0: Store, done: set<Id>, projects: set<Id>, access: set<(Id, Id)>) {
    forall a :: a in gone <==> a in Gone(db0, IndexedUnder(db0, done), projects, access)
  }

  ghost predicate IndexesKept(db0: Store, now: map<Id, set<Id>>, done: set<Id>, projects: set<Id>,
                              access: set<(Id, Id)>) {
    forall v :: Members(now, v) ==
                  if v in done then Kept(db0, Members(db0.userSessions, v), projects, access)
                  else Members(db0.userSessions, v)
  }

  lemma SweepStarts(db: Store, n: Summary, l: Ledger<(Id, Id)>, done: set<Id>, gone: set<Id>, projects: set<Id>,
                    access: set<(Id, Id)>, reason: Reason)
    requires n == Summary(0, 0, 0, 0, 0, 0) && l == Ledger({}, {}, {}, {}, {}) && done == {} && gone == {}
    ensures MidSweep(db, db, n, l, done, gone, projects, access, reason)
  {
    assert Gone(db, IndexedUnder(db, {}), projects, access) == {};
    ExpelledNone(db, reason);
  }

  /** What the finished sweep amounts to. */
  lemma SweptExactly(db0: Store, db: Store, n: Summary, l: Ledger<(Id, Id)>, users: set<Id>, gone: set<Id>,
                     projects: set<Id>, access: set<(Id, Id)>, reason: Reason)
    requires MidSweep(db0, db, n, l, users, gone, projects, access, reason)
    ensures gone == Gone(db0, IndexedUnder(db0, users), projects, access)
    ensures Balanced(n, gone) && Totals(n, db0, users, projects, access)
  {
    LedgerBalances(n, l);
    LedgerMeans(l, db0, users, 0, projects, access);
  }

  lemma NothingToSweep(db: Store, n: Summary, users: set<Id>, projects: set<Id>, access: set<(Id, Id)>, reason: Reason)
    requires (users == {} || projects == {}) && n == Summary(0, 0, 0, 0, 0, 0)
    ensures var gone := Gone(db, IndexedUnder(db, users), projects, access);
            Balanced(n, gone) && Expelled(db, gone, reason) == db
  {
    assert Gone(db, IndexedUnder(db, users), projects, access) == {};
    ExpelledNone(db, reason);
  }

  lemma ReviewStarts(db0: Store, db: Store, u: Id, seen: set<Id>, index: set<Id>, projects: set<Id>,
                     access: set<(Id, Id)>)
    requires index == Members(db.userSessions, u)
    ensures seen + (index - index) == seen
    ensures MidIndex(db0, db.userSessions, db.userSessions, u, index, projects, access)
  {
    assert index - index == {};
    assert Kept(db0, {}, projects, access) + index == index;
  }

  lemma IndexesGoOn(db0: Store, before: map<Id, set<Id>>, now: map<Id, set<Id>>, u: Id, done: set<Id>,
                    projects: set<Id>, access: set<(Id, Id)>)
    requires IndexesKept(db0, before, done, projects, access) && u !in done
    requires MidIndex(db0, now, before, u, {}, projects, access)
    ensures IndexesKept(db0, now, done + {u}, projects, access)
  {
    NoneLeft(db0, {}, Members(db0.userSessions, u), projects, access);
  }

  lemma SweepGoesOn(db0: Store, db: Store, m: Summary, l: Ledger<(Id, Id)>, u: Id, done: set<Id>, gone: set<Id>,
                    projects: set<Id>, access: set<(Id, Id)>, reason: Reason)
    requires GoneOf(gone, db0, done + {u}, projects, access) && Reviewed(db0, db, gone, reason) && CountsGone(m, gone)
    requires Posted(m, l) && LedgerOf(l, db0, done, u, {}, projects, access)
    requires IndexesKept(db0, db.userSessions, done + {u}, projects, access)
    ensures MidSweep(db0, db, m, l, done + {u}, gone, projects, access, reason)
  {
    LedgerEnds(l, db0, done, u, projects, access);
    LedgerStarts(l, db0, done + {u}, u, 0, Members(db0.userSessions, 0), projects, access);
  }

  // ----- revoking a user's sign-ins -------------------------------------------------

  /** `db` is `db0` with the families `fams` revoked and the sessions `dropped` deleted; the only
      other sessions that can be missing belong to those families. */
  ghost predicate Purged(db0: Store, db: Store, fams: set<Id>, dropped: set<Id>, reason: Reason) {
    && (forall f :: Find(db.families, f) ==
                      if f in fams then Some(RevokedCopy(f, Find(db0.families, f), reason)) else Find(db0.families, f))
    && (forall f :: f in db.tombs <==> f in db0.tombs || f in fams)
    && (forall f :: Find(db.anchors, f) == if f in fams then None else Find(db0.anchors, f))
    && db.tokens == db0.tokens && db.used == db0.used
    && (forall a | a in db.sessions :: a in db0.sessions && db.sessions[a] == db0.sessions[a] && a !in dropped)
    && (forall a | a in db0.sessions && a !in dropped && db0.sessions[a].familyId !in fams :: a in db.sessions)
  }

  lemma PurgeStarts(db: Store, reason: Reason)
    ensures Purged(db, db, {}, {}, reason)
  {
  }

  lemma PurgeFamily(db0: Store, db: Store, fams: set<Id>, dropped: set<Id>, reason: Reason, f: Id)
    requires Purged(db0, db, fams, dropped, reason) && f !in fams
    ensures Purged(db0, RevokedStore(db, f, reason), fams + {f}, dropped, reason)
  {
  }

  lemma PurgeSession(db0: Store, db: Store, fams: set<Id>, dropped: set<Id>, reason: Reason, a: Id)
    requires Purged(db0, db, fams, dropped, reason)
    ensures Purged(db0, db.(sessions := db.sessions - {a}), fams, dropped + {a}, reason)
  {
  }

  function Except(ids: set<Id>, spared: Option<Id>): set<Id> {
    set a | a in ids && Some(a) != spared
  }

  /** The indexed sessions other than the current one. */
  function OtherSessions(db: Store, u: Id, access: Option<Id>): set<Id> {
    Except(Members(db.userSessions, u), access)
  }

  /** The families to revoke: indexed, or owning another indexed session, and not the current one. */
  function Doomed(db: Store, u: Id, access: Option<Id>, family: Option<Id>): set<Id> {
    Except(FamiliesOf(db, OtherSessions(db, u, access)) + Members(db.userFamilies, u), family)
  }

  lemma ExceptTwice(some: set<Id>, more: set<Id>, spared: Option<Id>)
    ensures Except(Except(some, spared), spared) == Except(some, spared)
    ensures Except(Except(some, spared) + more, spared) == Except(some + more, spared)
  {
  }

  /** `all` is split into what is left and what is done. */
  ghost predicate Split(todo: set<Id>, done: set<Id>, all: set<Id>) {
    forall f :: (f in all <==> f in todo || f in done) && !(f in todo && f in done)
  }

  ghost predicate Taken(fams: set<Id>, first: set<Id>, done: set<Id>, spared: Option<Id>) {
    forall f :: f in fams <==> Some(f) != spared && (f in first || f in done)
  }

  predicate NamedIn(x: Option<Id>, ids: set<Id>) {
    x.Some? && x.value in ids
  }

  /** `fams'` is `fams` with `f`, unless `f` is spared. */
  ghost predicate Joined(fams': set<Id>, fams: set<Id>, f: Id, spared: Option<Id>) {
    forall x :: x in fams' <==> x in fams || (x == f && Some(f) != spared)
  }

  lemma TakeOne(todo: set<Id>, done: set<Id>, all: set<Id>, fams: set<Id>, fams': set<Id>, first: set<Id>, f: Id,
                spared: Option<Id>)
    requires Split(todo, done, all) && Taken(fams, first, done, spared) && f in todo && Joined(fams', fams, f, spared)
    ensures Split(todo - {f}, done + {f}, all)
    ensures Taken(fams', first, done + {f}, spared)
    ensures NamedIn(spared, done + {f}) <==> NamedIn(spared, done) || spared == Some(f)
    ensures !(NamedIn(spared, done) && spared == Some(f))
  {
  }

  lemma LastFamilies(fams: set<Id>, first: set<Id>, done: set<Id>, left: set<Id>, index: set<Id>, spared: Option<Id>)
    requires Taken(fams, first, done, spared) && Split({}, done, left) && Thinned(left, index, first)
               && first == Except(first, spared)
    ensures fams == Except(first + index, spared)
    ensures NamedIn(spared, done) <==> NamedIn(spared, index)
  {
  }

  lemma ExceptGrows(done: set<Id>, a: Id, spared: Option<Id>)
    ensures Except(done + {a}, spared) == if Some(a) == spared then Except(done, spared) else Except(done, spared) + {a}
  {
  }

  lemma FamiliesGrow(db: Store, dropped: set<Id>, a: Id, spared: Option<Id>)
    ensures Except(FamiliesOf(db, dropped + {a}), spared) ==
              Except(FamiliesOf(db, dropped), spared)
              + if a in db.sessions && Some(db.sessions[a].familyId) != spared then {db.sessions[a].familyId} else {}
  {
  }

  /** A session already gone was deleted before, or its family was revoked. */
  lemma AlreadyGone(db0: Store, db: Store, fams: set<Id>, dropped: set<Id>, reason: Reason, a: Id, spared: Option<Id>)
    requires Purged(db0, db, fams, dropped, reason) && a !in db.sessions
    requires fams == Except(FamiliesOf(db0, dropped), spared)
    ensures Except(FamiliesOf(db0, dropped + {a}), spared) == fams && Purged(db0, db, fams, dropped + {a}, reason)
  {
    FamiliesGrow(db0, dropped, a, spared);
    PurgeSession(db0, db, fams, dropped, reason, a);
    assert db.sessions - {a} == db.sessions;
  }

  /** The store after dealing with one session other than the current one. */
  function AfterOther(db: Store, u: Id, a: Id, family: Option<Id>, fams: set<Id>, reason: Reason): Store {
    Unindex(WithoutOther(db, u, a, family, fams, reason), u, a)
  }

  function WithoutOther(db: Store, u: Id, a: Id, family: Option<Id>, fams: set<Id>, reason: Reason): (r: Store)
    ensures r.userSessions == db.userSessions
  {
    if a !in db.sessions then db
    else
      var f := db.sessions[a].familyId;
      if family != Some(f) && f !in fams then
        var r := RevokedStore(db, f, reason);
        r.(sessions := r.sessions - {a}, userFamilies := r.userFamilies[u := Members(r.userFamilies, u) - {f}])
      else db.(sessions := db.sessions - {a})
  }

  function FamiliesAfter(db: Store, a: Id, family: Option<Id>, fams: set<Id>): set<Id> {
    if a in db.sessions && family != Some(db.sessions[a].familyId) then fams + {db.sessions[a].familyId} else fams
  }

  lemma PurgeIgnoresIndexes(db0: Store, db: Store, db': Store, fams: set<Id>, dropped: set<Id>, reason: Reason)
    requires Purged(db0, db, fams, dropped, reason)
               && db' == db.(userSessions := db'.userSessions, userFamilies := db'.userFamilies)
    ensures Purged(db0, db', fams, dropped, reason)
  {
  }

  lemma OtherPurged(db0: Store, db: Store, u: Id, a: Id, family: Option<Id>, fams: set<Id>, dropped: set<Id>,
                    reason: Reason)
    requires Purged(db0, db, fams, dropped, reason) && a in db.sessions
    ensures Purged(db0, AfterOther(db, u, a, family, fams, reason), FamiliesAfter(db, a, family, fams), dropped + {a},
                   reason)
  {
    var f, next := db.sessions[a].familyId, AfterOther(db, u, a, family, fams, reason);
    if family != Some(f) && f !in fams {
      var r := RevokedStore(db, f, reason);
      PurgeFamily(db0, db, fams, dropped, reason, f);
      PurgeSession(db0, r, fams + {f}, dropped, reason, a);
      PurgeIgnoresIndexes(db0, r.(sessions := r.sessions - {a}), next, fams + {f}, dropped + {a}, reason);
    } else {
      PurgeSession(db0, db, fams, dropped, reason, a);
      assert FamiliesAfter(db, a, family, fams) == fams;
      PurgeIgnoresIndexes(db0, db.(sessions := db.sessions - {a}), next, fams, dropped + {a}, reason);
    }
  }

  lemma OtherAccounted(db0: Store, db: Store, u: Id, a: Id, family: Option<Id>, fams: set<Id>, dropped: set<Id>,
                       reason: Reason)
    requires Purged(db0, db, fams, dropped, reason) && fams == Except(FamiliesOf(db0, dropped), family)
    ensures Purged(db0, AfterOther(db, u, a, family, fams, reason), FamiliesAfter(db, a, family, fams), dropped + {a},
                   reason)
    ensures FamiliesAfter(db, a, family, fams) == Except(FamiliesOf(db0, dropped + {a}), family)
  {
    FamiliesGrow(db0, dropped, a, family);
    if a in db.sessions {
      OtherPurged(db0, db, u, a, family, fams, dropped, reason);
    } else {
      AlreadyGone(db0, db, fams, dropped, reason, a, family);
    }
  }

  /** An index `now` is `before` without `taken`. */
  ghost predicate Thinned(now: set<Id>, before: set<Id>, taken: set<Id>) {
    forall f :: f in now <==> f in before && f !in taken
  }

  /** A purge under way, with the revoked families also out of the index of `u`. */
  ghost predicate MidPurge(db0: Store, db: Store, u: Id, fams: set<Id>, dropped: set<Id>, reason: Reason) {
    && Purged(db0, db, fams, dropped, reason)
    && Thinned(Members(db.userFamilies, u), Members(db0.userFamilies, u), fams)
  }

  /** The store with a family revoked and taken out of its user's index. */
  function Dismissed(db: Store, u: Id, f: Id, reason: Reason): Store {
    RevokedStore(db, f, reason).(userFamilies := db.userFamilies[u := Members(db.userFamilies, u) - {f}])
  }

  lemma FamilyStep(db0: Store, db: Store, u: Id, f: Id, fams: set<Id>, dropped: set<Id>, reason: Reason)
    requires MidPurge(db0, db, u, fams, dropped, reason) && f !in fams
    ensures MidPurge(db0, Dismissed(db, u, f, reason), u, fams + {f}, dropped, reason)
  {
    PurgeFamily(db0, db, fams, dropped, reason, f);
    PurgeIgnoresIndexes(db0, RevokedStore(db, f, reason), Dismissed(db, u, f, reason), fams + {f}, dropped, reason);
  }

  lemma OtherSessionsIndex(db: Store, u: Id, a: Id, family: Option<Id>, fams: set<Id>, reason: Reason)
    ensures AfterOther(db, u, a, family, fams, reason).userSessions ==
              db.userSessions[u := Members(db.userSessions, u) - {a}]
  {
  }

  lemma OtherFamiliesIndex(db: Store, u: Id, a: Id, family: Option<Id>, fams: set<Id>, reason: Reason,
                           families: set<Id>)
    requires Thinned(Members(db.userFamilies, u), families, fams)
    ensures Thinned(Members(WithoutOther(db, u, a, family, fams, reason).userFamilies, u), families,
                    FamiliesAfter(db, a, family, fams))
  {
    if a in db.sessions && family != Some(db.sessions[a].familyId) && db.sessions[a].familyId !in fams {
      RevocationKeepsIndex(db, db.sessions[a].familyId, reason);
    }
  }

  lemma RevocationKeepsIndex(db: Store, fid: Id, reason: Reason)
    ensures RevokedStore(db, fid, reason).userFamilies == db.userFamilies
  {
  }

  lemma OtherIndexes(db: Store, u: Id, a: Id, family: Option<Id>, fams: set<Id>, reason: Reason, sessions: set<Id>,
                     dropped: set<Id>, families: set<Id>)
    requires Thinned(Members(db.userSessions, u), sessions, dropped)
               && Thinned(Members(db.userFamilies, u), families, fams)
    ensures var db' := AfterOther(db, u, a, family, fams, reason);
            && Thinned(Members(db'.userSessions, u), sessions, dropped + {a})
            && Thinned(Members(db'.userFamilies, u), families, FamiliesAfter(db, a, family, fams))
  {
    OtherSessionsIndex(db, u, a, family, fams, reason);
    OtherFamiliesIndex(db, u, a, family, fams, reason, families);
  }

  /** The review of a user's sessions after those in `done`: the store and the indexes. */
  ghost predicate MidOthers(db0: Store, db: Store, u: Id, done: set<Id>, fams: set<Id>, access: Option<Id>,
                            family: Option<Id>, reason: Reason)
  {
    && fams == Except(FamiliesOf(db0, Except(done, access)), family)
    && Purged(db0, db, fams, Except(done, access), reason)
    && Thinned(Members(db.userSessions, u), Members(db0.userSessions, u), Except(done, access))
    && Thinned(Members(db.userFamilies, u), Members(db0.userFamilies, u), fams)
  }

  /** One review: the current session stays, any other goes. */
  function OtherReviewed(db: Store, u: Id, a: Id, access: Option<Id>, family: Option<Id>, fams: set<Id>,
                         reason: Reason): (Store, set<Id>)
  {
    if access == Some(a) then (db, fams)
    else (AfterOther(db, u, a, family, fams, reason), FamiliesAfter(db, a, family, fams))
  }

  lemma OthersGoOn(db0: Store, db: Store, u: Id, a: Id, done: set<Id>, fams: set<Id>, access: Option<Id>,
                   family: Option<Id>, reason: Reason)
    requires MidOthers(db0, db, u, done, fams, access, family, reason) && a !in done
    ensures var (db', fams') := OtherReviewed(db, u, a, access, family, fams, reason);
            MidOthers(db0, db', u, done + {a}, fams', access, family, reason)
  {
    var dropped := Except(done, access);
    ExceptGrows(done, a, access);
    if access != Some(a) {
      OtherAccounted(db0, db, u, a, family, fams, dropped, reason);
      OtherIndexes(db, u, a, family, fams, reason, Members(db0.userSessions, u), dropped, Members(db0.userFamilies, u));
    }
  }

  /** And the counters. */
  ghost predicate MidCounts(db0: Store, n: Summary, l: Ledger<Id>, done: set<Id>, fams: set<Id>, access: Option<Id>) {
    n.familiesRevoked == |fams| && Posted(n, l) && OthersLedger(l, db0, done, access)
  }

  lemma CountsGrow(db0: Store, db: Store, n: Summary, m: Summary, l: Ledger<Id>, done: set<Id>, fams: set<Id>,
                   fams': set<Id>, a: Id, access: Option<Id>)
    requires MidCounts(db0, n, l, done, fams, access) && a !in done
    requires OneSessionEach(db0) && Some(a) != access ==> (a in db.sessions <==> a in db0.sessions)
    requires m == Counted(n, OtherFate(db, a, access)).(familiesRevoked := m.familiesRevoked)
    requires m.familiesRevoked == |fams'|
    ensures MidCounts(db0, m, Post(l, a, OtherFate(db, a, access)), done + {a}, fams', access)
  {
    OthersLedgerGrows(l, db0, db, done, a, access);
    OtherIsPosted(n, l, a, OtherFate(db, a, access));
  }

  /** Index entries whose session record was gone to begin with. */
  function Absent(db: Store, ids: set<Id>): set<Id> {
    set a | a in ids && a !in db.sessions
  }

  /** The sessions in `done` by what became of them: the current one preserved, the others missing or
      revoked; with one session per family, missing are those that were gone to begin with. */
  ghost predicate OthersLedger(l: Ledger<Id>, db0: Store, done: set<Id>, access: Option<Id>) {
    && Partitioned(l) && l.seen == done && l.skipped == {}
    && (forall a | a in done :: a in l.preserved <==> Some(a) == access)
    && (OneSessionEach(db0) ==> forall a | a in done :: a in l.missing <==> Some(a) != access && a !in db0.sessions)
  }

  lemma OthersLedgerMeans(n: Summary, l: Ledger<Id>, db0: Store, done: set<Id>, access: Option<Id>)
    requires Posted(n, l) && OthersLedger(l, db0, done, access)
    ensures n.seen == |done| && n.preserved + n.missing + n.revoked == n.seen
    ensures n.preserved == if NamedIn(access, done) then 1 else 0
    ensures OneSessionEach(db0) ==> n.missing == |Absent(db0, Except(done, access))|
  {
    LedgerBalances(n, l);
    assert l.preserved == if NamedIn(access, done) then {access.value} else {};
    if OneSessionEach(db0) { assert l.missing == Absent(db0, Except(done, access)); }
  }

  /** Posting does not depend on the count of families. */
  lemma OtherIsPosted(n: Summary, l: Ledger<Id>, a: Id, fate: Fate)
    requires Posted(n, l) && Partitioned(l) && a !in l.seen
    ensures forall k: nat :: Posted(Counted(n, fate).(familiesRevoked := k), Post(l, a, fate))
  {
    PostCounts(n, l, a, fate);
  }

  function OtherFate(db: Store, a: Id, access: Option<Id>): Fate {
    if access == Some(a) then Preserved else if a !in db.sessions then Missing else Expelling
  }

  lemma OthersLedgerGrows(l: Ledger<Id>, db0: Store, db: Store, done: set<Id>, a: Id, access: Option<Id>)
    requires OthersLedger(l, db0, done, access) && a !in done
    requires OneSessionEach(db0) && Some(a) != access ==> (a in db.sessions <==> a in db0.sessions)
    ensures OthersLedger(Post(l, a, OtherFate(db, a, access)), db0, done + {a}, access)
  {
  }

  /** With one session per family, a session not yet dealt with is there exactly if it was. */
  lemma OtherIsUntouched(db0: Store, db: Store, fams: set<Id>, dropped: set<Id>, reason: Reason, a: Id,
                          spared: Option<Id>)
    requires Purged(db0, db, fams, dropped, reason) && fams == Except(FamiliesOf(db0, dropped), spared)
    requires OneSessionEach(db0) && a !in dropped
    ensures a in db.sessions <==> a in db0.sessions
  {
  }

  /** What a purge leaves of validity: a token survives exactly if its family was not revoked and its
      session record was not among those deleted. */
  lemma PurgeDecidesValidity(db0: Store, db: Store, fams: set<Id>, dropped: set<Id>, reason: Reason, c: AccessClaims)
    requires Purged(db0, db, fams, dropped, reason)
    ensures AccessValid(db, c) <==> AccessValid(db0, c) && c.familyId !in fams && c.jti !in dropped
    ensures c.familyId in fams ==> Barred(db, c.familyId)
    ensures c.familyId !in fams && c.jti !in dropped
              && (c.jti in db0.sessions ==> db0.sessions[c.jti].familyId == c.familyId) ==>
              SameRecords(db0, db, c.familyId, c.jti)
  {
    assert c.familyId in fams ==> c.familyId in db.families && !db.families[c.familyId].Live();
  }

  /** Naming the current access token and its family keeps exactly that sign-in of the user valid;
      naming the access token alone does not, once its family is in the user's index. */
  lemma KeepsExactlyTheCurrent(db0: Store, db: Store, u: Id, access: Option<Id>, family: Option<Id>, reason: Reason,
                               c: AccessClaims)
    requires Purged(db0, db, Doomed(db0, u, access, family), OtherSessions(db0, u, access), reason)
    requires AccessValid(db0, c)
    ensures access == Some(c.jti) && family == Some(c.familyId) ==>
              AccessValid(db, c) && SameRecords(db0, db, c.familyId, c.jti)
    ensures c.jti in Members(db0.userSessions, u) && Some(c.jti) != access ==> !AccessValid(db, c)
    ensures c.familyId in Members(db0.userFamilies, u) ==>
              (AccessValid(db, c) <==> family == Some(c.familyId) && c.jti !in OtherSessions(db0, u, access))
  {
    PurgeDecidesValidity(db0, db, Doomed(db0, u, access, family), OtherSessions(db0, u, access), reason, c);
  }

  // ----- the store ------------------------------------------------------------------

  class Redis {
    var db: Store
    const grace: nat

    constructor (grace: nat)
      ensures db == EMPTY_STORE && this.grace == grace
    {
      db := EMPTY_STORE;
      this.grace := grace;
    }

    method RevokeAccessSession(a: Id)
      modifies this
      ensures db == old(db).(sessions := old(db).sessions - {a})
    {
      db := db.(sessions := db.sessions - {a});
    }

    /** Deletes the session records of a family among the given keys. */
    method SweepSessions(among: set<Id>, fid: Id)
      modifies this
      ensures db == old(db).(sessions := old(db).sessions - OfFamily(old(db).sessions, among, fid))
    {
      var todo := among;
      while todo != {}
        invariant todo <= among
        invariant db == old(db).(sessions := old(db).sessions - OfFamily(old(db).sessions, among - todo, fid))
        decreases todo
      {
        var a :| a in todo;
        todo := todo - {a};
        OfFamilyGrows(old(db).sessions, among - todo, a, fid);
        if a !in db.sessions || db.sessions[a].familyId == fid {
          RevokeAccessSession(a);
        }
      }
      assert among - todo == among;
    }

    /** Writes the revoked record, the tombstone, drops the anchor, then sweeps session records. */
    method RevokeRefreshFamily(fid: Id, reason: Reason)
      modifies this
      ensures db == RevokedStore(old(db), fid, reason)
      ensures Barred(db, fid)
    {
      var copy := Find(db.families, fid);
      db := db.(families := db.families[fid := RevokedCopy(fid, copy, reason)]);
      db := db.(tombs := db.tombs + {fid});
      db := db.(anchors := db.anchors - {fid});
      if copy.Some? && copy.value.body.Some? {
        SweepSessions({copy.value.body.value.currentAccess} + Members(db.userSessions, copy.value.body.value.userId),
                      fid);
      } else {
        assert Swept(old(db), fid) == {};
        assert db.sessions - {} == db.sessions;
      }
    }

    /** One session of the sweep below. */
    method ReviewSession(u: Id, a: Id, projects: set<Id>, access: set<(Id, Id)>, reason: Reason, n: Summary)
      returns (m: Summary)
      modifies this
      ensures db == AfterReview(old(db), u, a, projects, access, reason)
      ensures m == Counted(n, FateOf(old(db), a, projects, access))
    {
      m := n.(seen := n.seen + 1);
      if a !in db.sessions {
        db := Unindex(db, u, a);
        return m.(missing := n.missing + 1);
      }
      var s := db.sessions[a];
      if s.project.None? || s.project.value.id !in projects {
        return m.(skipped := n.skipped + 1);
      }
      if (s.user.id, s.project.value.id) in access {
        return m.(preserved := n.preserved + 1);
      }
      RevokeRefreshFamily(s.familyId, reason);
      m := m.(familiesRevoked := n.familiesRevoked + 1);
      RevokeAccessSession(a);
      db := Unindex(db, u, a);
      m := m.(revoked := n.revoked + 1);
    }

    /** Revokes the project sessions, and their families, of users who lost access.  From a state
        with one session per family, exactly the indexed sessions that lost access are removed. */
    method RevokeProjectSessionsLosingAccess(users: set<Id>, projects: set<Id>, access: set<(Id, Id)>, reason: Reason)
      returns (n: Summary)
      requires OneSessionEach(db)
      modifies this
      ensures var gone := Gone(old(db), IndexedUnder(old(db), users), projects, access);
              && db == Expelled(old(db), gone, reason).(userSessions := db.userSessions)
              && Balanced(n, gone)
      ensures users != {} && projects != {} ==> Totals(n, old(db), users, projects, access)
      ensures users == {} || projects == {} ==> db == old(db) && n == Summary(0, 0, 0, 0, 0, 0)
      ensures users != {} && projects != {} ==> IndexesKept(old(db), db.userSessions, users, projects, access)
    {
      if users == {} || projects == {} {
        n := Summary(0, 0, 0, 0, 0, 0);
        NothingToSweep(db, n, users, projects, access, reason);
        return;
      }
      ghost var l, gone;
      n, l, gone := SweepUsers(users, projects, access, reason);
      SweptExactly(old(db), db, n, l, users, gone, projects, access, reason);
    }

    method StartSweep(projects: set<Id>, access: set<(Id, Id)>, reason: Reason)
      returns (n: Summary, ghost l: Ledger<(Id, Id)>, ghost gone: set<Id>)
      ensures MidSweep(db, db, n, l, {}, gone, projects, access, reason)
    {
      n, l, gone := Summary(0, 0, 0, 0, 0, 0), Ledger({}, {}, {}, {}, {}), {};
      SweepStarts(db, n, l, {}, gone, projects, access, reason);
    }

    method SweepUsers(users: set<Id>, projects: set<Id>, access: set<(Id, Id)>, reason: Reason)
      returns (n: Summary, ghost l: Ledger<(Id, Id)>, ghost gone: set<Id>)
      requires OneSessionEach(db)
      modifies this
      ensures MidSweep(old(db), db, n, l, users, gone, projects, access, reason)
    {
      var done := {};
      n, l, gone := StartSweep(projects, access, reason);
      while done != users
        invariant done <= users && MidSweep(old(db), db, n, l, done, gone, projects, access, reason)
        decreases users - done
      {
        var u :| u in users && u !in done;
        n, l, gone := ReviewUser(u, done, gone, projects, access, reason, n, l, old(db));
        done := done + {u};
      }
    }

    method ReviewOne(u: Id, a: Id, projects: set<Id>, access: set<(Id, Id)>, reason: Reason, n: Summary,
                     ghost db0: Store, ghost seen: set<Id>, ghost before: map<Id, set<Id>>, ghost todo: set<Id>)
      returns (m: Summary)
      requires OneSessionEach(db0) && MidReview(db0, db, n, seen, projects, access, reason)
      requires a in todo && MidIndex(db0, db.userSessions, before, u, todo, projects, access)
      modifies this
      ensures MidReview(db0, db, m, seen + {a}, projects, access, reason)
      ensures MidIndex(db0, db.userSessions, before, u, todo - {a}, projects, access)
      ensures m == Counted(n, FateOf(old(db), a, projects, access))
    {
      ReviewAdvances(db0, db, u, seen, a, projects, access, reason, n);
      IndexAdvances(db0, db, before, u, seen, todo, a, projects, access, reason, n);
      m := ReviewSession(u, a, projects, access, reason, n);
    }

    /** All sessions of one more user. */
    method ReviewUser(u: Id, ghost done: set<Id>, ghost gone: set<Id>, projects: set<Id>, access: set<(Id, Id)>,
                      reason: Reason, n: Summary, ghost l: Ledger<(Id, Id)>, ghost db0: Store)
      returns (m: Summary, ghost l': Ledger<(Id, Id)>, ghost gone': set<Id>)
      requires OneSessionEach(db0) && MidSweep(db0, db, n, l, done, gone, projects, access, reason) && u !in done
      modifies this
      ensures MidSweep(db0, db, m, l', done + {u}, gone', projects, access, reason)
    {
      ghost var seen := IndexedUnder(db0, done);
      assert gone == Gone(db0, seen, projects, access);
      var index := Members(db.userSessions, u);
      assert index == Members(db0.userSessions, u);
      var todo := index;
      ghost var sofar := seen;
      m, l' := n, l;
      ReviewStarts(db0, db, u, seen, index, projects, access);
      LedgerStarts(l, db0, done, 0, u, index, projects, access);
      while todo != {}
        invariant todo <= index && sofar == seen + (index - todo)
        invariant MidReview(db0, db, m, sofar, projects, access, reason)
        invariant Posted(m, l') && LedgerOf(l', db0, done, u, todo, projects, access)
        invariant MidIndex(db0, db.userSessions, old(db).userSessions, u, todo, projects, access)
        decreases todo
      {
        var a :| a in todo;
        OneLess(seen, index, todo, a);
        LedgerGrows(l', db0, db, sofar, done, u, todo, a, projects, access, reason);
        PostCounts(m, l', (u, a), FateOf(db, a, projects, access));
        l' := Post(l', (u, a), FateOf(db, a, projects, access));
        m := ReviewOne(u, a, projects, access, reason, m, db0, sofar, old(db).userSessions, todo);
        sofar := sofar + {a};
        todo := todo - {a};
      }
      NoneLeft(db0, seen, index, projects, access);
      IndexedMore(db0, done, u);
      gone' := Gone(db0, sofar, projects, access);
      IndexesGoOn(db0, old(db).userSessions, db.userSessions, u, done, projects, access);
      SweepGoesOn(db0, db, m, l', u, done, gone', projects, access, reason);
    }

    method DropSessions(among: set<Id>, reason: Reason)
      modifies this
      ensures Purged(old(db), db, {}, among, reason)
      ensures db.userSessions == old(db).userSessions && db.userFamilies == old(db).userFamilies
    {
      PurgeStarts(db, reason);
      var todo := among;
      ghost var dropped := {};
      while todo != {}
        invariant todo <= among && dropped == among - todo
        invariant Purged(old(db), db, {}, dropped, reason)
        invariant db.userSessions == old(db).userSessions && db.userFamilies == old(db).userFamilies
        decreases todo
      {
        var a :| a in todo;
        PurgeSession(old(db), db, {}, dropped, reason, a);
        TakenOne(among, todo, a);
        RevokeAccessSession(a);
        todo, dropped := todo - {a}, dropped + {a};
      }
      assert dropped == among;
    }

    /** Ends every sign-in of a user that the two indexes lead to. */
    method RevokeUserAuthState(u: Id, reason: Reason)
      modifies this
      ensures Purged(old(db), db, Members(old(db).userFamilies, u), Members(old(db).userSessions, u), reason)
      ensures db.userSessions == old(db).userSessions - {u} && db.userFamilies == old(db).userFamilies - {u}
    {
      DropSessions(Members(db.userSessions, u), reason);
      var all := Members(db.userFamilies, u);
      var todo := all;
      ghost var fams := {};
      while todo != {}
        invariant todo <= all && fams == all - todo
        invariant Purged(old(db), db, fams, Members(old(db).userSessions, u), reason)
        invariant db.userSessions == old(db).userSessions && db.userFamilies == old(db).userFamilies
        decreases todo
      {
        var f :| f in todo;
        PurgeFamily(old(db), db, fams, Members(old(db).userSessions, u), reason, f);
        TakenOne(all, todo, f);
        RevokeRefreshFamily(f, reason);
        todo, fams := todo - {f}, fams + {f};
      }
      assert fams == all;
      db := db.(userSessions := db.userSessions - {u}, userFamilies := db.userFamilies - {u});
    }

    /** One session other than the current one: its family goes too, unless it is the current family. */
    method RevokeOtherSession(u: Id, a: Id, family: Option<Id>, fams: set<Id>, reason: Reason, n: Summary)
      returns (m: Summary, fams': set<Id>)
      modifies this
      ensures db == AfterOther(old(db), u, a, family, fams, reason)
      ensures fams' == FamiliesAfter(old(db), a, family, fams)
      ensures m.familiesRevoked - n.familiesRevoked == |fams'| - |fams|
      ensures m == Counted(n, if a in old(db).sessions then Expelling else Missing)
                     .(seen := n.seen, familiesRevoked := m.familiesRevoked)
    {
      m, fams' := n, fams;
      if a in db.sessions {
        var more;
        fams', more := ExpelOther(u, a, family, fams, reason);
        m := m.(revoked := n.revoked + 1, familiesRevoked := n.familiesRevoked + more);
      } else {
        m := m.(missing := n.missing + 1);
      }
      db := Unindex(db, u, a);
    }

    /** A session on record goes with its family, unless the family is spared or revoked already. */
    method ExpelOther(u: Id, a: Id, family: Option<Id>, fams: set<Id>, reason: Reason)
      returns (fams': set<Id>, more: nat)
      requires a in db.sessions
      modifies this
      ensures db == WithoutOther(old(db), u, a, family, fams, reason)
      ensures fams' == FamiliesAfter(old(db), a, family, fams) && |fams'| == |fams| + more
    {
      var f := db.sessions[a].familyId;
      fams', more := fams, 0;
      if family != Some(f) && f !in fams {
        RevokeIndexedFamily(u, f, reason);
        fams', more := fams + {f}, 1;
      } else if f in fams {
        assert fams + {f} == fams;
      }
      RevokeAccessSession(a);
    }

    /** Reviews the session index. */
    method RevokeOtherSessions(u: Id, access: Option<Id>, family: Option<Id>, reason: Reason)
      returns (n: Summary, fams: set<Id>)
      modifies this
      ensures fams == Except(FamiliesOf(old(db), OtherSessions(old(db), u, access)), family)
      ensures Purged(old(db), db, fams, OtherSessions(old(db), u, access), reason)
      ensures Thinned(Members(db.userSessions, u), Members(old(db).userSessions, u), OtherSessions(old(db), u, access))
      ensures Thinned(Members(db.userFamilies, u), Members(old(db).userFamilies, u), fams)
      ensures n.seen == |Members(old(db).userSessions, u)| && n.familiesRevoked == |fams|
      ensures n.preserved + n.missing + n.revoked == n.seen
      ensures n.preserved == if NamedIn(access, Members(old(db).userSessions, u)) then 1 else 0
      ensures OneSessionEach(old(db)) ==> n.missing == |Absent(old(db), OtherSessions(old(db), u, access))|
    {
      var all := Members(db.userSessions, u);
      var done := {};
      ghost var l;
      n, fams, l := StartOthers(u, access, family, reason);
      while done != all
        invariant done <= all && MidOthers(old(db), db, u, done, fams, access, family, reason)
        invariant MidCounts(old(db), n, l, done, fams, access)
        decreases all - done
      {
        var a :| a in all && a !in done;
        n, fams, l := CountOther(u, a, access, family, fams, reason, n, l, old(db), done);
        done := done + {a};
      }
      OthersLedgerMeans(n, l, old(db), done, access);
    }

    method StartOthers(u: Id, access: Option<Id>, family: Option<Id>, reason: Reason)
      returns (n: Summary, fams: set<Id>, ghost l: Ledger<Id>)
      ensures MidOthers(db, db, u, {}, fams, access, family, reason) && MidCounts(db, n, l, {}, fams, access)
    {
      n, fams, l := Summary(0, 0, 0, 0, 0, 0), {}, Ledger({}, {}, {}, {}, {});
      PurgeStarts(db, reason);
      assert Except({}, access) == {} && Except(FamiliesOf(db, {}), family) == {};
    }

    method CountOther(u: Id, a: Id, access: Option<Id>, family: Option<Id>, fams: set<Id>, reason: Reason, n: Summary,
                      ghost l: Ledger<Id>, ghost db0: Store, ghost done: set<Id>)
      returns (m: Summary, fams': set<Id>, ghost l': Ledger<Id>)
      requires MidOthers(db0, db, u, done, fams, access, family, reason) && a !in done
      requires MidCounts(db0, n, l, done, fams, access)
      modifies this
      ensures MidOthers(db0, db, u, done + {a}, fams', access, family, reason)
      ensures MidCounts(db0, m, l', done + {a}, fams', access)
    {
      if OneSessionEach(db0) && Some(a) != access {
        OtherIsUntouched(db0, db, fams, Except(done, access), reason, a, family);
      }
      l' := Post(l, a, OtherFate(db, a, access));
      ghost var was := db;
      OthersGoOn(db0, db, u, a, done, fams, access, family, reason);
      m, fams' := ReviewOther(u, a, access, family, fams, reason, n);
      CountsGrow(db0, was, n, m, l, done, fams, fams', a, access);
    }

    /** One indexed session: the current one stays. */
    method ReviewOther(u: Id, a: Id, access: Option<Id>, family: Option<Id>, fams: set<Id>, reason: Reason, n: Summary)
      returns (m: Summary, fams': set<Id>)
      requires n.familiesRevoked == |fams|
      modifies this
      ensures (db, fams') == OtherReviewed(old(db), u, a, access, family, fams, reason)
      ensures m == Counted(n, OtherFate(old(db), a, access)).(familiesRevoked := |fams'|)
    {
      m, fams' := n.(seen := n.seen + 1), fams;
      if access == Some(a) {
        m := m.(preserved := m.preserved + 1);
        return;
      }
      m, fams' := RevokeOtherSession(u, a, family, fams, reason, m);
    }

    /** Reviews what is left of the family index. */
    method RevokeOtherFamilies(u: Id, family: Option<Id>, fams0: set<Id>, reason: Reason, n: Summary,
                               ghost db0: Store, ghost dropped: set<Id>)
      returns (m: Summary)
      requires MidPurge(db0, db, u, fams0, dropped, reason) && n.familiesRevoked == |fams0|
      requires fams0 == Except(fams0, family)
      modifies this
      ensures MidPurge(db0, db, u, Except(fams0 + Members(db0.userFamilies, u), family), dropped, reason)
      ensures db.userSessions == old(db).userSessions
      ensures m.familiesRevoked == |Except(fams0 + Members(db0.userFamilies, u), family)|
      ensures m == n.(familiesRevoked := m.familiesRevoked,
                      preserved := n.preserved + if NamedIn(family, Members(db0.userFamilies, u)) then 1 else 0)
    {
      m := n;
      var fams := fams0;
      var todo := Members(db.userFamilies, u);
      ghost var done, left := {}, todo;
      while todo != {}
        invariant Split(todo, done, left) && Taken(fams, fams0, done, family)
        invariant MidPurge(db0, db, u, fams, dropped, reason)
        invariant db.userSessions == old(db).userSessions
        invariant m == n.(familiesRevoked := |fams|, preserved := n.preserved + if NamedIn(family, done) then 1 else 0)
        decreases todo
      {
        var f :| f in todo;
        ghost var before := fams;
        m, fams := RevokeOtherFamily(u, f, family, fams, reason, m, db0, dropped);
        TakeOne(todo, done, left, before, fams, fams0, f, family);
        todo, done := todo - {f}, done + {f};
      }
      LastFamilies(fams, fams0, done, left, Members(db0.userFamilies, u), family);
    }

    method RevokeIndexedFamily(u: Id, f: Id, reason: Reason)
      modifies this
      ensures db == Dismissed(old(db), u, f, reason)
    {
      RevokeRefreshFamily(f, reason);
      db := db.(userFamilies := db.userFamilies[u := Members(db.userFamilies, u) - {f}]);
    }

    /** One family of the index, unless it is the current one or already revoked. */
    method RevokeOtherFamily(u: Id, f: Id, family: Option<Id>, fams: set<Id>, reason: Reason, n: Summary,
                             ghost db0: Store, ghost dropped: set<Id>)
      returns (m: Summary, fams': set<Id>)
      requires MidPurge(db0, db, u, fams, dropped, reason) && n.familiesRevoked == |fams|
      modifies this
      ensures MidPurge(db0, db, u, fams', dropped, reason) && db.userSessions == old(db).userSessions
      ensures Joined(fams', fams, f, family)
      ensures m == n.(familiesRevoked := |fams'|, preserved := n.preserved + if family == Some(f) then 1 else 0)
    {
      m, fams' := n, fams;
      if family == Some(f) {
        m := m.(preserved := m.preserved + 1);
      } else if f !in fams {
        FamilyStep(db0, db, u, f, fams, dropped, reason);
        RevokeIndexedFamily(u, f, reason);
        fams' := fams + {f};
        m := m.(familiesRevoked := m.familiesRevoked + 1);
      }
    }

    /** Ends every other sign-in of a user.  The current session and family, when both are named, stay
        exactly as they were; every other indexed family is revoked and no other indexed session is left. */
    method RevokeUserAuthStateExceptCurrent(u: Id, access: Option<Id>, family: Option<Id>, reason: Reason)
      returns (n: Summary)
      modifies this
      ensures access.None? && family.None? ==>
                && Purged(old(db), db, Members(old(db).userFamilies, u), Members(old(db).userSessions, u), reason)
                && n == Summary(0, 0, 0, 0, 0, 0)
      ensures access.Some? || family.Some? ==>
                && Purged(old(db), db, Doomed(old(db), u, access, family), OtherSessions(old(db), u, access), reason)
                && Thinned(Members(db.userSessions, u), Members(old(db).userSessions, u),
                           OtherSessions(old(db), u, access))
                && Thinned(Members(db.userFamilies, u), Members(old(db).userFamilies, u),
                           Doomed(old(db), u, access, family))
                && n.seen == |Members(old(db).userSessions, u)|
                    && n.familiesRevoked == |Doomed(old(db), u, access, family)|
                && (OneSessionEach(old(db)) ==> n.missing == |Absent(old(db), OtherSessions(old(db), u, access))|)
                && n.preserved == (if NamedIn(access, Members(old(db).userSessions, u)) then 1 else 0)
                                    + (if NamedIn(family, Members(old(db).userFamilies, u)) then 1 else 0)
                && n.preserved + n.missing + n.revoked ==
                     n.seen + if NamedIn(family, Members(old(db).userFamilies, u)) then 1 else 0
    {
      if access.None? && family.None? {
        n := Summary(0, 0, 0, 0, 0, 0);
        RevokeUserAuthState(u, reason);
        return;
      }
      ghost var owners := FamiliesOf(db, OtherSessions(db, u, access));
      var fams;
      n, fams := RevokeOtherSessions(u, access, family, reason);
      ExceptTwice(owners, Members(old(db).userFamilies, u), family);
      n := RevokeOtherFamilies(u, family, fams, reason, n, old(db), OtherSessions(old(db), u, access));
    }

    /** Names a presented token's standing; a reuse revokes the family on the spot. */
    method ClassifyRefreshToken(fid: Id, jti: Id, now: nat) returns (r: Standing)
      modifies this
      ensures r == Classified(old(db), fid, jti, now, grace)
      ensures db == if r == ReusedToken then RevokedStore(old(db), fid, RefreshReuse) else old(db)
    {
      if fid !in db.families || jti !in db.tokens { return InvalidToken; }
      var f, t := db.families[fid], db.tokens[jti];
      if f.status != Active || IsRevoked(db, fid) { return DeadFamily; }
      if f.body.Some? && f.body.value.currentRefresh == jti && t.status == Current { return CurrentToken; }
      if t.status != Current || jti in Members(db.used, fid) {
        if Benign(f, t, now, grace) { return DuplicateToken; }
        RevokeRefreshFamily(fid, RefreshReuse);
        return ReusedToken;
      }
      return InvalidToken;
    }

    /** A rotation that nothing interleaves with. */
    method RotateRefreshFamily(c: RefreshClaims, target: Option<Project>, ch: Choice, idx: nat, now: nat)
      returns (r: Rotation)
      modifies this
      ensures r.Issued? ==>
                && FoundCurrent(old(db), c, r.ctx)
                && var f := old(db).families[c.familyId];
                && BuildRotated(c, Retarget(r.ctx, target), f, ch.granted, idx, now, ch.access, ch.refresh) == Some(r.g)
                && db == CommitRotation(old(db), old(db).tokens[c.jti], f.body.value.currentAccess, r.g)
      ensures r.Issued? <==>
                exists ctx :: FoundCurrent(old(db), c, ctx) && !ch.denied
                              && !OutOfTime(old(db).families[c.familyId].body.value, ctx, now)
      ensures r.Denied? ==>
                var cost := CostOfDenial(old(db), c, ch.denied, now, grace);
                db == if cost.Some? then RevokedStore(old(db), c.familyId, cost.value) else old(db)
      ensures c.jti !in old(db).tokens ==> r.Denied? && db == old(db)
      ensures SpentIn(old(db), c) ==>
                && r.Denied?
                && db == if Benign(old(db).families[c.familyId], old(db).tokens[c.jti], now, grace) then old(db)
                         else RevokedStore(old(db), c.familyId, RefreshReuse)
    {
      var fid := c.familyId;
      if fid !in db.families || c.jti !in db.tokens { return Denied; }
      var f, t := db.families[fid], db.tokens[c.jti];
      if f.status != Active || IsRevoked(db, fid) || t.digest != c { return Denied; }
      if f.body.None? || f.body.value.currentRefresh != c.jti || t.status != Current {
        var _ := ClassifyRefreshToken(fid, c.jti, now);
        return Denied;
      }
      var access := f.body.value.currentAccess;
      var seed;
      if access in db.sessions {
        seed := db.sessions[access];
      } else if fid in db.anchors {
        if !AnchorMatches(db.anchors[fid], c, f) { return Denied; }
        seed := AnchorSeed(db.anchors[fid]);
      } else {
        RevokeRefreshFamily(fid, OtherReason(0));
        return Denied;
      }
      if !RefreshClaimsMatch(c, f, seed) { return Denied; }
      assert FoundCurrent(db, c, seed);
      if ch.denied {
        RevokeRefreshFamily(fid, OtherReason(1));
        return Denied;
      }
      var built := BuildRotated(c, Retarget(seed, target), f, ch.granted, idx, now, ch.access, ch.refresh);
      if built.None? { return Denied; }
      db := CommitRotation(db, t, access, built.value);
      return Issued(seed, built.value);
    }
  }
}
