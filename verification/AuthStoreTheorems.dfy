/** What the store operations mean in the states the protocol reaches. */
module AuthStoreTheorems {
  import opened Prelude
  import opened TokenFamily
  import opened RotationProtocol
  import opened RotationInvariant
  import opened RotationPreservation
  import opened RotationTheorems
  import opened ProjectSwitch
  import opened AuthStore

  /** The premise of the project sweep holds in every reachable state. */
  lemma ReachableHasOneSessionEach(s: State)
    requires Reachable(s)
    ensures OneSessionEach(s.db)
  {
    forall a, b | a in s.db.sessions && b in s.db.sessions && s.db.sessions[a].familyId == s.db.sessions[b].familyId
      ensures a == b
    {
      AtMostOneSession(s, a, b);
    }
  }

  /** Presenting a spent token of a live family, in terms of what was issued: it counts as a
      duplicate exactly when its successor is the current token and was issued within the grace
      window; any other presentation turns the family into a reused one. */
  lemma ReplayIsExact(s: State, j: Id)
    requires Reachable(s) && j in s.db.tokens && j in s.hist && LiveIn(s.db, s.hist[j].fid)
    requires HistInv(s) && Spent(s, j)
    ensures var c, db := s.hist[j].refresh, s.db;
            var f := db.families[c.familyId];
            && SpentIn(db, c)
            && (Benign(f, db.tokens[j], s.now, s.grace) <==>
                  && s.grace > 0 && Child(s, j).refresh.jti == f.body.value.currentRefresh
                  && s.now <= Child(s, j).at + s.grace * SECOND)
            && RevokedStore(db, c.familyId, RefreshReuse).families[c.familyId].status == Reused
            && RevokedStore(db, c.familyId, RefreshReuse) != db
  {
    ReachableInv(s);
    SpentIsBenignWhen(s, j);
    RevocationChangesStore(s.db, s.hist[j].fid);
  }

  lemma SpentIsBenignWhen(s: State, j: Id)
    requires HistInv(s) && StoreInv(s) && j in s.db.tokens && j in s.hist && LiveIn(s.db, s.hist[j].fid) && Spent(s, j)
    ensures var c, db := s.hist[j].refresh, s.db;
            && c.familyId == s.hist[j].fid && c.jti == j && SpentIn(db, c)
            && var f := db.families[c.familyId];
            (Benign(f, db.tokens[j], s.now, s.grace) <==>
               && s.grace > 0 && Child(s, j).refresh.jti == f.body.value.currentRefresh
               && s.now <= Child(s, j).at + s.grace * SECOND)
  {
    assert GenOK(s, j) && FamilyOK(s, s.hist[j].fid);
    ReadSpentToken(s, j);
    ChildIsRecorded(s, j);
  }

  lemma RevocationChangesStore(db: Store, fid: Id)
    requires LiveIn(db, fid)
    ensures RevokedStore(db, fid, RefreshReuse).families[fid].status == Reused
              && RevokedStore(db, fid, RefreshReuse) != db
  {
  }

  /** A rotation found current in a reachable state writes exactly what the concurrent protocol
      would commit: the next coherent generation of the family. */
  lemma SequentialRotationContinues(s: State, c: RefreshClaims, ctx: Session, target: Option<Project>, ch: Choice)
    requires Reachable(s) && FoundCurrent(s.db, c, ctx) && Grants(Retarget(ctx, target), ch.granted)
    ensures HistInv(s) && Grounded(s, c, ctx) && !Spent(s, c.jti)
    ensures forall g | BuiltHere(s, c, ctx, target, ch) == Some(g) :: Succeeds(s.hist[c.jti], g)
  {
    ReachableInv(s);
    NewestIsGrounded(s, c, ctx);
    GroundedContinues(s, c, ctx, target, ch);
  }

  /** The presented token is a recorded generation whose family is the stored one, and the context is
      that generation's session or anchor. */
  ghost predicate Grounded(s: State, c: RefreshClaims, ctx: Session) {
    && c.jti in s.hist && s.hist[c.jti].refresh == c && ContextOf(s.hist[c.jti], ctx)
    && Find(s.db.families, c.familyId) == Some(s.hist[c.jti].family)
    && Coherent(s.hist[c.jti]) && s.hist[c.jti].at <= s.now
  }

  /** The generation a rotation from this context builds. */
  ghost function BuiltHere(s: State, c: RefreshClaims, ctx: Session, target: Option<Project>, ch: Choice): Option<Gen>
    requires Grounded(s, c, ctx)
  {
    BuildRotated(c, Retarget(ctx, target), s.hist[c.jti].family, ch.granted, s.hist[c.jti].idx + 1, s.now,
                 ch.access, ch.refresh)
  }

  lemma GroundedContinues(s: State, c: RefreshClaims, ctx: Session, target: Option<Project>, ch: Choice)
    requires Grounded(s, c, ctx) && Grants(Retarget(ctx, target), ch.granted)
    ensures forall g | BuiltHere(s, c, ctx, target, ch) == Some(g) ::
              && Succeeds(s.hist[c.jti], g) && Lands(s.hist[c.jti], target, g)
              && g.at == s.now && g.fid == c.familyId && g.access.jti == ch.access && g.refresh.jti == ch.refresh
  {
    var h := s.hist[c.jti];
    RotationSucceeds(h, ctx, target, ch.granted, s.now, ch.access, ch.refresh);
    RotationLands(h, Retarget(ctx, target), target, ch.granted, h.idx + 1, s.now, ch.access, ch.refresh);
  }

  lemma NewestIsGrounded(s: State, c: RefreshClaims, ctx: Session)
    requires HistInv(s) && StoreInv(s) && ContentInv(s) && FoundCurrent(s.db, c, ctx)
    ensures Grounded(s, c, ctx) && !Spent(s, c.jti)
  {
    FoundCurrentIsNewest(s, c, ctx);
    NewestIsCoherent(s, c.jti);
  }

  lemma NewestIsCoherent(s: State, j: Id)
    requires HistInv(s) && ContentInv(s) && j in s.hist
    ensures Coherent(s.hist[j]) && s.hist[j].at <= s.now
  {
    assert ContentOK(s, j) && GenOK(s, j);
  }

  lemma FoundCurrentIsNewest(s: State, c: RefreshClaims, ctx: Session)
    requires HistInv(s) && StoreInv(s) && FoundCurrent(s.db, c, ctx)
    ensures c.jti in s.hist && s.hist[c.jti].refresh == c && !Spent(s, c.jti) && ContextOf(s.hist[c.jti], ctx)
    ensures s.db.families[c.familyId] == s.hist[c.jti].family
  {
    var fid := c.familyId;
    CurrentIsLast(s, fid);
    assert TokenOK(s, c.jti) && GenOK(s, c.jti) && LineOK(s, fid);
    var access := s.db.families[fid].body.value.currentAccess;
    if access in s.db.sessions {
      assert SessionOK(s, access) && AccessOK(s, access);
    }
  }

  /** In every reachable state the newest token of a live family is found current, with a context: so
      only a denial or the end of a remember-me lifetime can refuse it. */
  lemma CurrentTokenIsFound(s: State, fid: Id) returns (c: RefreshClaims, ctx: Session)
    requires Reachable(s) && LiveIn(s.db, fid)
    ensures c.familyId == fid && c.jti == s.db.families[fid].body.value.currentRefresh
    ensures c.jti in s.hist && s.hist[c.jti].refresh == c && FoundCurrent(s.db, c, ctx)
  {
    ReachableInv(s);
    c, ctx := NewestIsFound(s, fid);
  }

  lemma NewestIsFound(s: State, fid: Id) returns (c: RefreshClaims, ctx: Session)
    requires HistInv(s) && StoreInv(s) && ContentInv(s) && LiveIn(s.db, fid)
    ensures c.familyId == fid && c.jti == s.db.families[fid].body.value.currentRefresh
    ensures c.jti in s.hist && s.hist[c.jti].refresh == c && FoundCurrent(s.db, c, ctx)
  {
    CurrentIsLast(s, fid);
    var g := Last(s, fid);
    assert FamilyOK(s, fid) && LineOK(s, fid) && ContentOK(s, g.refresh.jti) && GenOK(s, g.refresh.jti);
    c := g.refresh;
    var x := s.db.families[fid].body.value.currentAccess;
    ctx := if x in s.db.sessions then g.session else AnchorSeed(g.anchor);
    AnchorStandsIn(g);
    if x in s.db.sessions { SessionIsOfNewest(s, fid, x); }
  }

  lemma SessionIsOfNewest(s: State, fid: Id, x: Id)
    requires HistInv(s) && StoreInv(s) && ContentInv(s) && LiveIn(s.db, fid) && x in s.db.sessions
    requires x == s.db.families[fid].body.value.currentAccess
    ensures fid in s.spine && s.db.sessions[x] == Last(s, fid).session
  {
    CurrentIsLast(s, fid);
    assert SessionOK(s, x) && AccessOK(s, x) && LineOK(s, fid);
    assert GenOK(s, Last(s, fid).refresh.jti) && ContentOK(s, Last(s, fid).refresh.jti);
  }

  // ----- what an issued pair is good for --------------------------------------------

  /** The store right after a rotation: the new access token is valid, the new refresh token is the
      current one, the presented token is used and names its successor, and the old session is gone. */
  predicate Handed(db: Store, c: RefreshClaims, oldAccess: Id, g: Gen, now: nat) {
    && AccessValid(db, g.access) && PresentedCurrent(db, g.refresh)
    && c.jti in db.tokens && db.tokens[c.jti].status == Used
    && db.tokens[c.jti].child == Some(g.refresh.jti) && db.tokens[c.jti].usedAt == Some(now)
    && oldAccess !in db.sessions && c.jti in Members(db.used, c.familyId)
  }

  lemma CommitHandsOver(db: Store, r: TokenRecord, oldAccess: Id, c: RefreshClaims, g: Gen)
    requires Coherent(g) && g.fid == c.familyId && g.fid !in db.tombs && r.jti == c.jti
    requires g.access.jti != oldAccess && g.refresh.jti != c.jti
    ensures Handed(CommitRotation(db, r, oldAccess, g), c, oldAccess, g, g.at)
  {
  }

  /** In every reachable state, a rotation that issues tokens hands over: the new pair works at once
      and the old one no longer does. */
  lemma IssuedPairWorks(s: State, c: RefreshClaims, ctx: Session, target: Option<Project>, ch: Choice, g: Gen)
    requires Reachable(s) && FoundCurrent(s.db, c, ctx) && Grants(Retarget(ctx, target), ch.granted)
    requires Fresh(s, ch.access) && Fresh(s, ch.refresh)
    requires Grounded(s, c, ctx) && BuiltHere(s, c, ctx, target, ch) == Some(g)
    ensures var oldAccess := s.db.families[c.familyId].body.value.currentAccess;
            && Handed(CommitRotation(s.db, s.db.tokens[c.jti], oldAccess, g), c, oldAccess, g, s.now)
            && Lands(s.hist[c.jti], target, g)
  {
    ReachableInv(s);
    NewestIsGrounded(s, c, ctx);
    NewestIsOnRecord(s, c);
    PairWorks(s, c, ctx, target, ch, g);
  }

  lemma PairWorks(s: State, c: RefreshClaims, ctx: Session, target: Option<Project>, ch: Choice, g: Gen)
    requires Grounded(s, c, ctx) && Grants(Retarget(ctx, target), ch.granted) &&
               BuiltHere(s, c, ctx, target, ch) == Some(g)
    requires Fresh(s, ch.access) && Fresh(s, ch.refresh) && c.jti in s.drawn && c.familyId !in s.db.tombs
    requires c.jti in s.db.tokens && s.db.tokens[c.jti].jti == c.jti
    requires s.hist[c.jti].family.body.value.currentAccess in s.drawn
    ensures var oldAccess := s.hist[c.jti].family.body.value.currentAccess;
            && Handed(CommitRotation(s.db, s.db.tokens[c.jti], oldAccess, g), c, oldAccess, g, s.now)
            && Lands(s.hist[c.jti], target, g)
  {
    GroundedContinues(s, c, ctx, target, ch);
    CommitHandsOver(s.db, s.db.tokens[c.jti], s.hist[c.jti].family.body.value.currentAccess, c, g);
  }

  lemma NewestIsOnRecord(s: State, c: RefreshClaims)
    requires HistInv(s) && StoreInv(s) && c.jti in s.hist && s.hist[c.jti].refresh == c && !Spent(s, c.jti)
    requires c.jti in s.db.tokens && LiveIn(s.db, c.familyId) && s.db.families[c.familyId] == s.hist[c.jti].family
    ensures s.db.tokens[c.jti].jti == c.jti && c.jti in s.drawn && c.familyId !in s.db.tombs
    ensures s.db.families[c.familyId].body.value.currentAccess in s.drawn
  {
    assert GenOK(s, c.jti) && TokenOK(s, c.jti) && FamilyOK(s, c.familyId);
  }

  // ----- standing -------------------------------------------------------------------

  /** The standing of an issued token in every reachable state, in terms of what was issued. */
  lemma StandingIsExact(s: State, j: Id)
    requires Reachable(s) && j in s.hist
    ensures HistInv(s) && Classified(s.db, s.hist[j].fid, j, s.now, s.grace) == StandingOf(s, j)
  {
    ReachableInv(s);
    StandingDecided(s, j);
  }

  /** What an issued token counts as: by the records stored, by whether it was rotated away, and then
      by its successor and the grace window. */
  ghost function StandingOf(s: State, j: Id): Standing
    requires HistInv(s) && j in s.hist
  {
    var fid := s.hist[j].fid;
    if fid !in s.db.families || j !in s.db.tokens then InvalidToken
    else if !LiveIn(s.db, fid) then DeadFamily
    else if !Spent(s, j) then CurrentToken
    else if s.grace > 0 && Child(s, j).refresh.jti == s.db.families[fid].body.value.currentRefresh
            && s.now <= Child(s, j).at + s.grace * SECOND then DuplicateToken
    else ReusedToken
  }

  lemma StandingDecided(s: State, j: Id)
    requires HistInv(s) && StoreInv(s) && j in s.hist
    ensures Classified(s.db, s.hist[j].fid, j, s.now, s.grace) == StandingOf(s, j)
  {
    var fid := s.hist[j].fid;
    if fid in s.db.families && j in s.db.tokens {
      if !LiveIn(s.db, fid) {
        DeadRecordIsRevoked(s, fid);
      } else if Spent(s, j) {
        SpentIsBenignWhen(s, j);
        SpentStanding(s.db, s.hist[j].refresh, fid, j, s.now, s.grace);
      } else {
        UnspentIsCurrent(s, fid, j);
      }
    }
  }

  lemma SpentStanding(db: Store, c: RefreshClaims, fid: Id, j: Id, now: nat, grace: nat)
    requires SpentIn(db, c) && c.familyId == fid && c.jti == j
    ensures Classified(db, fid, j, now, grace) ==
              if Benign(db.families[fid], db.tokens[j], now, grace) then DuplicateToken else ReusedToken
  {
  }

  lemma DeadRecordIsRevoked(s: State, fid: Id)
    requires HistInv(s) && StoreInv(s) && fid in s.db.families && !LiveIn(s.db, fid)
    ensures IsRevoked(s.db, fid)
  {
    assert FamilyOK(s, fid);
  }

  lemma UnspentIsCurrent(s: State, fid: Id, j: Id)
    requires HistInv(s) && StoreInv(s) && LiveIn(s.db, fid) && j in s.db.tokens && j in s.hist && s.hist[j].fid == fid
    requires !Spent(s, j)
    ensures s.db.families[fid].body.value.currentRefresh == j && s.db.tokens[j].status == Current &&
              !IsRevoked(s.db, fid)
  {
    CurrentIsLast(s, fid);
    assert TokenOK(s, j) && GenOK(s, j) && FamilyOK(s, fid);
  }
}
