/** What each program does when nothing interleaves with it: a replay is judged, a revocation bars its
    family, a denial revokes, a valid access token is admitted and a bound authorization completes. */
module UndisturbedRuns {
  import opened Prelude
  import opened TokenFamily
  import opened RotationProtocol
  import opened RotationInvariant
  import opened RotationPreservation
  import opened RotationTheorems
  import opened AuthStore
  import opened AuthStoreTheorems
  import opened RotationProgress

  // ----- stepping one program -------------------------------------------------------

  /** A step that changes nothing but its own program. */
  lemma OwnStep(s: State, pid: nat, ch: Choice, p: Proc, next: Proc)
    requires !p.Done? && !(p.Rotate? && p.rpc.RContext?)
    requires ProcStep(Goto(s, pid, p), pid, ch) == Goto(Goto(s, pid, p), pid, next)
    ensures StepsTo(Goto(s, pid, p), pid, ch, 1, Goto(s, pid, next))
  {
    var a := Goto(s, pid, p);
    PutTwice(s.procs, pid, p, next);
    assert Apply(a, Step(pid, ch)) == Goto(s, pid, next);
    IterateNext(StepOf(pid, ch), 0, a, a, Goto(s, pid, next));
  }

  lemma OneMore(s: State, pid: nat, ch: Choice, n: nat, t: State, u: State)
    requires StepsTo(s, pid, ch, n, t) && StepsTo(t, pid, ch, 1, u)
    ensures StepsTo(s, pid, ch, n + 1, u)
  {
    StepsCompose(s, pid, ch, n, t, 1, u);
  }

  lemma ClassifyMoves(s: State, pid: nat, ch: Choice, fid: Id, j: Id, pc: ClassifyPc, next: Proc)
    requires ClassifyStep(Goto(s, pid, Classify(fid, j, pc)), fid, j, pc) == next
    ensures StepsTo(Goto(s, pid, Classify(fid, j, pc)), pid, ch, 1, Goto(s, pid, next))
  {
    OwnStep(s, pid, ch, Classify(fid, j, pc), next);
  }

  lemma RotateMoves(s: State, pid: nat, ch: Choice, c: RefreshClaims, target: Option<Project>, pc: RotatePc, next: Proc)
    requires !pc.RContext? && !pc.RReady?
    requires RotateStep(Goto(s, pid, Rotate(c, target, pc)), c, target, pc, ch) == next
    ensures StepsTo(Goto(s, pid, Rotate(c, target, pc)), pid, ch, 1, Goto(s, pid, next))
  {
    OwnStep(s, pid, ch, Rotate(c, target, pc), next);
  }

  lemma ValidateMoves(s: State, pid: nat, ch: Choice, a: AccessClaims, pc: ValidatePc, next: Proc)
    requires ValidateStep(Goto(s, pid, Validate(a, pc)), a, pc, ch) == next
    ensures StepsTo(Goto(s, pid, Validate(a, pc)), pid, ch, 1, Goto(s, pid, next))
  {
    OwnStep(s, pid, ch, Validate(a, pc), next);
  }

  lemma OAuthMoves(s: State, pid: nat, ch: Choice, r: Authorization, tries: nat, pc: OAuthPc, next: Proc)
    requires OAuthStep(Goto(s, pid, OAuth(r, tries, pc)), r, tries, pc, ch) == next
    ensures StepsTo(Goto(s, pid, OAuth(r, tries, pc)), pid, ch, 1, Goto(s, pid, next))
  {
    OwnStep(s, pid, ch, OAuth(r, tries, pc), next);
  }

  // ----- revocation -----------------------------------------------------------------

  /** The store a revocation leaves, session sweep aside. */
  function Barring(db: Store, fid: Id, reason: Reason): Store {
    db.(families := db.families[fid := RevokedCopy(fid, Find(db.families, fid), reason)],
        tombs := db.tombs + {fid}, anchors := db.anchors - {fid})
  }

  lemma BarringBars(db: Store, fid: Id, reason: Reason)
    ensures Barred(Barring(db, fid, reason), fid)
    ensures Barring(db, fid, reason).families[fid].status == (if reason == RefreshReuse then Reused else Revoked)
    ensures Barring(db, fid, reason).families[fid].reason == Some(reason)
  {
  }

  /** One write of a revocation. */
  lemma RevokeMoves(s: State, pid: nat, ch: Choice, fid: Id, reason: Reason, pc: RevokePc, t: State)
    requires pid in s.procs && s.procs[pid] == Revoke(fid, reason, pc) && t == RevokeStep(s, pid, fid, reason, pc)
    ensures StepsTo(s, pid, ch, 1, t)
  {
    assert Apply(s, Step(pid, ch)) == t;
    IterateNext(StepOf(pid, ch), 0, s, s, t);
  }

  /** Undisturbed, a revocation ends after four steps with its family barred, the record saying why,
      and nothing else of the store changed. */
  lemma UndisturbedRevocationBars(s: State, pid: nat, ch: Choice, fid: Id, reason: Reason) returns (t: State)
    requires pid in s.procs && s.procs[pid] == Revoke(fid, reason, VStart)
    ensures StepsTo(s, pid, ch, 4, t) && t.db == Barring(s.db, fid, reason) && Barred(t.db, fid)
    ensures t.procs == s.procs[pid := Done(RevokedFamily(fid))]
  {
    var s2 := RevocationWritesRecord(s, pid, ch, fid, reason);
    t := RevocationClears(s2, pid, ch, fid, reason);
    StepsCompose(s, pid, ch, 2, s2, 2, t);
    PutTwice(s.procs, pid, Revoke(fid, reason, VTomb), Done(RevokedFamily(fid)));
    BarringBars(s.db, fid, reason);
  }

  lemma RevocationWritesRecord(s: State, pid: nat, ch: Choice, fid: Id, reason: Reason) returns (t: State)
    requires pid in s.procs && s.procs[pid] == Revoke(fid, reason, VStart)
    ensures StepsTo(s, pid, ch, 2, t) && t.procs == s.procs[pid := Revoke(fid, reason, VTomb)]
    ensures t.db == s.db.(families := s.db.families[fid := RevokedCopy(fid, Find(s.db.families, fid), reason)])
  {
    var s1 := RevokeStep(s, pid, fid, reason, VStart);
    t := RevokeStep(s1, pid, fid, reason, VRead(Find(s.db.families, fid)));
    RevokeMoves(s, pid, ch, fid, reason, VStart, s1);
    RevokeMoves(s1, pid, ch, fid, reason, VRead(Find(s.db.families, fid)), t);
    OneMore(s, pid, ch, 1, s1, t);
    PutTwice(s.procs, pid, s1.procs[pid], t.procs[pid]);
  }

  lemma RevocationClears(s: State, pid: nat, ch: Choice, fid: Id, reason: Reason) returns (t: State)
    requires pid in s.procs && s.procs[pid] == Revoke(fid, reason, VTomb)
    ensures StepsTo(s, pid, ch, 2, t) && t.procs == s.procs[pid := Done(RevokedFamily(fid))]
    ensures t.db == s.db.(tombs := s.db.tombs + {fid}, anchors := s.db.anchors - {fid})
  {
    var s1 := RevokeStep(s, pid, fid, reason, VTomb);
    t := RevokeStep(s1, pid, fid, reason, VAnchor);
    RevokeMoves(s, pid, ch, fid, reason, VTomb, s1);
    RevokeMoves(s1, pid, ch, fid, reason, VAnchor, t);
    OneMore(s, pid, ch, 1, s1, t);
    PutTwice(s.procs, pid, s1.procs[pid], t.procs[pid]);
  }

  /** From some state of its own on, the program revokes the family for this reason and ends. */
  ghost predicate EndsBarred(s: State, pid: nat, ch: Choice, n: nat, fid: Id, reason: Reason) {
    exists t :: StepsTo(s, pid, ch, n, t) && t.db == Barring(s.db, fid, reason)
                && t.procs == s.procs[pid := Done(RevokedFamily(fid))]
  }

  lemma GoesOnToRevoke(s: State, pid: nat, ch: Choice, n: nat, fid: Id, reason: Reason)
    requires pid in s.procs && StepsTo(s, pid, ch, n, Goto(s, pid, Revoke(fid, reason, VStart)))
    ensures EndsBarred(s, pid, ch, n + 4, fid, reason)
  {
    var u := Goto(s, pid, Revoke(fid, reason, VStart));
    var t := UndisturbedRevocationBars(u, pid, ch, fid, reason);
    StepsCompose(s, pid, ch, n, u, 4, t);
    PutTwice(s.procs, pid, Revoke(fid, reason, VStart), Done(RevokedFamily(fid)));
  }

  // ----- replay ---------------------------------------------------------------------

  /** The classification of a spent token whose record is stored: four looks and a verdict. */
  lemma SpentIsClassified(s: State, pid: nat, ch: Choice, c: RefreshClaims)
    requires SpentIn(s.db, c)
    ensures var f, t := s.db.families[c.familyId], s.db.tokens[c.jti];
            StepsTo(Goto(s, pid, Classify(c.familyId, c.jti, CStart)), pid, ch, 4,
                    Goto(s, pid, if Benign(f, t, s.now, s.grace) then Done(Replayed)
                                 else Revoke(c.familyId, RefreshReuse, VStart)))
  {
    var fid, j, f, t := c.familyId, c.jti, s.db.families[c.familyId], s.db.tokens[c.jti];
    var a := Goto(s, pid, Classify(fid, j, CStart));
    ClassifyMoves(s, pid, ch, fid, j, CStart, Classify(fid, j, CFamily(f)));
    ClassifyMoves(s, pid, ch, fid, j, CFamily(f), Classify(fid, j, CToken(f, t)));
    OneMore(a, pid, ch, 1, Goto(s, pid, Classify(fid, j, CFamily(f))), Goto(s, pid, Classify(fid, j, CToken(f, t))));
    ClassifyMoves(s, pid, ch, fid, j, CToken(f, t), Classify(fid, j, CSeen(f, t)));
    OneMore(a, pid, ch, 2, Goto(s, pid, Classify(fid, j, CToken(f, t))), Goto(s, pid, Classify(fid, j, CSeen(f, t))));
    SpentGetsVerdict(s, pid, ch, c, f, t, a);
  }

  lemma SpentGetsVerdict(s: State, pid: nat, ch: Choice, c: RefreshClaims, f: Family, t: TokenRecord, a: State)
    requires SpentIn(s.db, c) && f == s.db.families[c.familyId] && t == s.db.tokens[c.jti]
    requires StepsTo(a, pid, ch, 3, Goto(s, pid, Classify(c.familyId, c.jti, CSeen(f, t))))
    ensures StepsTo(a, pid, ch, 4, Goto(s, pid, if Benign(f, t, s.now, s.grace) then Done(Replayed)
                                                else Revoke(c.familyId, RefreshReuse, VStart)))
  {
    var next := if Benign(f, t, s.now, s.grace) then Done(Replayed) else Revoke(c.familyId, RefreshReuse, VStart);
    ClassifyMoves(s, pid, ch, c.familyId, c.jti, CSeen(f, t), next);
    OneMore(a, pid, ch, 3, Goto(s, pid, Classify(c.familyId, c.jti, CSeen(f, t))), Goto(s, pid, next));
  }

  /** Presenting a spent token leads to its classification, never to a new generation. */
  lemma SpentIsPresented(s: State, pid: nat, ch: Choice, c: RefreshClaims, target: Option<Project>)
    requires SpentIn(s.db, c)
    ensures StepsTo(Goto(s, pid, Rotate(c, target, RStart)), pid, ch, 4,
                    Goto(s, pid, Classify(c.familyId, c.jti, CStart)))
  {
    var f, t := s.db.families[c.familyId], s.db.tokens[c.jti];
    var a := Goto(s, pid, Rotate(c, target, RStart));
    RotateMoves(s, pid, ch, c, target, RStart, Rotate(c, target, RFamily(f)));
    RotateMoves(s, pid, ch, c, target, RFamily(f), Rotate(c, target, RToken(f, t)));
    OneMore(a, pid, ch, 1, Goto(s, pid, Rotate(c, target, RFamily(f))), Goto(s, pid, Rotate(c, target, RToken(f, t))));
    RotateMoves(s, pid, ch, c, target, RToken(f, t), Rotate(c, target, RSeen(f, t)));
    OneMore(a, pid, ch, 2, Goto(s, pid, Rotate(c, target, RToken(f, t))), Goto(s, pid, Rotate(c, target, RSeen(f, t))));
    RotateMoves(s, pid, ch, c, target, RSeen(f, t), Classify(c.familyId, c.jti, CStart));
    OneMore(a, pid, ch, 3, Goto(s, pid, Rotate(c, target, RSeen(f, t))),
            Goto(s, pid, Classify(c.familyId, c.jti, CStart)));
  }

  lemma SpentIsJudged(s: State, pid: nat, ch: Choice, c: RefreshClaims, target: Option<Project>)
    requires pid in s.procs && s.procs[pid] == Rotate(c, target, RStart) && SpentIn(s.db, c)
    ensures var f, t := s.db.families[c.familyId], s.db.tokens[c.jti];
            StepsTo(s, pid, ch, 8, Goto(s, pid, if Benign(f, t, s.now, s.grace) then Done(Replayed)
                                                else Revoke(c.familyId, RefreshReuse, VStart)))
  {
    var f, t := s.db.families[c.familyId], s.db.tokens[c.jti];
    assert Goto(s, pid, Rotate(c, target, RStart)) == s by { assert s.procs[pid := s.procs[pid]] == s.procs; }
    SpentIsPresented(s, pid, ch, c, target);
    SpentIsClassified(s, pid, ch, c);
    StepsCompose(s, pid, ch, 4, Goto(s, pid, Classify(c.familyId, c.jti, CStart)), 4,
                 Goto(s, pid, if Benign(f, t, s.now, s.grace) then Done(Replayed)
                              else Revoke(c.familyId, RefreshReuse, VStart)));
  }

  /** Replay classification in the protocol, in terms of what was issued.  From every reachable state,
      an undisturbed presentation of a spent, stored token of a live family changes nothing, and says
      so, exactly if the token's successor is the current one and was issued within the grace window;
      otherwise it ends with the family reused, tombstoned and without anchor. */
  lemma UndisturbedReplay(s: State, pid: nat, ch: Choice, c: RefreshClaims, target: Option<Project>)
    requires Reachable(s) && pid in s.procs && s.procs[pid] == Rotate(c, target, RStart)
    requires c.jti in s.hist && s.hist[c.jti].refresh == c && c.jti in s.db.tokens && LiveIn(s.db, s.hist[c.jti].fid)
    requires HistInv(s) && Spent(s, c.jti)
    ensures c.familyId in s.db.families && s.db.families[c.familyId].body.Some?
    ensures var child, cur := Child(s, c.jti), s.db.families[c.familyId].body.value.currentRefresh;
            if s.grace > 0 && child.refresh.jti == cur && s.now <= child.at + s.grace * SECOND
            then StepsTo(s, pid, ch, 8, Goto(s, pid, Done(Replayed)))
            else EndsBarred(s, pid, ch, 12, c.familyId, RefreshReuse)
  {
    ReachableInv(s);
    SpentIsBenignWhen(s, c.jti);
    SpentIsJudged(s, pid, ch, c, target);
    var f, t := s.db.families[c.familyId], s.db.tokens[c.jti];
    if !Benign(f, t, s.now, s.grace) { GoesOnToRevoke(s, pid, ch, 8, c.familyId, RefreshReuse); }
  }

  // ----- denials --------------------------------------------------------------------

  /** A rotation that the database denies revokes its family. */
  lemma DeniedRotationRevokes(s: State, pid: nat, ch: Choice)
    requires pid in s.procs && ch.denied && s.procs[pid].Rotate? && s.procs[pid].rpc.RContext?
    ensures EndsBarred(s, pid, ch, 5, s.procs[pid].c.familyId, OtherReason(1))
  {
    var c := s.procs[pid].c;
    var next := Goto(s, pid, Revoke(c.familyId, OtherReason(1), VStart));
    assert Enabled(s, Step(pid, ch)) && Apply(s, Step(pid, ch)) == next;
    IterateNext(StepOf(pid, ch), 0, s, s, next);
    GoesOnToRevoke(s, pid, ch, 1, c.familyId, OtherReason(1));
  }

  /** So does a validation of an otherwise valid token. */
  lemma DeniedValidationRevokes(s: State, pid: nat, ch: Choice, a: AccessClaims, se: Session, f: Family)
    requires pid in s.procs && s.procs[pid] == Validate(a, ASeen(se, f)) && ch.denied
    requires f.Live() && a.familyId !in s.db.tombs && FamilyMatches(f, a.jti, se)
    ensures EndsBarred(s, pid, ch, 5, a.familyId, OtherReason(2))
  {
    assert Goto(s, pid, s.procs[pid]) == s by { assert s.procs[pid := s.procs[pid]] == s.procs; }
    ValidateMoves(s, pid, ch, a, ASeen(se, f), Revoke(a.familyId, OtherReason(2), VStart));
    GoesOnToRevoke(s, pid, ch, 1, a.familyId, OtherReason(2));
  }

  /** And an authorization whose session is bound and unexpired. */
  lemma DeniedAuthorizationRevokes(s: State, pid: nat, ch: Choice, r: Authorization, tries: nat, snap: Snapshot,
                                   f: Family, se: Session)
    requires pid in s.procs && s.procs[pid] == OAuth(r, tries, OSession(snap, f, Some(se))) && ch.denied
    requires Find(s.db.families, r.familyId) == Some(f) && BoundTo(r, f, se) && Unexpired(f, se, s.now)
    ensures EndsBarred(s, pid, ch, 5, r.familyId, OtherReason(3))
  {
    assert Goto(s, pid, s.procs[pid]) == s by { assert s.procs[pid := s.procs[pid]] == s.procs; }
    OAuthMoves(s, pid, ch, r, tries, OSession(snap, f, Some(se)), Revoke(r.familyId, OtherReason(3), VStart));
    GoesOnToRevoke(s, pid, ch, 1, r.familyId, OtherReason(3));
  }

  /** A current token with neither session nor anchor to rebuild its context from costs the family. */
  lemma MissingContextRevokes(s: State, pid: nat, ch: Choice, c: RefreshClaims, target: Option<Project>)
    requires pid in s.procs && s.procs[pid] == Rotate(c, target, RStart) && PresentedCurrent(s.db, c)
    requires s.db.families[c.familyId].body.value.currentAccess !in s.db.sessions && c.familyId !in s.db.anchors
    ensures EndsBarred(s, pid, ch, 10, c.familyId, OtherReason(0))
  {
    var f, t := s.db.families[c.familyId], s.db.tokens[c.jti];
    assert Goto(s, pid, Rotate(c, target, RStart)) == s by { assert s.procs[pid := s.procs[pid]] == s.procs; }
    ReadsCurrent(s, pid, c, target, ch, f, t);
    RotateMoves(s, pid, ch, c, target, RCurrent(f, t), Rotate(c, target, RSession(f, t, None)));
    OneMore(s, pid, ch, 4, Goto(s, pid, Rotate(c, target, RCurrent(f, t))),
            Goto(s, pid, Rotate(c, target, RSession(f, t, None))));
    RotateMoves(s, pid, ch, c, target, RSession(f, t, None), Revoke(c.familyId, OtherReason(0), VStart));
    OneMore(s, pid, ch, 5, Goto(s, pid, Rotate(c, target, RSession(f, t, None))),
            Goto(s, pid, Revoke(c.familyId, OtherReason(0), VStart)));
    GoesOnToRevoke(s, pid, ch, 6, c.familyId, OtherReason(0));
  }

  // ----- validation -----------------------------------------------------------------

  /** Undisturbed and not denied, a valid access token is admitted after four steps. */
  lemma UndisturbedValidationAdmits(s: State, pid: nat, ch: Choice, a: AccessClaims)
    requires pid in s.procs && s.procs[pid] == Validate(a, AStart) && AccessValid(s.db, a) && !ch.denied
    ensures StepsTo(s, pid, ch, 4, Goto(s, pid, Done(Validated(a))))
  {
    var se, f := s.db.sessions[a.jti], s.db.families[a.familyId];
    assert Goto(s, pid, Validate(a, AStart)) == s by { assert s.procs[pid := s.procs[pid]] == s.procs; }
    ValidateMoves(s, pid, ch, a, AStart, Validate(a, ASession(se)));
    ValidateMoves(s, pid, ch, a, ASession(se), Validate(a, AFamily(se, f)));
    OneMore(s, pid, ch, 1, Goto(s, pid, Validate(a, ASession(se))), Goto(s, pid, Validate(a, AFamily(se, f))));
    ValidateMoves(s, pid, ch, a, AFamily(se, f), Validate(a, ASeen(se, f)));
    OneMore(s, pid, ch, 2, Goto(s, pid, Validate(a, AFamily(se, f))), Goto(s, pid, Validate(a, ASeen(se, f))));
    ValidateMoves(s, pid, ch, a, ASeen(se, f), Done(Validated(a)));
    OneMore(s, pid, ch, 3, Goto(s, pid, Validate(a, ASeen(se, f))), Goto(s, pid, Done(Validated(a))));
  }

  // ----- session-bound authorization ------------------------------------------------

  /** The session an authorization recorded is still the current one of a live, unexpired family. */
  predicate StillBound(db: Store, r: Authorization, now: nat) {
    && LiveIn(db, r.familyId) && r.familyId !in db.tombs
    && var f := db.families[r.familyId];
    && f.body.value.currentAccess in db.sessions
    && var se := db.sessions[f.body.value.currentAccess];
    && BoundTo(r, f, se) && f.body.value.expiresAt > now && se.expiresAt.Some? && se.expiresAt.value > now
  }

  /** The last look at the session goes on to the EXEC exactly if the pointer still stands, the session
      is bound, and neither family nor session has expired; a moved pointer is tried again. */
  lemma SessionLookDecides(s: State, r: Authorization, tries: nat, snap: Snapshot, f: Family, os: Option<Session>,
                           ch: Choice)
    requires f.Live()
    ensures var p := OAuthStep(s, r, tries, OSession(snap, f, os), ch);
            && (p.OAuth? && p.opc.OReady? <==>
                  && Find(s.db.families, r.familyId) == Some(f) && os.Some? && BoundTo(r, f, os.value)
                  && f.body.value.expiresAt > s.now && os.value.expiresAt.Some? && os.value.expiresAt.value > s.now
                  && !ch.denied)
            && (Find(s.db.families, r.familyId) != Some(f) ==>
                  p == if tries <= 1 then Done(Refused) else OAuth(r, tries - 1, OStart))
  {
  }

  /** A failed EXEC is tried again, three attempts in all. */
  lemma FailedAuthorizationRetries(s: State, r: Authorization, tries: nat, snap: Snapshot, f: Family, se: Session,
                                   ch: Choice)
    requires !Unmoved(s, snap)
    ensures OAuthStep(s, r, tries, OReady(snap, f, se), ch) ==
              if tries <= 1 then Done(Refused) else OAuth(r, tries - 1, OStart)
  {
  }

  function FirstSnap(s: State, fid: Id): Snapshot {
    Snap(s, {FamilyKey(fid), TombKey(fid)})
  }

  function FullSnap(s: State, fid: Id, access: Id): Snapshot {
    FirstSnap(s, fid) + Snap(s, {SessionKey(access)})
  }

  lemma SnapsAgree(s: State, pid: nat, p: Proc, keys: set<Key>)
    ensures Snap(Goto(s, pid, p), keys) == Snap(s, keys)
  {
  }

  lemma AuthorizationReadsFamily(s: State, pid: nat, ch: Choice, r: Authorization, tries: nat)
    requires LiveIn(s.db, r.familyId) && r.familyId !in s.db.tombs
    ensures var f, snap := s.db.families[r.familyId], FirstSnap(s, r.familyId);
            StepsTo(Goto(s, pid, OAuth(r, tries, OStart)), pid, ch, 3, Goto(s, pid, OAuth(r, tries, OClear(snap, f))))
  {
    var f, snap := s.db.families[r.familyId], FirstSnap(s, r.familyId);
    var a := Goto(s, pid, OAuth(r, tries, OStart));
    SnapsAgree(s, pid, OAuth(r, tries, OStart), {FamilyKey(r.familyId), TombKey(r.familyId)});
    OAuthMoves(s, pid, ch, r, tries, OStart, OAuth(r, tries, OWatched(snap)));
    OAuthMoves(s, pid, ch, r, tries, OWatched(snap), OAuth(r, tries, OFamily(snap, f)));
    OneMore(a, pid, ch, 1, Goto(s, pid, OAuth(r, tries, OWatched(snap))),
            Goto(s, pid, OAuth(r, tries, OFamily(snap, f))));
    OAuthMoves(s, pid, ch, r, tries, OFamily(snap, f), OAuth(r, tries, OClear(snap, f)));
    OneMore(a, pid, ch, 2, Goto(s, pid, OAuth(r, tries, OFamily(snap, f))),
            Goto(s, pid, OAuth(r, tries, OClear(snap, f))));
  }

  lemma AuthorizationReadsSession(s: State, pid: nat, ch: Choice, r: Authorization, tries: nat, f: Family)
    requires f.Live()
    ensures var x := f.body.value.currentAccess;
            StepsTo(Goto(s, pid, OAuth(r, tries, OClear(FirstSnap(s, r.familyId), f))), pid, ch, 2,
                    Goto(s, pid, OAuth(r, tries, OSession(FullSnap(s, r.familyId, x), f, Find(s.db.sessions, x)))))
  {
    var x := f.body.value.currentAccess;
    var first, full := FirstSnap(s, r.familyId), FullSnap(s, r.familyId, x);
    SnapsAgree(s, pid, OAuth(r, tries, OClear(first, f)), {SessionKey(x)});
    OAuthMoves(s, pid, ch, r, tries, OClear(first, f), OAuth(r, tries, OWatchedSession(full, f)));
    OAuthMoves(s, pid, ch, r, tries, OWatchedSession(full, f),
               OAuth(r, tries, OSession(full, f, Find(s.db.sessions, x))));
    OneMore(Goto(s, pid, OAuth(r, tries, OClear(first, f))), pid, ch, 1,
            Goto(s, pid, OAuth(r, tries, OWatchedSession(full, f))),
            Goto(s, pid, OAuth(r, tries, OSession(full, f, Find(s.db.sessions, x)))));
  }

  lemma AuthorizationExecutes(s: State, pid: nat, ch: Choice, r: Authorization, tries: nat)
    requires StillBound(s.db, r, s.now) && !ch.denied
    ensures var f := s.db.families[r.familyId];
            var x := f.body.value.currentAccess;
            StepsTo(Goto(s, pid, OAuth(r, tries, OSession(FullSnap(s, r.familyId, x), f, Find(s.db.sessions, x)))),
                    pid, ch, 2,
                    Goto(s, pid, Done(Authorized(r))))
  {
    var f := s.db.families[r.familyId];
    var x := f.body.value.currentAccess;
    var full, se := FullSnap(s, r.familyId, x), s.db.sessions[x];
    var a := Goto(s, pid, OAuth(r, tries, OSession(full, f, Some(se))));
    OAuthMoves(s, pid, ch, r, tries, OSession(full, f, Some(se)), OAuth(r, tries, OReady(full, f, se)));
    assert Unmoved(Goto(s, pid, OAuth(r, tries, OReady(full, f, se))), full);
    OAuthMoves(s, pid, ch, r, tries, OReady(full, f, se), Done(Authorized(r)));
    OneMore(a, pid, ch, 1, Goto(s, pid, OAuth(r, tries, OReady(full, f, se))), Goto(s, pid, Done(Authorized(r))));
  }

  /** Undisturbed, granted, bound and unexpired, an authorization completes after seven steps. */
  lemma UndisturbedAuthorizationCompletes(s: State, pid: nat, ch: Choice, r: Authorization, tries: nat)
    requires pid in s.procs && s.procs[pid] == OAuth(r, tries, OStart) && StillBound(s.db, r, s.now) && !ch.denied
    ensures StepsTo(s, pid, ch, 7, Goto(s, pid, Done(Authorized(r))))
  {
    var f := s.db.families[r.familyId];
    var x := f.body.value.currentAccess;
    var clear := Goto(s, pid, OAuth(r, tries, OClear(FirstSnap(s, r.familyId), f)));
    var look := Goto(s, pid, OAuth(r, tries, OSession(FullSnap(s, r.familyId, x), f, Find(s.db.sessions, x))));
    assert Goto(s, pid, OAuth(r, tries, OStart)) == s by { assert s.procs[pid := s.procs[pid]] == s.procs; }
    AuthorizationReadsFamily(s, pid, ch, r, tries);
    AuthorizationReadsSession(s, pid, ch, r, tries, f);
    AuthorizationExecutes(s, pid, ch, r, tries);
    StepsCompose(s, pid, ch, 3, clear, 2, look);
    StepsCompose(s, pid, ch, 5, look, 2, Goto(s, pid, Done(Authorized(r))));
  }
}
