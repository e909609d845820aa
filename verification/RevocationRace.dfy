/** The one thing a revocation does not stop: a validation that has read the live family already.
    When exactly such a validation still completes, and that the race is real. */
module RevocationRace {
  import opened Prelude
  import opened TokenFamily
  import opened RotationProtocol
  import opened RotationInvariant
  import opened RotationPreservation
  import opened RotationTheorems
  import opened AuthStore

  // ----- when it completes ----------------------------------------------------------

  /** The last step of a validation admits its token exactly if the copy it holds was live, no
      tombstone is there yet, the copy matches the session and the database does not object. */
  lemma LastStepDecides(s: State, pid: nat, a: AccessClaims, se: Session, f: Family, ch: Choice)
    requires pid in s.procs && s.procs[pid] == Validate(a, ASeen(se, f))
    ensures ProcStep(s, pid, ch).procs[pid] == Done(Validated(a)) <==>
              f.Live() && a.familyId !in s.db.tombs && FamilyMatches(f, a.jti, se) && !ch.denied
  {
    StepShape(s, pid, ch);
  }

  /** The step before it turns the token away exactly while a record that is not active is stored. */
  lemma SecondLookDecides(s: State, pid: nat, a: AccessClaims, se: Session, f: Family, ch: Choice)
    requires pid in s.procs && s.procs[pid] == Validate(a, AFamily(se, f))
    ensures ProcStep(s, pid, ch).procs[pid] ==
              if a.familyId in s.db.families && s.db.families[a.familyId].status != Active
              then Done(Refused) else Validate(a, ASeen(se, f))
  {
    StepShape(s, pid, ch);
  }

  /** So in any reachable state a validation that has read the family but not looked again is refused
      as long as the revoked record is stored. */
  lemma RefusedWhileRecorded(s: State, pid: nat, a: AccessClaims, se: Session, f: Family, ch: Choice)
    requires Reachable(s) && pid in s.procs && s.procs[pid] == Validate(a, AFamily(se, f))
    requires Dead(s, a.familyId) && a.familyId in s.db.families
    ensures ProcStep(s, pid, ch).procs[pid] == Done(Refused)
  {
    ReachableInv(s);
    assert FamilyOK(s, a.familyId);
    SecondLookDecides(s, pid, a, se, f, ch);
  }

  /** A validation in flight when the revoked record is written: with only its last look ahead it
      still completes exactly if the tombstone is not there yet and it would have completed anyway;
      one look earlier it is refused. */
  lemma InFlightOutcome(s: State, rid: nat, fid: Id, reason: Reason, copy: Option<Family>, rch: Choice,
                        vid: nat, a: AccessClaims, pc: ValidatePc, ch: Choice)
    requires Reachable(s) && rid in s.procs && s.procs[rid] == Revoke(fid, reason, VRead(copy))
    requires vid in s.procs && s.procs[vid] == Validate(a, pc) && a.familyId == fid
    ensures var t := ProcStep(s, rid, rch);
            && Dead(t, fid) && vid in t.procs && !t.procs[vid].Done?
            && (pc.ASeen? ==>
                  (ProcStep(t, vid, ch).procs[vid] == Done(Validated(a)) <==>
                     pc.f.Live() && fid !in s.db.tombs && FamilyMatches(pc.f, a.jti, pc.s) && !ch.denied))
            && (!pc.ASeen? ==> ProcStep(t, vid, ch).procs[vid] != Done(Validated(a)))
            && (pc.AFamily? ==> ProcStep(t, vid, ch).procs[vid] == Done(Refused))
  {
    var t := ProcStep(s, rid, rch);
    ReachableInv(s);
    assert ProcOK(s, rid, s.procs[rid]);
    StepShape(s, rid, rch);
    WriteChangesOneRecord(s, rid, fid, reason, copy);
    StepShape(t, vid, ch);
    if pc.ASeen? {
      LastStepDecides(t, vid, a, pc.s, pc.f, ch);
    } else if pc.AFamily? {
      SecondLookDecides(t, vid, a, pc.s, pc.f, ch);
    }
  }

  lemma WriteChangesOneRecord(s: State, rid: nat, fid: Id, reason: Reason, copy: Option<Family>)
    ensures var t := RevokeStep(s, rid, fid, reason, VRead(copy));
            && t.spine == s.spine && t.db.tombs == s.db.tombs
            && fid in t.db.families && t.db.families[fid].status != Active && !LiveIn(t.db, fid)
  {
  }

  // ----- the race is real -----------------------------------------------------------

  lemma {:induction false} RunExtends(s: State, acts: seq<Action>, t: State, a: Action)
    requires Run(s, acts, t) && Enabled(t, a)
    ensures Run(s, acts + [a], Apply(t, a))
    decreases |acts|
  {
    if acts == [] {
      assert ([] + [a])[1..] == [];
    } else {
      RunExtends(Apply(s, acts[0]), acts[1..], t, a);
      assert (acts + [a])[1..] == acts[1..] + [a];
    }
  }

  lemma ReachableStep(s: State, a: Action)
    requires Reachable(s) && Enabled(s, a)
    ensures Reachable(Apply(s, a))
  {
    var i, acts :| Initial(i) && Run(i, acts, s);
    RunExtends(i, acts, s, a);
  }

  lemma Starts(s: State, pid: nat, p: Proc)
    requires Reachable(s) && pid !in s.procs && MayStart(s, p)
    ensures Reachable(Goto(s, pid, p))
  {
    ReachableStep(s, Start(pid, p));
  }

  lemma ValidationGoesOn(s: State, pid: nat, a: AccessClaims, pc: ValidatePc, next: ValidatePc, ch: Choice)
    requires Reachable(s) && pid in s.procs && s.procs[pid] == Validate(a, pc)
    requires ValidateStep(s, a, pc, ch) == Validate(a, next)
    ensures Reachable(Goto(s, pid, Validate(a, next)))
  {
    ReachableStep(s, Step(pid, ch));
  }

  lemma RevocationReads(s: State, pid: nat, fid: Id, reason: Reason, ch: Choice)
    requires Reachable(s) && pid in s.procs && s.procs[pid] == Revoke(fid, reason, VStart)
    ensures Reachable(Goto(s, pid, Revoke(fid, reason, VRead(Find(s.db.families, fid)))))
  {
    ReachableStep(s, Step(pid, ch));
  }

  /** From every reachable state, a valid access token's validation can get to its last look. */
  lemma ValidationGetsToLastLook(s: State, vid: nat, a: AccessClaims, ch: Choice) returns (t: State)
    requires Reachable(s) && AccessValid(s.db, a) && vid !in s.procs
    ensures Reachable(t) && t.db == s.db && t.spine == s.spine
    ensures t.procs == s.procs[vid := Validate(a, ASeen(s.db.sessions[a.jti], s.db.families[a.familyId]))]
  {
    var se, f := s.db.sessions[a.jti], s.db.families[a.familyId];
    t := Goto(s, vid, Validate(a, AStart));
    Starts(s, vid, Validate(a, AStart));
    ValidationGoesOn(t, vid, a, AStart, ASession(se), ch);
    t := Goto(t, vid, Validate(a, ASession(se)));
    ValidationGoesOn(t, vid, a, ASession(se), AFamily(se, f), ch);
    t := Goto(t, vid, Validate(a, AFamily(se, f)));
    ValidationGoesOn(t, vid, a, AFamily(se, f), ASeen(se, f), ch);
    t := Goto(t, vid, Validate(a, ASeen(se, f)));
  }

  /** From every reachable state in which an access token is valid, its family can be revoked and the
      token still be admitted right after the revoked record is written. */
  lemma ValidTokenCanOutrunRevocation(s: State, vid: nat, rid: nat, a: AccessClaims, reason: Reason, ch: Choice)
    returns (t: State, written: State, end: State)
    requires Reachable(s) && AccessValid(s.db, a) && vid !in s.procs && rid !in s.procs && vid != rid
    requires a.familyId in s.spine && !ch.denied
    ensures Reachable(t) && rid in t.procs
    ensures t.procs[rid] == Revoke(a.familyId, reason, VRead(Find(t.db.families, a.familyId)))
    ensures written == ProcStep(t, rid, ch) && Dead(written, a.familyId)
    ensures vid in written.procs && !written.procs[vid].Done? && end == ProcStep(written, vid, ch)
    ensures vid in end.procs && end.procs[vid] == Done(Validated(a))
  {
    var fid := a.familyId;
    var u := ValidationGetsToLastLook(s, vid, a, ch);
    t := RevocationGetsToWrite(u, rid, fid, reason, ch);
    var pc := ASeen(s.db.sessions[a.jti], s.db.families[fid]);
    InFlightOutcome(t, rid, fid, reason, Find(t.db.families, fid), ch, vid, a, pc, ch);
    written := ProcStep(t, rid, ch);
    end := ProcStep(written, vid, ch);
    StepShape(written, vid, ch);
  }

  lemma RevocationGetsToWrite(s: State, rid: nat, fid: Id, reason: Reason, ch: Choice) returns (t: State)
    requires Reachable(s) && rid !in s.procs && fid in s.spine
    ensures Reachable(t) && t.db == s.db
    ensures t.procs == s.procs[rid := Revoke(fid, reason, VRead(Find(s.db.families, fid)))]
  {
    Starts(s, rid, Revoke(fid, reason, VStart));
    t := Goto(s, rid, Revoke(fid, reason, VStart));
    RevocationReads(t, rid, fid, reason, ch);
    t := Goto(t, rid, Revoke(fid, reason, VRead(Find(s.db.families, fid))));
  }

  /** What a sign-in issues is valid at once. */
  lemma IssuedIsValid(db: Store, g: Gen)
    requires Coherent(g) && g.fid !in db.tombs
    ensures AccessValid(Issue(db, g), g.access)
  {
  }

  /** Such a state exists: right after a platform sign-in. */
  lemma RaceExists() returns (s: State, a: AccessClaims)
    ensures Reachable(s) && AccessValid(s.db, a) && a.familyId in s.spine && s.procs == map[]
  {
    var user := User(1, 2, 3, 4);
    var start := State(EMPTY_STORE, map[], SECOND, 0, map[], map[], map[], map[], map[]);
    var signIn := SignInAs(user, None, false, 10, 11, 12, 13);
    var g := SignIn(user, None, false, SECOND, 10, 11, 12, 13);
    assert Initial(start) && Run(start, [], start);
    assert Enabled(start, signIn);
    ReachableStep(start, signIn);
    SignInIsCoherent(user, None, false, SECOND, 10, 11, 12, 13);
    IssuedIsValid(start.db, g);
    s, a := Apply(start, signIn), g.access;
    SignInLeaves(start, signIn, g);
  }

  lemma SignInLeaves(s: State, a: Action, g: Gen)
    requires a.SignInAs? && Enabled(s, a)
    requires g == SignIn(a.user, a.project, a.remember, s.now, a.fid, a.sid, a.access, a.refresh)
    ensures var t := Apply(s, a); t.db == Issue(s.db, g) && g.access.familyId in t.spine && t.procs == s.procs
  {
  }
}
