/** What an admitted access token must have been: one that was issued, with its session on record, and
    the current one of its live family when the family was read. */
module ValidationSoundness {
  import opened Prelude
  import opened TokenFamily
  import opened TokenMatching
  import opened RotationProtocol
  import opened RotationInvariant
  import opened RotationPreservation
  import opened RotationTheorems

  /** The presented claims agree with the issued ones on everything but their times. */
  predicate SameToken(a: AccessClaims, b: AccessClaims) {
    && a.jti == b.jti && a.familyId == b.familyId && a.sessionId == b.sessionId && a.userHash == b.userHash
    && a.scope == b.scope && a.collection == b.collection
  }

  /** Generation `j` issued this token with this session. */
  ghost predicate IssuedBy(s: State, a: AccessClaims, se: Session, j: Id) {
    j in s.hist && s.hist[j].session == se && SameToken(a, s.hist[j].access)
  }

  ghost predicate WasIssued(s: State, a: AccessClaims, se: Session) {
    exists j :: IssuedBy(s, a, se, j)
  }

  /** The family copy is that of a recorded generation. */
  ghost predicate WasCurrent(s: State, f: Family) {
    f.Live() ==> exists j :: j in s.hist && s.hist[j].family == f
  }

  ghost predicate SoundOK(s: State, p: Proc) {
    && (p.Validate? && !p.apc.AStart? ==> WasIssued(s, p.a, p.apc.s))
    && (p.Validate? && (p.apc.AFamily? || p.apc.ASeen?) ==> WasCurrent(s, p.apc.f))
    && (p.Done? && p.outcome.Validated? ==> exists se :: WasIssued(s, p.outcome.claims, se))
  }

  ghost predicate AllSound(s: State) {
    forall pid | pid in s.procs :: SoundOK(s, s.procs[pid])
  }

  lemma SoundIsStable(s: State, t: State, p: Proc)
    requires Advances(s, t) && SoundOK(s, p)
    ensures SoundOK(t, p)
  {
    forall a, se | WasIssued(s, a, se) ensures WasIssued(t, a, se) {
      var j :| IssuedBy(s, a, se, j);
      assert IssuedBy(t, a, se, j);
    }
    forall f | WasCurrent(s, f) ensures WasCurrent(t, f) {
    }
  }

  /** A stored session accepted for the claims is that of the token they name. */
  lemma StoredSessionWasIssued(s: State, a: AccessClaims)
    requires HistInv(s) && StoreInv(s) && ContentInv(s) && a.jti in s.db.sessions
    requires AccessClaimsMatch(a, s.db.sessions[a.jti])
    ensures WasIssued(s, a, s.db.sessions[a.jti])
  {
    assert SessionOK(s, a.jti);
    var j := s.byAccess[a.jti];
    assert ContentOK(s, j);
    AccessMatchesItsOwn(s.hist[j], a);
    assert IssuedBy(s, a, s.db.sessions[a.jti], j);
  }

  lemma StoredFamilyWasCurrent(s: State, fid: Id)
    requires HistInv(s) && StoreInv(s) && LiveIn(s.db, fid)
    ensures WasCurrent(s, s.db.families[fid])
  {
    assert FamilyOK(s, fid) && LiveOK(s, fid) && LineOK(s, fid);
  }

  lemma ValidateKeepsSound(s: State, a: AccessClaims, pc: ValidatePc, ch: Choice)
    requires HistInv(s) && StoreInv(s) && ContentInv(s) && SoundOK(s, Validate(a, pc))
    ensures SoundOK(s, ValidateStep(s, a, pc, ch))
  {
    if a.jti in s.db.sessions && AccessClaimsMatch(a, s.db.sessions[a.jti]) { StoredSessionWasIssued(s, a); }
    if LiveIn(s.db, a.familyId) { StoredFamilyWasCurrent(s, a.familyId); }
    LooksKeepSound(s, a, pc, ch);
  }

  lemma LooksKeepSound(s: State, a: AccessClaims, pc: ValidatePc, ch: Choice)
    requires SoundOK(s, Validate(a, pc))
    requires a.jti in s.db.sessions && AccessClaimsMatch(a, s.db.sessions[a.jti]) ==>
               WasIssued(s, a, s.db.sessions[a.jti])
    requires LiveIn(s.db, a.familyId) ==> WasCurrent(s, s.db.families[a.familyId])
    ensures SoundOK(s, ValidateStep(s, a, pc, ch))
  {
  }

  lemma StepKeepsSound(s: State, pid: nat, ch: Choice)
    requires Inv(s) && AllSound(s) && pid in s.procs && !s.procs[pid].Done?
    ensures var t := ProcStep(s, pid, ch); pid in t.procs && SoundOK(s, t.procs[pid])
  {
    StepShape(s, pid, ch);
    if s.procs[pid].Validate? { ValidateKeepsSound(s, s.procs[pid].a, s.procs[pid].apc, ch); }
  }

  lemma ApplyKeepsSound(s: State, a: Action)
    requires Inv(s) && AllSound(s) && Enabled(s, a)
    ensures AllSound(Apply(s, a))
  {
    var t := Apply(s, a);
    ApplyKeepsInv(s, a);
    if a.Step? { StepShape(s, a.pid, a.ch); StepKeepsSound(s, a.pid, a.ch); }
    forall pid | pid in t.procs ensures SoundOK(t, t.procs[pid]) {
      if a.Step? && pid == a.pid {
        SoundIsStable(s, t, t.procs[pid]);
      } else if pid in s.procs {
        OthersStandStill(s, a, pid);
        SoundIsStable(s, t, t.procs[pid]);
      }
    }
  }

  lemma {:induction false} RunKeepsSound(s: State, acts: seq<Action>, t: State)
    requires Inv(s) && AllSound(s) && Run(s, acts, t)
    ensures AllSound(t)
    decreases |acts|
  {
    if acts != [] {
      ApplyKeepsInv(s, acts[0]);
      ApplyKeepsSound(s, acts[0]);
      RunKeepsSound(Apply(s, acts[0]), acts[1..], t);
    }
  }

  lemma ReachableSound(t: State)
    requires Reachable(t)
    ensures AllSound(t)
  {
    var s: State, acts: seq<Action> :| Initial(s) && Run(s, acts, t);
    RunKeepsSound(s, acts, t);
  }

  /** In every run, whatever claims a validation admits are those of an issued access token. */
  lemma AdmittedTokensWereIssued(s: State, pid: nat, a: AccessClaims)
    requires Reachable(s) && pid in s.procs && s.procs[pid] == Done(Validated(a))
    ensures exists j :: j in s.hist && SameToken(a, s.hist[j].access)
  {
    ReachableSound(s);
    assert SoundOK(s, s.procs[pid]);
    var se :| WasIssued(s, a, se);
    var j :| IssuedBy(s, a, se, j);
  }

  /** And the validation that admits them had read the live family of the very generation that issued
      them: the token was then the current one. */
  lemma AdmittedTokensWereCurrent(s: State, pid: nat, a: AccessClaims, se: Session, f: Family, ch: Choice)
    requires Reachable(s) && pid in s.procs && s.procs[pid] == Validate(a, ASeen(se, f))
    requires ValidateStep(s, a, ASeen(se, f), ch) == Done(Validated(a))
    ensures exists j :: j in s.hist && SameToken(a, s.hist[j].access) &&
                      s.hist[j].session == se && s.hist[j].family == f
  {
    ReachableSound(s);
    ReachableInv(s);
    assert SoundOK(s, s.procs[pid]);
    SameGeneration(s, a, se, f);
  }

  lemma SameGeneration(s: State, a: AccessClaims, se: Session, f: Family)
    requires HistInv(s) && WasIssued(s, a, se) && WasCurrent(s, f) && f.Live() && FamilyMatches(f, a.jti, se)
    ensures exists j :: j in s.hist && SameToken(a, s.hist[j].access) &&
                      s.hist[j].session == se && s.hist[j].family == f
  {
    var j :| IssuedBy(s, a, se, j);
    var k :| k in s.hist && s.hist[k].family == f;
    assert GenOK(s, j) && GenOK(s, k);
    assert s.byAccess[a.jti] == j && s.byAccess[a.jti] == k;
  }
}
