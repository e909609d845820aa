/** What the rotation protocol guarantees in every reachable state and over every run. */
module RotationTheorems {
  import opened Prelude
  import opened TokenFamily
  import opened RotationProtocol
  import opened RotationInvariant
  import opened RotationPreservation

  // ----- revocation is final --------------------------------------------------------

  /** The family was issued and is no longer live: revoked, reused or lapsed. */
  ghost predicate Dead(s: State, fid: Id) {
    fid in s.spine && !LiveIn(s.db, fid)
  }

  /** This program has not read a live value of the family, nor finished on the strength of one. */
  ghost predicate NotAdmitted(p: Proc, fid: Id) {
    && (p.Validate? && p.a.familyId == fid ==> p.apc.AStart? || p.apc.ASession?)
    && (p.Done? && p.outcome.Validated? ==> p.outcome.claims.familyId != fid)
  }

  /** The program has not completed a session-bound authorization of the family. */
  ghost predicate NotAuthorized(p: Proc, fid: Id) {
    p.Done? && p.outcome.Authorized? ==> p.outcome.record.familyId != fid
  }

  /** No rotation, classification or revocation ends as a validation or an authorization. */
  ghost predicate GrantsNothing(p: Proc) {
    !p.Validate? && !p.OAuth? && (p.Done? ==> !p.outcome.Validated? && !p.outcome.Authorized?)
  }

  lemma CommitShape(s: State, pid: nat, c: RefreshClaims, f: Family, r: TokenRecord, g: Gen)
    requires f.body.Some?
    ensures Commit(s, pid, c, f, r, g).procs == s.procs[pid := Done(Rotated(c.jti, g.refresh.jti))]
  {
  }

  lemma BuildShape(s: State, pid: nat, c: RefreshClaims, target: Option<Project>,
                   f: Family, r: TokenRecord, g: Option<Gen>, ch: Choice)
    ensures var t := BuildStep(s, pid, c, target, f, r, g, ch);
            pid in t.procs && t.procs == s.procs[pid := t.procs[pid]] && GrantsNothing(t.procs[pid])
  {
  }

  lemma ExecShape(s: State, pid: nat, ch: Choice)
    requires pid in s.procs && s.procs[pid].Rotate? && s.procs[pid].rpc.RReady?
    ensures var t := ProcStep(s, pid, ch);
            pid in t.procs && t.procs == s.procs[pid := t.procs[pid]] && GrantsNothing(t.procs[pid])
  {
    var c, pc := s.procs[pid].c, s.procs[pid].rpc;
    if pc.f.body.Some? { CommitShape(s, pid, c, pc.f, pc.t, pc.g); }
  }

  lemma RotateShape(s: State, pid: nat, ch: Choice)
    requires pid in s.procs && s.procs[pid].Rotate? && !s.procs[pid].rpc.RReady?
    ensures var t := ProcStep(s, pid, ch);
            pid in t.procs && t.procs == s.procs[pid := t.procs[pid]] && GrantsNothing(t.procs[pid])
  {
    var c, target, pc := s.procs[pid].c, s.procs[pid].target, s.procs[pid].rpc;
    if pc.RContext? {
      BuildShape(s, pid, c, target, pc.f, pc.t, Built(s, c, pc.f, pc.ctx, ch), ch);
    }
  }

  lemma RevokeShape(s: State, pid: nat, fid: Id, reason: Reason, pc: RevokePc)
    ensures var t := RevokeStep(s, pid, fid, reason, pc);
            pid in t.procs && t.procs == s.procs[pid := t.procs[pid]] && GrantsNothing(t.procs[pid])
  {
  }

  /** A step moves only the program that takes it; grants come only from the granting programs. */
  lemma StepShape(s: State, pid: nat, ch: Choice)
    requires pid in s.procs && !s.procs[pid].Done?
    ensures var t, p := ProcStep(s, pid, ch), s.procs[pid];
            && pid in t.procs && t.procs == s.procs[pid := t.procs[pid]]
            && (p.Validate? ==> t.procs[pid] == ValidateStep(s, p.a, p.apc, ch))
            && (p.OAuth? ==> t.procs[pid] == OAuthStep(s, p.record, p.tries, p.opc, ch))
            && (!p.Validate? && !p.OAuth? ==> GrantsNothing(t.procs[pid]))
  {
    match s.procs[pid]
    case Rotate(_, _, pc) => if pc.RReady? { ExecShape(s, pid, ch); } else { RotateShape(s, pid, ch); }
    case Revoke(fid, reason, pc) => RevokeShape(s, pid, fid, reason, pc);
    case Classify(_, _, _) =>
    case Validate(_, _) =>
    case OAuth(_, _, _) =>
  }

  lemma OthersStandStill(s: State, a: Action, pid: nat)
    requires Enabled(s, a) && pid in s.procs && !(a.Step? && a.pid == pid)
    ensures pid in Apply(s, a).procs && Apply(s, a).procs[pid] == s.procs[pid]
  {
    if a.Step? { StepShape(s, a.pid, a.ch); }
  }

  /** A program not yet admitted stays out while the family is dead. */
  lemma LateStaysOut(s: State, a: Action, fid: Id, pid: nat)
    requires Enabled(s, a) && !LiveIn(s.db, fid) && (pid in s.procs ==> NotAdmitted(s.procs[pid], fid))
    ensures pid in Apply(s, a).procs ==> NotAdmitted(Apply(s, a).procs[pid], fid)
  {
    if a.Step? && a.pid == pid {
      StepShape(s, pid, a.ch);
    } else if pid in s.procs {
      OthersStandStill(s, a, pid);
    } else if a.Step? {
      StepShape(s, a.pid, a.ch);
    }
  }

  /** When an OAuth authorization completes, at that EXEC the family is live and not tombstoned,
      and its current session record is bound to everything the transaction recorded. */
  lemma AuthorizedOnlyWhenLive(s: State, pid: nat, ch: Choice)
    requires Inv(s) && pid in s.procs && s.procs[pid].OAuth?
    requires var p := s.procs[pid]; OAuthStep(s, p.record, p.tries, p.opc, ch) == Done(Authorized(p.record))
    ensures var r := s.procs[pid].record;
            && LiveIn(s.db, r.familyId) && r.familyId !in s.db.tombs
            && var f := s.db.families[r.familyId];
            && f.body.value.currentAccess in s.db.sessions
            && BoundTo(r, f, s.db.sessions[f.body.value.currentAccess])
  {
    assert ProcOK(s, pid, s.procs[pid]);
    assert s.procs[pid].opc.OReady?;
  }

  /** The same for every run: no interleaving lets an authorization complete after a revocation. */
  lemma CompletedAuthorizationIsLive(s: State, pid: nat, ch: Choice)
    requires Reachable(s) && pid in s.procs && s.procs[pid].OAuth?
    requires ProcStep(s, pid, ch).procs[pid] == Done(Authorized(s.procs[pid].record))
    ensures var r := s.procs[pid].record;
            && LiveIn(s.db, r.familyId) && r.familyId !in s.db.tombs
            && var f := s.db.families[r.familyId];
            && f.body.value.currentAccess in s.db.sessions
            && BoundTo(r, f, s.db.sessions[f.body.value.currentAccess])
  {
    ReachableInv(s);
    StepShape(s, pid, ch);
    AuthorizedOnlyWhenLive(s, pid, ch);
  }

  lemma LateStaysUnauthorized(s: State, a: Action, fid: Id, pid: nat)
    requires Inv(s) && Enabled(s, a) && !LiveIn(s.db, fid) && (pid in s.procs ==> NotAuthorized(s.procs[pid], fid))
    ensures pid in Apply(s, a).procs ==> NotAuthorized(Apply(s, a).procs[pid], fid)
  {
    if a.Step? && a.pid == pid {
      StepShape(s, pid, a.ch);
      if s.procs[pid].OAuth? && Apply(s, a).procs[pid] == Done(Authorized(s.procs[pid].record)) {
        AuthorizedOnlyWhenLive(s, pid, a.ch);
      }
    } else if pid in s.procs {
      OthersStandStill(s, a, pid);
    } else if a.Step? {
      StepShape(s, a.pid, a.ch);
    }
  }

  /** From a dead family on, over every run: it stays dead, no rotation of it commits, no
      authorization of it completes, and no access token of it is admitted by a validation that
      had not already read the live family. */
  lemma {:induction false} DeadOverRuns(s: State, acts: seq<Action>, t: State, fid: Id, pid: nat)
    requires Inv(s) && Run(s, acts, t) && Dead(s, fid)
    ensures Dead(t, fid) && t.spine[fid] == s.spine[fid]
    ensures (pid in s.procs ==> NotAdmitted(s.procs[pid], fid)) ==> (pid in t.procs ==> NotAdmitted(t.procs[pid], fid))
    ensures (pid in s.procs ==> NotAuthorized(s.procs[pid], fid)) ==>
              (pid in t.procs ==> NotAuthorized(t.procs[pid], fid))
    decreases |acts|
  {
    if acts != [] {
      ApplyKeepsInv(s, acts[0]);
      if pid in s.procs ==> NotAdmitted(s.procs[pid], fid) { LateStaysOut(s, acts[0], fid, pid); }
      if pid in s.procs ==> NotAuthorized(s.procs[pid], fid) { LateStaysUnauthorized(s, acts[0], fid, pid); }
      DeadOverRuns(Apply(s, acts[0]), acts[1..], t, fid, pid);
    }
  }

  /** Revocation is final.  Once a revocation has written the family record, whatever interleaves
      before or after and whatever lapses later: the family never lives again, no rotation of it
      commits, no OAuth authorization of it completes, and no validation admits one of its access
      tokens, except one that had read the live family before the write. */
  lemma RevocationIsFinal(s: State, rid: nat, fid: Id, reason: Reason, copy: Option<Family>, ch: Choice,
                          acts: seq<Action>, t: State, pid: nat)
    requires Reachable(s) && rid in s.procs && s.procs[rid] == Revoke(fid, reason, VRead(copy))
    requires Run(s, [Step(rid, ch)] + acts, t)
    ensures fid in s.spine && Dead(t, fid) && t.spine[fid] == s.spine[fid]
    ensures (pid in s.procs ==> NotAdmitted(s.procs[pid], fid)) ==> (pid in t.procs ==> NotAdmitted(t.procs[pid], fid))
    ensures pid in t.procs && (pid in s.procs ==> NotAuthorized(s.procs[pid], fid)) ==> NotAuthorized(t.procs[pid], fid)
  {
    ReachableInv(s);
    var a := Step(rid, ch);
    var s1 := Apply(s, a);
    assert ([a] + acts)[1..] == acts;
    ApplyKeepsInv(s, a);
    StepShape(s, rid, ch);
    assert ProcOK(s, rid, s.procs[rid]);
    RevokedCopyIsDead(s, rid, fid, reason, copy);
    if pid in s.procs && pid != rid { OthersStandStill(s, a, pid); }
    DeadOverRuns(s1, acts, t, fid, pid);
  }

  lemma RevokedCopyIsDead(s: State, rid: nat, fid: Id, reason: Reason, copy: Option<Family>)
    ensures var t := RevokeStep(s, rid, fid, reason, VRead(copy)); !LiveIn(t.db, fid) && t.spine == s.spine
  {
  }

  // ----- single use and linear history ----------------------------------------------

  /** A live family has exactly one current token record, the one it names; every other token
      record of the family is used and in its used set. */
  lemma SingleCurrentToken(s: State, fid: Id)
    requires Reachable(s) && LiveIn(s.db, fid)
    ensures var cur := s.db.families[fid].body.value.currentRefresh;
            && cur in s.db.tokens && s.db.tokens[cur].familyId == fid && s.db.tokens[cur].status == Current
            && forall j | j in s.db.tokens && s.db.tokens[j].familyId == fid && j != cur ::
                 s.db.tokens[j].status == Used && j in Members(s.db.used, fid)
  {
    ReachableInv(s);
    LiveTokenIsCurrent(s, fid);
    var cur := s.db.families[fid].body.value.currentRefresh;
    forall j | j in s.db.tokens && s.db.tokens[j].familyId == fid && j != cur
      ensures s.db.tokens[j].status == Used && j in Members(s.db.used, fid)
    {
      OtherTokenIsUsed(s, fid, j);
    }
  }

  lemma OtherTokenIsUsed(s: State, fid: Id, j: Id)
    requires HistInv(s) && StoreInv(s) && LiveIn(s.db, fid) && j in s.db.tokens && s.db.tokens[j].familyId == fid
    requires j != s.db.families[fid].body.value.currentRefresh
    ensures s.db.tokens[j].status == Used && j in Members(s.db.used, fid) && Spent(s, j)
  {
    CurrentIsLast(s, fid);
    assert TokenOK(s, j) && GenOK(s, j);
    ElemsHasEarlier(s.spine[fid], s.hist[j].idx);
  }

  lemma ElemsHasEarlier(line: seq<Id>, i: nat)
    requires i < |line| && line[i] != line[|line| - 1]
    ensures i + 1 < |line| && line[i] in Elems(line[..|line| - 1])
  {
    assert line[..|line| - 1][i] == line[i];
  }

  /** Follows `n` successor links through the token records. */
  function Follow(db: Store, j: Id, n: nat): Option<Id>
    decreases n
  {
    if n == 0 then Some(j)
    else if j in db.tokens && db.tokens[j].child.Some? then Follow(db, db.tokens[j].child.value, n - 1)
    else None
  }

  lemma {:induction false} FollowLine(db: Store, line: seq<Id>, i: nat)
    requires i < |line|
    requires forall k | 0 <= k < |line| - 1 && line[k] in db.tokens :: db.tokens[line[k]].child == Some(line[k + 1])
    ensures Follow(db, line[i], |line| - 1 - i) ==
              if forall k | i <= k < |line| - 1 :: line[k] in db.tokens then Some(line[|line| - 1]) else None
    decreases |line| - i
  {
    if i + 1 < |line| && line[i] in db.tokens {
      FollowLine(db, line, i + 1);
    }
  }

  lemma SpentRecordNamesNext(s: State, fid: Id, k: nat)
    requires HistInv(s) && StoreInv(s) && fid in s.spine && k + 1 < |s.spine[fid]| && s.spine[fid][k] in s.db.tokens
    ensures s.db.tokens[s.spine[fid][k]].child == Some(s.spine[fid][k + 1])
  {
    assert LineOK(s, fid);
    var j := s.spine[fid][k];
    ReadSpentToken(s, j);
    assert GenOK(s, s.spine[fid][k + 1]);
  }

  /** From any token of a live family, following successor links leads to the current token exactly
      if none of the records in between has lapsed. */
  lemma ChildLinksReachCurrent(s: State, fid: Id, i: nat, line: seq<Id>)
    requires Reachable(s) && LiveIn(s.db, fid) && fid in s.spine && line == s.spine[fid] && i < |line|
    ensures Follow(s.db, line[i], |line| - 1 - i) == Some(s.db.families[fid].body.value.currentRefresh) <==>
              forall k | i <= k < |line| - 1 :: line[k] in s.db.tokens
  {
    ReachableInv(s);
    LinksReachCurrent(s, fid, i, line);
  }

  lemma LinksReachCurrent(s: State, fid: Id, i: nat, line: seq<Id>)
    requires HistInv(s) && StoreInv(s) && LiveIn(s.db, fid) && fid in s.spine && line == s.spine[fid] && i < |line|
    ensures Follow(s.db, line[i], |line| - 1 - i) == Some(s.db.families[fid].body.value.currentRefresh) <==>
              forall k | i <= k < |line| - 1 :: line[k] in s.db.tokens
  {
    LineIsLinked(s, fid, line);
    FollowLine(s.db, line, i);
    CurrentIsLast(s, fid);
  }

  /** Every record of the line that is still there names the next token. */
  lemma LineIsLinked(s: State, fid: Id, line: seq<Id>)
    requires HistInv(s) && StoreInv(s) && fid in s.spine && s.spine[fid] == line
    ensures forall k | 0 <= k < |line| - 1 && line[k] in s.db.tokens :: s.db.tokens[line[k]].child == Some(line[k + 1])
  {
    forall k | 0 <= k < |line| - 1 && line[k] in s.db.tokens ensures s.db.tokens[line[k]].child == Some(line[k + 1]) {
      SpentRecordNamesNext(s, fid, k);
    }
  }

  lemma CurrentIsLast(s: State, fid: Id)
    requires HistInv(s) && StoreInv(s) && LiveIn(s.db, fid)
    ensures fid in s.spine && |s.spine[fid]| > 0
    ensures s.db.families[fid].body.value.currentRefresh == s.spine[fid][|s.spine[fid]| - 1]
    ensures Members(s.db.used, fid) == Elems(s.spine[fid][..|s.spine[fid]| - 1])
    ensures s.db.families[fid] == Last(s, fid).family && Find(s.db.anchors, fid) == Some(Last(s, fid).anchor)
    ensures Last(s, fid).refresh.jti == s.spine[fid][|s.spine[fid]| - 1]
  {
    assert FamilyOK(s, fid) && LiveOK(s, fid) && LineOK(s, fid);
    assert GenOK(s, s.spine[fid][|s.spine[fid]| - 1]);
  }

  /** Any number of concurrent rotations of one token has at most one winner. */
  lemma OneWinner(s: State, p: nat, q: nat, j: Id)
    requires Reachable(s) && p in s.procs && q in s.procs
    requires s.procs[p].Done? && s.procs[p].outcome.Rotated? && s.procs[p].outcome.presented == j
    requires s.procs[q].Done? && s.procs[q].outcome.Rotated? && s.procs[q].outcome.presented == j
    ensures p == q && s.procs[p] == s.procs[q]
  {
    ReachableInv(s);
    var x, y := s.procs[p].outcome.issued, s.procs[q].outcome.issued;
    assert ProcOK(s, p, s.procs[p]) && ProcOK(s, q, s.procs[q]);
    SameParentSameToken(s, x, y);
  }

  lemma SameParentSameToken(s: State, x: Id, y: Id)
    requires HistInv(s) && ContentInv(s) && x in s.hist && y in s.hist
    requires s.hist[x].token.parent.Some? && s.hist[x].token.parent == s.hist[y].token.parent
    ensures x == y
  {
    ParentIsPrevious(s, x);
    ParentIsPrevious(s, y);
    SamePlaceSameToken(s, x, y);
  }

  lemma SamePlaceSameToken(s: State, x: Id, y: Id)
    requires HistInv(s) && x in s.hist && y in s.hist
    requires s.hist[x].fid == s.hist[y].fid && s.hist[x].idx == s.hist[y].idx
    ensures x == y
  {
    assert GenOK(s, x) && GenOK(s, y);
  }

  lemma ParentIsPrevious(s: State, x: Id)
    requires HistInv(s) && ContentInv(s) && x in s.hist && s.hist[x].token.parent.Some?
    ensures var j := s.hist[x].token.parent.value;
            j in s.hist && s.hist[j].fid == s.hist[x].fid && s.hist[x].idx == s.hist[j].idx + 1
  {
    assert GenOK(s, x) && ContentOK(s, x);
    var g := s.hist[x];
    assert LineOK(s, g.fid);
    if g.idx > 0 {
      assert GenOK(s, s.spine[g.fid][g.idx - 1]);
    }
  }

  // ----- no lost update -------------------------------------------------------------

  /** Although a rotation builds the next family from a copy read before it began to watch, whenever
      its EXEC commits that copy is the value being replaced, the token record it spends is the one
      on record, and the family gains exactly the one generation it built. */
  lemma CommitReplacesWhatItRead(s: State, pid: nat, ch: Choice)
    requires Reachable(s) && pid in s.procs && s.procs[pid].Rotate? && s.procs[pid].rpc.RReady?
    requires ProcStep(s, pid, ch).procs[pid].Done?
    ensures var c, pc, t := s.procs[pid].c, s.procs[pid].rpc, ProcStep(s, pid, ch);
            && Find(s.db.families, c.familyId) == Some(pc.f) && Find(s.db.tokens, c.jti) == Some(pc.t)
            && c.familyId !in s.db.tombs && pc.t.status == Current
            && pc.f.Live() && pc.f.body.value.currentRefresh == c.jti
            && Find(t.db.families, c.familyId) == Some(pc.g.family)
                && t.procs[pid] == Done(Rotated(c.jti, pc.g.refresh.jti))
            && c.jti in s.hist && Succeeds(s.hist[c.jti], pc.g)
  {
    ReachableInv(s);
    assert ProcOK(s, pid, s.procs[pid]);
    var c, pc := s.procs[pid].c, s.procs[pid].rpc;
    CommittedMeansUnmoved(s, pid, ch);
    ReadyAndUnmoved(s, pid, c, s.procs[pid].target, pc);
    CommitPutsFamily(s, pid, c, pc.f, pc.t, pc.g);
  }

  lemma ReadyAndUnmoved(s: State, pid: nat, c: RefreshClaims, target: Option<Project>, pc: RotatePc)
    requires HistInv(s) && StoreInv(s) && pc.RReady? && RotateOK(s, pid, c, target, pc) && Unmoved(s, pc.snap)
    ensures Find(s.db.families, c.familyId) == Some(pc.f) && Find(s.db.tokens, c.jti) == Some(pc.t)
    ensures c.familyId !in s.db.tombs && pc.t.status == Current
    ensures pc.f.Live() && pc.f.body.value.currentRefresh == c.jti
    ensures c.jti in s.hist && Succeeds(s.hist[c.jti], pc.g) && pc.g.fid == c.familyId
  {
    assert GenOK(s, c.jti);
    NoLostUpdate(s, pid, c, target, pc.f, pc.t, pc.g, pc.snap, pc.seenFamily, pc.seenToken);
  }

  lemma CommittedMeansUnmoved(s: State, pid: nat, ch: Choice)
    requires pid in s.procs && s.procs[pid].Rotate? && s.procs[pid].rpc.RReady?
    requires ProcStep(s, pid, ch).procs[pid].Done?
    ensures var c, pc := s.procs[pid].c, s.procs[pid].rpc;
            Unmoved(s, pc.snap) && pc.f.body.Some? && ProcStep(s, pid, ch) == Commit(s, pid, c, pc.f, pc.t, pc.g)
  {
  }

  lemma CommitPutsFamily(s: State, pid: nat, c: RefreshClaims, f: Family, r: TokenRecord, g: Gen)
    requires f.body.Some?
    ensures var t := Commit(s, pid, c, f, r, g);
            Find(t.db.families, g.fid) == Some(g.family)
                && t.procs == s.procs[pid := Done(Rotated(c.jti, g.refresh.jti))]
  {
  }

  // ----- session, family and anchor agree -------------------------------------------

  /** Everything one issuance wrote and that is still on record belongs to the newest generation,
      so family, anchor and the at most one session record of a live family agree. */
  lemma SessionFamilyAnchorAgree(s: State, fid: Id)
    requires Reachable(s) && LiveIn(s.db, fid)
    ensures fid in s.db.anchors && AnchorAgrees(s.db.families[fid].body.value, s.db.anchors[fid], fid)
    ensures forall x | x in s.db.sessions && s.db.sessions[x].familyId == fid ::
              && x == s.db.families[fid].body.value.currentAccess
              && SessionAgrees(s.db.families[fid].body.value, s.db.anchors[fid], s.db.sessions[x])
  {
    ReachableInv(s);
    CurrentIsLast(s, fid);
    var g := Last(s, fid);
    assert LineOK(s, fid) && ContentOK(s, g.refresh.jti);
    CoherentAgrees(g);
    forall x | x in s.db.sessions && s.db.sessions[x].familyId == fid
      ensures s.db.sessions[x] == g.session && x == g.access.jti
    {
      SessionIsNewest(s, fid, x);
    }
    assert GenOK(s, g.refresh.jti);
  }

  lemma SessionIsNewest(s: State, fid: Id, x: Id)
    requires HistInv(s) && StoreInv(s) && ContentInv(s) && LiveIn(s.db, fid)
    requires x in s.db.sessions && s.db.sessions[x].familyId == fid
    ensures fid in s.spine && s.db.sessions[x] == Last(s, fid).session && x == Last(s, fid).access.jti
  {
    CurrentIsLast(s, fid);
    var last := s.spine[fid][|s.spine[fid]| - 1];
    assert LineOK(s, fid) && SessionOK(s, x);
    var j := s.byAccess[x];
    assert ContentOK(s, j);
    OneSessionPerFamily(s, last, x);
  }

  /** Two session records never belong to the same family, live or not. */
  lemma AtMostOneSession(s: State, x: Id, y: Id)
    requires Reachable(s) && x in s.db.sessions && y in s.db.sessions
    requires s.db.sessions[x].familyId == s.db.sessions[y].familyId
    ensures x == y
  {
    ReachableInv(s);
    SessionIsUnspent(s, x);
    SessionIsUnspent(s, y);
    SamePlaceSameToken(s, s.byAccess[x], s.byAccess[y]);
  }

  lemma SessionIsUnspent(s: State, x: Id)
    requires HistInv(s) && StoreInv(s) && ContentInv(s) && x in s.db.sessions
    ensures x in s.byAccess && s.byAccess[x] in s.hist
    ensures var g := s.hist[s.byAccess[x]];
            && g.access.jti == x && g.fid == s.db.sessions[x].familyId
            && g.fid in s.spine && g.idx == |s.spine[g.fid]| - 1
  {
    assert SessionOK(s, x) && AccessOK(s, x);
    assert GenOK(s, s.byAccess[x]) && ContentOK(s, s.byAccess[x]);
  }

  /** After the session record has gone, the anchor still on record is accepted for the current
      token, and the rotation it leads to is the one the session would have led to. */
  lemma AnchorCarriesOn(s: State, fid: Id, target: Option<Project>, granted: Option<Project>,
                        idx: nat, now: nat, access: Id, refresh: Id)
    requires Reachable(s) && LiveIn(s.db, fid)
    ensures fid in s.spine && |s.spine[fid]| > 0 && s.spine[fid][|s.spine[fid]| - 1] in s.hist
    ensures var g, f := s.hist[s.spine[fid][|s.spine[fid]| - 1]], s.db.families[fid];
            && fid in s.db.anchors && AnchorMatches(s.db.anchors[fid], g.refresh, f)
            && BuildRotated(g.refresh, Retarget(AnchorSeed(s.db.anchors[fid]), target), f, granted, idx, now, access,
                            refresh)
            == BuildRotated(g.refresh, Retarget(g.session, target), f, granted, idx, now, access, refresh)
  {
    ReachableInv(s);
    CurrentIsLast(s, fid);
    var g := Last(s, fid);
    assert LineOK(s, fid) && ContentOK(s, g.refresh.jti);
    AnchorStandsIn(g);
    AnchorPathEqualsSessionPath(g, target, granted, idx, now, access, refresh);
  }

  // ----- the loser of a race --------------------------------------------------------

  /** A duplicate presentation destroys a family only if the token it lost to was itself rotated,
      or the grace window has passed (or is switched off). */
  lemma LoserSparesFamily(s: State, pid: nat, fid: Id, j: Id, pc: ClassifyPc)
    requires Reachable(s) && pid in s.procs && s.procs[pid] == Classify(fid, j, pc)
    requires ClassifyStep(s, fid, j, pc) == Revoke(fid, RefreshReuse, VStart)
    ensures HistInv(s) && Spent(s, j)
    ensures Spent(s, Child(s, j).refresh.jti) || s.grace == 0 || s.now > Child(s, j).at + s.grace * SECOND
  {
    ReachableInv(s);
    assert ProcOK(s, pid, s.procs[pid]);
    ReuseVerdict(s, fid, j, pc);
  }

  lemma ReuseVerdict(s: State, fid: Id, j: Id, pc: ClassifyPc)
    requires ClassifyOK(s, fid, j, pc) && ClassifyStep(s, fid, j, pc) == Revoke(fid, RefreshReuse, VStart)
    ensures HistInv(s) && Spent(s, j)
    ensures Spent(s, Child(s, j).refresh.jti) || s.grace == 0 || s.now > Child(s, j).at + s.grace * SECOND
  {
    ReuseMeansNotBenign(s, fid, j, pc);
    NotBenignMeans(s, j, pc.f);
  }

  lemma ReuseMeansNotBenign(s: State, fid: Id, j: Id, pc: ClassifyPc)
    requires ClassifyOK(s, fid, j, pc) && ClassifyStep(s, fid, j, pc) == Revoke(fid, RefreshReuse, VStart)
    ensures (pc.CSeen? || pc.CMember?) && pc.f.Live() && Spent(s, j) && CopyOK(s, j, pc.f)
    ensures !Benign(pc.f, Spend(s.hist[j].token, Child(s, j)), s.now, s.grace)
    ensures s.hist[j].idx < s.hist[pc.f.body.value.currentRefresh].idx
  {
    ReuseComesFromVerdict(s, fid, j, pc);
  }

  lemma ReuseComesFromVerdict(s: State, fid: Id, j: Id, pc: ClassifyPc)
    requires ClassifyStep(s, fid, j, pc) == Revoke(fid, RefreshReuse, VStart)
    ensures pc.CSeen? || pc.CMember?
    ensures !Benign(pc.f, pc.t, s.now, s.grace) && (pc.CSeen? ==> pc.f.Live())
  {
  }

  lemma NotBenignMeans(s: State, j: Id, f: Family)
    requires HistInv(s) && Spent(s, j) && CopyOK(s, j, f) && f.Live()
    requires s.hist[j].idx < s.hist[f.body.value.currentRefresh].idx
    requires !Benign(f, Spend(s.hist[j].token, Child(s, j)), s.now, s.grace)
    ensures Spent(s, Child(s, j).refresh.jti) || s.grace == 0 || s.now > Child(s, j).at + s.grace * SECOND
  {
    var k, cur := Child(s, j), f.body.value.currentRefresh;
    ChildIsRecorded(s, j);
    if k.refresh.jti != cur { LaterMeansSpent(s, k.refresh.jti, cur); }
  }

  lemma ChildIsRecorded(s: State, j: Id)
    requires HistInv(s) && Spent(s, j)
    ensures var k := Child(s, j);
            k.refresh.jti in s.hist && s.hist[k.refresh.jti] == k && k.fid == s.hist[j].fid
                && k.idx == s.hist[j].idx + 1
            && k.at <= s.now
  {
    assert LineOK(s, s.hist[j].fid);
    assert GenOK(s, s.spine[s.hist[j].fid][s.hist[j].idx + 1]);
  }

  lemma LaterMeansSpent(s: State, k: Id, cur: Id)
    requires HistInv(s) && k in s.hist && cur in s.hist && s.hist[k].fid == s.hist[cur].fid
    requires s.hist[k].idx <= s.hist[cur].idx && k != cur
    ensures Spent(s, k)
  {
    assert GenOK(s, k) && GenOK(s, cur);
  }
}
