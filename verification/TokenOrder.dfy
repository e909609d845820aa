/** The token records of an ordinary family lapse in the order in which they were spent, so what is
    left of its line is unbroken up to the current token. */
module TokenOrder {
  import opened Prelude
  import opened TokenFamily
  import opened RotationProtocol
  import opened RotationInvariant
  import opened RotationPreservation
  import opened RotationTheorems

  predicate Ordinary(db: Store, fid: Id) {
    LiveIn(db, fid) && !db.families[fid].body.value.remember
  }

  /** In a line of tokens, a record that is there is followed by the next one. */
  ghost predicate Unbroken(tokens: map<Id, TokenRecord>, line: seq<Id>) {
    forall k | 0 <= k < |line| - 1 && line[k] in tokens :: line[k + 1] in tokens
  }

  ghost predicate InOrder(s: State, fid: Id) {
    fid in s.spine && Ordinary(s.db, fid) ==> Unbroken(s.db.tokens, s.spine[fid])
  }

  /** Token records and lines are as before, and a live family was live with the same record. */
  ghost predicate SameLines(s: State, t: State) {
    && t.db.tokens == s.db.tokens && t.spine == s.spine
    && forall fid | LiveIn(t.db, fid) :: LiveIn(s.db, fid) && t.db.families[fid] == s.db.families[fid]
  }

  lemma SameLinesKeepOrder(s: State, t: State, fid: Id)
    requires SameLines(s, t) && InOrder(s, fid)
    ensures InOrder(t, fid)
  {
  }

  // ----- steps that leave the lines alone -------------------------------------------

  lemma BuildLeavesLines(s: State, pid: nat, c: RefreshClaims, target: Option<Project>,
                         f: Family, r: TokenRecord, g: Option<Gen>, ch: Choice)
    ensures SameLines(s, BuildStep(s, pid, c, target, f, r, g, ch))
  {
  }

  lemma RevokeLeavesLines(s: State, pid: nat, fid: Id, reason: Reason, pc: RevokePc)
    ensures SameLines(s, RevokeStep(s, pid, fid, reason, pc))
  {
  }

  lemma StepLeavesLines(s: State, pid: nat, ch: Choice)
    requires pid in s.procs && !s.procs[pid].Done? && !(s.procs[pid].Rotate? && s.procs[pid].rpc.RReady?)
    ensures SameLines(s, ProcStep(s, pid, ch))
  {
    match s.procs[pid]
    case Rotate(c, target, pc) =>
      if pc.RContext? { BuildLeavesLines(s, pid, c, target, pc.f, pc.t, Built(s, c, pc.f, pc.ctx, ch), ch); }
    case Revoke(fid, reason, pc) => RevokeLeavesLines(s, pid, fid, reason, pc);
    case Classify(_, _, _) =>
    case Validate(_, _) =>
    case OAuth(_, _, _) =>
  }

  lemma LapseLeavesLines(s: State, k: Key)
    requires !k.TokenKey?
    ensures SameLines(s, s.(db := Without(s.db, k), ver := Bump(s.ver, {k})))
  {
  }

  // ----- steps that change them -----------------------------------------------------

  /** The record of a token names its predecessor in the line. */
  lemma RecordNamesParent(s: State, fid: Id, k: nat)
    requires HistInv(s) && StoreInv(s) && ContentInv(s) && fid in s.spine && k + 1 < |s.spine[fid]|
    requires s.spine[fid][k + 1] in s.db.tokens
    ensures var r := s.db.tokens[s.spine[fid][k + 1]]; r.parent == Some(s.spine[fid][k]) && r.familyId == fid
  {
    assert LineOK(s, fid);
    var j := s.spine[fid][k + 1];
    assert TokenOK(s, j) && GenOK(s, j) && ContentOK(s, j);
    assert GenOK(s, s.spine[fid][k]);
  }

  /** A record whose predecessor is still there is not the one that lapses. */
  lemma SuccessorStays(s: State, j: Id, fid: Id, k: nat)
    requires HistInv(s) && StoreInv(s) && ContentInv(s) && MayLapseAlone(s.db, TokenKey(j))
    requires fid in s.spine && Ordinary(s.db, fid) && k + 1 < |s.spine[fid]| && s.spine[fid][k] in s.db.tokens
    ensures s.spine[fid][k + 1] != j
  {
    if s.spine[fid][k + 1] == j { RecordNamesParent(s, fid, k); }
  }

  lemma UnbrokenWithout(tokens: map<Id, TokenRecord>, line: seq<Id>, j: Id)
    requires Unbroken(tokens, line)
    requires forall k | 0 <= k < |line| - 1 && line[k] in tokens :: line[k + 1] != j
    ensures Unbroken(tokens - {j}, line)
  {
  }

  lemma LapseKeepsOrder(s: State, t: State, j: Id, fid: Id)
    requires HistInv(s) && StoreInv(s) && ContentInv(s) && MayLapseAlone(s.db, TokenKey(j)) && InOrder(s, fid)
    requires t.db == Without(s.db, TokenKey(j)) && t.spine == s.spine
    ensures InOrder(t, fid)
  {
    if fid in s.spine && Ordinary(s.db, fid) {
      forall k | 0 <= k < |s.spine[fid]| - 1 && s.spine[fid][k] in s.db.tokens ensures s.spine[fid][k + 1] != j {
        SuccessorStays(s, j, fid, k);
      }
      UnbrokenWithout(s.db.tokens, s.spine[fid], j);
    }
  }

  lemma CurrentIsNotElsewhere(s: State, gone: Id, fid: Id)
    requires HistInv(s) && StoreInv(s) && LiveIn(s.db, gone) && fid in s.spine && fid != gone
    ensures s.db.families[gone].body.value.currentRefresh !in s.spine[fid]
  {
    assert LineOK(s, fid);
    LiveTokenIsCurrent(s, gone);
  }

  lemma LapseLiveKeepsOrder(s: State, t: State, gone: Id, fid: Id)
    requires HistInv(s) && StoreInv(s) && LiveIn(s.db, gone) && InOrder(s, fid)
    requires t.db == DropLive(s.db, gone) && t.spine == s.spine
    ensures InOrder(t, fid)
  {
    if fid in s.spine && fid != gone && Ordinary(s.db, fid) {
      CurrentIsNotElsewhere(s, gone, fid);
      UnbrokenWithout(s.db.tokens, s.spine[fid], s.db.families[gone].body.value.currentRefresh);
    }
  }

  /** A new generation puts its record at the end of its own line. */
  ghost predicate Appends(s: State, t: State, g: Gen) {
    && g.refresh.jti !in s.hist && t.db.tokens.Keys == s.db.tokens.Keys + {g.refresh.jti}
    && t.spine == s.spine[g.fid := Line(s, g.fid) + [g.refresh.jti]]
    && (forall fid | fid in s.spine && Ordinary(t.db, fid) :: Ordinary(s.db, fid))
  }

  lemma UnbrokenGrows(before: map<Id, TokenRecord>, after: map<Id, TokenRecord>, line: seq<Id>, j: Id)
    requires Unbroken(before, line) && j !in line && after.Keys == before.Keys + {j}
    ensures Unbroken(after, line) && Unbroken(after, line + [j])
  {
  }

  lemma AppendKeepsOrder(s: State, t: State, g: Gen, fid: Id)
    requires HistInv(s) && Appends(s, t, g) && InOrder(s, fid)
    ensures InOrder(t, fid)
  {
    if fid in s.spine && Ordinary(t.db, fid) {
      assert LineOK(s, fid);
      UnbrokenGrows(s.db.tokens, t.db.tokens, s.spine[fid], g.refresh.jti);
    }
  }

  lemma SignInAppends(s: State, t: State, g: Gen)
    requires g.refresh.jti !in s.hist && g.fid !in s.spine && g.refresh.jti !in s.db.tokens
    requires t.db == Issue(s.db, g) && t.spine == s.spine[g.fid := [g.refresh.jti]]
    ensures Appends(s, t, g)
  {
    assert Line(s, g.fid) + [g.refresh.jti] == [g.refresh.jti];
    assert t.db.tokens.Keys == s.db.tokens.Keys + {g.refresh.jti};
  }

  lemma CommitAppends(s: State, t: State, c: RefreshClaims, f: Family, r: TokenRecord, g: Gen)
    requires g.refresh.jti !in s.hist && g.fid == c.familyId && c.familyId in s.spine
    requires Find(s.db.families, c.familyId) == Some(f) && Find(s.db.tokens, c.jti) == Some(r) && r.jti == c.jti
    requires f.Live() && g.family.Live() && g.family.body.value.remember == f.body.value.remember
    requires t.db == CommitRotation(s.db, r, f.body.value.currentAccess, g)
    requires t.spine == s.spine[g.fid := s.spine[g.fid] + [g.refresh.jti]]
    ensures Appends(s, t, g)
  {
    assert t.db.tokens.Keys == s.db.tokens.Keys + {g.refresh.jti};
  }

  lemma SignInKeepsOrder(s: State, a: Action, fid: Id)
    requires Inv(s) && Enabled(s, a) && a.SignInAs? && InOrder(s, fid)
    ensures InOrder(Apply(s, a), fid)
  {
    var g := SignIn(a.user, a.project, a.remember, s.now, a.fid, a.sid, a.access, a.refresh);
    FreshIsUnused(s, a.fid, a.access, a.refresh);
    SignInLines(s, a, g);
    SignInAppends(s, Apply(s, a), g);
    AppendKeepsOrder(s, Apply(s, a), g, fid);
  }

  lemma SignInLines(s: State, a: Action, g: Gen)
    requires a.SignInAs? && Enabled(s, a)
    requires g == SignIn(a.user, a.project, a.remember, s.now, a.fid, a.sid, a.access, a.refresh)
    ensures g.fid == a.fid && g.refresh.jti == a.refresh
    ensures Apply(s, a).db == Issue(s.db, g) && Apply(s, a).spine == s.spine[g.fid := [g.refresh.jti]]
  {
  }

  lemma CommitKeepsOrder(s: State, pid: nat, ch: Choice, fid: Id)
    requires Inv(s) && InOrder(s, fid) && pid in s.procs && s.procs[pid].Rotate? && s.procs[pid].rpc.RReady?
    ensures InOrder(ProcStep(s, pid, ch), fid)
  {
    var c, pc, t := s.procs[pid].c, s.procs[pid].rpc, ProcStep(s, pid, ch);
    assert ProcOK(s, pid, s.procs[pid]);
    if Unmoved(s, pc.snap) && pc.f.body.Some? {
      CommitLines(s, pid, c, s.procs[pid].target, pc);
      AppendKeepsOrder(s, t, pc.g, fid);
    } else {
      SameLinesKeepOrder(s, t, fid);
    }
  }

  lemma CommitLines(s: State, pid: nat, c: RefreshClaims, target: Option<Project>, pc: RotatePc)
    requires HistInv(s) && StoreInv(s) && pc.RReady? && RotateOK(s, pid, c, target, pc) && Unmoved(s, pc.snap)
    requires pc.f.body.Some?
    ensures Appends(s, Commit(s, pid, c, pc.f, pc.t, pc.g), pc.g)
  {
    ReadyAndUnmoved(s, pid, c, target, pc);
    assert GenOK(s, c.jti);
    PendingIsUnused(s, pid, pc.g.refresh.jti, pc.g.access.jti);
    CommitAppends(s, Commit(s, pid, c, pc.f, pc.t, pc.g), c, pc.f, pc.t, pc.g);
  }

  // ----- every run ------------------------------------------------------------------

  lemma ApplyKeepsOrder(s: State, a: Action, fid: Id)
    requires Inv(s) && Enabled(s, a) && InOrder(s, fid)
    ensures InOrder(Apply(s, a), fid)
  {
    var t := Apply(s, a);
    match a
    case Tick(_) => SameLinesKeepOrder(s, t, fid);
    case Start(_, _) => SameLinesKeepOrder(s, t, fid);
    case SignInAs(_, _, _, _, _, _, _) => SignInKeepsOrder(s, a, fid);
    case Step(pid, ch) =>
      if s.procs[pid].Rotate? && s.procs[pid].rpc.RReady? {
        CommitKeepsOrder(s, pid, ch, fid);
      } else {
        StepLeavesLines(s, pid, ch);
        SameLinesKeepOrder(s, t, fid);
      }
    case Lapse(k) =>
      if k.TokenKey? {
        LapseKeepsOrder(s, t, k.id, fid);
      } else {
        LapseLeavesLines(s, k);
        SameLinesKeepOrder(s, t, fid);
      }
    case LapseLive(gone) => LapseLiveKeepsOrder(s, t, gone, fid);
  }

  lemma {:induction false} RunKeepsOrder(s: State, acts: seq<Action>, t: State, fid: Id)
    requires Inv(s) && Run(s, acts, t) && InOrder(s, fid)
    ensures InOrder(t, fid)
    decreases |acts|
  {
    if acts != [] {
      ApplyKeepsInv(s, acts[0]);
      ApplyKeepsOrder(s, acts[0], fid);
      RunKeepsOrder(Apply(s, acts[0]), acts[1..], t, fid);
    }
  }

  lemma ReachableInOrder(t: State, fid: Id)
    requires Reachable(t)
    ensures InOrder(t, fid)
  {
    var s: State, acts: seq<Action> :| Initial(s) && Run(s, acts, t);
    RunKeepsOrder(s, acts, t, fid);
  }

  lemma {:induction false} UnbrokenFrom(tokens: map<Id, TokenRecord>, line: seq<Id>, i: nat, k: nat)
    requires Unbroken(tokens, line) && i <= k < |line| && line[i] in tokens
    ensures line[k] in tokens
    decreases k
  {
    if k > i { UnbrokenFrom(tokens, line, i, k - 1); }
  }

  /** In an ordinary live family, every token still on record reaches the current token by successor
      links. */
  lemma EveryRecordReachesCurrent(s: State, fid: Id, j: Id)
    requires Reachable(s) && Ordinary(s.db, fid) && j in s.db.tokens && s.db.tokens[j].familyId == fid
    ensures exists n :: Follow(s.db, j, n) == Some(s.db.families[fid].body.value.currentRefresh)
  {
    ReachableInv(s);
    ReachableInOrder(s, fid);
    RecordIsInLine(s, fid, j);
    var line, i := s.spine[fid], s.hist[j].idx;
    forall k | i <= k < |line| - 1 ensures line[k] in s.db.tokens {
      UnbrokenFrom(s.db.tokens, line, i, k);
    }
    ChildLinksReachCurrent(s, fid, i, line);
  }

  lemma RecordIsInLine(s: State, fid: Id, j: Id)
    requires HistInv(s) && StoreInv(s) && j in s.db.tokens && s.db.tokens[j].familyId == fid
    ensures j in s.hist && fid in s.spine && s.hist[j].idx < |s.spine[fid]| && s.spine[fid][s.hist[j].idx] == j
  {
    assert TokenOK(s, j) && GenOK(s, j);
  }
}
