/** What a finished revocation has left behind, whatever ran in between. */
module Tombstones {
  import opened Prelude
  import opened TokenFamily
  import opened RotationProtocol
  import opened RotationInvariant
  import opened RotationPreservation
  import opened RotationTheorems

  /** The tombstone of the family does not lapse during the run. */
  predicate KeepsTomb(acts: seq<Action>, fid: Id) {
    Lapse(TombKey(fid)) !in acts
  }

  /** Tombstones and anchors of a family after its own program has moved on. */
  ghost predicate Cleared(s: State, rid: nat, fid: Id) {
    && Dead(s, fid) && rid in s.procs
    && (s.procs[rid].Revoke? ==> s.procs[rid].fid == fid && s.procs[rid].vpc.VAnchor?)
    && (s.procs[rid].Revoke? || s.procs[rid] == Done(RevokedFamily(fid)))
    && (s.procs[rid].Done? ==> fid !in s.db.anchors)
  }

  lemma RevokeTouches(s: State, pid: nat, fid: Id, reason: Reason, pc: RevokePc)
    ensures var t := RevokeStep(s, pid, fid, reason, pc);
            && s.db.tombs <= t.db.tombs && t.db.anchors.Keys <= s.db.anchors.Keys
            && (pc.VTomb? ==> fid in t.db.tombs) && (pc.VAnchor? ==> fid !in t.db.anchors)
  {
  }

  lemma BuildTouches(s: State, pid: nat, c: RefreshClaims, target: Option<Project>, f: Family, r: TokenRecord,
                     g: Option<Gen>, ch: Choice)
    ensures BuildStep(s, pid, c, target, f, r, g, ch).db == s.db
  {
  }

  lemma CommitTouchesAnchors(s: State, pid: nat, c: RefreshClaims, f: Family, r: TokenRecord, g: Gen)
    requires f.body.Some?
    ensures var t := Commit(s, pid, c, f, r, g);
            && t.db.tombs == s.db.tombs && t.db.anchors == s.db.anchors[g.fid := g.anchor]
            && t.db.families == s.db.families[g.fid := g.family]
  {
  }

  /** Tombstones stay, and an anchor comes only with a live family. */
  ghost predicate Respects(s: State, t: State, fid: Id) {
    && (fid in s.db.tombs ==> fid in t.db.tombs)
    && (fid in t.db.anchors ==> fid in s.db.anchors || LiveIn(t.db, fid))
  }

  lemma BuiltIsLive(s: State, pid: nat, c: RefreshClaims, target: Option<Project>, pc: RotatePc)
    requires pc.RReady? && RotateOK(s, pid, c, target, pc)
    ensures pc.g.family.Live()
  {
  }

  lemma ExecRespects(s: State, pid: nat, ch: Choice, fid: Id)
    requires pid in s.procs && s.procs[pid].Rotate? && s.procs[pid].rpc.RReady? && s.procs[pid].rpc.g.family.Live()
    ensures Respects(s, ProcStep(s, pid, ch), fid)
  {
    var c, pc := s.procs[pid].c, s.procs[pid].rpc;
    if pc.f.body.Some? { CommitTouchesAnchors(s, pid, c, pc.f, pc.t, pc.g); }
  }

  lemma RotateRespects(s: State, pid: nat, ch: Choice, fid: Id)
    requires pid in s.procs && s.procs[pid].Rotate? && !s.procs[pid].rpc.RReady?
    ensures Respects(s, ProcStep(s, pid, ch), fid)
  {
    var c, target, pc := s.procs[pid].c, s.procs[pid].target, s.procs[pid].rpc;
    if pc.RContext? { BuildTouches(s, pid, c, target, pc.f, pc.t, Built(s, c, pc.f, pc.ctx, ch), ch); }
  }

  lemma OtherRespects(s: State, pid: nat, ch: Choice, fid: Id)
    requires pid in s.procs && !s.procs[pid].Done? && !s.procs[pid].Rotate?
    ensures Respects(s, ProcStep(s, pid, ch), fid)
  {
    match s.procs[pid]
    case Revoke(f, reason, pc) => RevokeTouches(s, pid, f, reason, pc);
    case Classify(_, _, _) =>
    case Validate(_, _) =>
    case OAuth(_, _, _) =>
  }

  lemma StepRespects(s: State, pid: nat, ch: Choice, fid: Id)
    requires pid in s.procs && !s.procs[pid].Done? && ProcOK(s, pid, s.procs[pid])
    ensures Respects(s, ProcStep(s, pid, ch), fid)
  {
    if !s.procs[pid].Rotate? {
      OtherRespects(s, pid, ch, fid);
    } else if s.procs[pid].rpc.RReady? {
      BuiltIsLive(s, pid, s.procs[pid].c, s.procs[pid].target, s.procs[pid].rpc);
      ExecRespects(s, pid, ch, fid);
    } else {
      RotateRespects(s, pid, ch, fid);
    }
  }

  lemma LapseRespects(s: State, k: Key, fid: Id)
    requires k != TombKey(fid)
    ensures Respects(s, s.(db := Without(s.db, k), ver := Bump(s.ver, {k})), fid)
  {
  }

  lemma SignInRespects(s: State, a: Action, fid: Id)
    requires a.SignInAs? && Enabled(s, a) && a.fid != fid
    ensures Respects(s, Apply(s, a), fid)
  {
  }

  lemma ApplyRespects(s: State, a: Action, fid: Id)
    requires Inv(s) && Enabled(s, a) && fid in s.spine
    ensures a != Lapse(TombKey(fid)) ==> Respects(s, Apply(s, a), fid)
  {
    match a
    case Tick(_) =>
    case Start(_, _) =>
    case SignInAs(_, _, _, f, _, access, refresh) =>
      FreshIsUnused(s, f, access, refresh);
      SignInRespects(s, a, fid);
    case Step(pid, ch) =>
      assert ProcOK(s, pid, s.procs[pid]);
      StepRespects(s, pid, ch, fid);
    case Lapse(k) => if k != TombKey(fid) { LapseRespects(s, k, fid); }
    case LapseLive(_) =>
  }

  lemma TombLapseKeepsAnchors(s: State, fid: Id)
    requires Enabled(s, Lapse(TombKey(fid)))
    ensures Apply(s, Lapse(TombKey(fid))).db.anchors == s.db.anchors
  {
  }

  lemma ClearedGoesOn(s: State, a: Action, rid: nat, fid: Id)
    requires Inv(s) && Enabled(s, a) && Cleared(s, rid, fid)
    ensures Cleared(Apply(s, a), rid, fid)
    ensures fid in s.db.tombs && a != Lapse(TombKey(fid)) ==> fid in Apply(s, a).db.tombs
  {
    ApplyKeepsInv(s, a);
    ApplyRespects(s, a, fid);
    if a == Lapse(TombKey(fid)) { TombLapseKeepsAnchors(s, fid); }
    ClearedMoves(s, a, rid, fid);
  }

  lemma ClearedMoves(s: State, a: Action, rid: nat, fid: Id)
    requires Enabled(s, a) && Cleared(s, rid, fid) && Dead(Apply(s, a), fid)
    requires fid in Apply(s, a).db.anchors ==> fid in s.db.anchors
    ensures Cleared(Apply(s, a), rid, fid)
  {
    if a.Step? && a.pid == rid {
      RevokeTouches(s, rid, fid, s.procs[rid].reason, VAnchor);
      AnchorDropEnds(s, rid, fid, s.procs[rid].reason);
    } else {
      OthersStandStill(s, a, rid);
    }
  }

  lemma AnchorDropEnds(s: State, rid: nat, fid: Id, reason: Reason)
    ensures var t := RevokeStep(s, rid, fid, reason, VAnchor);
            rid in t.procs && t.procs[rid] == Done(RevokedFamily(fid))
  {
  }

  lemma {:induction false} ClearedOverRuns(s: State, acts: seq<Action>, t: State, rid: nat, fid: Id)
    requires Inv(s) && Run(s, acts, t) && Cleared(s, rid, fid)
    ensures Cleared(t, rid, fid)
    ensures fid in s.db.tombs && KeepsTomb(acts, fid) ==> fid in t.db.tombs
    decreases |acts|
  {
    if acts != [] {
      ApplyKeepsInv(s, acts[0]);
      ClearedGoesOn(s, acts[0], rid, fid);
      assert KeepsTomb(acts, fid) ==> KeepsTomb(acts[1..], fid) && acts[0] != Lapse(TombKey(fid));
      ClearedOverRuns(Apply(s, acts[0]), acts[1..], t, rid, fid);
    }
  }

  /** A revocation that has finished, after whatever interleaved since its tombstone was due, has left
      its family dead and without anchor, and with its tombstone unless that has lapsed. */
  lemma FinishedRevocationBars(s: State, rid: nat, fid: Id, reason: Reason, ch: Choice, acts: seq<Action>, t: State)
    requires Reachable(s) && rid in s.procs && s.procs[rid] == Revoke(fid, reason, VTomb)
    requires Run(ProcStep(s, rid, ch), acts, t)
    ensures Dead(t, fid) && (KeepsTomb(acts, fid) ==> fid in t.db.tombs)
    ensures rid in t.procs && t.procs[rid].Done? ==> t.procs[rid] == Done(RevokedFamily(fid)) && fid !in t.db.anchors
  {
    ReachableInv(s);
    var u := ProcStep(s, rid, ch);
    assert Enabled(s, Step(rid, ch)) && Apply(s, Step(rid, ch)) == u;
    assert ProcOK(s, rid, s.procs[rid]);
    ApplyKeepsInv(s, Step(rid, ch));
    TombIsSet(s, rid, fid, reason);
    ClearedOverRuns(u, acts, t, rid, fid);
  }

  lemma TombIsSet(s: State, rid: nat, fid: Id, reason: Reason)
    requires Dead(s, fid)
    ensures var t := RevokeStep(s, rid, fid, reason, VTomb);
            && fid in t.db.tombs && Dead(t, fid) && rid in t.procs && t.procs[rid] == Revoke(fid, reason, VAnchor)
  {
  }
}
