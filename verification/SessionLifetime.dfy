/** What a whole run of refreshes and project switches leaves unchanged: who signed in, when,
    and how long the sign-in lasts. */
module SessionLifetime {
  import opened Prelude
  import opened TokenFamily
  import opened RotationProtocol
  import opened RotationInvariant
  import opened RotationPreservation

  /** The generation the sign-in of a family wrote. */
  ghost function First(s: State, fid: Id): Gen
    requires HistInv(s) && fid in s.spine
  {
    assert LineOK(s, fid);
    s.hist[s.spine[fid][0]]
  }

  /** What every generation inherits from its sign-in. */
  ghost predicate Inherits(first: Gen, g: Gen) {
    && Coherent(first) && Coherent(g) && Original(first) && first.at <= g.at
    && g.session.user == first.session.user && g.session.sessionId == first.session.sessionId
    && var b, d := first.family.body.value, g.family.body.value;
    && d.authTime == b.authTime && d.createdAt == b.createdAt
    && d.remember == b.remember && d.absolute == b.absolute
    && (d.remember ==> d.ttl == SecondsUntil(d.absolute.value, g.at))
    && (!d.remember ==> d.ttl == b.ttl && d.expiresAt == g.at + d.ttl * SECOND)
  }

  /** A sign-in followed by rotations. */
  ghost predicate Chain(line: seq<Gen>) {
    && |line| > 0 && Coherent(line[0]) && Original(line[0])
    && forall i | 0 < i < |line| :: Succeeds(line[i - 1], line[i])
  }

  lemma {:induction false} ChainInherits(line: seq<Gen>, k: nat)
    requires Chain(line) && k < |line|
    ensures Inherits(line[0], line[k])
    ensures forall i | 0 <= i <= k :: line[i].at <= line[k].at
  {
    if k > 0 {
      ChainInherits(line, k - 1);
      assert Succeeds(line[k - 1], line[k]);
    }
  }

  /** The recorded generations of a family, in order. */
  ghost function Generations(s: State, fid: Id): seq<Gen>
    requires HistInv(s) && fid in s.spine
  {
    assert LineOK(s, fid);
    seq(|s.spine[fid]|, i requires 0 <= i < |s.spine[fid]| => s.hist[s.spine[fid][i]])
  }

  lemma FirstInLine(s: State, fid: Id)
    requires HistInv(s) && fid in s.spine && LineOK(s, fid) && ContentOK(s, s.spine[fid][0])
    ensures Coherent(First(s, fid)) && Original(First(s, fid)) && Generations(s, fid)[0] == First(s, fid)
  {
  }

  lemma NextInLine(s: State, fid: Id, i: nat)
    requires HistInv(s) && fid in s.spine && LineOK(s, fid) && 0 < i < |s.spine[fid]| && ContentOK(s, s.spine[fid][i])
    ensures Succeeds(Generations(s, fid)[i - 1], Generations(s, fid)[i])
  {
  }

  lemma FamilyIsChain(s: State, fid: Id)
    requires HistInv(s) && ContentInv(s) && fid in s.spine
    ensures Chain(Generations(s, fid)) && Generations(s, fid)[0] == First(s, fid)
  {
    assert LineOK(s, fid);
    FirstInLine(s, fid);
    forall i | 0 < i < |s.spine[fid]| ensures Succeeds(Generations(s, fid)[i - 1], Generations(s, fid)[i]) {
      NextInLine(s, fid, i);
    }
  }

  lemma FoundInLine(s: State, j: Id)
    requires HistInv(s) && j in s.hist
    ensures s.hist[j].fid in s.spine && s.hist[j].idx < |Generations(s, s.hist[j].fid)|
    ensures Generations(s, s.hist[j].fid)[s.hist[j].idx] == s.hist[j]
  {
    assert GenOK(s, j);
  }

  lemma EveryGenerationInherits(s: State, j: Id)
    requires HistInv(s) && ContentInv(s) && j in s.hist
    ensures s.hist[j].fid in s.spine && Inherits(First(s, s.hist[j].fid), s.hist[j])
  {
    FoundInLine(s, j);
    FamilyIsChain(s, s.hist[j].fid);
    ChainInherits(Generations(s, s.hist[j].fid), s.hist[j].idx);
  }

  lemma LaterIsNotEarlier(s: State, i: Id, j: Id)
    requires HistInv(s) && ContentInv(s) && i in s.hist && j in s.hist
    requires s.hist[i].fid == s.hist[j].fid && s.hist[i].idx <= s.hist[j].idx
    ensures s.hist[i].at <= s.hist[j].at
  {
    FoundInLine(s, i);
    FoundInLine(s, j);
    FamilyIsChain(s, s.hist[j].fid);
    ChainInherits(Generations(s, s.hist[j].fid), s.hist[j].idx);
  }

  /** Every access token any run of refreshes and project switches issues carries the second of
      the original sign-in, the signed-in user and the session id. */
  lemma SignInTimeSurvives(s: State, j: Id)
    requires Reachable(s) && j in s.hist
    ensures HistInv(s) && s.hist[j].fid in s.spine
    ensures var first, g := First(s, s.hist[j].fid), s.hist[j];
            && g.access.authTime == Some(first.at / SECOND)
            && g.access.userHash == first.session.user.hash && g.access.sessionId == first.session.sessionId
  {
    ReachableInv(s);
    EveryGenerationInherits(s, j);
  }

  /** A remember-me family never outlives the thirty days its sign-in set: the limit never moves,
      the remaining lifetime never grows and no refresh token is valid beyond the limit. */
  lemma RememberMeIsAbsolute(s: State, j: Id, k: Id)
    requires Reachable(s) && j in s.hist && k in s.hist && s.hist[j].family.body.Some?
    requires s.hist[j].family.body.value.remember
    requires s.hist[k].fid == s.hist[j].fid && s.hist[j].idx <= s.hist[k].idx
    ensures HistInv(s) && s.hist[j].fid in s.spine
    ensures WithinLimit(First(s, s.hist[j].fid), s.hist[j], s.hist[k])
  {
    ReachableInv(s);
    EveryGenerationInherits(s, j);
    EveryGenerationInherits(s, k);
    LaterIsNotEarlier(s, j, k);
    BothWithinLimit(First(s, s.hist[j].fid), s.hist[j], s.hist[k]);
  }

  /** The limit `first` set thirty days ahead is that of the later `h`, whose remaining lifetime is not
      longer than that of `g` and whose refresh token ends within the limit. */
  ghost predicate WithinLimit(first: Gen, g: Gen, h: Gen) {
    && g.family.body.Some? && h.family.body.Some?
    && var limit := first.at + REMEMBER_ME_REFRESH_TTL_SECONDS * SECOND;
    && var b, d := g.family.body.value, h.family.body.value;
    && d.absolute == Some(limit) && d.expiresAt == limit && d.ttl <= b.ttl && h.refresh.exp * SECOND <= limit
  }

  lemma BothWithinLimit(first: Gen, g: Gen, h: Gen)
    requires Inherits(first, g) && Inherits(first, h) && g.at <= h.at && g.family.body.value.remember
    ensures WithinLimit(first, g, h)
  {
    var limit := first.at + REMEMBER_ME_REFRESH_TTL_SECONDS * SECOND;
    RemainingShrinks(limit, g.at, h.at);
    ExpiryIsFloored(h.at + h.family.body.value.ttl * SECOND, limit);
  }

  lemma RemainingShrinks(limit: nat, before: nat, now: nat)
    requires before <= now
    ensures SecondsUntil(limit, now) <= SecondsUntil(limit, before)
  {
    if now < limit { QuotientShrinks(limit - now, limit - before); }
  }

  lemma QuotientShrinks(a: nat, b: nat)
    requires a <= b
    ensures a / SECOND <= b / SECOND
  {
  }

  lemma ExpiryIsFloored(t: nat, limit: nat)
    requires t <= limit
    ensures t / SECOND * SECOND <= limit
  {
  }

  /** Any other family slides: every issuance grants the same seventy-two hours from its own time. */
  lemma OrdinarySessionSlides(s: State, j: Id)
    requires Reachable(s) && j in s.hist && s.hist[j].family.body.Some? && !s.hist[j].family.body.value.remember
    ensures var g := s.hist[j];
            && g.family.body.value.ttl == REFRESH_FAMILY_TTL_SECONDS && g.family.body.value.absolute.None?
            && g.family.body.value.expiresAt == g.at + REFRESH_FAMILY_TTL_SECONDS * SECOND
            && g.refresh.exp == (g.at + REFRESH_FAMILY_TTL_SECONDS * SECOND) / SECOND
  {
    ReachableInv(s);
    EveryGenerationInherits(s, j);
  }

  /** An access token and its session record end fifteen minutes after they were issued, and a refresh
      token ends with the lifetime its family was granted at the same moment. */
  lemma TokensEndOnTime(s: State, j: Id)
    requires Reachable(s) && j in s.hist
    ensures EndsOnTime(s.hist[j])
  {
    ReachableInv(s);
    EveryGenerationInherits(s, j);
    CoherentEndsOnTime(s.hist[j]);
  }

  predicate EndsOnTime(g: Gen) {
    && g.family.body.Some?
    && g.access.iat == g.refresh.iat == g.at / SECOND
    && g.access.exp == g.access.iat + 900 && g.session.expiresAt == Some(g.at + 900 * 1_000_000)
    && g.refresh.exp == g.refresh.iat + g.family.body.value.ttl
    && g.token.expiresAt == g.anchor.expiresAt == g.family.body.value.expiresAt
  }

  lemma CoherentEndsOnTime(g: Gen)
    requires Coherent(g)
    ensures EndsOnTime(g)
  {
    WholeSeconds(g.at, ACCESS_TTL_SECONDS);
    WholeSeconds(g.at, g.family.body.value.ttl);
  }

  lemma WholeSeconds(at: nat, ttl: nat)
    ensures (at + ttl * SECOND) / SECOND == at / SECOND + ttl
  {
  }

  /** A rotation the database allows is turned away for age exactly when the family is remember-me
      and less than one second of its original thirty days is left. */
  lemma RefusedOnlyAtTheLimit(s: State, pid: nat, ch: Choice)
    requires Reachable(s) && pid in s.procs && s.procs[pid].Rotate? && s.procs[pid].rpc.RContext?
    requires Enabled(s, Step(pid, ch)) && !ch.denied
    ensures var c := s.procs[pid].c;
            && HistInv(s) && c.jti in s.hist && s.hist[c.jti].fid in s.spine && s.hist[c.jti].family.body.Some?
            && var g, first := s.hist[c.jti], First(s, s.hist[c.jti].fid);
            && (Apply(s, Step(pid, ch)).procs[pid] == Done(Refused) <==>
                  && g.family.body.value.remember
                  && s.now + SECOND > first.at + REMEMBER_ME_REFRESH_TTL_SECONDS * SECOND)
  {
    ReachableInv(s);
    var c, target, pc := s.procs[pid].c, s.procs[pid].target, s.procs[pid].rpc;
    assert ProcOK(s, pid, s.procs[pid]);
    EveryGenerationInherits(s, c.jti);
    ContextStepBuilds(s, pid, ch);
    LimitDecides(s, pid, c, target, pc, ch, First(s, s.hist[c.jti].fid));
  }

  lemma ContextStepBuilds(s: State, pid: nat, ch: Choice)
    requires pid in s.procs && s.procs[pid].Rotate? && s.procs[pid].rpc.RContext?
    ensures var c, pc := s.procs[pid].c, s.procs[pid].rpc;
            ProcStep(s, pid, ch) == BuildStep(s, pid, c, s.procs[pid].target, pc.f, pc.t, Built(s, c, pc.f, pc.ctx, ch),
                                              ch)
  {
  }

  lemma LimitDecides(s: State, pid: nat, c: RefreshClaims, target: Option<Project>, pc: RotatePc, ch: Choice,
                     first: Gen)
    requires pc.RContext? && RotateOK(s, pid, c, target, pc) && !ch.denied && Grants(pc.ctx, ch.granted)
    requires GenOK(s, c.jti) && Inherits(first, s.hist[c.jti])
    ensures var t := BuildStep(s, pid, c, target, pc.f, pc.t, Built(s, c, pc.f, pc.ctx, ch), ch);
            && pid in t.procs
            && (t.procs[pid] == Done(Refused) <==>
                  && s.hist[c.jti].family.body.value.remember
                  && s.now + SECOND > first.at + REMEMBER_ME_REFRESH_TTL_SECONDS * SECOND)
  {
    BuiltUnlessExpired(s, c, target, pc.f, pc.ctx, ch);
    BuildOutcome(s, pid, c, target, pc.f, pc.t, Built(s, c, pc.f, pc.ctx, ch), ch);
  }

  lemma BuildOutcome(s: State, pid: nat, c: RefreshClaims, target: Option<Project>,
                     f: Family, r: TokenRecord, g: Option<Gen>, ch: Choice)
    requires !ch.denied
    ensures var t := BuildStep(s, pid, c, target, f, r, g, ch);
            pid in t.procs && (t.procs[pid] == Done(Refused) <==> g.None?)
  {
  }

  lemma BuiltUnlessExpired(s: State, c: RefreshClaims, target: Option<Project>, f: Family, ctx: Session, ch: Choice)
    requires c.jti in s.hist && Coherent(s.hist[c.jti]) && s.hist[c.jti].refresh == c && s.hist[c.jti].at <= s.now
    requires f == s.hist[c.jti].family && Grants(ctx, ch.granted)
    requires ctx == Retarget(s.hist[c.jti].session, target) || ctx == Retarget(AnchorSeed(s.hist[c.jti].anchor), target)
    ensures Built(s, c, f, ctx, ch).None? <==>
              f.body.value.remember && SecondsUntil(f.body.value.absolute.value, s.now) == 0
  {
    var g := s.hist[c.jti];
    var base := if ctx == Retarget(g.session, target) then g.session else AnchorSeed(g.anchor);
    RotationSucceeds(g, base, target, ch.granted, s.now, ch.access, ch.refresh);
  }
}
