/** Recency of a sign-in: the check for sensitive operations and the proof an OAuth link carries. */
module RecentAuth {
  import opened Prelude
  import opened TokenFamily
  import opened RotationProtocol
  import opened RotationInvariant
  import opened SessionLifetime

  /** The two claims that can show a recent sign-in; an unreadable value is absent. */
  datatype TimeClaims = TimeClaims(reauthAt: Option<int>, authTime: Option<int>)

  datatype Proof =
    | TokenProof(authenticatedAt: int, expiresAt: int)
    | MarkerProof(authenticatedAt: int, expiresAt: int)
  {
    /** In force from its sign-in up to, not including, its expiry (milliseconds). */
    predicate InForce(now: int) {
      authenticatedAt <= now < expiresAt
    }
  }

  function Window(configured: int): (w: int)
    ensures w >= 1 && w >= configured && (w == 1 || w == configured)
  {
    if configured < 1 then 1 else configured
  }

  /** `reauth_at or auth_time`: a zero counts as missing. */
  function Stamp(c: TimeClaims): Option<int> {
    if c.reauthAt.Some? && c.reauthAt.value != 0 then c.reauthAt else c.authTime
  }

  predicate HasRecentAuth(c: TimeClaims, now: int, configured: int) {
    Stamp(c).Some? && 0 <= now - Stamp(c).value <= Window(configured)
  }

  /** A re-authentication decides over the sign-in, whichever is later, unless it is absent or zero;
      without either there is no recency. */
  lemma ReauthenticationDecides(c: TimeClaims, now: int, configured: int)
    ensures var at := if c.reauthAt.None? || c.reauthAt == Some(0) then c.authTime else c.reauthAt;
            HasRecentAuth(c, now, configured) <==>
              at.Some? && at.value <= now && (now - at.value <= 1 || now - at.value <= configured)
  {
  }

  function FromToken(c: TimeClaims, now: int, configured: int): Option<Proof> {
    match Stamp(c)
    case None => None
    case Some(at) =>
      var p := TokenProof(at * 1000, at * 1000 + Window(configured) * 1000);
      if p.InForce(now) then Some(p) else None
  }

  /** The freshest proof on hand; nothing stands for the error the caller gets. */
  function ResolveProof(c: TimeClaims, marker: Option<Proof>, now: int, configured: int): (r: Option<Proof>)
    ensures r.None? <==> FromToken(c, now, configured).None? && marker.None?
    ensures r.Some? ==> r == FromToken(c, now, configured) || r == marker
    ensures forall p | Some(p) == FromToken(c, now, configured) || Some(p) == marker ::
              r.Some? && p.expiresAt <= r.value.expiresAt
    ensures r.Some? && FromToken(c, now, configured).Some?
              && r.value.expiresAt == FromToken(c, now, configured).value.expiresAt ==>
              r == FromToken(c, now, configured)
  {
    var token := FromToken(c, now, configured);
    if token.None? then marker
    else if marker.Some? && marker.value.expiresAt > token.value.expiresAt then marker
    else token
  }

  /** What a family's access token claims; it never carries a re-authentication time. */
  function ClaimsOf(a: AccessClaims): TimeClaims {
    TimeClaims(None, if a.authTime.Some? then Some(a.authTime.value) else None)
  }

  /** Whatever refreshes and project switches led to a token, it counts as a recent sign-in exactly
      while the original sign-in is, and any proof taken from it ends when that window ends. */
  lemma RecencyFollowsSignIn(s: State, j: Id, now: int, nowMs: int, configured: int)
    requires Reachable(s) && j in s.hist
    ensures HistInv(s) && s.hist[j].fid in s.spine
    ensures var login, c, w := First(s, s.hist[j].fid).at / SECOND, ClaimsOf(s.hist[j].access), Window(configured);
            && (HasRecentAuth(c, now, configured) <==> 0 <= now - login <= w)
            && (FromToken(c, nowMs, configured).Some? <==> login * 1000 <= nowMs < (login + w) * 1000)
            && (FromToken(c, nowMs, configured).Some? ==>
                  FromToken(c, nowMs, configured).value == TokenProof(login * 1000, (login + w) * 1000))
  {
    SignInTimeSurvives(s, j);
  }

  /** The check and the proof differ at one second only: the check still accepts the second in
      which the window closes, the proof does not. */
  lemma CheckAndProofDifferAtTheEdge(c: TimeClaims, nowMs: nat, configured: int)
    ensures FromToken(c, nowMs, configured).Some? <==>
              HasRecentAuth(c, nowMs / 1000, configured) && nowMs / 1000 - Stamp(c).value != Window(configured)
  {
    if Stamp(c).Some? {
      var at, w := Stamp(c).value, Window(configured);
      assert at * 1000 <= nowMs <==> at <= nowMs / 1000;
      assert nowMs < (at + w) * 1000 <==> nowMs / 1000 < at + w;
    }
  }
}
