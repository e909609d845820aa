/** What the matchers accept: exactly what agrees, field by field, with the generation at hand. */
module TokenMatching {
  import opened Prelude
  import opened TokenFamily

  /** An anchor is accepted for the current token of a generation exactly if it is active and agrees
      with the generation's own on family, session id, user, scope, both tokens and collection. */
  lemma AnchorMatchesItsOwn(g: Gen, a: Anchor)
    requires Coherent(g)
    ensures AnchorMatches(a, g.refresh, g.family) <==>
              && a.status == Active && a.familyId == g.anchor.familyId && a.sessionId == g.anchor.sessionId
              && a.user.hash == g.anchor.user.hash && a.scope == g.anchor.scope
              && a.currentRefresh == g.anchor.currentRefresh && a.currentAccess == g.anchor.currentAccess
              && a.collection == g.anchor.collection
  {
  }

  /** Presented refresh claims are accepted exactly if they carry the current token's id, family,
      session id, user, scope and collection. */
  lemma RefreshMatchesItsOwn(g: Gen, c: RefreshClaims)
    requires Coherent(g)
    ensures RefreshClaimsMatch(c, g.family, g.session) <==>
              && c.jti == g.refresh.jti && c.familyId == g.refresh.familyId && c.sessionId == g.refresh.sessionId
              && c.userHash == g.refresh.userHash && c.scope == g.refresh.scope && c.collection == g.refresh.collection
  {
  }

  /** And against any session context, exactly if the context is of that session, user, scope, token
      and, off the platform, collection. */
  lemma ContextMatchesItsToken(g: Gen, s: Session)
    requires Coherent(g)
    ensures RefreshClaimsMatch(g.refresh, g.family, s) <==>
              && s.sessionId == g.session.sessionId && s.user.hash == g.session.user.hash && s.scope == g.session.scope
              && s.refreshJti == g.session.refreshJti
              && (s.scope == ProjectScope ==> s.collection == g.session.collection)
  {
  }

  /** Presented access claims are accepted exactly if they agree with the issued ones on everything
      but their times. */
  lemma AccessMatchesItsOwn(g: Gen, c: AccessClaims)
    requires Coherent(g)
    ensures AccessClaimsMatch(c, g.session) <==>
              && c.jti == g.access.jti && c.familyId == g.access.familyId && c.sessionId == g.access.sessionId
              && c.userHash == g.access.userHash && c.scope == g.access.scope && c.collection == g.access.collection
  {
  }

  /** The live family accepts the session of its own generation for the current access token alone. */
  lemma FamilyMatchesItsOwn(g: Gen, jti: Id, s: Session)
    requires Coherent(g)
    ensures FamilyMatches(g.family, jti, s) <==>
              && jti == g.access.jti && s.user.hash == g.session.user.hash && s.scope == g.session.scope
              && (s.scope == ProjectScope ==> HashOf(s.project) == HashOf(g.session.project))
  {
  }
}
