# Verified model of the authentication and group-administration core

This project models, in Dafny, the parts of the system in which correctness is a statement about
whole histories rather than about one call:

- **Refresh-family rotation.** Every sign-in starts a refresh family in Redis. Rotation, replay
  classification, revocation, access validation and session-bound OAuth authorization race on its
  keys. `TokenFamily` holds the records and the pure builders and matchers, `RotationProtocol` the
  interleaving of all programs (each Redis command is a step, `WATCH` records key versions, `EXEC`
  commits only if none moved, records may lapse), `RotationInvariant` and `RotationPreservation` the
  inductive invariant, and `RotationTheorems`, `SessionLifetime` and `RecentAuth` what follows from it.
  `TokenOrder` adds the order in which token records lapse, `ProjectSwitch` where a rotation ends,
  `RotationProgress` and `UndisturbedRuns` how each program ends if nothing interleaves (rotation, replay,
  revocation, denials, validation, authorization), `Tombstones` what a finished revocation leaves,
  `ValidationSoundness` and `TokenMatching` which tokens are admitted, `IndexCoverage` that the user indexes
  miss nothing, and `RevocationRace` settles the one race a revocation loses.
  `AuthStore` is the same store as an object whose methods are the revocation sweeps, the classifier
  and an undisturbed rotation; `AuthStoreTheorems` says what these mean in reachable states. The scheme is
  refresh-token rotation with reuse detection as in section 4.14.2 of RFC 9700; the claims are those
  of sections 4.1.4, 4.1.6 and 4.1.7 of RFC 7519.
- **The administrative group graph.** `GroupGraph` holds footprints, scopes, preflight and writes,
  `GroupAuthorization` the request-scoped authorizer with its loops, `GroupPreflight` who may do what,
  both ways, `GroupEffects` what each write does to edges, groups and access, `GroupTheorems` confinement and
  the invariance of administrative assignments over runs, `GroupLock` interleaved requests under the graph
  lock, `GroupPaging` the scoped listing and `ScopeBackfill` the migration that binds existing groups.
- **The transaction shell.** `GroupTransaction` refines nested, savepoint-protected items to a
  snapshot semantics, with poisoning rollbacks and post-commit callbacks.
- **The requirement include walk.** `RequirementWalk` is the recursive depth-first collection of pins.

The idea behind the rotation proof: an active family value is determined by its current refresh
`jti`, which is drawn fresh. Every active copy a program ever read is therefore the family value of one
recorded generation, and Redis is a view of the recorded history. So a revocation that writes back
a stale copy can only kill a family, and a rotation whose watched keys did not move replaces exactly the
copy it read before watching.

Verify everything with `dafny verify dfyconfig.toml`.

Results that are narrower than the source's own comments, or that a reader may not expect:

- `revoke_user_auth_state_except_current` keeps the caller signed in only if it is given the current
  family as well as the current access `jti`. With the access `jti` alone, the second loop revokes the
  caller's own family once that family is in the index; `KeepsExactlyTheCurrent` states exactly when the token survives.
- Its summary counts the preserved family among the preserved *sessions*, so the counters add up to
  the sessions seen plus one when the current family is indexed.
- The recency check accepts the second in which the window closes, the recency proof does not
  (`CheckAndProofDifferAtTheEdge`).
- `verify_preserved_rows` does not look at which project an unbound group was given.
  `ComparisonMissesWrongBinding` gives tables it accepts although a footprint changed, and
  `AcceptedKeepsMeaningWhen` says exactly which accepted tables keep every footprint.
- The listing query and `group_in_scope` would disagree for a caller who is neither root nor admin but
  has a non-empty project list (`ConsumerScopeWouldLeak`); no resolved scope is of that kind
  (`ResolvedScopesRefine`).
- A validation that has read the live family may still admit its token right after the revoked record is
  written. `InFlightOutcome` says exactly when, `RaceExists` with `ValidTokenCanOutrunRevocation` that it can happen from every
  state with a valid token, and `RevocationIsFinal` that no other validation ever succeeds.
- Successor links lead from a spent token to the current one exactly while the records in between are stored
  (`ChildLinksReachCurrent`). In an ordinary family they are (`EveryRecordReachesCurrent`); in a remember-me
  family all records end within the last second before the common limit, in no particular order.
- A spent token whose own record has lapsed is refused without touching the family.
- A helper's rollback inside an item undoes the item's writes so far but keeps its callbacks; only an
  item that raises gives both back.

## Model

| member | source | states |
|---|---|---|
| `TokenFamily.SecondsUntil` | src/Util/auth_lifecycle.py:158-163 | whole seconds left: adding them to now never passes the expiry, one more always would |
| `TokenFamily.RevokedCopy` | src/Util/auth_lifecycle.py:1465-1474 | whatever copy was read, the record written back is not live, keeps its id and body, carries the reason, and is `reused` exactly for the reuse reason |
| `TokenFamily.SignInIsCoherent` | src/Util/auth_lifecycle.py:602-718 | family, session, anchor, token record and both tokens of a sign-in agree, and start the sign-in time and the lifetime |
| `TokenFamily.SignInIsFor` | src/Util/auth_lifecycle.py:602-733 | a sign-in is for the given user and project, under the given identifiers, and both tokens name that project or the platform |
| `TokenFamily.CoherentAgrees` | src/Util/auth_lifecycle.py:218-263 | anchor and session of one issuance agree with its family on ids, tokens, scope, project, user and expiry |
| `TokenFamily.AnchorStandsIn` | src/Util/auth_lifecycle.py:266-333 | the anchor of an issuance is accepted for its refresh token, and both the session and the anchor context pass the claim match |
| `TokenFamily.AnchorPathEqualsSessionPath` | src/Util/auth_lifecycle.py:303-333 | rotating from the anchor builds the very generation that rotating from the session builds, with or without a project switch |
| `TokenFamily.RotationSucceeds` | src/Util/auth_lifecycle.py:1069-1210 | a built rotation continues its family coherently (user, session id, sign-in time, limit, TTL rule, parent link) from now on and under the new identifiers; nothing is built exactly when a remember-me family has less than a second left |
| `ProjectSwitch.CoherentIsSomewhere` | src/Util/auth_lifecycle.py:1133-1176 | session, family, anchor and both tokens of an issuance are all on the platform or all on one project |
| `ProjectSwitch.RotationLands` | src/Util/auth_lifecycle.py:1283-1290 | whatever context it started from, a built rotation ends on the target of the switch or, without one, where it was: session, family, anchor and both tokens |
| `ProjectSwitch.CommitLands` | src/Util/auth_lifecycle.py:1342-1365 | in every run, a committing rotation leaves in the store a family, session, anchor and token record that are where its own target says |
| `TokenMatching.AnchorMatchesItsOwn` | src/Util/auth_lifecycle.py:266-333 | an anchor is accepted for a current token exactly if it is active and agrees with the issued anchor on family, session id, user, scope, both tokens and collection |
| `TokenMatching.RefreshMatchesItsOwn` | src/Util/auth_lifecycle.py:1043-1066 | refresh claims are accepted exactly if they agree with the current token on id, family, session id, user, scope and collection |
| `TokenMatching.ContextMatchesItsToken` | src/Util/auth_lifecycle.py:1043-1066 | a session context is accepted for a current token exactly if it is of the same session, user, scope, token and, off the platform, collection |
| `TokenMatching.AccessMatchesItsOwn` | src/Util/auth_lifecycle.py:790-811 | access claims are accepted exactly if they agree with the issued ones on everything but their times |
| `TokenMatching.FamilyMatchesItsOwn` | src/Util/auth_lifecycle.py:813-831 | a live family accepts a session for its current access token alone, with the same user, scope and project |
| `RotationPreservation.NoLostUpdate` | src/Util/auth_lifecycle.py:1330-1346 | unmoved watched keys mean the stored family and token are the copies read before watching, untombstoned, and the presented token is the newest |
| `RotationPreservation.FailedExecKnows` | src/Util/auth_lifecycle.py:1366-1369 | a rotation whose EXEC fails goes on to classify a token that is spent or whose family is dead |
| `RotationPreservation.ApplyKeepsInv` | src/Util/auth_lifecycle.py:1229-1369 | every step of every program, sign-in, lapse or clock tick keeps the invariant, never rewrites history and never revives a dead family |
| `RotationPreservation.ReachableInv` | src/Util/auth_lifecycle.py:1229-1369 | the invariant holds in every reachable state |
| `RotationTheorems.RevocationIsFinal` | src/Util/auth_lifecycle.py:1465-1497 | once the revoked record is written, over every further run including lapses: the family never lives again, gains no generation, no OAuth authorization of it completes, and no validation admits its tokens unless it had read the live family before the write |
| `RevocationRace.LastStepDecides` | src/Util/auth_lifecycle.py:813-831 | the last step of a validation admits exactly if the copy read was live and matching, no tombstone is stored and the database does not object |
| `RevocationRace.SecondLookDecides` | src/Util/auth_lifecycle.py:1458-1462 | the look before it refuses exactly while a record that is not active is stored |
| `RevocationRace.RefusedWhileRecorded` | src/Util/auth_lifecycle.py:820-821 | in every reachable state a validation that read the family but has not looked again is refused while the revoked record is stored |
| `RevocationRace.InFlightOutcome` | src/Util/auth_lifecycle.py:813-831 | for a validation in flight when the revoked record is written: with only the tombstone look ahead it completes exactly if no tombstone is stored and it would have completed anyway; at any earlier point it does not complete next, and after the family read it is refused |
| `RevocationRace.ValidTokenCanOutrunRevocation` | src/Util/auth_lifecycle.py:1465-1475 | from every reachable state with a valid token, a run in which the revoked record is written and the token is admitted right after |
| `RevocationRace.RaceExists` | src/Util/auth_lifecycle.py:602-733 | such a state: right after a platform sign-in |
| `Tombstones.FinishedRevocationBars` | src/Util/auth_lifecycle.py:1465-1497 | a revocation that has finished, whatever interleaved since its tombstone, has left the family dead, without anchor and tombstoned unless the tombstone lapsed |
| `ValidationSoundness.AdmittedTokensWereIssued` | src/Util/auth_lifecycle.py:887-932 | in every run, admitted claims are those of an issued access token, times aside |
| `ValidationSoundness.AdmittedTokensWereCurrent` | src/Util/auth_lifecycle.py:887-932 | the validation that admits had read session and live family of the generation that issued the token |
| `RotationTheorems.DeadOverRuns` | src/Util/auth_lifecycle.py:813-831 | a dead family stays dead over every run; a validation that had not read it live never succeeds |
| `RotationTheorems.AuthorizedOnlyWhenLive` | src/Util/auth_lifecycle.py:961-1040 | the step that completes an authorization finds the family live, untombstoned and the current session bound to everything recorded |
| `RotationTheorems.CompletedAuthorizationIsLive` | src/Util/auth_lifecycle.py:961-1040 | the same in every reachable state, through retries and pointer changes |
| `RotationTheorems.SingleCurrentToken` | src/Util/auth_lifecycle.py:1309-1352 | a live family has exactly one current token record, the one it names; all others on record are used and in the used set |
| `RotationTheorems.ChildLinksReachCurrent` | src/Util/auth_lifecycle.py:1309-1316 | from any token of a live family, successor links through the records lead to the current token exactly if no record in between has lapsed |
| `TokenOrder.ReachableInOrder` | src/Util/auth_lifecycle.py:1342-1345 | in every reachable state the records left of an ordinary live family are an unbroken end of its line |
| `TokenOrder.EveryRecordReachesCurrent` | src/Util/auth_lifecycle.py:1309-1345 | every token record of an ordinary live family reaches the current token by successor links |
| `RotationTheorems.OneWinner` | src/Util/auth_lifecycle.py:1328-1369 | of any number of concurrent rotations of one token at most one issues tokens |
| `RotationTheorems.CommitReplacesWhatItRead` | src/Util/auth_lifecycle.py:1254-1346 | in every run, a committing rotation replaces exactly the family and token copies it read before watching, and the family continues by the generation it built |
| `RotationTheorems.SessionFamilyAnchorAgree` | src/Util/auth_lifecycle.py:1133-1176 | in every reachable state a live family has its anchor, and anchor and any session of the family agree with it |
| `RotationTheorems.AtMostOneSession` | src/Util/auth_lifecycle.py:1347-1355 | no two session records belong to one family |
| `RotationTheorems.AnchorCarriesOn` | src/Util/auth_lifecycle.py:1268-1282 | in every reachable state the stored anchor of a live family is accepted for the current token and leads to the rotation the session would have led to |
| `RotationTheorems.LoserSparesFamily` | src/Util/auth_lifecycle.py:1500-1566 | in every interleaving, a classification that decides on reuse has a spent token whose successor was itself rotated, or the grace window is over or off |
| `UndisturbedRuns.UndisturbedReplay` | src/Util/auth_lifecycle.py:1500-1566 | from every reachable state, presenting a spent stored token of a live family ends after eight steps as a duplicate with the store unchanged exactly if its successor is current and was issued within the grace window; otherwise after twelve steps with the family reused, tombstoned and without anchor |
| `UndisturbedRuns.SpentIsClassified` | src/Util/auth_lifecycle.py:1530-1566 | the same verdict for a classification entered from a lost EXEC |
| `UndisturbedRuns.UndisturbedRevocationBars` | src/Util/auth_lifecycle.py:1465-1497 | an undisturbed revocation writes the revoked record, the tombstone and the removal of the anchor, and nothing else |
| `UndisturbedRuns.MissingContextRevokes` | src/Util/auth_lifecycle.py:1268-1282 | a current token with neither session nor anchor costs its family |
| `UndisturbedRuns.DeniedRotationRevokes` | src/Util/auth_lifecycle.py:1283-1308 | a rotation the database denies revokes its family |
| `UndisturbedRuns.DeniedValidationRevokes` | src/Util/auth_lifecycle.py:908-919 | a validation of an otherwise valid token that the database denies revokes the family |
| `UndisturbedRuns.DeniedAuthorizationRevokes` | src/Util/auth_lifecycle.py:1001-1014 | an authorization that the database denies on a bound, unexpired session revokes the family |
| `UndisturbedRuns.UndisturbedValidationAdmits` | src/Util/auth_lifecycle.py:887-932 | a valid access token that is not denied is admitted after four steps |
| `UndisturbedRuns.SessionLookDecides` | src/Util/auth_lifecycle.py:973-998 | an authorization goes on to its EXEC exactly if the pointer still stands, the session is bound, neither family nor session has expired and the database does not object; a moved pointer is tried again |
| `UndisturbedRuns.FailedAuthorizationRetries` | src/Util/auth_lifecycle.py:961-1040 | a failed EXEC is tried again, three attempts in all |
| `UndisturbedRuns.UndisturbedAuthorizationCompletes` | src/Util/auth_lifecycle.py:961-1040 | a bound, unexpired, granted authorization completes after seven steps |
| `SessionLifetime.SignInTimeSurvives` | src/Util/auth_lifecycle.py:1107-1120 | every access token of any run of refreshes and switches carries the second of the original sign-in, its user and its session id |
| `SessionLifetime.RememberMeIsAbsolute` | src/Util/auth_lifecycle.py:1079-1087 | over any number of rotations the limit stays sign-in plus thirty days, the remaining TTL never grows and no refresh token is valid beyond the limit |
| `SessionLifetime.OrdinarySessionSlides` | src/Util/auth_lifecycle.py:1088-1091 | every issuance of an ordinary family grants the same seventy-two hours from its own time |
| `SessionLifetime.TokensEndOnTime` | src/Util/auth_lifecycle.py:1069-1210 | every access token and session of any run ends fifteen minutes after its issuance, every refresh token with the lifetime granted at the same moment, on which record, anchor and family agree |
| `SessionLifetime.RefusedOnlyAtTheLimit` | src/Util/auth_lifecycle.py:1084-1086 | an allowed rotation is refused for age exactly when less than a second of the original thirty days is left |
| `RecentAuth.Window` | src/Util/auth_flow.py:179-187 | the window is the larger of one second and what is configured |
| `RecentAuth.ResolveProof` | src/Util/auth_flow.py:294-314 | fails exactly without any proof; otherwise answers with one of the proofs on hand that none outlasts, the token's on a tie |
| `RecentAuth.ReauthenticationDecides` | src/Util/auth_flow.py:216-241 | recency is that of the re-authentication unless it is absent or zero, then that of the sign-in, and there is none without either |
| `RecentAuth.RecencyFollowsSignIn` | src/Util/auth_flow.py:216-241 | a token of any run passes the check at t exactly when 0 <= t - sign-in <= window, and its proof lasts exactly from sign-in to sign-in plus window |
| `RecentAuth.CheckAndProofDifferAtTheEdge` | src/Util/auth_flow.py:301-305 | token proof and check agree on all claims and times except in the closing second |
| `AuthStore.Redis.SweepSessions` | src/Util/auth_lifecycle.py:1494-1497 | of the given keys exactly the session records of the family go, nothing else changes |
| `AuthStore.Redis.RevokeRefreshFamily` | src/Util/auth_lifecycle.py:1465-1497 | the store afterwards, and that the family is not live, tombstoned and without anchor |
| `AuthStore.Redis.ClassifyRefreshToken` | src/Util/auth_lifecycle.py:1530-1566 | the standing of a token; only a reuse changes the store, by a revocation |
| `AuthStore.Redis.RotateRefreshFamily` | src/Util/auth_lifecycle.py:1229-1369 | tokens are issued exactly if the presented token is current with a matching context, is not denied and is not out of time, and then everything built is written; for every refusal whether the family is revoked, and for which reason, or nothing changes: a spent token is a duplicate or a reuse, one without record changes nothing |
| `AuthStore.ExpelledGrows` | src/Util/auth_lifecycle.py:1446-1453 | with one session per family, revoking the family of one more session removes exactly that session |
| `AuthStore.ReviewAdvances` | src/Util/auth_lifecycle.py:1431-1453 | reviewing one more indexed session, whatever its fate, keeps the store that of the sessions gone so far, and their count |
| `AuthStore.LedgerGrows` | src/Util/auth_lifecycle.py:1431-1453 | reviewing one more index entry puts it on exactly one pile, skipped or preserved by what it was before the sweep |
| `AuthStore.LedgerBalances` | src/Util/auth_lifecycle.py:110-117 | counters that match the piles add up: seen = missing + skipped + preserved + revoked |
| `AuthStore.Redis.RevokeProjectSessionsLosingAccess` | src/Util/auth_lifecycle.py:1406-1455 | exactly the indexed sessions of candidate users on candidate projects without access go, with their families; everything else is untouched; indexes keep exactly the survivors; seen, skipped and preserved are the numbers of index entries of that kind before the call, revoked the number of sessions gone, and seen = missing + skipped + preserved + revoked |
| `AuthStore.Redis.RevokeUserAuthState` | src/Util/auth_lifecycle.py:1569-1576 | every indexed family ends revoked, every indexed session gone, both indexes dropped |
| `AuthStore.Redis.RevokeOtherSession` | src/Util/auth_lifecycle.py:1617-1654 | one session other than the current: the store, the revoked families, and which one counter moves |
| `AuthStore.Redis.RevokeOtherSessions` | src/Util/auth_lifecycle.py:1616-1654 | the first loop removes every other indexed session, revokes their families except the current one, and fixes each counter: seen, preserved, missing (index entries without a record before the call), revoked |
| `AuthStore.Redis.RevokeOtherFamilies` | src/Util/auth_lifecycle.py:1656-1666 | the second loop revokes the remaining indexed families except the current one |
| `AuthStore.Redis.RevokeUserAuthStateExceptCurrent` | src/Util/auth_lifecycle.py:1579-1668 | the exact set of families revoked and sessions deleted, what is left of both indexes, and each counter by the indexes before the call; full revocation when nothing current is named |
| `AuthStore.PurgeDecidesValidity` | src/Util/auth_lifecycle.py:1579-1668 | after such a purge an access token is valid exactly if it was, its family was not revoked and its session not deleted; revoked families are barred |
| `AuthStore.KeepsExactlyTheCurrent` | src/Util/auth_lifecycle.py:1579-1668 | naming the current token and its family leaves that sign-in's records untouched and valid; other indexed sessions are dead; an indexed family survives exactly if it was named |
| `IndexCoverage.IndexesAreComplete` | src/Util/auth_lifecycle.py:690-733 | in every run in which the user's index keys do not lapse, every stored session and live family of the user is in the user's indexes |
| `IndexCoverage.FullRevocationEndsEverything` | src/Util/auth_lifecycle.py:1569-1576 | over complete indexes, the full revocation leaves the user no session and no live family |
| `IndexCoverage.OthersAreEnded` | src/Util/auth_lifecycle.py:1579-1668 | over complete indexes, revoking the others leaves at most the named session and the named family |
| `AuthStoreTheorems.ReachableHasOneSessionEach` | src/Util/auth_lifecycle.py:1347-1355 | the premise of the project sweep holds in every reachable state |
| `AuthStoreTheorems.ReplayIsExact` | src/Util/auth_lifecycle.py:1500-1566 | a spent token of a live family counts as a duplicate exactly if its successor is current and was issued within the grace window; any other presentation ends with the family reused |
| `AuthStoreTheorems.SequentialRotationContinues` | src/Util/auth_lifecycle.py:1229-1369 | a rotation found current in a reachable state presents the newest token, from its generation's session or anchor, and continues the family coherently |
| `AuthStoreTheorems.CurrentTokenIsFound` | src/Util/auth_lifecycle.py:1254-1282 | in every reachable state the newest token of a live family is found current, with a context |
| `AuthStoreTheorems.IssuedPairWorks` | src/Util/auth_lifecycle.py:1342-1365 | right after a rotation the new access token is valid and the new refresh token current, the presented one is used and names its successor, the old session is gone, and the pair is where the target says |
| `AuthStoreTheorems.StandingIsExact` | src/Util/auth_lifecycle.py:1530-1566 | the standing of any issued token in every reachable state, by records stored, rotation, successor and grace window |
| `RotationProgress.UndisturbedRotationCommits` | src/Util/auth_lifecycle.py:1254-1369 | a rotation of the current token that is allowed, within its lifetime and undisturbed commits after twelve steps and leaves the store the sequential rotation leaves |
| `GroupTheorems.WritesKeepWellFormed` | src/Util/admin_group_scope.py:199-203 | writes keep edges between groups on record |
| `GroupTheorems.UserFootprintIs` | src/Util/admin_group_scope.py:30-42 | the three selects amount to the own binding plus the footprints of the linked project groups |
| `GroupPreflight.AdminNames` | src/Util/admin_scope.py:90-93 | exactly the names that start with `admin_` hold assignments |
| `GroupPreflight.ProjectFootprintIs` | src/Util/admin_group_scope.py:24-30 | a project group reaches its binding and its contents |
| `GroupPreflight.UserFootprintReaches` | src/Util/admin_group_scope.py:30-42 | a user group reaches its binding and, through its links, the bindings and contents of project groups |
| `GroupPreflight.AccessIsByPath` | schemas/stored_procedures/02_user_groups.sql:300-327 | a user who is not root accesses a project exactly along a path of active edges and groups |
| `GroupPreflight.ResolvedProjectsAre` | schemas/stored_procedures/03_projects.sql:289-306 | a caller's scope lists a project exactly if the caller is an admin with an assignment path through an `admin_` group |
| `GroupPreflight.UserInScopeMeans` | src/Util/admin_scope.py:165-188 | a project admin may name exactly themselves and users who are not root and have a path to one of the admin's projects |
| `GroupPreflight.UsersInScopeMeans` | src/Util/admin_group_scope.py:217-221 | a list of users passes exactly if the admin may name each known one |
| `GroupPreflight.GrantedExactlyWhen` | src/Util/admin_group_scope.py:228-287 | for a project admin, operation by operation: granted exactly if the admin owns the groups and projects named and may name the users, and else refused for the stated reason |
| `GroupPreflight.UnreachedUserIsForbidden` | src/Util/admin_group_scope.py:217-261 | naming a known user outside the scope is forbidden, however fit the group |
| `GroupPreflight.RootGrantedExactlyWhen` | src/Util/admin_group_scope.py:228-287 | root is refused exactly for a missing group, a missing project or a blank binding |
| `GroupPreflight.OthersAreForbidden` | src/Util/admin_scope.py:141-151 | everybody else is forbidden everything |
| `GroupEffects.RemoveMemberRemoves` | schemas/stored_procedures/02_user_groups.sql:161-169 | a removed member is out and nothing else changed |
| `GroupEffects.AddMembersAdds` | schemas/stored_procedures/02_user_groups.sql:124-139 | all known users named are in and nothing else changed |
| `GroupEffects.BulkAssignAdds` | schemas/stored_procedures/02_user_groups.sql:124-139 | all known users named are in every active group named and nothing else changed |
| `GroupEffects.GrantLinkLinks` | schemas/stored_procedures/02_user_groups.sql:223-238 | the link to an active project group is there and nothing else changed |
| `GroupEffects.RevokeLinkUnlinks` | schemas/stored_procedures/02_user_groups.sql:241-253 | that link is gone and nothing else changed |
| `GroupEffects.AddProjectAdds` | schemas/stored_procedures/04_project_groups.sql:128-142 | the known project is in the group and nothing else changed |
| `GroupEffects.RemoveProjectRemoves` | schemas/stored_procedures/04_project_groups.sql:146-156 | the known project is out of the group and nothing else changed |
| `GroupEffects.CreateGroupCreates` | schemas/stored_procedures/02_user_groups.sql:26-37 | the new group is active under the requested name and binding; no edge and no other group changed |
| `GroupEffects.UpdateGroupUpdates` | schemas/stored_procedures/02_user_groups.sql:61-73 | the group has the requested name and binding or keeps its own; no edge and no other group changed |
| `GroupEffects.DeleteUserGroupDeletes` | schemas/stored_procedures/02_user_groups.sql:76-84 | the group is inactive and exactly its members and links are gone |
| `GroupEffects.DeleteProjectGroupDeletes` | schemas/stored_procedures/04_project_groups.sql:102-110 | the group is inactive and exactly its contents and links are gone |
| `GroupEffects.AccessAfter` | schemas/stored_procedures/02_user_groups.sql:300-327 | after any granted request a user reaches a project exactly along the paths there were, less those the request cuts and with those it completes |
| `GroupTheorems.WritesAreConfined` | src/Util/admin_group_scope.py:228-287 | a write by such a caller changes only footprints of groups it creates or that lay inside its projects, and keeps them inside |
| `GroupTheorems.WritesKeepAssignments` | src/Util/admin_group_scope.py:159-173 | such a write keeps members, links and reachable projects of all `admin_` groups, the name space, and everybody's scope |
| `GroupTheorems.RunsKeepAssignments` | src/Util/admin_scope.py:26-28 | the same over every sequence of authorized writes |
| `GroupTheorems.RunsSpareForeignGroups` | src/Util/admin_group_scope.py:67-79 | a group none of the acting admins could administer keeps its footprint over the whole run |
| `GroupTheorems.RunsStayInScope` | src/Util/admin_group_scope.py:67-79 | no group, old or new, comes to reach a project it did not reach and nobody who acted administers |
| `GroupTheorems.AccessChangesAreAnnounced` | src/Util/admin_group_scope.py:223-274 | every project a user gains or loses through a write, by root or not, is among the affected projects |
| `GroupAuthorization.Authorizer.RequireUsers` | src/Util/admin_group_scope.py:217-221 | passes exactly when every known user is in scope |
| `GroupAuthorization.Authorizer.RequireLinkedGroups` | src/Util/admin_group_scope.py:159-173 | passes exactly when every linked user group is ordinary and in scope |
| `GroupAuthorization.Authorizer.RequireNamedGroups` | src/Util/admin_group_scope.py:233-238 | passes exactly when every existing named group is ordinary and in scope, and collects their projects |
| `GroupAuthorization.Authorizer.AuthorizeProjectRelationship` | src/Util/admin_group_scope.py:265-274 | the linked groups and the project decide, the project is collected |
| `GroupAuthorization.Authorizer.Rebinding` | src/Util/admin_group_scope.py:276-287 | root only, to an existing project, and only then the binding is written |
| `GroupAuthorization.Authorizer.AuthorizeGroup` | src/Util/admin_group_scope.py:246-263 | verdict, affected projects and rebinding for requests on one group |
| `GroupAuthorization.Authorizer.Authorize` | src/Util/admin_group_scope.py:228-244 | the verdict of the preflight, exactly the affected projects, and no write but a root rebinding |
| `GroupAuthorization.RebindThenRename` | src/Util/admin_group_scope.py:262-287 | rebinding in the preflight and renaming in the handler add up to the one update |
| `GroupLock.NextKeepsInv` | src/Util/db_transaction.py:60-89 | what a request behind the lock resolved, cleared or wrote still holds of the committed graph after any step of any request |
| `GroupLock.InterleavingsAreSequential` | src/Util/admin_group_scope.py:300-324 | however requests interleave, the committed graph results from authorized writes one after another, each preflighted on the graph it replaces |
| `GroupLock.EveryCommitIsConfined` | src/Util/admin_group_scope.py:289-329 | whoever else commits, root included, each commit by a caller who is not root changes only footprints of groups it creates or that lay inside its projects at that moment, keeps them inside, and moves no assignment and no scope |
| `GroupLock.OnlyCommitsChangeTheGraph` | src/Util/db_transaction.py:60-89 | nothing but a commit changes the graph others see |
| `GroupLock.LockExcludes` | src/Util/db_transaction.py:60-89 | at most one request is past the lock |
| `GroupLock.UndisturbedRequestEnds` | src/Util/admin_group_scope.py:289-329 | a request nothing interleaves with commits its write if granted, changes nothing if refused, and gives the lock back |
| `GroupLock.InterleavedAdminsAreConfined` | src/Util/admin_group_scope.py:289-329 | when nobody who commits is root, over the whole interleaving assignments and scopes do not move, foreign groups keep their footprint, and no group comes to reach a project outside the scopes of those who committed |
| `GroupPaging.QueryRefinesScope` | src/Util/admin_group_scope.py:105-125 | for root, admin or project-less scopes the query selects exactly the active, matching groups in scope; for others it differs on exactly the groups inside the listed projects |
| `GroupPaging.ResolvedScopesRefine` | src/Util/admin_scope.py:128-139 | every resolved scope is of the first kind |
| `GroupPaging.ConsumerScopeWouldLeak` | src/Util/admin_scope.py:119-125 | a scope for which query and predicate disagree |
| `GroupPaging.Selected` | src/Util/admin_group_scope.py:130-131 | the rows counted are exactly those the query shows |
| `GroupPaging.ListingIsUnique` | src/Util/admin_group_scope.py:126-136 | ordering by column and id in one direction leaves no choice between executions |
| `GroupPaging.ListingIsSorted` | src/Util/admin_group_scope.py:125-136 | along the named column in the direction asked for, ids breaking ties in the same direction |
| `GroupPaging.ListedRowsAre` | src/Util/admin_group_scope.py:108-131 | listed are exactly the active rows that match the term and, unless for root, have projects and only projects of the caller |
| `GroupPaging.PagesAreComplete` | src/Util/admin_group_scope.py:126-141 | consecutive pages, each from its own execution, concatenate to the ordered listing, as long as the total, with each visible group once |
| `ScopeBackfill.BackfillPreservesMeaning` | scripts/migrations/group_scope_upgrade.py:33-55 | the two updates keep every footprint and every scope answer over the tables, and the comparison accepts the result |
| `ScopeBackfill.FootprintInGraph` | src/Util/admin_group_scope.py:24-42 | the footprints over table rows are those of the group graph the tables store |
| `ScopeBackfill.BackfillPreservesScopeAnswers` | src/Util/admin_group_scope.py:67-71 | in that graph every `group_in_scope` answer is the same before and after the backfill |
| `ScopeBackfill.UnboundExactlyWhenAmbiguous` | scripts/migrations/group_scope_upgrade.py:33-55 | a group ends unbound exactly if it was unbound and did not derive exactly one project |
| `ScopeBackfill.BoundToTheDerived` | scripts/migrations/group_scope_upgrade.py:33-55 | a newly bound group is bound to the one project it derived |
| `ScopeBackfill.BackfillIsIdempotent` | scripts/migrations/group_scope_upgrade.py:33-55 | applying the updates again changes nothing, timestamps included |
| `ScopeBackfill.AcceptedExactlyWhen` | scripts/migrations/group_scope_upgrade.py:137-151 | over tables in id order, accepted exactly if no member, content or link row came, went or changed, and no group came, went, was bound elsewhere or changed beyond a first binding and its timestamp |
| `ScopeBackfill.AcceptedKeepsMeaningWhen` | scripts/migrations/group_scope_upgrade.py:137-151 | accepted tables keep all footprints exactly when newly bound groups got projects they already reached |
| `ScopeBackfill.ComparisonMissesWrongBinding` | scripts/migrations/group_scope_upgrade.py:137-151 | accepted tables with a changed footprint |
| `ScopeBackfill.Migration.ApplyBackfills` | scripts/migrations/group_scope_upgrade.py:33-55 | the row-by-row updates in their order compute the backfill, and the comparison accepts it |
| `GroupTransaction.Meaning` | src/Util/db_transaction.py:102-123 | inside an item nothing poisons the transaction, poison is never lifted, and earlier callbacks are never lost |
| `GroupTransaction.FailedItemLeavesNoTrace` | src/Util/db_transaction.py:102-131 | an item that raises and is caught might as well not have been called |
| `GroupTransaction.PruningPreservesMeaning` | src/Util/db_transaction.py:102-131 | replacing every item that fails on the way, at any nesting, by the bare exception leaves no failing item and does not change database, callbacks or outcome |
| `GroupTransaction.PruningCutsOnlyFailures` | src/Util/db_transaction.py:102-131 | a request in which no item fails is left as it is |
| `GroupTransaction.PoisonedExactlyBy` | src/Util/db_transaction.py:41-46 | outside items a request is poisoned exactly if its execution reaches a helper rollback outside every item, however deep in caught bodies |
| `GroupTransaction.RollbackOutsideItemsDiscardsAll` | src/Util/db_transaction.py:41-85 | reaching such a rollback discards the whole request; it commits exactly without one, with a normal end and with the lock row |
| `GroupTransaction.ExecutedIsPrefix` | src/Util/db_transaction.py:90-97 | callbacks run in order, each once; some are left out exactly when one before the last is fatal |
| `GroupTransaction.ReportedMeans` | src/Util/db_transaction.py:90-99 | the request succeeds exactly if every callback does; otherwise the fatal callback is reported, or the first that failed |
| `GroupTransaction.BorrowedConnection.Rollback` | src/Util/db_transaction.py:41-46 | undoes the innermost item or poisons the transaction |
| `GroupTransaction.BorrowedConnection.ExecuteItem` | src/Util/db_transaction.py:102-123 | savepoint, rollback, truncation and release have the snapshot meaning; live names stay distinct and the outer savepoints untouched |
| `GroupTransaction.BorrowedConnection.Execute` | src/Util/db_transaction.py:18-131 | any nesting of items does exactly what its meaning says and leaves the savepoints as found |
| `GroupTransaction.BorrowedConnection.RunCallbacks` | src/Util/db_transaction.py:89-99 | which callbacks run and what is reported |
| `GroupTransaction.BorrowedConnection.RunTransaction` | src/Util/db_transaction.py:60-99 | commits exactly when the request ends normally, unpoisoned and with the lock row; otherwise nothing changes and no callback runs |
| `RequirementWalk.Walker.Visit` | scripts/test-runtime-fingerprint.py:127-198 | terminates; success finishes the file with the stack restored, failure implies an unusable file, a cycle or a conflict among the reachable files |
| `RequirementWalk.Walker.ReadLines` | scripts/test-runtime-fingerprint.py:147-195 | all lines acceptable, includes finished and pins collected, or the files are flawed |
| `RequirementWalk.Walker.CycleFound` | scripts/test-runtime-fingerprint.py:129-132 | meeting a file of the stack again proves a reachable include cycle |
| `RequirementWalk.FinishedIsAcyclic` | scripts/test-runtime-fingerprint.py:133-198 | the finishing order excludes cycles |
| `RequirementWalk.AllVisited` | scripts/test-runtime-fingerprint.py:200-207 | once all roots are finished the visited files are the reachable ones, the files are sound and the pins are exactly the active ones |
| `RequirementWalk.Walker.SortedPins` | scripts/test-runtime-fingerprint.py:207-207 | the pins in strictly increasing order of names |
| `RequirementWalk.Walker.Collect` | scripts/test-runtime-fingerprint.py:105-207 | fails exactly without root files, on flawed files or without pins; otherwise the sorted list of exactly the active pins |
| `RequirementWalk.OrderDoesNotMatter` | scripts/test-runtime-fingerprint.py:200-207 | neither success nor the list depends on the order of roots, includes or pins |

## Left out

- JWT signing, SHA-256, Fernet and HMAC: a signed token is its claims, and a token hash is the token.
- Expiry of presented tokens by the JWT library: presented refresh claims are issued ones of any age.
- Records without the fields current code writes (legacy families, sessions without collection), the permission, group and plan lists in a session, and the `session_full` cache.
- Redis TTL arithmetic: lapsing is a step. The family, anchor, current token and used set of a live family, written with one TTL by one EXEC, lapse together; spent token records of an ordinary live family lapse in the order they were spent, since each rotation gives the record it spends the same lifetime; everything else may lapse alone at any time.
- A key that lapses while it is watched makes the EXEC fail, as Redis does since 6.0.9; the compose file of the repository runs 7.4.9.
- One clock reading serves a whole rotation, and `_issue_token_pair` is one step.
- The session sweep of a revocation inside the concurrent protocol: there a session record may vanish at any step. The sweep itself is `AuthStore.Redis.RevokeRefreshFamily`.
- Concurrency within the index walks of `AuthStore`: they run undisturbed, with the index keys as found at their start.
- Decoding an access token to find the current session before revoking the others.
- The completion record, the link proof and the reauthentication marker of an OAuth authorization: they only add refusals.
- Route handlers: each named write is the one obvious edit, after a granted preflight; response shaping and read operations are not modelled.
- Unicode collation and SQL `LIKE`: names are collation keys, and matching is a parameter of the listing.
- The two kinds of 403 error codes of a refused group request are one refusal.
- Stored procedures, triggers and DDL beyond the row changes they make; table definitions and triggers in the migration's verification.
- Other holders of the graph lock (registration, provisioning, maintenance). Root requests take part in interleavings; only the run-level form of confinement is about runs without them.
- Path validation, comment stripping and requirement syntax of the include walk: a line is given by what the parser makes of it.
- Logging, error messages, cookies, login responses, bulk routes, audit, billing, OAuth provisioning and schema bootstrap.
