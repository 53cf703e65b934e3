# Gateway protocols, verified

This project models the concurrent state machines at the heart of the MCP gateway and proves, for
every run of them, what the gateway relies on. Sections that run under a lock are single steps; what
happens between them may interleave in any order. Clocks, random secrets, provider replies and
digests are parameters. Each component is its own module:

- **Provider credentials.** One connection row and many custody rows per principal; authorization
  callbacks, renewals, disconnects, cleanup workers and metadata writers act on them
  (`ConnectionRecords`, `ConnectionSections`, `LifecycleSteps`). `TokenStores` and
  `ConnectionLifecycles` are the objects that update the rows in place. `StaleAuthorizations`,
  `RowMoves`, `StandingClock`, `CustodyInvariant`, `LifecycleSafety`, `LifecycleTheorems` and
  `LifecycleFindings` hold the proofs over runs; `StoreLaws`, `LifecycleEffects` and `StepLaws` say,
  row by row, what each operation does to what. Runs (`Run`) take any steps with any readings of the clock;
  only results on dates and stale guards restrict the clock (`Exec`: strictly increasing, `TickAll`:
  not running back).
- **Authorization broker.** Transaction, code, rotating refresh family (sections 4.1.2, 4.1.3 and 6
  of RFC 6749, section 4.6 of RFC 7636, section 4.14.2 of RFC 9700): `RefreshTokens`,
  `RefreshRefinement` (the relational store), `AuthorizationStores`, `AuthorizationBroker`,
  `BrokerLaws` (each call, by its fields), `GrantProvenance`, `HonestClients`, and `BrokerOverSql` (the
  broker over either store).
- **Output.** Streaming redaction (`Texts`, `Redaction`, `RedactedOutput`), job event logs and
  subscribers (`JobEvents`), the execution that feeds and settles them (`JobExecution`), JSON lines
  (`Ndjson`, `NdjsonPrinting`), and the stream the shim reads (`DirectStream`).
- **Bounded tables.** Jobs (`JobTables`, `JobRuns`, `JobLaws`), sessions (`Sessions`), registrations
  (`RegistrationLimiter`), and the promise-chain lock (`ConnectionLocks`).
- **Policy.** First-match rules and their composition (`Policy`, `PolicyLaws`).

`dafny verify dfyconfig.toml` checks everything.

## What turned out differently

Each of these is a lemma with a concrete input or run, next to the exact condition under which the
expected property holds.

- A manual refresh refused for scope, while the principal has only an authorization marker, saves the
  made-up authorizing record as an enabled connection of generation 0 without custody
  (shared/oauth/connection-lifecycle.ts:879-890). In every run such a connection appears exactly with
  that step (`PhantomAppearsExactly`, `PhantomIsReachable`). All other results hold of runs that
  contain it; every enabled connection of an activated generation still names its active custody row.
  While the marker lives, a committed authorization or disconnect of that principal is impossible
  (`PhantomLocksOut`). The in-memory store does not roll back: there the failing disconnect has
  cleared the marker, and the failing activation has left its candidate active, as the contracts of
  `Disconnect` and `ActivateAuthorizedGeneration` say.
- A renewal that was activated but whose reply was lost, then authorized over, is rejected with the
  credential as issued, not as merged: the renewal credential carried over then stands in no row
  (`RejectionCanDropRenewal`, a run of seven steps). In every run a rejection overwrites what the row
  holds exactly if the row was active and the provider's answer left something out
  (`RejectionOverwritesExactly`).
- With a clock that may stand still, a guard can survive a disconnect: a principal disconnected twice
  within one reading (`RepeatedDisconnectKeepsGuard`). In every run it survives exactly if the row was
  already disabled when the guard was captured and everything since wrote it under the same date and
  generation (`StaleGuardUnlessClockStands`); at the disconnect itself that is a condition on the rows
  before it (`StaleGuardAtDisconnect`).
- A refresh request that repeats a scope is refused by the in-memory store and rotated by the
  relational one (`RotateAlikeUnlessRepeated`, `RepeatedScopePartsStores`). The broker never sends
  one, so it grants alike over both (`BrokerGrantsAlike`).
- The redactor is independent of chunk boundaries exactly if no secret ends inside another one; a
  secret that is a mere suffix of another does no harm (`ChunkingIsInvisibleUnlessCutShort`).
- A U+FFFD at the end of an emitted piece is lost (`ReplacementCharacterIsLost`). Without a limit the
  whole redacted text comes through exactly if no piece ends in one (`UnboundedOutputIsPassExactly`).
- In the remote shell a cancellation acknowledged after its job ended makes the finished job count
  as running again (servers/remote-shell/src/http.ts:315-318). Counted by completion the owner cap
  always holds (`TableStaysBounded`); counted by status, as admission counts, it is broken exactly by
  a late acknowledgement for an owner at the cap (`AckBreaksStatusCap`, `LateAcknowledgementCountsTwo`).
- A token without scopes can lose an allow (`NoScopesCanLoseTheAllow`): it is decided exactly as if
  the rules about scopes were not there (`NoScopesSkipScopeRules`).

Two more lemmas show that hypotheses of a law cannot be dropped: fewer scopes keep an allow but can
turn a demand for approval into a denial (`FewerScopesCanTurnApprovalIntoDenial`), and a bounded sink
holds a prefix for single-byte text, while after a character too wide for the remaining budget
narrower text still passes (`WideCharacterIsSkipped`).

## Model

| member | source | states |
|---|---|---|
| `StaleAuthorizations.StaleGuardNeverActivates` | shared/oauth/connection-lifecycle.ts:40-68 | for every run with a strictly increasing clock: a guard captured before a committed disconnect, from no row, a made-up record, an enabled or a disabled row, never lets any candidate activate after it |
| `StaleAuthorizations.DisconnectFencesUnlessClockStands` | shared/oauth/connection-lifecycle.ts:205-219 | one disconnect from dated rows leaves the guard standing if and only if the row was already disabled with the same date |
| `StandingClock.StaleGuardUnlessClockStands` | shared/oauth/connection-lifecycle.ts:40-68 | for every run under a clock that may stand still: a guard captured before a committed disconnect holds later if and only if the row was disabled then and everything since kept its generation and wrote no other date |
| `StandingClock.StaleGuardAtDisconnect` | shared/oauth/connection-lifecycle.ts:205-219 | right after the disconnect it holds if and only if the row was already disabled when it was captured, dated like the disconnect, and no generation was activated in between |
| `StandingClock.RepeatedDisconnectKeepsGuard` | shared/oauth/connection-lifecycle.ts:646-727 | the run of two disconnects within one reading of the clock, between which a captured guard survives |
| `StandingClock.TickAllShifts` | shared/oauth/connection-lifecycle.ts:205-299 | under such a clock generations never go back, and a disabled row stays disabled, dated no earlier, until a new generation |
| `StaleAuthorizations.ExecMoves` | shared/oauth/connection-lifecycle.ts:205-299 | over every run rows stay mirrored and dated within the clock, dates and generations never go back, and a disabled row is enabled again only under a new generation |
| `StaleAuthorizations.GetConnectionSees` | shared/oauth/memory-store.ts:153-196 | what a caller is shown is the stored row up to phase and required scopes, or a made-up authorizing record only where there is no row |
| `LifecycleTheorems.ConnectionsStayConsistent` | shared/oauth/connection-lifecycle.ts:229-299 | in every state that any run reaches, whatever the clock reads, an enabled connection of an activated generation names the active custody record of its own generation, one that was never activated names none and holds nothing, and active records belong to enabled, activated connections only |
| `LifecycleTheorems.PhantomAppearsExactly` | shared/oauth/connection-lifecycle.ts:879-890 | in every run an enabled connection that was never activated appears with a step if and only if that step is the refused refresh over a mere marker |
| `LifecycleTheorems.PhantomsComeFromRefusals` | shared/oauth/connection-lifecycle.ts:879-890 | such a connection at the end of a run was there before it or was stored by such a refusal in it |
| `LifecycleTheorems.EnabledNamesItsCustody` | shared/oauth/connection-lifecycle.ts:713-728 | without such a refusal for the principal, its enabled connection names its active custody record |
| `LifecycleTheorems.PhantomIsReachable` | shared/oauth/connection-lifecycle.ts:1385-1410 | the two-step run that stores such a row |
| `LifecycleTheorems.PhantomLocksOut` | shared/oauth/store.ts:55-73 | while the marker lives, activation and disconnect over such a row both abort |
| `LifecycleTheorems.RevocationInLockStep` | shared/oauth/connection-lifecycle.ts:1448-1492 | for a provider with revocation, a disabled connection is pending, complete or permanently failed exactly as its custody record is, however workers race; complete means the material is erased |
| `LifecycleTheorems.GenerationCountsActivations` | shared/oauth/connection-lifecycle.ts:247-297 | the generation equals the number of activations, the i-th was made under generation i, and no custody record is activated twice |
| `LifecycleTheorems.GenerationNeverDecreases` | shared/oauth/connection-lifecycle.ts:1178-1256 | no run removes a connection row or lowers its generation, and none enables a disabled row under the same generation |
| `LifecycleTheorems.DatesNeverGoBack` | shared/oauth/connection-lifecycle.ts:1178-1256 | under a strictly increasing clock the date of a connection row does not go back |
| `RowMoves.ActShifts` | shared/oauth/connection-lifecycle.ts:205-299 | any step, whatever it reads, keeps account and connection rows mirrored and generations from going back; under a clock that does not run back, also the dates of disabled rows |
| `LifecycleTheorems.MaterialIsConserved` | shared/oauth/connection-lifecycle.ts:1213-1276 | a custody record is never lost, terminal states are absorbing, material is erased only by a finished cleanup or on retirement by an activated successor that keeps a renewal credential, and it is exchanged only in a renewal's record, between the credential issued and that merged |
| `LifecycleTheorems.MaterialChangesOnlyInRenewals` | shared/oauth/connection-lifecycle.ts:1303-1306 | one step of any run exchanges material only by activating a renewal (candidate to active, merged) or by rejecting it when active (back to the credential as issued) |
| `LifecycleTheorems.MaterialIsGenuine` | shared/oauth/connection-lifecycle.ts:2076-2085 | what a record holds is what the provider issued for it, or for a renewal that merged with the credential it replaced |
| `LifecycleTheorems.QueuedCleanupIsNeverLost` | shared/oauth/connection-lifecycle.ts:1722-1729 | a queued cleanup is at all times in the queue or in custody |
| `LifecycleTheorems.RunKeeps` | shared/oauth/connection-lifecycle.ts:1606-1627 | the whole invariant, and the moves custody rows may make, over every run, with any readings of the clock, from any state that satisfies it |
| `LifecycleFindings.RejectionOverwritesExactly` | shared/oauth/connection-lifecycle.ts:1282-1313 | in every run a rejection changes the material of the record it queues if and only if that record was active and the provider's answer left out something the credential before it had |
| `LifecycleFindings.RejectionCanDropRenewal` | shared/oauth/connection-lifecycle.ts:1303-1306 | a run from the empty store after which rejecting a renewal leaves an unrevoked renewal credential in no record |
| `LifecycleFindings.FirstAuthorization` | shared/oauth/connection-lifecycle.ts:229-299 | the first step of that history: a first authorization, row for row |
| `LifecycleFindings.RenewalActivates` | shared/oauth/connection-lifecycle.ts:1172-1277 | the second: the renewal activates with the merged credential and retires its predecessor |
| `LifecycleFindings.AuthorizedOver` | shared/oauth/connection-lifecycle.ts:205-299 | the third: an authorization over it leaves the renewed row active |
| `ConnectionRecords.MergeRotatedCredential` | shared/oauth/connection-lifecycle.ts:2076-2085 | a renewal credential survives rotation if and only if the provider does not send an empty one |
| `ConnectionRecords.MergeIsExact` | shared/oauth/connection-lifecycle.ts:2076-2085 | field by field, what the replacement has wins and the rest is carried over; the merge differs from the replacement if and only if that leaves something out |
| `ConnectionRecords.SnapshotAuthorizationGuard` | shared/oauth/connection-lifecycle.ts:50-68 | a captured guard is complete, holds of what it was captured from, and holds of nothing of another generation, another disabled state or, where there was a row, another date |
| `TokenStores.TokenStore.GetConnection` | shared/oauth/memory-store.ts:153-196 | the stored row, its legacy form or the authorizing overlay, as specified |
| `TokenStores.TokenStore.SaveConnection` | shared/oauth/memory-store.ts:198-228 | writes the connection and its account row exactly if the guard admits it, else nothing |
| `TokenStores.TokenStore.UpdateCredentialGeneration` | shared/oauth/memory-store.ts:282-293 | compare-and-set on state and attempt count |
| `TokenStores.TokenStore.ListPrincipalCredentialGenerations` | shared/oauth/memory-store.ts:295-331 | exactly the principal's records, each once |
| `ConnectionLifecycles.ConnectionLifecycle.ActivateAuthorizedGeneration` | shared/oauth/connection-lifecycle.ts:199-299 | statement by statement, the locked activation step and the rows it leaves in every case; once the candidate is claimed it fails exactly over a row the write guard takes for made up, with the candidate left active |
| `ConnectionLifecycles.ConnectionLifecycle.ActivateRenewedGeneration` | shared/oauth/connection-lifecycle.ts:1164-1277 | the locked renewal activation, and that its save and its retirement never fail once the candidate was claimed |
| `ConnectionLifecycles.ConnectionLifecycle.RejectRenewedGeneration` | shared/oauth/connection-lifecycle.ts:1282-1330 | the locked rejection: candidate or active row queued, connection marked only under the same reading |
| `ConnectionLifecycles.ConnectionLifecycle.HandoffPrincipalCredentialGenerations` | shared/oauth/connection-lifecycle.ts:1425-1446 | the loop queues every active and candidate record of the principal and no other |
| `ConnectionLifecycles.ConnectionLifecycle.DisableConnection` | shared/oauth/connection-lifecycle.ts:646-727 | the first half of a disconnect; where it fails only the marker is gone |
| `ConnectionLifecycles.ConnectionLifecycle.Disconnect` | shared/oauth/connection-lifecycle.ts:640-745 | the locked disconnect; it fails exactly over a row the write guard takes for made up, and then only the marker is gone |
| `ConnectionLifecycles.ConnectionLifecycle.FinalizeCredentialCleanup` | shared/oauth/connection-lifecycle.ts:1448-1492 | the locked finalisation moves the record and, with it, the disabled connection that points at it |
| `ConnectionLifecycles.AdmitsOwnReading` | shared/oauth/store.ts:55-73 | the guard of a reading made in the same section admits its write exactly if the row does not look made up |
| `LifecycleEffects.CleanupFollowsAnswer` | shared/oauth/connection-lifecycle.ts:1448-1492 | in every run a step that finishes a cleanup erases the material and completes record and connection for a revoked, absent or unsupported credential only; a permanent refusal keeps the material and leaves both permanently failed; a retryable failure keeps it pending with one more attempt; a snapshot that no longer stands changes nothing |
| `LifecycleEffects.CleanupSparesOthers` | shared/oauth/connection-lifecycle.ts:1660-1704 | over any rows, a cleanup leaves a connection alone unless it is disabled, pending, and names the record under its generation |
| `LifecycleEffects.AuthorizedExactly` | shared/oauth/connection-lifecycle.ts:199-245 | exactly when an authorization activates: guard, revocation state, unresolved cleanups, candidate still one, row not masked |
| `LifecycleEffects.AuthorizedLeaves` | shared/oauth/connection-lifecycle.ts:247-299 | what it leaves, field by field, and which rows it leaves alone |
| `LifecycleEffects.IssuanceIsAllowedExactly` | shared/oauth/connection-lifecycle.ts:935-1010 | exactly when a renewal may ask the provider |
| `LifecycleEffects.IssuancePrepares` | shared/oauth/connection-lifecycle.ts:935-1010 | the candidate it prepares: next generation, the credential as issued, the scopes answered or else those granted before |
| `LifecycleEffects.RenewedExactly` | shared/oauth/connection-lifecycle.ts:1164-1213 | exactly when a renewal activates, is already overtaken, or conflicts |
| `LifecycleEffects.RenewedLeaves` | shared/oauth/connection-lifecycle.ts:1213-1277 | the connection and the two custody rows it leaves |
| `LifecycleEffects.RejectedExactly` | shared/oauth/connection-lifecycle.ts:1282-1330 | exactly when a rejection queues its record, and exactly when and how it marks the connection |
| `LifecycleEffects.FailureIsNotedExactly` | shared/oauth/connection-lifecycle.ts:1385-1410 | a failure is noted unless the row is masked, and changes phase, category and date only |
| `LifecycleEffects.DisableIsOneSave` | shared/oauth/connection-lifecycle.ts:646-727 | the row a disconnect writes, by field, for no row, a disabled and an enabled one |
| `LifecycleEffects.DisconnectedExactly` | shared/oauth/connection-lifecycle.ts:640-745 | exactly when a disconnect commits, and that the marker goes |
| `LifecycleEffects.DisconnectQueues` | shared/oauth/connection-lifecycle.ts:1425-1446 | exactly which custody rows it queues, and the row it adopts for a credential that had none |
| `LifecycleEffects.QueuedIsMovedAsItIs` | shared/oauth/connection-lifecycle.ts:1722-1729 | a queued cleanup enters custody with all it had |
| `LifecycleEffects.BackfilledExactly` | shared/oauth/connection-lifecycle.ts:398-467 | exactly when account identity is filled in, and that nothing else changes |
| `LifecycleEffects.RepairedExactly` | shared/oauth/connection-lifecycle.ts:523-577 | exactly when a connection is reopened, and its later date |
| `StepLaws.MarkersAreSet` | shared/oauth/memory-store.ts:333-355 | marking and clearing change one marker and nothing else |
| `StepLaws.StartStoresCandidate` | shared/oauth/connection-lifecycle.ts:141-154 | the candidate a callback stores |
| `StepLaws.ActivationProgresses` | shared/oauth/connection-lifecycle.ts:155-325 | where an attempt stands after a refusal, a failure, a lost reply and a success |
| `StepLaws.InspectionDecides` | shared/oauth/connection-lifecycle.ts:301-322 | after an error a candidate is kept exactly if the connection names it |
| `StepLaws.WithdrawalQueues` | shared/oauth/connection-lifecycle.ts:1606-1627 | an unwanted record, candidate or active, is queued, and any other left |
| `StepLaws.IssuanceIsRemembered` | shared/oauth/connection-lifecycle.ts:966-1080 | a candidate whose store failed is stored by the retry as if at once, and storing it twice changes nothing |
| `StepLaws.WorkersTakeUp` | shared/oauth/connection-lifecycle.ts:1746-1778 | exactly when a worker takes up a candidate and when a queue entry goes |
| `StepLaws.RefusalsAreNoted` | shared/oauth/connection-lifecycle.ts:879-890 | refused and failed renewals are noted on enabled connections only |
| `StoreLaws.ExpiredMarkerIsNone` | shared/oauth/memory-store.ts:153-196 | once its marker has expired a caller sees what it would see without one |
| `StoreLaws.LiveMarkerShows` | shared/oauth/memory-store.ts:153-196 | a live marker shows on rows that are not connected and as a made-up record where there is none |
| `StoreLaws.LegacyAccountShows` | shared/oauth/memory-store.ts:414-436 | the connection made of an account row, by field |
| `StoreLaws.LegacyMarkerShows` | shared/oauth/memory-store.ts:153-196 | over an account row a live marker shows exactly if the account is revoked |
| `StoreLaws.SavesExactly` | shared/oauth/memory-store.ts:198-228 | exactly when a save is admitted, and the two rows it writes |
| `StoreLaws.GuardsExactly` | shared/oauth/store.ts:55-73 | the write guard of what was read, by field |
| `StoreLaws.UpdatesExactly` | shared/oauth/memory-store.ts:282-293 | exactly when a compare-and-set takes effect |
| `StoreLaws.CustodyIsRecordedOnce` | shared/oauth/memory-store.ts:271-280 | a second save under one id changes nothing |
| `StoreLaws.GuardHoldsExactly` | shared/oauth/connection-lifecycle.ts:205-219 | exactly which captured guards hold of what is shown |
| `StoreLaws.SnapshotIs` | shared/oauth/connection-lifecycle.ts:50-68 | what is captured |
| `ConnectionLocks.ExclusiveInArrivalOrder` | shared/oauth/memory-store.ts:357-380 | for any number of callers and any schedule, two callers of one key are never inside together and enter in the order they came |
| `ConnectionLocks.EntryExactlyWhileInUse` | shared/oauth/memory-store.ts:370-379 | the map has an entry for a key if and only if somebody holds it or waits for it |
| `ConnectionLocks.NobodyIsStuck` | shared/oauth/memory-store.ts:364-376 | while a key is in use some caller of it holds the lock or can take its next step |
| `RefreshTokens.OneLiveTokenPerFamily` | shared/oauth/authorization-broker.ts:171-220 | in every run a family has at most one unused, unrevoked token |
| `RefreshTokens.RotatesAtMostOnce` | shared/oauth/authorization-broker.ts:178-183 | a token that rotated is answered as a replay ever after |
| `RefreshTokens.ReplayEndsFamily` | shared/oauth/authorization-broker.ts:178-183 | after a replay no token of that family, present or later, rotates |
| `RefreshTokens.RotatesExactly` | shared/oauth/authorization-broker.ts:171-202 | exactly when the map rotates a token |
| `RefreshTokens.RotationLeaves` | shared/oauth/authorization-broker.ts:203-220 | the used token, and a successor with exactly the scopes asked for or else the same |
| `RefreshTokens.RefusalLeaves` | shared/oauth/authorization-broker.ts:178-202 | a replay revokes the family and nothing else; other refusals change nothing |
| `RefreshRefinement.FreshStoresRotateAlike` | shared/oauth/sql-authorization-store.ts:111-246 | fed the same saves and rotations, both stores rotate exactly the same requests with the same record, whatever the relational one has pruned |
| `RefreshRefinement.RotateAlikeUnlessRepeated` | shared/oauth/sql-authorization-store.ts:162-246 | on related stores the map rotates a request if and only if the table does and it repeats no scope |
| `RefreshRefinement.ServeKeepsSim` | shared/oauth/sql-authorization-store.ts:111-136 | every request keeps the relation: the table holds all but whole families that expired, and family members share one expiry |
| `RefreshRefinement.RepeatedScopePartsStores` | shared/oauth/authorization-broker.ts:184-191 | the request on which the stores differ |
| `RefreshRefinement.SqlRotatesExactly` | shared/oauth/sql-authorization-store.ts:162-246 | exactly when the table rotates a token |
| `RefreshRefinement.SqlRotationLeaves` | shared/oauth/sql-authorization-store.ts:162-246 | the used row, and a successor with exactly the scopes asked for or else the same |
| `RefreshRefinement.SqlRefusals` | shared/oauth/sql-authorization-store.ts:137-246 | each refusal by its cause, and what it leaves |
| `RefreshRefinement.SqlSaves` | shared/oauth/sql-authorization-store.ts:111-135 | a save drops exactly the expired rows |
| `RefreshRefinement.SqlRefreshTokenStore.SaveRefreshToken` | shared/oauth/sql-authorization-store.ts:111-135 | prunes what has expired, then inserts |
| `RefreshRefinement.SqlRefreshTokenStore.RotateRefreshToken` | shared/oauth/sql-authorization-store.ts:137-246 | the rotation statement: replay revokes the family, a valid token is consumed and replaced, the refusals in their order |
| `AuthorizationStores.AuthorizationStore.ConsumeTransaction` | shared/oauth/authorization-broker.ts:149-153 | hands out a transaction and forgets it |
| `AuthorizationStores.AuthorizationStore.ConsumeAuthorizationCode` | shared/oauth/authorization-broker.ts:160-164 | hands out a code and forgets it |
| `AuthorizationStores.AuthorizationStore.RevokeTokensOf` | shared/oauth/authorization-broker.ts:178-182 | the loop revokes the whole family and nothing else |
| `AuthorizationStores.AuthorizationStore.RotateRefreshToken` | shared/oauth/authorization-broker.ts:171-220 | the rotation, with its refusals in their order |
| `AuthorizationBroker.ParseScopes` | shared/oauth/authorization-broker.ts:833-839 | accepts exactly non-empty requests within the allowed scopes, and returns them each once |
| `AuthorizationBroker.OAuthBroker.BeginAuthorization` | shared/oauth/authorization-broker.ts:390-483 | a request that passes every check becomes a transaction |
| `AuthorizationBroker.OAuthBroker.ConsumeLiveTransaction` | shared/oauth/authorization-broker.ts:717-731 | the transaction if it is there and has not expired; it is gone either way |
| `AuthorizationBroker.OAuthBroker.CompleteGoogleAuthorization` | shared/oauth/authorization-broker.ts:485-537 | a live transaction and a verified identity become a code |
| `AuthorizationBroker.OAuthBroker.DenyGoogleAuthorization` | shared/oauth/authorization-broker.ts:539-554 | a denial uses the transaction up |
| `AuthorizationBroker.OAuthBroker.ExchangeAuthorizationCode` | shared/oauth/authorization-broker.ts:556-615 | a bound code becomes an access token and perhaps the first token of a family; the code is gone either way |
| `AuthorizationBroker.OAuthBroker.ExchangeRefreshToken` | shared/oauth/authorization-broker.ts:617-672 | a rotation becomes an access token for the effective scopes |
| `GrantProvenance.AccessTokensTrace` | shared/oauth/authorization-broker.ts:390-672 | every access token of every run stands in a line of renewals that goes back to one exchange, one completion and one beginning, told by the calls alone: the verifier exchanged hashes to the challenge begun with, the redirect URI is the same, the identity is what the provider vouched for under that beginning's verifier and nonce, completion and exchange came within their lifetimes; each renewal carries exactly the words it asked for, or else exactly the scopes of the grant whose token it presents, and comes before the deadline fixed at the exchange |
| `GrantProvenance.OriginIsUnique` | shared/oauth/authorization-broker.ts:390-672 | with fresh secrets that line, exchange, completion and beginning are the only ones |
| `GrantProvenance.GrantsAreSingleUse` | shared/oauth/authorization-broker.ts:149-164 | in every run a transaction is completed at most once and a code is exchanged at most once |
| `HonestClients.HonestClientIsGranted` | shared/oauth/authorization-broker.ts:390-615 | the converse, in every run: a beginning in form, a completion in time with an identity and an exchange in time with the proof by a registered client are granted, for that identity and exactly the words asked for |
| `BrokerLaws.BeginsExactly` | shared/oauth/authorization-broker.ts:390-470 | exactly which requests begin |
| `BrokerLaws.BeginsWith` | shared/oauth/authorization-broker.ts:441-483 | the transaction, by field, from the request |
| `BrokerLaws.BeginRefusals` | shared/oauth/authorization-broker.ts:390-440 | which fault is told by which error |
| `BrokerLaws.CompletesExactly` | shared/oauth/authorization-broker.ts:485-537 | exactly which completions give a code |
| `BrokerLaws.CompletesWith` | shared/oauth/authorization-broker.ts:510-537 | the code, by field; the transaction is gone |
| `BrokerLaws.DeniesExactly` | shared/oauth/authorization-broker.ts:539-554 | exactly which denials are accepted, and what they leave |
| `BrokerLaws.ExchangesExactly` | shared/oauth/authorization-broker.ts:556-600 | exactly which exchanges are granted |
| `BrokerLaws.ExchangesWith` | shared/oauth/authorization-broker.ts:600-615 | the access token and the first refresh token, by field |
| `BrokerLaws.ExchangeRefusals` | shared/oauth/authorization-broker.ts:556-600 | which fault is told by which error |
| `BrokerLaws.RenewsExactly` | shared/oauth/authorization-broker.ts:617-660 | exactly which renewals are granted |
| `BrokerLaws.RenewsWith` | shared/oauth/authorization-broker.ts:660-672 | the access token, by field, for exactly the scopes in effect |
| `BrokerLaws.RenewRefusals` | shared/oauth/authorization-broker.ts:617-660 | which fault is told by which error |
| `BrokerLaws.RenewRefusalsLeave` | shared/oauth/authorization-broker.ts:617-660 | what a refused renewal leaves |
| `BrokerLaws.SpacesSeparate` | shared/oauth/authorization-broker.ts:833-839 | words are what white space separates |
| `BrokerLaws.SpacesAre` | shared/oauth/authorization-broker.ts:833-839 | which characters are white space |
| `BrokerLaws.FirstComeFirst` | shared/oauth/authorization-broker.ts:833-839 | scopes are kept in the order in which they first came |
| `BrokerOverSql.BrokerRequestsAreAdmissible` | shared/oauth/authorization-broker.ts:556-657 | what the broker asks of its refresh store over a whole run with fresh secrets and a clock that does not run back is an admissible run of requests, and its tokens are what serving them leaves |
| `BrokerOverSql.BrokerGrantsAlike` | shared/oauth/sql-authorization-store.ts:111-246 | over either store the broker answers every call of every such run alike: the same reply, or a refusal both times |
| `BrokerOverSql.SqlAccessTokensTrace` | shared/oauth/sql-authorization-store.ts:111-246 | over the relational store every access token traces back in the same way, with the same exact scopes |
| `Redaction.EveryOccurrenceIsTouched` | shared/cli/command-execution.ts:229-317 | for all non-empty secrets and every chunking, each occurrence of a secret overlaps a redaction, and the redacted spans and shown characters make up the whole input |
| `Redaction.ChunkingIsInvisibleUnlessCutShort` | shared/cli/command-execution.ts:254-272 | the stream equals one left-to-right pass for every chunking if and only if no secret occurs in another one and ends before it |
| `Redaction.StreamIsPass` | shared/cli/command-execution.ts:241-272 | the equality, from any pending text |
| `Redaction.OnlySecretsAreHidden` | shared/cli/command-execution.ts:254-272 | however the text is cut, each mark stands for a secret and the rest is shown |
| `Redaction.PassShows` | shared/cli/command-execution.ts:254-272 | one pass shows the text before the earliest secret, a mark for it, and goes on behind it |
| `Redaction.PassShowsPlain` | shared/cli/command-execution.ts:254-272 | text without a secret is shown as it is |
| `Redaction.Earliest` | shared/cli/command-execution.ts:286-303 | the leftmost occurrence of any secret, and the longest one there |
| `Redaction.Held` | shared/cli/command-execution.ts:305-317 | the longest end of the text that begins a longer secret |
| `RedactedOutput.BoundedOutputIsPrefix` | shared/cli/command-execution.ts:274-283 | for single-byte text, however cut, the sink receives exactly the limit-long prefix of the one pass |
| `RedactedOutput.UnboundedOutputIsPassExactly` | shared/cli/command-execution.ts:229-284 | without a limit the sink receives exactly the one pass if and only if no piece handed on ends in U+FFFD |
| `RedactedOutput.UnlimitedEmitsAllExactly` | shared/cli/command-execution.ts:274-283 | without a limit all pieces come through if and only if none ends in U+FFFD |
| `RedactedOutput.StreamReceives` | shared/cli/command-execution.ts:241-252 | pushing any chunks and flushing leaves in the sink what the whole-stream functions say |
| `RedactedOutput.OutputNeverExceedsLimit` | shared/cli/command-execution.ts:274-283 | for any text the emitted bytes are counted right and never exceed the limit |
| `RedactedOutput.EmitsMost` | shared/cli/command-execution.ts:274-283 | a piece is cut to the most whole characters that fit, less a final U+FFFD |
| `RedactedOutput.WholeIsMost` | shared/cli/command-execution.ts:274-283 | one more character would exceed the budget |
| `RedactedOutput.WidthIsLeast` | shared/cli/command-execution.ts:274-283 | a character takes the fewest bytes that hold it in UTF-8 |
| `RedactedOutput.ReplacementCharacterIsLost` | shared/cli/command-execution.ts:277-280 | a replacement character that ends a chunk is dropped |
| `RedactedOutput.WideCharacterIsSkipped` | shared/cli/command-execution.ts:274-283 | text after a character that does not fit is still emitted |
| `RedactedOutput.EarliestSecret` | shared/cli/command-execution.ts:286-303 | the loop over the secrets finds the specified match |
| `RedactedOutput.LongestSecretPrefixSuffix` | shared/cli/command-execution.ts:305-317 | the two loops find the specified length |
| `RedactedOutput.RedactedOutputStream.Drain` | shared/cli/command-execution.ts:254-272 | the loop emits and keeps what is specified |
| `RedactedOutput.RedactedOutputStream.EmitBounded` | shared/cli/command-execution.ts:274-283 | the cut to whole characters within the budget, less a final replacement character |
| `RedactedOutput.RedactedOutputStream.Push` | shared/cli/command-execution.ts:241-245 | one chunk; nothing after the flush |
| `RedactedOutput.RedactedOutputStream.Flush` | shared/cli/command-execution.ts:247-252 | everything pending goes out, once |
| `JobTables.JobTable.Prune` | servers/governed-cli/src/http.ts:202-207 | drops exactly the jobs whose retention is over |
| `JobTables.JobTable.AdmitJob` | servers/governed-cli/src/http.ts:209-230 | a refusal evicts nobody; an admission evicts at most one job, the finished one that finished first |
| `JobTables.JobTable.ReleaseAdmission` | servers/governed-cli/src/http.ts:232-237 | gives one reservation back |
| `JobTables.JobTable.StartJob` | servers/remote-shell/src/http.ts:277-299 | starts the job unless its identifier is taken, and releases the reservation |
| `JobTables.JobTable.Finish` | servers/remote-shell/src/http.ts:174-187 | a job ends once, cancelled if its cancellation was acknowledged |
| `JobTables.JobTable.AcknowledgeCancel` | servers/remote-shell/src/http.ts:315-318 | the acknowledgement sets the status whatever became of the job |
| `JobTables.OldestFinished` | servers/governed-cli/src/http.ts:221-225 | the least completion time, the first started among equals |
| `JobRuns.TableStaysBounded` | servers/governed-cli/src/http.ts:202-237 | at every point of every run jobs and reservations keep within `maxJobs`, each owner's unfinished jobs and reservations within the cap, and the counters are exactly the waiting requests, in all and by owner |
| `JobRuns.AdmissionEvictsAtMostTheOldest` | servers/governed-cli/src/http.ts:209-230 | exactly when an admission is refused; a refusal evicts nobody, and an admission at most the job that finished first, and only from a full table |
| `JobRuns.StatusCapHolds` | servers/remote-shell/src/http.ts:196-231 | counted by status the cap holds in every run without a late acknowledgement |
| `JobRuns.AckBreaksStatusCap` | servers/remote-shell/src/http.ts:315-318 | an acknowledgement breaks that cap if and only if it is late and its owner is full |
| `JobRuns.LateAcknowledgementCountsTwo` | servers/remote-shell/src/http.ts:203-213 | the run in which one owner with room for one job counts two |
| `JobRuns.UnfinishedJobsStay` | servers/governed-cli/src/http.ts:202-230 | no step removes an unfinished job |
| `JobLaws.AskedExactly` | servers/governed-cli/src/http.ts:202-230 | over every run, each request is answered from the retained jobs and the waiting requests: exactly when it is admitted, and the one job that makes way |
| `JobLaws.SettledExactly` | servers/remote-shell/src/http.ts:174-187 | what settling and an acknowledged cancellation do to every job of the table |
| `JobLaws.LaunchedExactly` | servers/remote-shell/src/http.ts:277-299 | what starting, abandoning and looking leave, jobs and waiting requests |
| `JobLaws.IdsStayDistinct` | servers/remote-shell/src/http.ts:277-299 | in every run identifiers are distinct |
| `JobExecution.SubscribersMissNothing` | servers/governed-cli/src/http.ts:451-481 | in every execution, with data arriving at any time: whenever it joined, a subscriber that does not leave was sent events that merge to the job's log and say all the job said, ending in exactly one exit once the end is reported |
| `JobExecution.NothingFollowsSettlement` | shared/cli/command-execution.ts:107-116 | once settled, late data and further settlements say nothing; only the report of the end follows, and after it nothing |
| `JobExecution.JobSaysRedactedOutput` | shared/cli/command-execution.ts:133-142 | once settled, what the job said on each channel is the redacted, bounded text of the chunks fed to it before, and the message of a failure |
| `JobExecution.RunKeepsInv` | servers/governed-cli/src/http.ts:264-319 | in every run the log is everything said, merged; the streams are flushed exactly once the execution is settled; the job runs exactly until its end is reported |
| `JobExecution.SettlingFlushesInOrder` | shared/cli/command-execution.ts:107-116 | settling flushes the standard output and then the standard error |
| `JobExecution.DataIsSaid` | shared/cli/command-execution.ts:133-142 | data says what its stream emits for it, on its channel |
| `JobExecution.ReportIs` | servers/governed-cli/src/http.ts:264-319 | the report, by settlement and abort flag: the command's code, or a message and 130 or 1 |
| `JobExecution.LeaversHearNothing` | servers/governed-cli/src/http.ts:451-481 | over every run, whoever leaves is sent nothing more |
| `JobExecution.LeavingEndsDelivery` | servers/governed-cli/src/http.ts:451-481 | one step of it |
| `JobEvents.CoalesceSaysTheSame` | servers/governed-cli/src/http.ts:239-245 | merging keeps every character on its channel, in order, and leaves no neighbours to merge |
| `JobEvents.NeighboursDiffer` | servers/governed-cli/src/http.ts:239-245 | no two neighbours of a log are output on one channel |
| `JobEvents.LiveJob.EmitEvent` | servers/governed-cli/src/http.ts:239-248 | merges into the log in place and sends the event to every listener |
| `JobEvents.LiveJob.FinishJob` | servers/governed-cli/src/http.ts:250-262 | the exit is logged and sent once, and the listeners are cleared |
| `JobEvents.LiveJob.Subscribe` | servers/governed-cli/src/http.ts:451-476 | replays the log and listens if the job is running |
| `Ndjson.RunRequest` | servers/governed-cli/src/shim.ts:150-181 | the reading loop gives what the whole body gives, wherever it was cut |
| `Ndjson.SucceedsExactlyOnProperStreams` | servers/governed-cli/src/shim.ts:183-207 | for every body, success if and only if its lines are output events followed by one exit from 0 to 255; everything else gives 125 |
| `Ndjson.WritesLeadingOutput` | servers/governed-cli/src/shim.ts:183-207 | for every body, what is written is the data of the events before the first line that is no output, each on its channel, and the failure message |
| `Ndjson.FeedJoins` | servers/governed-cli/src/shim.ts:156-168 | feeding in two pieces is feeding at once |
| `NdjsonPrinting.RoundTrip` | packages/wrapper-kit/src/governed-http.ts:109-117 | output events and one exit, printed and cut anywhere, are read back as the same two texts and code, by any parser that undoes the printer |
| `NdjsonPrinting.PrintReads` | packages/wrapper-kit/src/governed-http.ts:109-111 | a printed event is one line, and is read back as itself |
| `NdjsonPrinting.PrinterCanBeInverted` | packages/wrapper-kit/src/governed-http.ts:109-111 | there is such a parser |
| `NdjsonPrinting.PrintedOutput` | packages/wrapper-kit/src/governed-http.ts:109-111 | an output line as it stands on the wire |
| `NdjsonPrinting.PrintedExit` | packages/wrapper-kit/src/governed-http.ts:109-111 | an exit line as it stands on the wire |
| `DirectStream.ShimHearsTheCommand` | servers/governed-cli/src/http.ts:404-449 | for every execution over the stream the shim reads, with data and aborts at any time and a client that stays: both redacted texts and the command's own exit code; after a failure 1 and its message; after a failure on abort 125 |
| `DirectStream.AbortIsRemembered` | servers/governed-cli/src/http.ts:414-442 | an abort counts if it came before the reaction, and what the reaction then sends |
| `DirectStream.RunKeepsInv` | servers/governed-cli/src/http.ts:414-442 | what an open client was sent on each channel is what the streams emitted and the message of a failure, with one exit, last, once it is sent |
| `NdjsonPrinting.ReaderHearsTheWholeJob` | servers/governed-cli/src/http.ts:451-481 | for every execution, from the chunks of its two streams to the reader's two redacted texts and the code of the command, or 130 or 1 with the message, through late data, flushing, settlement, merging, replay, printing and cutting |
| `Sessions.SessionsStayBounded` | servers/generic-wrapper/src/transport.ts:582-614 | over every sequence of operations the global and the per-principal cap hold and identifiers are distinct |
| `Sessions.IssueRemovesOnly` | servers/generic-wrapper/src/transport.ts:591-609 | a session removed on issue was idle, or is the least recently used, not busy session of the same principal at its cap |
| `Sessions.OthersLoseOnlyIdleSessions` | servers/generic-wrapper/src/transport.ts:92-95 | an issue takes another principal's session only by idle expiry |
| `Sessions.IssueRefusesExactly` | servers/generic-wrapper/src/transport.ts:589-613 | exactly when an issue is refused |
| `Sessions.LiveSessionsStay` | servers/generic-wrapper/src/transport.ts:444-464 | a session that is busy or was used less than the idle lifetime ago survives reaping and what other principals ask for, and no other does |
| `Sessions.AskedExactly` | servers/generic-wrapper/src/transport.ts:582-614 | over every run, each request is answered from the live sessions: exactly when it is refused and how, and the one session that makes way |
| `Sessions.OthersTouchOne` | servers/generic-wrapper/src/transport.ts:96-122 | using, occupying and closing touch the session they name only, a closing only for its principal |
| `Sessions.SessionTable.PruneIdle` | servers/generic-wrapper/src/transport.ts:444-452 | drops exactly the idle sessions that are not busy |
| `Sessions.SessionTable.MakeRoomForSession` | servers/generic-wrapper/src/transport.ts:582-614 | the counting loop finds the victim and the refusals as specified |
| `Sessions.SessionTable.IssueSession` | servers/generic-wrapper/src/transport.ts:144-161 | pruning, room and the new session |
| `RegistrationLimiter.AtMostTwiceTheLimit` | shared/oauth/dcr.ts:93-117 | with a clock that does not run back, any stretch of one window's length, ends included, holds at most twice the allowed attempts of a key, and live keys keep within their cap |
| `RegistrationLimiter.RefusalIsEarned` | shared/oauth/dcr.ts:99-109 | an attempt is refused only if its key used up a window that is still open, or the live keys are at their cap |
| `RegistrationLimiter.TwiceIsReached` | shared/oauth/dcr.ts:111-115 | the bound is tight |
| `RegistrationLimiter.ClientsStayBounded` | shared/oauth/dcr.ts:119-143 | over every run of saves and lookups the clients keep within their cap |
| `RegistrationLimiter.LiveClientsStay` | shared/oauth/dcr.ts:119-154 | no later save or lookup forgets, replaces or changes a client before it expires |
| `RegistrationLimiter.SavesExactly` | shared/oauth/dcr.ts:131-143 | a save succeeds if and only if the identifier is free and there is room; unexpired clients stay as they are and no others |
| `RegistrationLimiter.FindsExactly` | shared/oauth/dcr.ts:119-129 | a lookup finds exactly the clients that have not reached their end |
| `RegistrationLimiter.AttemptsExactly` | shared/oauth/dcr.ts:93-117 | exactly when an attempt is allowed, and the windows it leaves |
| `RegistrationLimiter.DcrRegistrationStore.ConsumeRegistrationAttempt` | shared/oauth/dcr.ts:93-117 | the fixed window, as specified |
| `RegistrationLimiter.DcrRegistrationStore.GetDynamicClient` | shared/oauth/dcr.ts:119-129 | an expired client is not found and is dropped |
| `RegistrationLimiter.DcrRegistrationStore.SaveDynamicClient` | shared/oauth/dcr.ts:131-145 | prunes, then saves unless taken or full |
| `Policy.FewerScopesStayAllowed` | shared/policy/policy.ts:502-547 | for every rule list, what is allowed to a token is allowed to every token with a non-empty part of its scopes |
| `Policy.NoScopesCanLoseTheAllow` | shared/policy/policy.ts:541-543 | for a token without scopes it can fail |
| `Policy.NoScopesSkipScopeRules` | shared/policy/policy.ts:502-547 | a token without scopes is decided exactly as if the rules about the token's scopes were not there |
| `Policy.FewerScopesCanTurnApprovalIntoDenial` | shared/policy/policy.ts:544-547 | a demand for approval is not kept |
| `Policy.Decide` | shared/policy/policy.ts:122-183 | guardrails, then the first rule that matches, then the default |
| `PolicyLaws.InapplicableRuleCanGo` | shared/policy/policy.ts:502-547 | a rule with a list that lacks the call's principal, tool, service, operation or action class, or with scopes that do not reach it, can be taken out |
| `PolicyLaws.MetListCanBeEmptied` | shared/policy/policy.ts:502-521 | a list that holds the call's value can be emptied without changing the decision |
| `PolicyLaws.MetScopesCanBeEmptied` | shared/policy/policy.ts:535-547 | so can a list of scopes that covers the token, for an allow, or touches what is asked, for a restraint |
| `PolicyLaws.UnconditionalRuleDecides` | shared/policy/policy.ts:164-171 | a rule that asks for nothing, after rules that do not apply, decides by its effect, under its name or position |
| `PolicyLaws.DefaultDecides` | shared/policy/policy.ts:173-181 | where no rule applies the default decides |
| `PolicyLaws.GuardrailsComeFirst` | shared/policy/policy.ts:122-163 | exactly which calls the guardrails deny, whatever the rules; for all others they might as well not be there |
| `PolicyLaws.DeniedOperationIsDenied` | shared/policy/policy.ts:130-136 | a denied operation is denied under every list of rules |
| `Policy.DecideAll` | shared/policy/policy.ts:53-68 | the first denial, else the last demand for approval, else allowed |
| `Policy.OrderDoesNotMatter` | shared/policy/policy.ts:46-68 | the kind of a composite's decision is the same for the same policies in any order |
| `Policy.CompositeFewerScopesStayAllowed` | shared/policy/policy.ts:53-68 | composites keep the law on scopes |

## Left out

- Legacy writers (`saveAccount`, `markRevoked`) and rows without a custody pointer written by them: the runs start from an empty store and contain the lifecycle's own writers only.
- The provider's replies, the expiry and scope checks that choose between renewal outcomes, and the retry schedule of the cleanup worker: a run may contain any outcome at any time.
- `updatedAt`, `lastValidatedAt` and the cleanup schedule of custody rows, and the provider account login: no modelled check reads them.
- Encryption of credentials: envelopes hold the credential itself.
- ConnectionRecords.MergeRotatedCredential: a property that the replacement has with the value `undefined` counts as absent, while the spread in the source would blank the active credential or an extra property with it.
- JobTables.JobTable.StartJob: refuses an identifier that is taken, as the remote shell does; the governed command line would overwrite the job, and draws random identifiers instead.
- StaleAuthorizations.StaleGuardNeverActivates: assumes the strictly increasing clock that the comparison of dates needs; without it the exact exception is `StaleGuardUnlessClockStands`.
- LifecycleTheorems.MaterialIsConserved: a successor keeps the renewal credential unless the provider answers with an empty one, which the merge takes over.
- Locked sections that throw part way are steps that leave no trace, as in a store that rolls back; what the in-memory store leaves instead is stated by the section methods only.
- Digests, JWT signing and verification, PKCE digests and the checks on Google's claims: functions given to the broker. Random secrets are fresh by assumption.
- Interleaving inside one broker call: a call reads the clock once and is one step. Its only shared read is the row it consumes, and what it writes afterwards lies under fresh keys.
- The redirect URLs and messages of broker errors; only the error codes are modelled.
- SQL other than the two refresh statements, and the database clock: both stores are given the same time.
- Decoding of bytes: chunks are the texts the decoder makes of them. Surrogate pairs are single characters.
- The captured outputs of a finished command, its duration and its timers: a settlement carries an exit code and a truncation flag, or a failure, at any time.
- The redaction of final results, which is a different algorithm from the stream's.
- NdjsonPrinting.RoundTrip: asks of the JSON parser only that it undoes the printer; the parser for other lines is any function.
- The promise-chain lock as an object: its callers and promises are a transition system, since its methods suspend part way.
- Stdio sessions beyond the shared table, session locks and credentials of sessions.
- The in-place order of map iteration in the loops over token families and rate windows, on which nothing depends.
- Audit, metrics, HTTP routing, descriptor and URL validation, domain matching of recipients, release scripts.
