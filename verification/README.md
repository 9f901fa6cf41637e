# Sienne identity provider: verified protocol core

Sienne is an OAuth 2.0 and OpenID Connect identity provider. Its hard parts are
protocols over two stores: MySQL holds the truth, Redis holds copies, counters and
locks, and any number of requests run between their commands. This project models
those protocols in Dafny and proves what they keep.

Six parts are modelled.

- **Tokens.** Consent, authorization codes with proof keys, refresh-token rotation with
  its grace replay, and the device flow (`Scopes`, `AuthorizationCodes`, `Grants`,
  `CodeGrants`, `RefreshTokens`, `RefreshFlow`, `RefreshChains`, `DeviceCodes`,
  `DeviceFlow`, `DeviceApproval`).
- **Audit stream.** The deduplicating producer, the consumer group with retries,
  reclaims and a dead-letter stream, and the replay tool (`AuditCodec`, `AuditStream`,
  `AuditRetry`, `AuditBurial`, `AuditOutcomes`, `AuditConsumer`).
- **Second factor.** One-time codes and their single use, the challenge state mask, the
  challenge machine over its two keys, deletions and what can undo them, push decisions,
  which factor gives a session when, and how many sessions a challenge or a code can give
  (`Totp`, `TotpUse`, `ChallengeMask`, `MfaChallenges`, `MfaDeletion`, `MfaDecisions`,
  `MfaFactors`, `MfaSessions`).
- **Sessions and revocation.** The cached copy against the table, log-outs and what they
  do to requests under way, and the lifetime of revocation markers (`Sessions`,
  `SessionLogouts`, `RefreshLogout`, `Revocation`).
- **Signing keys.** JSON Web Keys, the key manager, loading, rotation and which tokens
  verify (`Jwk`, `SigningKeys`, `KeyRotation`, `TokenVerification`).
- **Worker pools and usernames.** Two bounded pools whose jobs wait on each other, and
  the allocation of federated usernames (`WorkerPools`, `FederatedUsernames`).

`Bits`, `Clock`, `Text`, `Decimal` and `Wrappers` hold what the parts share.

## How the model is built

Objects that update their fields are classes whose methods are specified by functions
on values; loops stay loops. A protocol is a total step function `Apply` over a state,
runs are sequences of steps, and an action that is not enabled changes nothing. One SQL
statement, one SQL transaction, one Lua script and one Redis transaction are one step
each; requests interleave between steps, and a request may also fail or stop after any of
its steps. Two things are coarser: in `KeyRotation` a whole rotation check is one step, and
a session lookup, which may read Redis and then the database, is one step of whoever makes
it. `Sessions` and `Revocation` have the statements of a log-out as steps and, beside them,
whole log-outs that nothing interrupts. Where a result is about requests that are quick
enough, the lemma says so in its `requires`.

Time is counted in nanoseconds on one clock that does not go back. Text fields in Redis
drop the fraction of a second, DATETIME columns round it half up, and the current time of
the database counts whole seconds; several results depend on these three differing.

Library code is a parameter with a `Lawful` predicate: SHA-256 and base64url (no law),
HMAC-SHA1 (20 bytes), RSA (a signature verifies under its own key), JSON, base64 and RFC
3339 text (parsing undoes formatting), the name made from a second. Clients, users and
configuration do not change during a run. Fresh identifiers (UUIDs) are parameters of
the steps that use them, assumed new where the table has a unique column for them.

## Where the code differs from what is expected of it

Each of these is kept as the code has it, shown on runs or inputs, and paired with the
condition under which the expected property holds.

- A device code can yield tokens twice when its key expires while a request is in
  flight, whatever its interval: marking it consumed writes the key back
  (`ExpiryRaceReturnsTokensTwice`). When requests mark the code before the expiry, it
  yields tokens at most once in every run exactly if requests take at most half of
  (interval − 1s) (`AtMostOneExactly`).
- A one-time step can be accepted twice when a request takes more than 30 seconds from
  taking the time to reserving the step (`SlowRequestReusesStep`, for every longer
  delay), and never otherwise (`StepAcceptedOnce`, `StepGivesOneSession`).
- A deleted challenge can come back. The hash and the packed state of a challenge are read
  by two commands; a request that reads the hash before a deletion and the state after it
  holds version 0, and its save is taken for a new challenge (`StraddlingReadRevives`, from
  every state with a deletion and such a read under way). A deleted challenge stays gone
  throughout a run exactly if no such save follows (`DeletedStaysGoneExactly`), and,
  unless Redis dropped a state key alone, only a read that straddled a removal leads to
  one (`RevivalStraddles`). A challenge that came back gives another session without any
  overlap (`RevivedChallengeYieldsAnotherSession`, `LiveAgainYieldsAnotherSession`).
- One challenge can create two sessions even if it stays gone. Any two requests that have
  read it and proved themselves can both go on (`ProvedRequestsBothIssue`), for one with
  two codes of one window (`OverlapYieldsTwoSessions`). All requests that do so read the
  challenge before anything deleted it (`SessionReadFirst`), none can read it afterwards
  (`LateReadFindsNothing`), and without overlap there is one session
  (`OneSessionPerChallenge`).
- A refresh that took its time before its token expired can still rotate it after a
  log-out everywhere that came after the expiry, and leaves a good new token
  (`RefreshOutlivesLogout`, for every token). `RotatableAfterLogout` says exactly which
  tokens can be rotated after a log-out.
- A log-out that falls between the two steps of a login leaves an active copy of a
  logged-out session (`LogoutDuringLogin`, for every login), and every log-out leaves one
  between marking a row and deleting its copy (`HalfLoggedOut`). Cache-first lookup agrees
  with the database exactly outside these cases (`CacheRefinesDatabase`), and each such
  copy has one of four reasons (`WrongLookupIsAccounted`). `NoSessionSurvives` says
  exactly which sessions a log-out everywhere does not end.
- The consent page does not fall back to the database when it finds an expired copy, so
  it can ask for a login while the session is alive (`ConsentLookupDiffersSomewhere`);
  `ConsentLookupDiffers` says exactly when.
- A revocation marker can disappear up to a second before the token's `exp`
  (`RevokedTokenIsAcceptedAgain`); `NoGapExactly` says when it does not. An access token
  issued between the listing and the update of a log-out is revoked without a marker and
  accepted until its `exp` (`TokenIssuedDuringLogout`, for every log-out);
  `RevokedTokenWindow` has the exact condition.
- The time of an audit event, carried through stream, dead letter and replay, is not
  written to the table, nor are ids that are not positive (`RowTells` says exactly what
  a row keeps). Event ids that the column takes for equal share a row, which then has the
  id of the first event written and the rest of the last (`RowsAreWrites`).
- The retry counter of an event counts the failed writes whose count was taken since it was
  last cleared (`CounterCountsFailures`), not the failed writes since then: a write can fail
  before the counter is cleared and be counted after it (`ClearedBeforeCounting`).
  `GivenUpExactly` says when an event is given up.
- A forced key rotation in the same second as the last one replaces the key file and then
  fails (`SameSecondRotationBreaksTokens`); rotations in distinct seconds are safe
  (`TokenSurvivesRotations`).
- A deduplication time above zero and below one second makes every publication fail, and
  no other time does (`AppendedExactly`). Ids that differ only in the spaces around them
  are deduplicated apart and appended under one id (`PaddedIdsAreBothAppended`);
  without such ids entries of one id lie a window apart (`OneStreamEntryPerWindow`).
- A JSON Web Key with an exponent that is not positive is built but cannot be parsed
  (`ParseAfterBuild`).

## Model

| member | source | states |
|---|---|---|
| DeviceFlow.AtMostOneRequestReturnsTokens | idp-server/internal/application/token/service.go:499-545 | in every interleaving of token requests with one user decision, if requests that return tokens take at most (interval − 1s)/2 and mark the code before it expires, at most one request ever returns tokens |
| DeviceFlow.AtMostOneExactly | idp-server/internal/application/token/service.go:499-545 | for every interval and every bound d on the length of a request that marks the code in time, at most one request returns tokens in every run if and only if 2d ≤ interval − 1s |
| DeviceFlow.BoundIsTight | idp-server/internal/infrastructure/cache/redis/device_code_repository.go:96-131 | for every longer bound and every fresh code with time left there is a run, all codes marked before they expire, in which two requests return tokens |
| DeviceFlow.SecondRequestIsLate | idp-server/internal/infrastructure/cache/redis/device_code_repository.go:96-131 | a second request that read the code before the first marked it, and was still allowed to poll, has already used up its time |
| DeviceFlow.ExpiryRaceReturnsTokensTwice | idp-server/internal/infrastructure/cache/redis/device_code_repository.go:96-101 | for every fresh code, interval and expiry, and every bound on the length of requests above zero, a run in which the key expires in flight and two requests return tokens |
| DeviceApproval.TokensRestOnApproval | idp-server/internal/application/token/service.go:499-545 | in every run from a saved code, a request that returned tokens came from the client the code was saved for and read the code when the last decision so far was an approval, by the user and for the subject the tokens are for |
| DeviceApproval.NoApprovalNoTokens | idp-server/internal/application/token/service.go:499-545 | so in a run without an approval no request returns tokens, whatever was denied |
| DeviceCodes.PollBudget | idp-server/internal/infrastructure/cache/redis/device_code_repository.go:103-131 | for any poll times, even from a clock that goes back, a code living T admits at most T/interval + 1 allowed polls |
| DeviceCodes.AllowedPollAdvances | idp-server/internal/infrastructure/cache/redis/device_code_repository.go:103-131 | every allowed poll but the first raises the stored poll time by at least the interval and not beyond the poll; a refused one leaves the record alone |
| DeviceCodes.PollsAreSpaced | idp-server/internal/infrastructure/cache/redis/device_code_repository.go:103-131 | after n allowed polls the stored poll time lies at least n − 1 intervals after the start, whatever the order of the poll times |
| DeviceCodes.StoredPollIsBounded | idp-server/internal/infrastructure/cache/redis/device_code_repository.go:120-131 | the stored poll time never runs ahead of the polls |
| DeviceCodes.DeviceCodeRepository.TouchPoll | idp-server/internal/infrastructure/cache/redis/device_code_repository.go:103-131 | the poll is allowed and stored as specified, and no other code is touched |
| DeviceCodes.DeviceCodeRepository.Save | idp-server/internal/infrastructure/cache/redis/device_code_repository.go:21-47 | the entry is kept under its device code, times in whole seconds, and its user code points to it |
| DeviceCodes.DeviceCodeRepository.GetByUserCode | idp-server/internal/infrastructure/cache/redis/device_code_repository.go:60-69 | a user code finds an entry exactly when both keys live |
| DeviceCodes.DeviceCodeRepository.Approve | idp-server/internal/infrastructure/cache/redis/device_code_repository.go:71-83 | an approval gives the one entry the user code names the status approved, the user and the subject, and changes nothing else; an unknown user code changes nothing |
| DeviceCodes.DeviceCodeRepository.Deny | idp-server/internal/infrastructure/cache/redis/device_code_repository.go:85-94 | a denial gives the one entry the user code names the status denied and changes nothing else; an unknown user code changes nothing |
| DeviceCodes.DeviceCodeRepository.MarkConsumed | idp-server/internal/infrastructure/cache/redis/device_code_repository.go:96-101 | marking gives the entry the status consumed and changes nothing else; it writes the hash even when the key is gone |
| AuditStream.NothingIsLost | idp-server/internal/infrastructure/auditstream/consumer.go:135-186 | in every run with any consumers, reclaims, failing commands and crashes, every delivered message is pending, persisted, or in the dead-letter stream with its fields intact |
| AuditStream.RowIsWritten | idp-server/internal/infrastructure/persistence/sql/audit_event_repository/create.sql:1-22 | in every run the row of a persisted message holds what is written of some message under an id the column takes for equal, and the id of one such message; it holds exactly what is written of the message itself when all of them agree |
| AuditStream.RowTells | idp-server/internal/infrastructure/persistence/audit_event_repo.go:26-72 | two events read from the stream leave equal rows exactly if they differ at most in their time and in ids that are not positive |
| AuditStream.StepConserves | idp-server/internal/infrastructure/auditstream/consumer.go:70-186 | every single command keeps that |
| AuditRetry.MessageLeavesPendingList | idp-server/internal/infrastructure/auditstream/consumer.go:135-222 | an event carried by one message, with no crash and no counter expiry, is off the pending list after Max·(1 + failed acks) + failed dead-letter writes processed deliveries |
| AuditRetry.BudgetHolds | idp-server/internal/infrastructure/auditstream/consumer.go:188-222 | while it is pending, the processed deliveries are accounted for by the retry counter and the failures |
| AuditBurial.CounterCountsFailures | idp-server/internal/infrastructure/auditstream/consumer.go:188-222 | in every run the retry counter of an event is the number of failed writes of that event that were counted since the counter was last cleared, each at its own step of the run |
| AuditBurial.GivenUpExactly | idp-server/internal/infrastructure/auditstream/consumer.go:143-152 | when a failed write is counted, the worker gives the event up if and only if the command was not answered or that number has reached the limit; otherwise the message stays pending and the worker turns to the next |
| AuditBurial.LettersAreGivenUp | idp-server/internal/infrastructure/auditstream/consumer.go:143-186 | in every run each dead letter of a readable message was written after its event was given up that way |
| AuditBurial.ClearedBeforeCounting | idp-server/internal/infrastructure/auditstream/consumer.go:188-222 | from every state with a limit of one and a failed write still to be counted, clearing the counter does not save the event |
| AuditOutcomes.RowsAreWrites | idp-server/internal/infrastructure/persistence/sql/audit_event_repository/create.sql:1-22 | in every run, whatever fails or dies, the table has a row under a key if and only if some event was written under it; the row has the id field of the first such message and every other field of the last |
| AuditOutcomes.PendingExactly | idp-server/internal/infrastructure/auditstream/consumer.go:70-186 | in every run exactly the delivered messages that were not acknowledged are pending |
| AuditOutcomes.LettersAreBurials | idp-server/internal/infrastructure/auditstream/consumer.go:158-186 | from every reachable state a step adds a dead letter if and only if it is a burial that took effect, even unanswered; the letter reads like its message and says when and why it failed, whether it could be read and its retry count |
| AuditOutcomes.MessageIsSettled | idp-server/internal/infrastructure/auditstream/consumer.go:135-156 | when nothing fails a readable message ends in the table with its counter cleared and an unreadable one in the dead letters; both are acknowledged and the worker turns to the next |
| AuditOutcomes.ClaimedIsSettled | idp-server/internal/infrastructure/auditstream/consumer.go:96-133 | in every run a pending message that an idle worker claims is settled within three commands when nothing fails: acknowledged, and persisted or dead-lettered |
| AuditOutcomes.DeliveredIsSettled | idp-server/internal/infrastructure/auditstream/consumer.go:70-94 | so is the next message of the stream that an idle worker reads |
| AuditCodec.DecodeAfterEnqueue | idp-server/internal/infrastructure/auditstream/repository.go:110-161 | decoding the enqueued fields gives the event back, trimmed, non-positive ids dropped, exactly when the type is not blank |
| AuditCodec.DecodesExactly | idp-server/internal/infrastructure/auditstream/consumer.go:253-310 | for all fields, which messages decode, which of the three errors the others give, and which field each part of the event comes from |
| AuditCodec.DecodeAfterReplay | idp-server/cmd/replay_audit_dlq/main.go:49-74 | a message that went to the dead-letter stream and was replayed decodes as the original did |
| AuditCodec.DeadLetterKeepsEventKeys | idp-server/internal/infrastructure/auditstream/consumer.go:158-171 | a dead letter keeps the ten fields of an event |
| AuditCodec.LetterFields | idp-server/internal/infrastructure/auditstream/consumer.go:158-171 | what a dead letter adds, that the message's own fields win over it, and that the event id and the retry count of a readable message are written last |
| AuditCodec.ReplayKeepsEventKeys | idp-server/cmd/replay_audit_dlq/main.go:49-74 | a replayed message keeps them too |
| AuditCodec.EnsureEventId | idp-server/internal/infrastructure/auditstream/repository.go:110-117 | an event ends up with an id that is not blank and is otherwise unchanged |
| AuditCodec.Replayed | idp-server/cmd/replay_audit_dlq/main.go:49-74 | a letter is replayed exactly when it names an event id and a type, with all event fields |
| AuditConsumer.Consumer.ProcessMessages | idp-server/internal/infrastructure/auditstream/consumer.go:135-156 | the loop over a batch is a run of the stream machine and keeps conservation whatever the replies |
| AuditConsumer.Consumer.ProcessMessage | idp-server/internal/infrastructure/auditstream/consumer.go:135-156 | one message takes the machine from one message of the batch to the next |
| AuditConsumer.Consumer.MoveToDLQ | idp-server/internal/infrastructure/auditstream/consumer.go:158-186 | whatever the replies, its commands extend the run of the stream machine and end at the next message of the batch |
| AuditConsumer.Consumer.IncrementRetry | idp-server/internal/infrastructure/auditstream/consumer.go:188-202 | the count is one more than the counter held, or the limit if the command was not answered; a message whose count reaches the limit goes on to the dead-letter stream, any other is left pending |
| AuditConsumer.ReplayDeadLetters | idp-server/cmd/replay_audit_dlq/main.go:49-77 | each readable letter the stream accepts is appended once, in order, and counted |
| AuditConsumer.OneEntryPerWindow | idp-server/internal/infrastructure/auditstream/repository.go:16-34 | entries of one event id, as it was published, lie a dedup window apart |
| AuditConsumer.OneStreamEntryPerWindow | idp-server/internal/infrastructure/auditstream/repository.go:86-150 | entries with one event id in the stream lie a window apart when no two publications have ids that differ only in the spaces around them |
| AuditConsumer.PaddedIdsAreBothAppended | idp-server/internal/infrastructure/auditstream/repository.go:86-150 | two such ids are both appended, under one id, whatever the times |
| AuditConsumer.AppendedExactly | idp-server/internal/infrastructure/auditstream/repository.go:16-34 | publishing fails exactly for a dedup time above zero and below a second; otherwise an event is appended exactly when no entry of its id is at most a window old |
| AuditConsumer.EveryPublicationHasEntry | idp-server/internal/infrastructure/auditstream/repository.go:16-34 | every published event has an entry of its id in the stream that is at most one window older than the publication |
| RefreshTokens.ChainsAreDisjoint | idp-server/internal/infrastructure/persistence/token_repo.go:179-227 | over every sequence of creations, rotations and revocations each token lies in the chain of exactly one root, chains are finite and increasing, and at most their last token is unrevoked |
| RefreshTokens.ChainIsOrdered | idp-server/internal/infrastructure/persistence/token_repo.go:217-226 | along a chain each token is the successor of the one before it and every token but the last is revoked |
| RefreshTokens.RunKeepsLinks | idp-server/internal/infrastructure/persistence/token_repo.go:179-227 | every run keeps links forward, one-to-one, and only on revoked tokens |
| RefreshTokens.OneRotationSucceeds | idp-server/internal/infrastructure/persistence/token_repo.go:190-198 | of all rotations of a token in a run at most one succeeds, and one did exactly when the token is replaced |
| RefreshTokens.FirstRotationWins | idp-server/internal/infrastructure/persistence/token_repo.go:196-198 | of two rotations of a live token the first succeeds and the second finds no usable row |
| RefreshTokens.Rotate | idp-server/internal/infrastructure/persistence/token_repo.go:179-227 | a rotation succeeds exactly on a token neither revoked, replaced nor expired, for a new hash |
| RefreshTokens.TokenRepository.CreateRefreshToken | idp-server/internal/infrastructure/persistence/token_repo.go:62-87 | the row is inserted unless its hash is taken |
| RefreshTokens.TokenRepository.FindActiveRefreshTokenBySHA256 | idp-server/internal/infrastructure/persistence/token_repo.go:106-121 | a row is found exactly when it is neither revoked, replaced nor expired |
| RefreshTokens.TokenRepository.RotateRefreshToken | idp-server/internal/infrastructure/persistence/token_repo.go:179-227 | the transaction either rotates as specified or leaves the table alone |
| RefreshTokens.TokenRepository.RevokeRefreshTokensByUserID | idp-server/internal/infrastructure/persistence/token_repo.go:173-177 | no live row of the user remains |
| RefreshFlow.OneResponsePerToken | idp-server/internal/application/token/service.go:200-360 | however refresh requests for one token interleave with failures, evictions and revocations, all that return a refresh token return the same response, and its token is the successor the table records |
| RefreshFlow.GrantNeverChanges | idp-server/internal/application/token/service.go:233-338 | client, user, subject and decoded scopes are the same along every rotation chain |
| RefreshFlow.TokenService.ExchangeRefreshToken | idp-server/internal/application/token/service.go:200-360 | a whole request leaves both stores where the steps of the machine do, and its answer is told case by case from the stores: the new pair and the row's scopes for an unused token that the cache admits at both checks, the kept response in the grace period, an access token alone without a refresh lifetime, and a refusal in all other cases |
| RefreshFlow.ReplayOrRevoke | idp-server/scripts/lua/check_refresh_replay.lua:42-67 | after a cached rotation the response is replayed exactly to the same fingerprint within ten seconds; any other use of the old token revokes the family and rejects the successor |
| RefreshFlow.CheckAnswers | idp-server/scripts/lua/check_refresh_replay.lua:16-69 | for every cache the check lets a token through exactly if it is absent or active in a family that is not revoked, replays exactly a rotated one within its grace period to the fingerprint it is bound to, and changes nothing in either case |
| RefreshChains.ReturnedTokenIsExchanged | idp-server/internal/application/token/service.go:200-360 | in every reachable state the refresh token of every response ever returned is in the table, and exchanging it gives a new pair with the same scopes if and only if the cache admits it and its row is unused and unexpired at both times |
| RefreshChains.WinnerIsFollowed | idp-server/internal/application/token/service.go:253-338 | from every reachable state a request that rotates an unused token leaves a response whose token the cache admits and whose row is unused until it expires |
| RefreshChains.GrantIsFollowed | idp-server/internal/application/token/service.go:652-680 | in every reachable state a first refresh token, whether or not Redis learns of it, is let through the replay check and unused exactly until it expires |
| RefreshChains.KeptResponseIsReplayed | idp-server/internal/application/token/service.go:697-712 | in every reachable state, once the response of a rotation has been kept, a second request with the token gets that response exactly within ten seconds and with the same fingerprint, and is refused otherwise |
| RefreshFlow.RotationIsCachedExactly | idp-server/scripts/lua/rotate_token.lua:31-122 | for every cache the rotation script acts exactly on an active token of a family that is not revoked; then the new token is let through, the old one replayed for ten seconds to its fingerprint, and no other touched |
| RefreshFlow.CheckReadsGrace | idp-server/scripts/lua/check_refresh_replay.lua:16-69 | the replay check keeps all grace responses and only ever returns the one of the token |
| RefreshFlow.StepEvolves | idp-server/internal/infrastructure/persistence/token_repo.go:179-227 | no step of the flow changes a stored token or a successor once set |
| RefreshLogout.RotatableAfterLogout | idp-server/internal/infrastructure/persistence/token_repo.go:173-198 | in every run after a log-out everywhere, a token the user had then can be rotated with time t exactly when it was unused and the log-out took it for expired, t lies before its expiry, and no rotation replaced it since |
| RefreshLogout.NoRotationAfterLogout | idp-server/internal/application/token/service.go:233-338 | so no rotation stamped at or after the log-out succeeds, in any later run |
| RefreshLogout.SkippedTokenIsRotated | idp-server/internal/infrastructure/persistence/token_repo.go:179-227 | a request that loaded such a token in time wins its rotation after the log-out, and the new token is good for its full lifetime |
| RefreshLogout.RefreshOutlivesLogout | idp-server/internal/application/token/service.go:253-338 | for every token and time before its expiry there is a run in which its user logs out everywhere and a refresh that took that time then yields a new refresh token |
| Scopes.NormalizeScopes | idp-server/internal/application/authz/service.go:210-226 | the loop keeps the first appearance of each trimmed name, in order |
| Scopes.NormalizedIsNamed | idp-server/internal/application/authz/service.go:210-226 | normalising lists every non-blank name exactly once, trimmed, and nothing else |
| Scopes.NormalizeIdempotent | idp-server/internal/application/authz/service.go:210-226 | normalising again changes nothing |
| Scopes.AllContained | idp-server/internal/application/authz/service.go:228-245 | true exactly when every value is a trimmed allowed name |
| Scopes.ConsentRepository.HasActiveConsent | idp-server/internal/infrastructure/persistence/consent_repo.go:23-58 | true exactly when there is a consent and it covers every name asked for; unreadable text is an error |
| Scopes.ConsentRepository.UpsertActiveConsent | idp-server/internal/infrastructure/persistence/consent_repo.go:60-112 | accepting adds the names to those granted before, in any order, touches no other row, and fails only on unreadable text |
| AuthorizationCodes.ChallengeMeetsVerifier | idp-server/internal/application/token/service.go:561-588 | every challenge the authorization endpoint accepts is redeemed exactly by a non-empty verifier whose transform it is |
| AuthorizationCodes.MethodsExactly | idp-server/internal/application/authz/service.go:265-275 | a blank challenge method counts as plain, case and spaces do not matter, and no other method is known |
| AuthorizationCodes.AuthorizationCodeRepository.Create | idp-server/internal/infrastructure/persistence/authorization_code_repo.go:24-50 | a code is stored unless it is taken |
| AuthorizationCodes.AuthorizationCodeRepository.ConsumeByCode | idp-server/internal/infrastructure/persistence/authorization_code_repo.go:52-93 | a code is handed out exactly when it is unused and unexpired, and is used afterwards |
| Grants.CodeYieldsTokensOnce | idp-server/internal/application/token/service.go:96-164 | in every interleaving a code yields tokens at most once, to an eligible client, for the client, redirect URI and proof key it was issued with, and only if consumed before it expired |
| Grants.ScopesStayWithinConsent | idp-server/internal/application/authz/service.go:88-162 | every refresh token of a chain that began with a code carries scopes the client registered, offline access among them, and for consent-requiring clients only scopes the user accepted before the decision that issued the code |
| Grants.EveryCodeIsDecided | idp-server/internal/application/authz/service.go:61-172 | every stored code was issued by an authorization decision of the run |
| Grants.ConsentIsAccepted | idp-server/internal/infrastructure/persistence/consent_repo.go:60-112 | the consent table holds exactly the union of what each user accepted for each client |
| Grants.AuthorizedIsCovered | idp-server/internal/application/authz/service.go:61-172 | a code is issued only to an active client for a registered redirect URI, to the session's user, for registered and consented scopes, with a challenge where one is required |
| Grants.IssuedChallengeIsUsable | idp-server/internal/application/authz/service.go:247-275 | a code issued with a challenge is redeemed exactly with a matching verifier |
| CodeGrants.AuthorizesExactly | idp-server/internal/application/authz/service.go:61-172 | in every run the answer to an authorization request is an error, a login, a consent page or a code exactly by whether the request is in order, there is a session, and the names asked for are among those the user accepted so far |
| CodeGrants.RedeemsExactly | idp-server/internal/application/token/service.go:96-164 | a stored unused code yields tokens if and only if an authenticated client that may use codes presents it in time with its client, redirect URI and proof key, for a known user and a new refresh token; there is a refresh token exactly with the grant, a lifetime and offline access, and its row is told field by field |
| CodeGrants.CodeGrantSucceeds | idp-server/internal/application/token/service.go:96-164 | in every run a consented request in order, redeemed in time by its client with its verifier, ends in tokens, and the refresh token carries the client, the user, the user's subject and the names asked for |
| CodeGrants.FirstTokenIsUsable | idp-server/internal/application/token/service.go:652-680 | in every run the refresh token a code yields is let through the replay check and unused exactly until it expires |
| Grants.FlowInv | idp-server/internal/application/token/service.go:652-680 | the refresh tokens of every such run obey the refresh machine's invariant |
| Totp.GenerateCode | idp-server/internal/infrastructure/security/totp.go:83-97 | the code is the six-digit text of the truncated HMAC modulo a million |
| Totp.VerifyCodeWithStep | idp-server/internal/infrastructure/security/totp.go:63-81 | a code is accepted exactly when one of three steps around now has it, and the earliest such step is returned |
| Totp.MatchingIsFirst | idp-server/internal/infrastructure/security/totp.go:74-79 | the match is the first step of the window with that code; none means no step has it |
| Totp.MatchIsNear | idp-server/internal/infrastructure/security/totp.go:73-79 | a matched step is at most one step from the current one |
| Totp.StepBounds | idp-server/internal/infrastructure/security/totp.go:63-74 | a step lasts thirty seconds from its start, and before the epoch thirty seconds to its end |
| Totp.WindowMatches | idp-server/internal/infrastructure/security/totp.go:63-81 | the code of every step of the window is accepted, for a step with the same code |
| Totp.ZeroFilledIsExact | idp-server/internal/infrastructure/security/totp.go:92-96 | zero-filling writes exactly the digits asked for and loses nothing |
| Totp.TruncatedBits | idp-server/internal/infrastructure/security/totp.go:90-91 | for every hash the offset has the low four binary digits of the last byte, and the truncated value the low 31 of the big-endian word there |
| TotpUse.StepAcceptedOnce | idp-server/internal/application/authn/service.go:310-320 | with requests that reserve within 30 seconds of taking the time, each (user, purpose, step) is accepted at most once in any run |
| TotpUse.LoginBudget | idp-server/internal/application/authn/service.go:278-325 | one user completes at most ⌊b/30⌋ − ⌊a/30⌋ + 3 one-time-code logins stamped in [a, b] |
| TotpUse.SlowRequestReusesStep | idp-server/internal/application/authn/service.go:284-320 | for every longer delay there is a run that accepts one step twice |
| TotpUse.TotpStepStore.ReserveTOTPStepUse | idp-server/internal/infrastructure/cache/redis/mfa_repository.go:68-74 | a step is reserved exactly when no live reservation exists |
| ChallengeMask.NormalizeIdempotent | idp-server/internal/ports/cache/state_mask.go:85-111 | for all masks and texts normalising yields a canonical mask and normalising again the same one |
| ChallengeMask.NormalizedBits | idp-server/internal/ports/cache/state_mask.go:85-173 | a normalised mask says the mode asked for and, in push mode only, the decision; the unknown bits are kept |
| ChallengeMask.OnlyUnknownBitsMatter | idp-server/internal/ports/cache/state_mask.go:85-173 | two masks normalise alike exactly when their unknown bits agree |
| ChallengeMask.SavedState | idp-server/internal/infrastructure/cache/redis/mfa_repository.go:76-103 | a saved record's mask and texts name the same mode and decision |
| ChallengeMask.LoadAfterSave | idp-server/internal/infrastructure/cache/redis/mfa_repository.go:127-198 | loading a saved challenge gives back its mask, mode and push status exactly |
| ChallengeMask.SavedIsAccepted | idp-server/scripts/lua/save_mfa_challenge.lua:88-106 | every saved mask passes the structural checks of the save script |
| ChallengeMask.MaskOfNumber | idp-server/internal/ports/cache/state_mask.go:17-30 | reading the number of a mask gives the mask |
| ChallengeMask.NumberOfMask | idp-server/internal/ports/cache/state_mask.go:17-30 | every unsigned 32-bit number is the number of a mask |
| ChallengeMask.NumberBits | idp-server/internal/ports/cache/state_mask.go:17-30 | each flag is the binary digit the constants give it, and the rest the digits above |
| ChallengeMask.CanonicalForm | idp-server/internal/ports/cache/state_mask.go:148-173 | the canonical form of any mask keeps its mode, push before passkey, in push mode its decision, denied before approved, and the unknown bits |
| ChallengeMask.LoadedState | idp-server/internal/infrastructure/cache/redis/mfa_repository.go:127-198 | a loaded mask says what the texts say, with the unknown bits of the packed mask or, if that is zero, of the hash field |
| ChallengeMask.AcceptsExactly | idp-server/scripts/lua/save_mfa_challenge.lua:88-106 | the structural checks of the save script accept exactly the canonical masks |
| MfaChallenges.SessionIsEarned | idp-server/internal/application/authn/service.go:278-582 | in every interleaving a session belongs to its challenge's user, is authenticated before the original expiry, and rests on a reserved one-time step of that user within one step of the captured time, a finished assertion for a bound passkey session, or an approval in push mode by that user with the matching code |
| MfaFactors.CodeGivesSessionExactly | idp-server/internal/application/authn/service.go:278-325 | from every state a one-time code gives the challenge's user a session if and only if the challenge is live and the code stands for a step of the window that is not in use |
| MfaFactors.PasskeyGivesSessionExactly | idp-server/internal/application/authn/service.go:395-457 | from every state a finished assertion does if and only if the challenge is live, in passkey mode and bound to a passkey login |
| MfaFactors.PushGivesSessionExactly | idp-server/internal/application/authn/service.go:546-582 | from every state finishing a push does if and only if the challenge is live and says approved |
| MfaFactors.PushDecisionExactly | idp-server/internal/application/authn/service.go:482-544 | from every state a push decision is stored if and only if the challenge is live and in push mode, a session of its own user brings it, an approval comes with the code, and no other decision stands; otherwise nothing is |
| MfaFactors.PasskeyBindsExactly | idp-server/internal/application/authn/service.go:341-393 | from every state a passkey login is bound if and only if the challenge is live, in passkey mode and undecided |
| MfaFactors.ModeChangesExactly | idp-server/internal/application/authn/service.go:1011-1036 | from every state the mode is changed if and only if the challenge is live and no decision stands that the new mode does not allow |
| MfaFactors.PushLoginExactly | idp-server/internal/application/authn/service.go:482-582 | a push challenge, decided once and finished, gives its user a session if and only if that user's own session approved it with the code |
| MfaFactors.PasskeyLoginExactly | idp-server/internal/application/authn/service.go:341-457 | a passkey challenge, bound and finished, gives its user a session if and only if the login it was bound to has a name |
| MfaSessions.OneSessionPerChallenge | idp-server/internal/application/authn/service.go:278-582 | in every run the sessions of a challenge that was not brought back come from requests, of operations that can give one, that read it before its first deletion; there is at most one when they do not overlap |
| MfaSessions.SessionReadFirst | idp-server/internal/application/authn/service.go:278-582 | in every run a request that gave a session deleted its challenge no earlier than its first deletion and, unless the challenge was brought back, read it before |
| MfaSessions.TwoSessionsOverlap | idp-server/internal/application/authn/service.go:278-582 | in every run, of two requests that gave sessions for one challenge that was not brought back, each read it before the other deleted it |
| MfaSessions.LateReadFindsNothing | idp-server/internal/infrastructure/cache/redis/mfa_repository.go:127-202 | in every run a read after the first deletion of a challenge finds nothing, unless it was brought back |
| MfaSessions.ProvedRequestsBothIssue | idp-server/internal/application/authn/service.go:310-325 | from every reachable state any two requests that proved themselves for one challenge can both give a session |
| MfaSessions.OverlapYieldsTwoSessions | idp-server/internal/application/authn/service.go:278-325 | for every user, challenge, time and two codes that the window accepts for different steps there is a run in which the two codes turn the challenge into two sessions |
| MfaSessions.LiveAgainYieldsAnotherSession | idp-server/internal/application/authn/service.go:278-325 | from every reachable state in which a challenge that gave a session can be read, any code that is still good gives another session to a request that does not overlap the first |
| MfaSessions.RevivedChallengeYieldsAnotherSession | idp-server/internal/application/authn/service.go:278-395 | for every user, challenge, time and two codes there is a run in which a read that straddles the deletion brings a challenge back and it gives a second session without overlap |
| MfaSessions.WindowHoldsTwoCodes | idp-server/internal/infrastructure/security/totp.go:63-81 | the window accepts two codes for different steps exactly when its three steps do not share one code |
| MfaSessions.StepGivesOneSession | idp-server/internal/application/authn/service.go:278-325 | with requests that reserve within 30 seconds of taking the time, in every run one one-time step of a user gives at most one session, over all challenges |
| MfaDeletion.DeletedStaysGoneExactly | idp-server/scripts/lua/save_mfa_challenge.lua:35-76 | a deleted challenge is gone at every later point of a run if and only if no request that found no state key saves it after a deletion |
| MfaDeletion.RevivedExactly | idp-server/scripts/lua/save_mfa_challenge.lua:35-76 | the bookkeeping of revivals holds a challenge exactly if some step of the run was one |
| MfaDeletion.RevivalStraddles | idp-server/internal/infrastructure/cache/redis/mfa_repository.go:127-152 | in every run, unless Redis dropped its state key alone, the request that brings a challenge back read its hash before and its state after a removal |
| MfaDeletion.StraddlingReadRevives | idp-server/internal/infrastructure/cache/redis/mfa_repository.go:127-202 | from every reachable state with a request about to delete a challenge and one that has read its hash to bind a passkey, the first gives its session and the second brings the challenge back |
| MfaDecisions.DecisionIsFinal | idp-server/scripts/lua/save_mfa_challenge.lua:108-112 | a push decision once taken stands throughout every run in which Redis always has one of the two keys, whatever stale copies are saved and whichever key is lost |
| MfaDecisions.ApprovalBySession | idp-server/internal/application/authn/service.go:484-545 | in every run an approved challenge was approved with a session of its own user that was presented in the run and found active by the cache-first lookup: its row was live, or it was logged out while its login was under way or it had a copy |
| MfaChallenges.MfaRepository.SaveMFAChallenge | idp-server/scripts/lua/save_mfa_challenge.lua:31-137 | a save succeeds exactly over the version that was read, 0 without a state key, and never rewrites a decision that stands |
| MfaChallenges.MfaRepository.GetMFAChallenge | idp-server/internal/infrastructure/cache/redis/mfa_repository.go:127-198 | reads the stored hash, if any, with the version that a save over it needs |
| MfaChallenges.MfaRepository.DeleteMFAChallenge | idp-server/internal/infrastructure/cache/redis/mfa_repository.go:200-202 | afterwards the challenge cannot be read, a copy can be saved over it exactly if it was read without a state key, and no other challenge changed |
| Sessions.CacheRefinesDatabase | idp-server/internal/application/authz/service.go:174-208 | in every reachable state cache-first lookup decides as the database does, for the same user, exactly unless it finds an active copy of a session that was logged out while its login was between its two steps or while it had a copy |
| Sessions.LogoutDuringLogin | idp-server/internal/application/authn/service.go:1071-1126 | for every login between its two steps, a log-out everywhere there leaves a copy that lookups accept while the database has the session logged out |
| Sessions.ConsentLookupDiffers | idp-server/internal/application/consent/service.go:111-154 | the consent lookup differs from the database exactly on an expired copy of a live row and on such copies |
| Sessions.ConsentLookupDiffersSomewhere | idp-server/internal/application/consent/service.go:116-119 | a reachable state in which it does |
| Sessions.NoSessionSurvives | idp-server/internal/application/session/service.go:170-194 | after a log-out everywhere that nothing interrupts, some lookup in some later run finds a session the user had then if and only if its login is between its two steps with time left, or it was logged out before, has an active copy and is not in the index |
| Sessions.LogoutIsFinal | idp-server/internal/application/session/service.go:56-94 | after a log-out of a session some lookup in some later run finds it if and only if its login is between its two steps with time left |
| Sessions.LogoutAnswers | idp-server/internal/application/session/service.go:56-94 | for all stores, a log-out ends the session for every lookup at every time and touches no other |
| Sessions.LoginAnswers | idp-server/internal/application/authn/service.go:1071-1126 | for all stores, a new session is found by every lookup until the whole second of its expiry and by none a second later, and no other lookup changed |
| Sessions.OthersStayLoggedIn | idp-server/internal/application/session/service.go:170-194 | in every reachable state a log-out everywhere changes no lookup of another user's session |
| Sessions.LogoutsAgree | idp-server/internal/application/session/service.go:56-126 | a log-out is its two statements, one after the other, and logging out everywhere by a session is logging its user out |
| SessionLogouts.FirstLogoutStands | idp-server/internal/application/session/service.go:75-82 | in every run a row that is logged out keeps its first log-out time, user and expiry |
| SessionLogouts.StepsMakeLogout | idp-server/internal/application/session/service.go:170-208 | the statements of a log-out everywhere, copies deleted in whatever order and with nothing in between, leave the stores of the whole log-out |
| SessionLogouts.WrongLookupIsAccounted | idp-server/internal/application/session/service.go:56-194 | in every run, whenever cache-first lookup accepts a session the database has logged out, its login was under way then, or a log-out is still to delete its copy, or failed before that, or Redis lost the index pair it would have gone by |
| SessionLogouts.HalfLoggedOut | idp-server/internal/application/session/service.go:75-87 | for every active copy, between the two steps of a log-out the copy is accepted and the database has it logged out; afterwards neither has it |
| Sessions.ActiveCopyIsNamed | idp-server/internal/application/session/service.go:128-168 | every active copy of the user's sessions that is not logged out is among the ids collected, even if the index was lost |
| Sessions.CollectUserSessionIDs | idp-server/internal/application/session/service.go:128-168 | merges both listings trimmed, without blanks, each id once, in order |
| Sessions.SessionService.CreateSession | idp-server/internal/application/authn/service.go:1071-1126 | row, copy and index entry are created for the same user and expiry |
| Sessions.SessionService.Logout | idp-server/internal/application/session/service.go:56-94 | the row is marked once and its copy and index entry are gone: no lookup finds the session at any time, and no lookup of another session changed |
| Sessions.SessionService.LogoutUser | idp-server/internal/application/session/service.go:170-208 | all rows of the user are marked, every collected copy is deleted, and the ids are counted once each |
| Sessions.SessionService.DeleteCached | idp-server/internal/infrastructure/cache/redis/session_cache_repository.go:126-149 | deleting a copy also removes it from its user's index |
| Revocation.RevokedTokenWindow | idp-server/internal/application/session/service.go:210-245 | in every run a revoked access token is accepted at most strictly inside the last second before its exp, or while its marker is unwritten; before that second it is accepted exactly while it has no marker |
| Revocation.TokenIssuedDuringLogout | idp-server/internal/application/session/service.go:217-245 | for every log-out that has listed the tokens, one issued then is revoked without a marker and accepted until its exp |
| Revocation.MarkerReachesExp | idp-server/internal/infrastructure/cache/redis/helpers.go:8-16 | the marker of a token revoked before its expiry ends less than one second before exp, or later |
| Revocation.NoGapExactly | idp-server/internal/infrastructure/cache/redis/helpers.go:8-16 | there is no gap exactly when the revocation fell on a whole second, the column rounded up, or less than a second was left |
| Revocation.RevokedTokenIsAcceptedAgain | idp-server/internal/application/session/service.go:234-245 | a run in which a revoked token is accepted in its last second |
| Revocation.LogoutRevokesEverything | idp-server/internal/application/session/service.go:210-261 | afterwards every access token of the user is revoked or expired and no other changed; a refresh token can be rotated with any given time exactly if it could before and is another user's or was taken for expired |
| Revocation.StepsMakeLogout | idp-server/internal/application/session/service.go:210-261 | listing, updating and writing every marker, in whatever order and with nothing in between, is the whole log-out |
| Revocation.TokenRevoker.RevokeUserTokens | idp-server/internal/application/session/service.go:210-261 | the listed rows are revoked and each gets its marker if time is left |
| Revocation.TokenRevoker.ListActiveAccessTokensByUserID | idp-server/internal/infrastructure/persistence/token_repo.go:123-143 | lists each active token of the user once |
| Jwk.ParseAfterBuild | idp-server/internal/infrastructure/crypto/key_loader.go:83-116 | parsing a built public key gives the same key exactly when its exponent is positive |
| Jwk.ParsesExactly | idp-server/internal/infrastructure/crypto/key_loader.go:83-116 | for every text, which documents parse, to which key, and which error the others give; an exponent with leading zeros is read as its number |
| Jwk.ExponentRoundTrip | idp-server/internal/infrastructure/crypto/key_manager.go:236-248 | reading back the exponent bytes gives a 64-bit exponent again exactly when it is positive |
| Jwk.BigEndianExponentBytes | idp-server/internal/infrastructure/crypto/key_manager.go:236-248 | the loop writes the shortest big-endian bytes |
| Jwk.ParseExponent | idp-server/internal/infrastructure/crypto/key_loader.go:100-110 | the loop reads big-endian bytes with 64-bit wrap-around and refuses none and zero |
| SigningKeys.KeyManager.AddRSAKey | idp-server/internal/infrastructure/crypto/key_manager.go:69-104 | a key is registered with its own public half and becomes active if asked or if it is the first |
| SigningKeys.KeyManager.AddRSAPublicKey | idp-server/internal/infrastructure/crypto/key_manager.go:106-145 | a public key is registered without losing a private one |
| SigningKeys.AddedKeySigns | idp-server/internal/infrastructure/crypto/key_manager.go:69-104 | for every manager, a private key that is made active or is the first signs from then on, any other leaves the signing key alone; it verifies under its own public half and other kids are untouched |
| SigningKeys.AddedKeyVerifies | idp-server/internal/infrastructure/crypto/key_manager.go:106-145 | for every manager, a public key verifies from then on and leaves the signing key and other kids alone |
| SigningKeys.LoadKeyManagerFromRepository | idp-server/internal/infrastructure/crypto/key_loader.go:32-81 | loading goes record by record, stops at the first failure, and needs an active private key |
| SigningKeys.LoadRecord | idp-server/internal/infrastructure/crypto/key_loader.go:48-73 | one record registers its public key and, if readable, its private key; an unreadable active key is an error |
| KeyRotation.ManagerSignsWithActiveRecord | idp-server/internal/infrastructure/crypto/key_loader.go:32-81 | whatever the order of the listing, a loaded manager signs with the single active record and its private key |
| KeyRotation.TokenSurvivesRotations | idp-server/internal/infrastructure/crypto/signer.go:33-141 | a token signed by any manager verifies in every manager loaded later, after rotations in distinct seconds and lost files, while its record is listed and in any case for the retirement time less half a second |
| KeyRotation.SameSecondRotationBreaksTokens | idp-server/internal/infrastructure/crypto/key_rotation.go:163-194 | a forced rotation in the second of the last one leaves the record listed and breaks its tokens |
| KeyRotation.RunKeeps | idp-server/internal/infrastructure/crypto/key_rotation.go:129-196 | rotations in distinct seconds keep one active record and records that agree with their files |
| KeyRotation.RotationCheckLeavesActiveKey | idp-server/internal/infrastructure/crypto/key_rotation.go:152-196 | the rotation check leaves an active key behind and retires one only inside the window before its planned rotation |
| KeyRotation.RotateKey | idp-server/internal/infrastructure/crypto/key_rotation.go:129-196 | the check lists, decides, writes the file and then the record exactly as the step of the machine does, and reports a rotation exactly if the table changed |
| KeyRotation.SignedByRecord | idp-server/internal/infrastructure/crypto/signer.go:33-73 | a signed token carries the active kid and verifies under the key its record publishes |
| KeyRotation.LoadedVerifies | idp-server/internal/infrastructure/crypto/signer.go:75-141 | a manager verifies every token signed under a listed record; `VerifiesExactly` has the converse |
| TokenVerification.VerifiesExactly | idp-server/internal/infrastructure/crypto/signer.go:75-141 | for every consistent table, listing and token, a loaded manager accepts the token if and only if the table lists a record of its kid and the signature is good under the key that record publishes, and then answers with what was signed |
| TokenVerification.SignsExactly | idp-server/internal/infrastructure/crypto/signer.go:33-73 | any manager whose signing key is filed under its own kid and public half signs exactly if that key is there and of the default algorithm, and verifies what it signed |
| TokenVerification.RetiredTokenIsRefused | idp-server/internal/infrastructure/crypto/signer.go:114-118 | once its record is no longer listed, or without a record, a token is refused by every manager loaded from then on, after whatever rotations in distinct seconds |
| TokenVerification.AcceptedWasSigned | idp-server/internal/infrastructure/crypto/signer.go:33-141 | in every such run, whatever a manager accepts from a token that is not forged was signed by a manager of the run under a record that publishes the same key, and under the token's own record if no two records share a key |
| TokenVerification.LoadsExactly | idp-server/internal/infrastructure/crypto/key_loader.go:32-81 | whatever the order of the listing, a manager can be loaded if and only if the active record has a private key whose file is there |
| TokenVerification.RotatesExactly | idp-server/internal/infrastructure/crypto/key_rotation.go:129-196 | the check makes a new active key if and only if it is forced, there is none, or the planned rotation lies in the window; the new record publishes the key, names its file and plans the next rotation in ninety days |
| TokenVerification.QuietAfterRotation | idp-server/internal/infrastructure/crypto/key_rotation.go:152-162 | after a rotation no unforced check acts before the window of the next |
| KeyRotation.FindActiveKey | idp-server/internal/infrastructure/crypto/key_rotation.go:198-206 | finds an active record if there is one |
| KeyRotation.JwkKeyRepository.ListCurrent | idp-server/internal/infrastructure/persistence/jwk_key_repo.go:35-80 | lists exactly the records not yet deactivated, each once |
| KeyRotation.NewKeyReplacesActive | idp-server/internal/infrastructure/persistence/jwk_key_repo.go:82-112 | a new active key leaves only itself active; every other record keeps its key and stays listed as long as before, or, if it was active, until the retirement time at most |
| WorkerPools.SomeStepIsEnabled | idp-server/internal/application/authn/worker_pool.go:50-97 | in every reachable state with an unfinished job some step of the pools is possible, although I/O workers block on CPU jobs and both queues are bounded |
| WorkerPools.StepsRunOut | idp-server/internal/application/authn/worker_pool.go:50-97 | without new submissions the pools take at most as many steps as the rank of their jobs |
| WorkerPools.EveryJobIsAnswered | idp-server/internal/application/authn/worker_pool.go:50-97 | however the pools go on from a reachable state, once no step is left every job has finished, and every submitter whose context was not cancelled has the result of its own job, which a worker ran, and so has a job for the CPU job it submitted |
| WorkerPools.PoolsComeToRest | idp-server/internal/application/authn/worker_pool.go:50-97 | from every such state some run of pool steps gets there |
| WorkerPools.StepDecreases | idp-server/internal/application/authn/worker_pool.go:50-97 | every step of the pools uses up rank |
| WorkerPools.OneResultToOwnChannel | idp-server/internal/application/authn/worker_pool.go:50-97 | each job sends exactly one result, to its own channel, and never blocks on it even after its submitter left |
| WorkerPools.TakenRunsExactly | idp-server/internal/application/authn/worker_pool.go:50-59 | in every reachable state a worker runs the job it takes if and only if its context is not cancelled then, and otherwise answers at once |
| WorkerPools.FirstComeFirstServed | idp-server/internal/application/authn/worker_pool.go:50-82 | in every run a job queued while another still waited for room is taken before it |
| WorkerPools.NewWorkerPool | idp-server/internal/application/authn/worker_pool.go:34-48 | a pool has at least one worker and room for as many jobs, and sensible sizes are kept |
| FederatedUsernames.AllocationIsUnused | idp-server/internal/application/authn/service.go:705-727 | the allocated name is an unused local username, and without lookup errors allocation fails exactly when all hundred candidates are taken |
| FederatedUsernames.CandidatesAreDistinct | idp-server/internal/application/authn/service.go:712-717 | the hundred candidates are pairwise distinct |
| FederatedUsernames.CandidateIsUsername | idp-server/internal/application/register/service.go:19 | every candidate matches the local username grammar |
| FederatedUsernames.SanitizedIsUsername | idp-server/internal/application/authn/service.go:782-821 | cleaning a name that is not blank gives a lower-case local username without separators at its ends |
| FederatedUsernames.SanitizedExactly | idp-server/internal/application/authn/service.go:782-821 | for every name, which characters are kept, what each becomes, that those around them are separators, and how a short rest is filled up |
| FederatedUsernames.CandidatesExactly | idp-server/internal/application/authn/service.go:705-727 | the first candidate is the cleaned name cut to 26 characters, or a fixed name without one, and is taken if it is free; the others add an underscore and their number in two digits |
| FederatedUsernames.SanitizeFederatedUsername | idp-server/internal/application/authn/service.go:782-810 | the loop folds, cuts, trims and pads as specified |
| FederatedUsernames.AllocateFederatedUsername | idp-server/internal/application/authn/service.go:705-727 | the loop returns what the search for the first free candidate returns |
| FederatedUsernames.SearchFindsFirst | idp-server/internal/application/authn/service.go:712-726 | the search returns the first candidate not taken, or the error of its lookup, or is exhausted |

## Left out

- HTTP handlers, middleware, templates, CSRF protection, routing and logging.
- Configuration, start-up, dependency wiring and key synchronisation between processes, with the key manager's plain getters: default filling and plumbing.
- Cryptography, bcrypt, WebAuthn, JSON, base64 and PEM themselves: they are parameters.
- Rate limits, account lockout, short URLs, operator roles, client registration, client authentication plugins and the upstream OpenID Connect client: branch checks or network code.
- Client credentials and password grants, ID tokens, user info, discovery and introspection: no property beyond single branches.
- Read replicas: every read sees the primary.
- Redis losing some keys early: one-time-step reservations, revocation markers, deduplication keys and device codes live as long as they were told to. Losing refresh-token entries, session copies, index pairs, retry counters and either key of a challenge is modelled.
- Text comparison in MySQL ignores case and accents. Authorization codes and audit event ids are compared that way; session ids, token hashes and kids are compared exactly, as they are always written in one form. JSON columns keep their text as it is.
- Columns that are too short for their value, and ids skipped by failed inserts.
- Letters outside ASCII whose lower or upper case is again outside ASCII: no comparison in the modelled code depends on them.
- One method per request: code exchanges and the MFA operations are steps of a machine over the repositories; only the refresh grant is also given as one imperative method.
- Sessions.SessionService.LogoutUser: the method is a log-out that nothing interrupts, and the token part of a log-out-everywhere is stated separately in `Revocation`, so their order inside one request is not captured.
- DeviceCodes.DeviceCodeRepository.Save: the lifetimes given to the two keys are not kept; `DeviceFlow` lets the key go at any time after the expiry.
- DeviceCodes.DeviceCodeRepository.Approve: the approval time is not kept, because nothing reads it; the lookup and the write are one method, and `DeviceFlow` has the write as a step that also hits a key gone since.
- DeviceCodes.DeviceCodeRepository.Deny: the denial time is not kept, because nothing reads it; the lookup and the write are one method, as above.
- DeviceCodes.DeviceCodeRepository.MarkConsumed: the consumption time is not kept, because nothing reads it.
- AuditConsumer.Consumer.IncrementRetry: the counter's expiry is not set; `AuditStream` lets a counter vanish at any time.
- MfaChallenges.MfaRepository.GetMFAChallenge: the method reads both keys at once; the machine has the two reads of the source as two steps.
- WorkerPools.SomeStepIsEnabled: the functions given to the pools are assumed to return; what they compute is not modelled.
