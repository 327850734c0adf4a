# Kavach ID: verified model of the authentication session lifecycle

Kavach ID is a multi-tenant identity server with a web SDK. This project models its session lifecycle and the small
stateful engines around it, and proves how they behave over whole runs. `dafny verify dfyconfig.toml` checks
everything.

## How the model is layered

Services that change rows step by step are classes whose methods make the same changes in the same order
(`Services.dfy`, `WebClient.dfy`, and the classes in `RateLimit.dfy`, `Outbox.dfy`, `Lockout.dfy`, `Keys.dfy`,
`Dpop.dfy`). Each method is proved equal to a function on the tables, and the theorems are about runs of those
functions.

- **Atomic model** (`SessionSpec.dfy`): one service call is one step. `SessionEffects.dfy` summarises what a call does
  to the session table; `OneTimeTokens.dfy`, `Replay.dfy`, `Tenants.dfy` and `Accounts.dfy` prove what follows for runs.
  `Outcomes.dfy` and `Credentials.dfy` say, for every database a call may find, which calls are accepted, what they
  answer and which rows they write, by quantifiers over the tables and without the functions that compute it.
- **Interleaved model** (`Interleaving.dfy`): one database call is one step, and a schedule runs any number of calls in
  any order. `Serial.dfy` proves that an undisturbed call is the atomic step. `Concurrency.dfy`, `Crash.dfy`,
  `AccessTrail.dfy`, `ReplaySchedules.dfy`, `AccountSchedules.dfy` and `TenantSchedules.dfy` prove what holds under every
  schedule, and when what does not hold fails; `AccessTokens.dfy` traces every token a schedule gives to the account
  the call read. `RateLimitSchedules.dfy` does the same for the rate limiter.
- **Client and server** (`Protocol.dfy`): any number of SDK clients with their stored tokens, and the server's database
  calls, all in flight together. `ClientSpec.dfy` states a client's operations as uninterrupted turns, `WebClient.dfy`
  carries them out, and `ProtocolTurns.dfy` proves every turn to be a flight nobody interrupts. `Wallets.dfy` says
  which two tokens each client stores, by the answers it received.
- **Engines**: the rate limiter, the outbox dispatcher (`Outbox.dfy`, `OutboxFlight.dfy`), the lockout worker and the
  signing-key table.
- **Wire formats**: hex and base64url (`Bytes.dfy`), DPoP proofs and the guard (`Dpop.dfy`), the stored-key envelope
  (`Envelope.dfy`).

Cryptography is idealised. SHA-256 and Argon2id are free constructors, so digests are equal exactly when their
preimages are. Signatures, thumbprints, JSON, UTF-8 and AES-GCM are function parameters with the laws they need. That
only the holder of a key signs is an assumption about the proof presented: if its signature verifies, the holder's key
manager made a proof with that signing input.
Clocks, random values, generated ids, signing success, proof verdicts, network faults and webhook answers are inputs of
each call. Where a lookup has no order of its own (`findFirst`), rows are taken in table order.

## Findings

- **One token can be redeemed twice.** `refresh` reads the session and writes it in separate database calls. A second
  presentation of a token is accepted exactly when nothing has written the session between the two reads
  (`Concurrency.SecondReadAcceptedIff`), and `Concurrency.OverlapRedeemsTwice` builds the schedule from every state with
  an open session. Uninterrupted calls accept a token at most once.
- **Overlapping refreshes of one client log the user out.** The SDK has no single-flight guard: several requests answered
  401 at the same time each refresh with the same token. One of these calls reports a hijack exactly when it reads the
  session after another of them has written it and before the session is revoked; then every session the user had in
  the tenant is revoked (`ReplaySchedules.ClientOverlapReportsIff`). `ReplaySchedules.OverlapLogsOut` builds the
  schedule from every state with a passing token.
- **A login can slip past a detected replay.** When the answer to a replayed token is given, every session the user had
  when the rows were closed is revoked, and the user has no active session exactly when none was inserted, and left
  open, since then (`ReplaySchedules.NoneActiveIff`, with a schedule in `ReplaySchedules.LoginSurvivesReplay`).
- **A lost answer looks like a replay.** If the answer to a refresh is lost, the client stays in step exactly when its
  token did not pass or its proof was bad (`ProtocolTurns.LostAnswerIff`). Otherwise its next refresh, however many
  other calls come in between, closes every session of the user and is reported as a hijack if the session is still
  open (`ProtocolTurns.LostAnswerLooksLikeReuse`). Without harmful losses, that report never appears, however the calls
  of all clients interleave (`Protocol.NoFalseHijack`).
- **An access can land on a revoked session.** Consent and refresh read the session, and login inserts it, some database
  calls before they add the access row. It lands on a revoked session exactly when some step in between revoked the
  session (`Concurrency.LandsOnRevokedIff`); there are schedules for all three (`Concurrency.ConsentRacesRevocation`,
  `Concurrency.RefreshRacesRevocation`, `Concurrency.LoginRacesRevocation`). Uninterrupted calls cannot do this.
- **An account can be shadowed.** Registration compares e-mails with e-mails and usernames with usernames, while login
  takes the first account matching either, so an older account whose username is the new e-mail, or whose e-mail is the
  new username, can be found first, whatever calls follow (`Accounts.RegisteredVerifiesIff`, with an example in
  `Accounts.EmailShadowed`).
- **A legacy account can migrate twice.** A check migrates the account exactly when it reads it before any migration of
  it is saved (`AccountSchedules.MigratesIffReadsFirst`), so two overlapping checks with different passwords both
  succeed, and the second password remains (`AccountSchedules.MigratesTwice`).
- **Backoff counts from creation.** The dispatcher's comment speaks of a wait of 2^retryCount seconds between retries.
  After a failed attempt, a pass retries the event before that wait is over exactly when the same wait since the event's
  creation is over (`Outbox.RetriedEarlyIff`), so the documented wait is kept if and only if the attempt was made no
  later than the creation (`Outbox.BackoffKeptIff`). `Outbox.RetriedAtOnce` is an event retried after one millisecond
  instead of two seconds.
- **Overlapping calls defeat the rate limit.** However calls interleave, each window admits at most the limit
  (`RateLimitSchedules.AdmittedPerWindow`), and windows keep their distance as long as no call resets a window that is
  open (`RateLimitSchedules.OverlapBound`). A call does that only if another has opened the window since its own upsert
  (`RateLimitSchedules.ResetsOpenOnlyReopened`), and then any number of calls can get through within two milliseconds
  (`RateLimitSchedules.StampedeGetsThrough`).
- **A failed proof keeps the token.** A refresh refused for its DPoP proof does not use the token up: it goes on passing
  until some call touches its session (`OneTimeTokens.BadProofKeepsToken`).

## Model

| member | source | states |
|---|---|---|
| Credentials.LoginReply | src/modules/session/session.service.ts:36-81 | a login is let in if and only if the account found is not locked and the password is right: for a legacy account one of the two legacy spellings, for any other the password its hash was made from; each other case has its own error |
| Credentials.LoginIssuesIff | src/modules/session/session.service.ts:36-155 | a session comes out of a login if and only if it is let in, its proof is not bad, its device and product fit and its session id is unused |
| Credentials.LoginAttempt | src/modules/session/session.service.ts:43-76 | exactly one attempt row is added, successful if and only if the login was let in; a login not let in writes nothing else |
| Credentials.VerifyReply | src/modules/user/user.service.ts:79-133 | a credential check names the account it finds if and only if the password is right for it; each other case has its own error |
| Credentials.VerifyRows | src/modules/user/user.service.ts:94-120 | a right password gives a legacy account its own hash and one event; every other check leaves all tables as they were |
| Credentials.RegisterReply | src/modules/user/user.service.ts:22-66 | a registration is refused if and only if an account of the tenant has the e-mail, the name or the id, and with which error |
| Credentials.RegisterRows | src/modules/user/user.service.ts:41-66 | an accepted registration adds one active account, with a hash exactly when there is a password, and its event; a refused one adds nothing |
| Outcomes.IssueReply | src/modules/session/session.service.ts:97-214 | when a request for a session is answered with tokens, and what they say: key id, subject, tenant, e-mail, name, and the thumbprint of the proof exactly when there is one; otherwise which error |
| Outcomes.IssueRows | src/modules/session/session.service.ts:110-208 | the device, session, access, audit and event rows of an accepted request, field by field; a refused one writes nothing, or only the device when it is the session that does not fit |
| Outcomes.RefreshReply | src/modules/session/session.service.ts:235-357 | the answer to every refresh, by what its token names: each error in order, or tokens bound to the proof of this call for the owner of the session |
| Outcomes.RefreshRows | src/modules/session/session.service.ts:252-307 | what a refresh makes of every session row: the rotated one field by field, or all open ones of its owner closed now, and every other left alone |
| Outcomes.RefreshWrites | src/modules/session/session.service.ts:252-328 | a refresh that comes to signing records the product it names once, with an audit entry for the owner, and no other adds either; a detected replay writes its events and no other refresh any; nothing but sessions changes besides |
| Outcomes.ConsentOutcome | src/modules/session/session.service.ts:363-397 | a consent succeeds if and only if the session belongs to the user and is open and the product exists or is on record, and then records it once with its audit entry |
| Outcomes.RevocationRows | src/modules/session/session.service.ts:402-512 | which sessions each revoking call closes, at what time, and that every other row stays as it is |
| Outcomes.RevocationReply | src/modules/session/session.service.ts:402-512 | a revoking call succeeds if and only if it names a session, or is for all, and each success is reported exactly once |
| AccessTokens.TokensAreTrue | src/modules/session/session.service.ts:178-358 | under every schedule of single database calls, tokens given to any call are signed with its key, bound to its proof or to none, for its tenant, name an account as the tables showed it to the call at some time, and go with the session it opened or rotated, which belongs to that account |
| Concurrency.NoSuccessAfterRevocation | src/modules/session/session.service.ts:242-307 | under every schedule of single database calls, a refresh that begins, or reads its session, after the revoking write never returns tokens; if it finishes it reports the revocation |
| Concurrency.RevokedIsFinal | src/modules/session/session.service.ts:252-281 | once a session is revoked, no token naming it, including one an in-flight refresh writes afterwards, passes any later read |
| Concurrency.AdvanceGrows | src/modules/session/session.service.ts:224-512 | no database call of any service call deletes a session, moves it to another user or clears its revocation |
| Concurrency.CurrentIffUntouched | src/modules/session/session.service.ts:264-307 | under every schedule whose random values do not repeat, a session's token stays redeemable exactly as long as no step writes that session |
| Concurrency.SecondReadAcceptedIff | src/modules/session/session.service.ts:243-307 | after one accepted read, a second read of the same token is accepted if and only if nothing rotated or revoked the session in between |
| Concurrency.OverlapRedeemsTwice | src/modules/session/session.service.ts:243-307 | from every state with an open session there is a schedule in which one token yields two new tokens, of which only the later one works |
| Concurrency.OverlapReportsIff | src/modules/session/session.service.ts:242-307 | any number of calls presenting one token, in any schedule: a call takes the reuse branch if and only if it reads the session after another has written its hash and before it is revoked |
| ReplaySchedules.ClientOverlapReportsIff | sdks/kavach-web/src/index.ts:343-347 | a client that refreshes from several requests with one token: a call that finishes has reported a hijack if and only if it read late, and then every session its user had in the tenant is revoked |
| ReplaySchedules.OverlapLogsOut | src/modules/session/session.service.ts:242-281 | it happens: from every state with a passing token there is a schedule of two refreshes that ends with the hijack report and no active session of the user |
| Concurrency.OpenIffUnclosed | src/modules/session/session.service.ts:242-281 | after every schedule a session is open if and only if it was open before and no step wrote its revocation |
| Concurrency.LandsOnRevokedIff | src/modules/session/session.service.ts:137-397 | the access a consent, refresh or login adds lands on a revoked session if and only if some step since its check of the session revoked it |
| Concurrency.ConsentRacesRevocation | src/modules/session/session.service.ts:363-397 | the failing side occurs: from every state with an open session there is a schedule in which a consent adds an access to a revoked session |
| Concurrency.RefreshRacesRevocation | src/modules/session/session.service.ts:299-316 | the same through a refresh that names a product, from every state with a passing token |
| Concurrency.LoginRacesRevocation | src/modules/session/session.service.ts:142-164 | the same through a login that names a product, whose session is revoked right after its insertion |
| Serial.SerialIsAtomic | src/modules/session/session.service.ts:22-512 | for every call, making its database calls one after another undisturbed gives exactly the atomic step: same tables, same reply; the tables obey the foreign key from accesses to sessions |
| Crash.CrashConsistent | src/modules/session/session.service.ts:142-278 | from empty tables, however many calls stop between any two database calls: users and UserCreated events one to one, SessionCreated names an existing session of that user, SessionHijackDetected and SessionRevoked name revoked sessions |
| Crash.AdvanceReported | src/modules/user/user.service.ts:44-70 | one database call keeps users and UserCreated events equal in order and free of repetition |
| Crash.AdvanceTrue | src/modules/session/session.service.ts:201-281 | any event a database call writes is true of the session table when it is written, and older events stay true |
| OneTimeTokens.PassesIffLastIssued | src/modules/session/session.service.ts:235-281 | after any run from an empty session table a token passes the session and hash checks exactly when a book kept from calls and replies alone says it is the last value issued to a session not closed since; the model's signing error names the user, which the real exception does not |
| OneTimeTokens.RunRefines | src/modules/session/session.service.ts:137-307 | over every run the session table equals that book, and every consumed token was the live one |
| OneTimeTokens.AcceptedAtMostOnce | src/modules/session/session.service.ts:259-307 | in any run of uninterrupted calls with non-repeating random values, no token value is consumed twice by any session of any tenant |
| OneTimeTokens.CurrentIffUntouchedRun | src/modules/session/session.service.ts:235-307 | over any run whose random values are new, a session's value stays the accepted one if and only if no call rotates or closes the session |
| OneTimeTokens.BadProofKeepsToken | src/modules/session/session.service.ts:283-292 | after a refresh refused for its proof, in every continuation the token passes if and only if no call has touched its session |
| Replay.DetectedIff | src/modules/session/session.service.ts:252-281 | replay is reported exactly for well-formed tokens that name a session of the tenant and do not pass |
| Replay.ReplayClosesUser | src/modules/session/session.service.ts:252-281 | a detected replay leaves the user no active session in the tenant, leaves every other tenant's and user's session row as it was, and writes exactly the promised events |
| Replay.ReplayKillsEarlierTokens | src/modules/session/session.service.ts:252-281 | after a detected replay no token of any session the user had in the tenant is accepted in any continuation |
| ReplaySchedules.DetectionClosesOwner | src/modules/session/session.service.ts:252-281 | under every schedule, a refresh answered with one of the two replay errors leaves every session its owner had when the schedule began revoked |
| ReplaySchedules.NoneActiveIff | src/modules/session/session.service.ts:499-512 | under every schedule, after the user's rows are closed the user has no active session if and only if none is inserted and left open, and those that were there stay revoked |
| ReplaySchedules.LoginSurvivesReplay | src/modules/session/session.service.ts:252-257 | it happens: a login whose session is inserted between the closing of the rows and the answer is still active |
| Replay.StepAccounted | src/modules/session/session.service.ts:157-176 | a call keeps access rows and SSO audit entries one to one and adds an access only to a session that is open |
| Replay.RunAccounted | src/modules/session/session.service.ts:309-397 | the correspondence holds after every run of logins, refreshes, consents and revocations |
| AccessTrail.AccountedThroughout | src/modules/session/session.service.ts:157-397 | under every schedule, with calls stopped anywhere: each access is audited exactly once, or is still owed its entry by exactly one call; nothing else is audited; each access names an existing session |
| SessionEffects.RunGrows | src/modules/session/session.service.ts:499-512 | over any run sessions are never deleted, never change owner and never lose a revocation |
| SessionEffects.StepEffect | src/modules/session/session.service.ts:142-307 | what each kind of call does to the session table, tied to its reply |
| Tenants.NonInterference | src/modules/session/session.service.ts:22-512 | a tenant's rows in all tables and all its replies, in any run, are those of the run with every other tenant's calls and rows deleted |
| Tenants.StepOf | src/modules/user/user.service.ts:19-134 | a call computes the same on its tenant's rows alone, and changes no row of another tenant |
| TenantSchedules.ScheduleNonInterference | src/modules/session/session.service.ts:22-512 | under every schedule, a tenant's rows, and its calls with how far each has come and what it replied, are those of the schedule with every other tenant's acts and rows deleted |
| Accounts.RegisteredVerifiesIff | src/modules/user/user.service.ts:19-134 | taking the oldest match, after a registration and any further calls, the new account is the one its password verifies, under e-mail or username, if and only if no older account answers to that identifier |
| Accounts.UniqueAnswersInAnyOrder | src/modules/user/user.service.ts:79-90 | the new account is found first in every order of the rows if and only if no older account answers to the identifier |
| Accounts.EmailShadowed | src/modules/user/user.service.ts:19-134 | it happens: an account registers with an address that is another's username, and logs in with neither its own password nor as itself |
| Accounts.MigratesOnce | src/modules/user/user.service.ts:94-133 | after an uninterrupted check migrated a legacy account, it verifies with that password and no other, and the next check does not migrate it |
| Accounts.MigratedForGood | src/modules/user/user.service.ts:94-133 | the same after any further calls |
| AccountSchedules.MigratesIffReadsFirst | src/modules/user/user.service.ts:79-133 | under every schedule, a check the legacy rule admits migrates the account if and only if no migration of it was saved before the check reads it |
| AccountSchedules.MigratesTwice | src/modules/user/user.service.ts:79-133 | it happens: two overlapping checks with different passwords both succeed, both report a migration, and the second password remains |
| Protocol.NoFalseHijack | sdks/kavach-web/src/index.ts:179-242 | any number of clients, each running its own operations one at a time, with all database calls interleaved: if no answer to a rotating refresh is lost to a client that keeps its tokens, no SessionHijackDetected event is written, no refresh is on its way to one, and every stored token is its session's current one or names a revoked session |
| Protocol.RefreshKeepsDue | src/modules/session/session.service.ts:242-307 | one database call of a refresh that finds in its session the value it expects leaves it finding what it expects next, even when others have revoked the session since it read it |
| Protocol.ServeInFlight | src/modules/session/session.service.ts:22-512 | any database call of any call in progress keeps every client's claim on its session, and the claims of different clients apart |
| Protocol.ReceivedToken | sdks/kavach-web/src/index.ts:198-212 | a token a client receives is for the session it relied on while waiting, so a server that fails after rotating costs the client its tokens and nothing else |
| ProtocolTurns.MoveIsFlight | sdks/kavach-web/src/index.ts:75-368 | every uninterrupted operation of a client, with its network faults, is a flight: same tables, same stored tokens |
| ProtocolTurns.Fetches | sdks/kavach-web/src/index.ts:295-368 | authenticatedFetch, and logoutAll around it: request, refresh on 401 and retry, hop by hop, end where the turn says |
| ProtocolTurns.TurnsReportNoHijack | sdks/kavach-web/src/index.ts:179-242 | what flights guarantee holds for runs of uninterrupted operations |
| ProtocolTurns.LostAnswerIff | sdks/kavach-web/src/index.ts:188-213 | after a lost answer to a refresh the client's token is its session's current one, or the session is revoked, if and only if the token did not pass or the proof was bad |
| ProtocolTurns.LostAnswerLooksLikeReuse | sdks/kavach-web/src/index.ts:179-213 | after a harmful loss and any further calls, the client's next answered refresh closes all the user's sessions, clears the client, and reports a hijack if and only if the session was still open |
| Wallets.FlyStored | sdks/kavach-web/src/index.ts:75-242 | after any hops of any clients and any work of the server in between, a client stores exactly both tokens of the last answer that brought it any, or neither once a logout ended or a refresh was refused; its tenant and product never change |
| Wallets.AsksIffFull | sdks/kavach-web/src/index.ts:317-325 | an idle client sends its next request rather than throwing for want of an access token if and only if its wallet is full, and a full one stays so until a logout ends or a refresh is refused |
| ProtocolTurns.AsksOnceMore | sdks/kavach-web/src/index.ts:338-368 | after a 401 with nothing lost: new tokens stored and the request made once more with its second answer as the result, or both tokens gone and the request not repeated; any other first answer is the result |
| WebClient.KavachClient.SignIn | sdks/kavach-web/src/index.ts:75-104 | both tokens of the answer are stored on success, field by field; otherwise both stay as they were |
| WebClient.KavachClient.Refresh | sdks/kavach-web/src/index.ts:179-213 | both tokens of the answer are stored on success, both are dropped on any other answer, both are kept when there is none |
| WebClient.KavachClient.Logout | sdks/kavach-web/src/index.ts:218-242 | tokens dropped whatever becomes of the request |
| WebClient.KavachClient.AuthenticatedFetch | sdks/kavach-web/src/index.ts:317-368 | storage, server tables and result of the request, the possible refresh and the retry |
| WebClient.KavachClient.LogoutAll | sdks/kavach-web/src/index.ts:295-304 | the request with its possible refresh, then both tokens dropped |
| Services.SessionService.Login | src/modules/session/session.service.ts:22-81 | the reply and every table equal those of the atomic login, which `Credentials` states in full |
| Services.SessionService.AssociateDevice | src/modules/session/session.service.ts:110-135 | device found, created or re-keyed as in the atomic model; nothing changes when the row is refused |
| Services.SessionService.IssueTokensAndSession | src/modules/session/session.service.ts:83-215 | the reply and every table equal those of the atomic session issue, which `Outcomes` states in full |
| Services.SessionService.OpenSession | src/modules/session/session.service.ts:137-214 | session row, first access with audit, signing, token and event equal those of the atomic model, which `Outcomes` states in full |
| Services.SessionService.Refresh | src/modules/session/session.service.ts:224-358 | the reply and every table equal those of the atomic refresh, which `Outcomes` states in full |
| Services.SessionService.RecordSsoConsent | src/modules/session/session.service.ts:363-397 | the reply and every table equal those of the atomic consent |
| Services.SessionService.Revoke | src/modules/session/session.service.ts:402-417 | the reply and every table equal those of the atomic logout |
| Services.SessionService.RevokeSpecificSession | src/modules/session/session.service.ts:476-494 | the reply and every table equal those of the atomic single revocation |
| Services.SessionService.RevokeAllUserSessions | src/modules/session/session.service.ts:499-512 | every unrevoked session of the user in the tenant is closed and one event written |
| Services.SessionService.GetActiveSessions | src/modules/session/session.service.ts:422-449 | the ids of exactly the user's unrevoked sessions in the tenant |
| Services.UserService.RegisterUser | src/modules/user/user.service.ts:19-71 | the reply, the users and the event equal those of the atomic registration |
| Services.UserService.VerifyCredentials | src/modules/user/user.service.ts:76-134 | the reply, the migrated hash and the event equal those of the atomic check |
| Tables.TokenParts | src/modules/session/session.service.ts:178-240 | a token reads back as a session id and a value if and only if it is these two joined by a colon and neither contains one |
| RateLimit.PrismaThrottlerStorage.Hit | src/modules/database/prisma-throttler.storage.ts:9-59 | the table and the answer for any four clock readings, as the uninterrupted model computes them |
| RateLimit.ExactAnswer | src/modules/database/prisma-throttler.storage.ts:16-59 | in every nondecreasing run of calls for all keys, the answer to the n-th call of a key: it counts the calls of that key since its window opened, blocks if and only if that count exceeds the limit, and gives a blocked call the seconds left |
| RateLimit.CleanupUnobservable | src/modules/database/prisma-throttler.storage.ts:18-59 | with one nondecreasing reading per call, each key's answers are those of a fixed-window counter fed that key's calls alone |
| RateLimit.ResetIsLateCleanup | src/modules/database/prisma-throttler.storage.ts:35-48 | the late reset leaves the row and count a cleanup at the later reading would have left |
| RateLimit.AdmissionBound | src/modules/database/prisma-throttler.storage.ts:16-50 | for uninterrupted calls, in any closed interval of L ms a key gets at most limit * (floor(L / (ttl + 1)) + 2) unblocked calls |
| RateLimit.TwiceTheLimit | src/modules/database/prisma-throttler.storage.ts:16-50 | for uninterrupted calls, at most twice the limit in any interval one ttl long |
| RateLimitSchedules.UndisturbedIsIncrement | src/modules/database/prisma-throttler.storage.ts:16-59 | a call whose database calls nobody interrupts gives the table and answer of the uninterrupted model |
| RateLimitSchedules.AnswersHonest | src/modules/database/prisma-throttler.storage.ts:35-58 | under every schedule, an answer counts hits the row of the key has had, blocks if and only if they exceed the limit, and names a waiting time exactly when it blocks |
| RateLimitSchedules.AdmittedPerWindow | src/modules/database/prisma-throttler.storage.ts:23-50 | under every schedule of single database calls, a key admits at most the limit for each window opened, by an upsert that finds no row or by a reset |
| RateLimitSchedules.OverlapBound | src/modules/database/prisma-throttler.storage.ts:16-50 | overlapping calls that each take at most d ms, none of which resets an open window, keep the bound with ttl - d in place of ttl |
| RateLimitSchedules.ResetsOpenOnlyReopened | src/modules/database/prisma-throttler.storage.ts:40-48 | a call resets a window that is open only if some call has opened it since the upsert of the first |
| RateLimitSchedules.StampedeGetsThrough | src/modules/database/prisma-throttler.storage.ts:18-50 | it happens: any number of calls that upsert in a window's last millisecond and check in the next all get through |
| Outbox.OutboxService.CreateEvent | src/modules/outbox/outbox.service.ts:31-46 | one pending event at the end of the table |
| Outbox.OutboxService.FindPending | src/modules/outbox/outbox.service.ts:57-64 | exactly the first twenty waiting events, in order |
| Outbox.OutboxService.ProcessOutbox | src/modules/outbox/outbox.service.ts:51-135 | one pass dispatches each of the first twenty waiting events that is past its backoff exactly once and touches no other; a second pass at the same time does nothing |
| Outbox.PassPosts | src/modules/outbox/outbox.service.ts:57-127 | one pass posts an event if and only if it is pending with fewer than five attempts, fewer than twenty such stand before it, and it is new or 2, 4, 8 or 16 s old after one to four attempts; what becomes of it, and that all others stay |
| Outbox.Drains | src/modules/outbox/outbox.service.ts:57-128 | N pending events at least 16 s old are all processed or failed within 5 * ceil(N / 20) passes, whatever the webhook answers |
| Outbox.FivePassesSettleABatch | src/modules/outbox/outbox.service.ts:57-128 | five passes settle the twenty oldest waiting events, or all of them |
| Outbox.DispatchUsesWork | src/modules/outbox/outbox.service.ts:107-127 | every dispatch strictly lowers the attempts left over all pending events |
| Outbox.RetriedEarlyIff | src/modules/outbox/outbox.service.ts:69-75 | after a failed attempt and any passes that do not reach the event, a pass retries it before the documented wait since the attempt is over if and only if the same wait since its creation is over |
| Outbox.BackoffKeptIff | src/modules/outbox/outbox.service.ts:69-75 | the documented wait is kept in every continuation if and only if the attempt was made no later than the event's creation |
| Outbox.RetriedAtOnce | src/modules/outbox/outbox.service.ts:69-75 | it happens: an event five seconds old fails, is to wait two seconds, and is retried one millisecond later |
| OutboxFlight.SingleFlight | src/modules/outbox/outbox.service.ts:51-134 | with ticks and new events at every await: passes never overlap, no event is posted more than five times, failed means exactly five rejected posts, processed means an accepted one, and the retry count is the number of rejections |
| OutboxFlight.UndisturbedIsPass | src/modules/outbox/outbox.service.ts:51-135 | a pass that nothing interrupts, await by await, leaves the rows one whole pass leaves and lets the next one begin |
| OutboxFlight.MarkIsDispatch | src/modules/outbox/outbox.service.ts:83-127 | the retry count written from the pass's copy is the stored one plus one |
| OutboxFlight.SettledIsFinal | src/modules/outbox/outbox.service.ts:107-127 | processed and failed events never change again in any interleaving |
| Lockout.ThreatDetectionWorker.Group | src/modules/threat-detection/threat-detection.worker.ts:32-39 | the Map loop gives the keys in order of first appearance and each key's attempts in order |
| Lockout.ThreatDetectionWorker.LockIfOver | src/modules/threat-detection/threat-detection.worker.ts:42-81 | one turn of the locking loop: the account, event and audit row it writes, or nothing |
| Lockout.ThreatDetectionWorker.HandleCredentialStuffingDetection | src/modules/threat-detection/threat-detection.worker.ts:16-87 | users, events and audit rows after one run of the worker |
| Lockout.GroupingGrows | src/modules/threat-detection/threat-detection.worker.ts:32-39 | groups stand in the order in which their keys first appear, and attempts in a group in their own order, whatever follows |
| Lockout.GroupSizeIsCount | src/modules/threat-detection/threat-detection.worker.ts:32-47 | for colon-free tenant ids the size of a group is the plain count of unsuccessful attempts of that tenant and identifier since the given time |
| Lockout.TurnLocksOne | src/modules/threat-detection/threat-detection.worker.ts:47-80 | the turn of a group locks the first unlocked match when it has as many attempts as the limit of its tenant, or five, and otherwise changes nothing |
| Lockout.SweepLedger | src/modules/threat-detection/threat-detection.worker.ts:41-83 | every newly locked account has at least the limit of its tenant, or five, of failed attempts under one of its names in the last five minutes, and gets exactly one event and one audit row with that number; no other account changes |
| Lockout.BelowLimitLocksNobody | src/modules/threat-detection/threat-detection.worker.ts:41-83 | failed attempts below the limit under either of its names leave an account as it is |
| Lockout.SweepLocks | src/modules/threat-detection/threat-detection.worker.ts:47-63 | every pair at its limit of failed attempts in the last five minutes that has an account has a locked one after the sweep |
| Keys.KeyPairService.GetActiveKeyPair | src/modules/keypair/keypair.service.ts:15-50 | the newest key in use, or a freshly saved one, and the table after it |
| Keys.KeyPairService.RotateKeys | src/modules/keypair/keypair.service.ts:56-76 | all active keys of the algorithm expired as of now and one new key saved |
| Keys.GivesServing | src/modules/keypair/keypair.service.ts:23-37 | a call for the active key gives a stored active key of the algorithm that is in date, and changes nothing, if and only if there is one |
| Keys.SavesGenerated | src/modules/keypair/keypair.service.ts:112-131 | without one, and on every rotation, the generated key is saved and given, with its id, public key and encrypted private key, valid from now for thirty days; if its id is taken nothing is saved or given |
| Keys.KeepsOthers | src/modules/keypair/keypair.service.ts:59-69 | a rotation expires the active keys of its algorithm as of now; no call touches any other stored key |
| Keys.OnlyNewestInUse | src/modules/keypair/keypair.service.ts:24-69 | after any calls on a strictly increasing clock at most one key per algorithm is active and in date at any later time, and it is the newest |
| Keys.HandedOutHeadsJwks | src/modules/keypair/keypair.service.ts:24-106 | the key handed out for signing is in use and, if it translates, newest and first in the published set |
| Keys.PublishedIff | src/modules/keypair/keypair.service.ts:81-106 | a key is published if and only if it translates and fewer than ten newer keys of its algorithm exist |
| Keys.ResolvableForever | src/modules/auth/auth.guard.ts:31-37 | a key id once found keeps resolving to the same public key through any calls |
| Bytes.BufferToBase64Url | sdks/kavach-web/src/dpop.ts:11-23 | the text is base64 made URL-safe and stripped of padding |
| Bytes.Base64UrlRoundTrip | sdks/kavach-web/src/dpop.ts:11-27 | decoding gives back every byte sequence, and the text never contains a dot, an equals sign or a colon |
| Bytes.GroupText | sdks/kavach-web/src/dpop.ts:11-23 | three bytes become four URL-safe characters of six bits each, from the most significant bit down |
| Bytes.HexRoundTrip | src/modules/crypto/crypto.service.ts:210-229 | hex decoding undoes hex encoding |
| Bytes.HexDigits | src/modules/crypto/crypto.service.ts:208-213 | two lower-case hex digits for each byte, the high one first |
| Bytes.HexConcat | src/modules/crypto/crypto.service.ts:208-209 | hex of two chunks is hex of the whole |
| Dpop.GenerateJti | sdks/kavach-web/src/dpop.ts:29-37 | two hex digits per random byte |
| Dpop.DPoPKeyManager.CreateProof | sdks/kavach-web/src/dpop.ts:86-118 | the proof text for the manager's one key, generated at most once, and the record of the occasion |
| Dpop.ProofReadsBack | sdks/kavach-web/src/dpop.ts:103-117 | a proof splits into exactly three parts that decode to its header, payload and signature |
| Dpop.MadeProofAcceptedIff | src/modules/crypto/crypto.service.ts:159-196 | a proof from createProof is accepted exactly when the upper-cased method matches, the URLs agree before the first ? or #, and the clocks differ by at most 120 s |
| Dpop.CarriedReadsBack | sdks/kavach-web/src/dpop.ts:98-117 | a text whose signed part is that of a proof made on some occasion decodes to that proof's header and payload |
| Dpop.VerifiedIff | src/modules/crypto/crypto.service.ts:159-196 | for any text: accepted for a key if and only if it has three parts, the first naming type and key, the second this method, this URL before the first ? or # and a time within two minutes, and the third a signature of the first two |
| Dpop.AcceptedIffMade | src/modules/crypto/crypto.service.ts:159-196 | if only the holder signs, any text presented is accepted for a key if and only if its signature verifies and the key's holder made that proof for this method and URL within two minutes |
| Dpop.BoundTokenIffFreshProof | src/modules/auth/auth.guard.ts:13-76 | a request with a valid token bound to a key gets through, with the claims of that token, if and only if it carries a proof the holder of the key made for this method and this scheme, host and path within two minutes |
| Dpop.UnboundTokenNeedsNoProof | src/modules/auth/auth.guard.ts:13-75 | a bearer token that verifies under the known key it names and is bound to none gets the request through with its claims, whatever proof comes along; without such a token no request gets through |
| Dpop.CleanUrlIsPrefix | src/modules/crypto/crypto.service.ts:180-182 | the double split keeps exactly the part before the first ? or # |
| Envelope.EncryptPrivateKey | src/modules/crypto/crypto.service.ts:201-213 | the result has exactly three parts, which decode to iv, whole ciphertext and tag, and decrypts to the key text |
| Envelope.DecryptPrivateKey | src/modules/crypto/crypto.service.ts:218-237 | a wrong format exactly when there are not two colons, a bad ciphertext exactly when decryption of the enclosed parts fails, and the key text for every envelope made under the same key |
| Envelope.EnvelopeRoundTrip | src/modules/crypto/crypto.service.ts:201-237 | decrypting an encrypted text gives it back, for every text and iv |

## Left out

- Cryptography itself: SHA-256, Argon2id, ECDSA, RSA, AES-GCM and thumbprints are idealised as described above.
- `jose` beyond the checks written out: `exp` and `nbf` claims in a DPoP proof, and key import failures.
- Services.SessionService.GetActiveSessions: gives the set of ids; the order by last use and the selected columns are not modelled.
- Keys.KeyPairService.GetActiveKeyPair: decryption of the returned key is part of the signing input of a session call; thirty days are 30 * 24 hours, without daylight-saving shifts.
- Outbox.OutboxService.ProcessOutbox: database writes succeed, as does the query; `processedAt` and log lines are not modelled.
- Lockout.ThreatDetectionWorker.HandleCredentialStuffingDetection: database errors, which end the run early and are logged, do not occur.
- UUID columns: ids are compared as stored text, so upper-case spellings of an id and the driver's error for malformed ids are not modelled.
- Missing tenant context: every call has a tenant; the guard turns away requests without one.
- Access rows of an uninterrupted login whose session id already has some: the foreign key from access to session rules this out, and `AccessTrail.AccountedThroughout` shows every schedule to respect it.
- Audit rows written by the controller interceptor, and device listing.
- Protocol.NoFalseHijack: an answer gets lost only after the server has made or settled it; a client that gives up on a refresh still in progress and refreshes again with the same token is a case of `ReplaySchedules.ClientOverlapReportsIff`.
- Dpop.DPoPKeyManager.CreateProof: `ensureKey` is not interrupted. In the source a second call made while the first exports its key finds the pair set and signs with the exported key still missing, and two early calls can generate two pairs.
- Overlapping operations of one client other than refreshes that present the same token, and its own requests to the refresh route outside `refresh`.
- Federation, WebAuthn ceremonies, risk and policy evaluation, role and permission management, the admin console, samples, mobile SDK stubs and the Kubernetes operator.
