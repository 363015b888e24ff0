# Verification of auth-service

A Dafny model of auth-service and proofs about it. Three parts of the service are modelled, down to
their branches, error cases and constants, and the proofs range over every input, every run and every
interleaving of the model.

**The store and its outbox.** The credentials, verification codes, refresh tokens and roles are one
finite map of rows; the constructor of a key is the table, its arguments the primary key. Row triggers
append to an outbox, in commit order, as change data capture reads it. `Statements` gives each
repository call a meaning as one atomic step (`Exec`): who is refused with which error, which rows
change, in which order the triggers fire. `Decisions` says the same of the rows themselves, in another
spelling: when each call takes effect, every row it leaves, and what it answers. `Repository` is the
repository as an object that runs its
statements one by one, each method proved to be one such step. `RepositoryRuns` and `TokenRuns` prove
what runs of those steps keep, and `Concurrency` has rotations and sign-outs as begin, locked load,
revoke, insert, commit or rollback, interleaved with each other and with single statements, and proves
that locks make every interleaving equal to a sequence of atomic steps. `Service`, `Grpc`, `Saga` and
`Recovery` sit on top: the use cases, the status codes and the Kafka handlers, each an object proved
against a function of the old state. `UseCases` decides each of these functions by the rows: who is let
in, verified or refused, with which answer. `ServiceRuns`, `MailedCode`, `Sessions` and `Interleavings` say
what runs of use cases keep and what they keep only because use cases run as a whole.

**The Kafka consumer.** `KafkaConsumer` is any number of consumers over partition logs, committed
offsets, claims, a retry queue and dead letters, with failures, rebalances and restarts anywhere.
`KafkaLoss` says when an event is lost, `KafkaRetries` how long one is retried, and `KafkaBroker` is the
consumer loop itself, proved to take only steps of that machine.

**The NATS pull consumer.** `NatsRuntime` is one fetcher and N workers sharing a bounded channel, a
wait group and a context, in every interleaving. `NatsLoops` has the goroutines as loops, proved to be
runs of that machine.

What the environment decides is a parameter: clocks, fresh ids and tokens, the row an ambiguous query
returns first, the order in which triggers fire, how PostgreSQL reads a UUID, bcrypt, the token signer,
and every failure on the wire, including a lost reply to a write that took effect. SHA-256 is a free
constructor, so distinct texts have distinct digests.

## Findings

- The repository's README.md:7 says registration commands arrive through NATS. The code wires Kafka only
  (internal/fx/messaging.go:14-18); both consumers are modelled, the registration handlers on Kafka.
- The order of the outbox by its timestamps is not the order of the changes: the stamps are NOW(), the
  start of a transaction. `OutboxOrder.CallReadsBackIff` says exactly which call such a reading survives,
  `OutboxOrder.ReadsBackAlwaysIff` which runs, and `OutboxOrder.FirstUserMisreads` is a run that does not.
  The index of the outbox (migration/postgres/000005_create_outbox_events.up.sql:13-14) and an integration
  test (internal/infra/write/postgres/repository_integration_test.go:105) read in that order.
- A consumer that dies after claiming an event and before its outcome loses it, and so does one that is
  told its claim failed although the row was inserted: `KafkaLoss.CrashAfterClaimLoses`.
  `KafkaLoss.OrphanedIff` lists exactly the steps that lose an event to its claim: these two, a release that
  fails, and a message that does not unwrap; a retry or dead letter that cannot be written is not among
  them. A second way to lose one needs no crash, but two sessions at the same message:
  `KafkaLoss.SkippedThenUnwrittenLoses`.
- The registration subscriber starts to read its delete topic exactly when the consumer of its create topic
  has returned nil, which takes a dead-lettered create command: `KafkaBroker.Broker.Subscribe`.
- A recovery command whose effect was committed but not announced can never complete on a retry:
  `Recovery.UnannouncedNeverCompletes`; it can come to that with every sound command to create a credential
  (`Recovery.UnannouncedHappens`). `Recovery.NeverHandledIff` says which commands no delivery can carry out:
  a blank email or username is enough. They are retried all the same, unless they lack a user id or both
  hash and password: `Recovery.PermanentIff`.
- Deactivating a user ends none of its sessions: `Grpc.DeactivationKeepsSessions`.
- A refused Refresh or SignOut may have been carried out: it is then answered Internal, never
  Unauthenticated or InvalidArgument (`Grpc.RefreshAnswersTellEffect`, `Grpc.SignOutAnswersTellEffect`).
- Issuing tokens while the user is deleted and created again leaves a live token with an unverified
  credential: `Interleavings.StaleIssueLeavesToken`. A registration overtaken by a deletion and a second
  registration leaves two codes, and with them a second verification:
  `Interleavings.StaleRegistrationLeavesTwoCodes`, `Interleavings.SecondVerificationIff`. The cross-table
  invariant is one of whole use cases; `Interleavings.CrossTableAlwaysIff` says exactly which interleaved
  runs keep it, and both races are shown as runs from the empty store.

## Model

| member | source | states |
|---|---|---|
| Concurrency.Serialisable | internal/infra/write/postgres/repository.go:150-280 | Every interleaving of rotations and sign-outs, step by step, with other transactions and autocommit statements has the tables, the outbox and the replies of running the same calls atomically in the order of their commits and rejections. |
| Concurrency.StepIsAtomic | internal/infra/write/postgres/repository.go:150-234 | Each step keeps the lock invariant and either shows nothing to the outside or is exactly one atomic call with the reply its client gets. |
| Concurrency.CommitIsAtomic | internal/infra/write/postgres/query.go:45-72 | At commit, what a transaction has privately changed since its locked load is what the atomic call would do to the database as it is by then. |
| Concurrency.LoadStep | internal/infra/write/postgres/repository.go:236-280 | A locked load either rejects the token, with the database as it is then, or leaves the transaction holding locks on the token row and the credential row it has read. |
| Concurrency.UnlockedChange | internal/infra/write/postgres/query.go:45-65 | A change of rows disturbs no transaction that holds no lock on them. |
| Concurrency.CommitIsNeverBlocked | internal/infra/write/postgres/repository.go:184-186 | A transaction that has run all its statements can commit: its changes still fit the tables. |
| Concurrency.LoadWaitsIff | internal/infra/write/postgres/query.go:45-63 | A locked load waits exactly while another transaction has locked a token with that digest or the credential of one. |
| Concurrency.AtomicRunsAreStepRuns | internal/infra/write/postgres/repository.go:150-280 | The converse of serialisability: every run of atomic calls, whatever they meet on the wire, is also a run of the steps, with the same tables, outbox and replies. |
| Concurrency.ConcurrentIntegrity | internal/infra/write/postgres/repository.go:150-234 | Under any interleaving emails stay unique, children keep their parents, flag and status agree, and the outbox rebuilds the tables. |
| Concurrency.ConcurrentSingleRedemption | internal/infra/write/postgres/repository.go:168-188 | However clients race, no refresh token is redeemed twice, by rotation or sign-out. |
| Concurrency.ConcurrentLineage | internal/infra/write/postgres/repository.go:168-188 | However clients race, the committed rotations form disjoint simple paths, one from each token issued by a committed creation and no other, and only the last token of a path can be unrevoked. |
| Repository.ChangeRow | migration/postgres/000005_create_outbox_events.up.sql:16-36 | One row change and the event its trigger appends: old image on delete, new image otherwise. |
| Repository.ChangeRows | migration/postgres/000005_create_outbox_events.up.sql:38-49 | Changing rows one at a time, each firing its trigger, gives the rows and the outbox of the whole change. |
| Repository.Repo.Create | internal/infra/write/postgres/repository.go:32-63 | One atomic creation or its refusal: duplicate id before duplicate email, malformed id, wire errors, and an error after commit when the roles cannot be read. |
| Repository.Repo.CreateVerificationCode | internal/infra/write/postgres/repository.go:80-100 | One atomic insertion of a code, or its refusal when the user has no credential. |
| Repository.Repo.VerifyRegistrationEmail | internal/infra/write/postgres/repository.go:102-126 | One atomic step: all matching unused unexpired codes are used and the credential is verified, or nothing changes and the code is invalid. |
| Repository.Repo.CreateRefreshToken | internal/infra/write/postgres/repository.go:128-148 | One atomic insertion of a token, or its refusal. |
| Repository.Repo.RotateRefreshToken | internal/infra/write/postgres/repository.go:150-191 | The transaction as one atomic step: the loaded token is revoked and its successor inserted, or any failure on the way rolls both back. |
| Repository.Repo.RevokeRefreshToken | internal/infra/write/postgres/repository.go:193-229 | The transaction as one atomic step: the loaded token is revoked, or nothing changes. |
| Repository.Repo.DeactivateRegistrationAuth | internal/infra/write/postgres/repository.go:349-373 | One atomic step; no row affected is reported as not found. |
| Repository.Repo.DeleteByUserID | internal/infra/write/postgres/repository.go:375-399 | One atomic step that removes the credential and every cascaded child; no row affected is reported as not found. |
| Repository.Repo.RevokeRow | internal/infra/write/postgres/query.go:67-72 | The conditional update revokes an unrevoked token and leaves a revoked one alone. |
| Repository.Repo.ReplaceToken | internal/infra/write/postgres/repository.go:168-182 | The two statements of a rotation append the events of one combined change, revocation first. |
| Statements.LoadForMutation | internal/infra/write/postgres/repository.go:236-280 | A token is loaded exactly when some row matches and the first one is unrevoked and expires after now. |
| Decisions.CreatingCredential | internal/infra/write/postgres/query.go:4-8 | A credential is created exactly for a user and an email that have none; the row is pending and unverified; each refusal has its own error. |
| Decisions.CreatingCode | internal/infra/write/postgres/query.go:10-13 | A code is stored exactly for a user with a credential and a free id, with the digest and expiry given, unused. |
| Decisions.Verifying | internal/infra/write/postgres/query.go:15-38 | A verification takes effect exactly when an unused, unexpired code of that user has the digest presented; it uses up exactly those codes and verifies exactly that credential. |
| Decisions.CreatingToken | internal/infra/write/postgres/query.go:40-43 | A refresh token is stored exactly for a user with a credential and a free id, live, with the digest and expiry given. |
| Decisions.Rotating | internal/infra/write/postgres/repository.go:150-190 | A rotation takes effect exactly for a live, unexpired token with the digest presented whose user has a credential, and a free id; it revokes that row and adds the successor, and nothing else; each refusal has its own error. |
| Decisions.Revoking | internal/infra/write/postgres/repository.go:193-234 | A revocation takes effect exactly for such a token and marks that one row. |
| Decisions.Deactivating | internal/infra/write/postgres/query.go:107-112 | A deactivation takes effect exactly when the credential is there, and changes flag and status of that one row. |
| Decisions.Deleting | internal/infra/write/postgres/query.go:95-98 | A deletion takes effect exactly when the credential is there, and leaves exactly the rows of other users. |
| Decisions.EveryCallIsPossible | internal/infra/write/postgres/repository.go:236-280 | Whatever the tables hold, every call can be made for some choice of the row found first and the order of the triggers. |
| Decisions.EventsTellChanges | migration/postgres/000005_create_outbox_events.up.sql:16-36 | A call appends one event for each row it changes and no other, which tells the row's creation, new image or removal, with the time of the call. |
| Outbox.Capture | migration/postgres/000005_create_outbox_events.up.sql:16-36 | An event carries the id of the row's user as its aggregate, and a payload with the row's own key. |
| Outbox.HeadersIdentify | migration/postgres/000005_create_outbox_events.up.sql:28-31 | Either type header tells the table; the event type tells the operation as well, but for credentials only. |
| Outbox.CredentialHeaders | migration/postgres/000005_create_outbox_events.up.sql:20-31 | The header texts of a credential's events, letter by letter. |
| Outbox.TokenHeaders | migration/postgres/000005_create_outbox_events.up.sql:20-31 | The header texts of a refresh token's events. |
| Outbox.ReplayIsLast | migration/postgres/000005_create_outbox_events.up.sql:26-34 | Replaying a log leaves each row as the log last told it. |
| Outbox.BatchOrderIsIrrelevant | migration/postgres/000005_create_outbox_events.up.sql:9-10 | Events that touch each row at most once replay to the same tables in any order. |
| Outbox.RowOrderSuffices | migration/postgres/000005_create_outbox_events.up.sql:13-14 | Any reordering of a log that keeps the events of each row in order replays to the same tables. |
| Outbox.ReplayCommutesWithPartition | migration/postgres/000005_create_outbox_events.up.sql:24 | Replaying the events of one aggregate gives exactly that user's rows of every table. |
| RepositoryRuns.OutboxComplete | migration/postgres/000005_create_outbox_events.up.sql:16-49 | In every reachable state replaying the outbox from nothing rebuilds all four tables. |
| RepositoryRuns.OutboxCompletePerUser | migration/postgres/000005_create_outbox_events.up.sql:24 | In every reachable state the events of one user rebuild exactly that user's rows. |
| RepositoryRuns.CallEventsInAnyOrder | internal/infra/write/postgres/repository.go:174-184 | The events of one call share a timestamp and replay to the same tables in any order, rotation and cascading delete included. |
| RepositoryRuns.DeleteCascades | internal/infra/write/postgres/query.go:95-98 | A delete removes the user's rows and no others, and appends one event for each of them with the row as it was; a refused one appends nothing. |
| RepositoryRuns.CommittedCall | internal/infra/write/postgres/repository.go:150-234 | A call that is not committed changes neither tables nor outbox and is answered with an error. |
| RepositoryRuns.CredentialAfter | internal/infra/write/postgres/query.go:4-38 | How every call leaves a credential: only creation, verification, deactivation and deletion of that user touch it. |
| RepositoryRuns.CodeAfter | internal/infra/write/postgres/query.go:15-38 | How every call leaves a code: used once by a verification that matches, gone with its user, untouched otherwise. |
| RepositoryRuns.CallKeepsIntegrity | migration/postgres/000001_create_auth_tables.up.sql:1-17 | Every call, refused or not, keeps unique emails, parents of all children, agreement of flag and status, and a used code for every verified user. |
| RepositoryRuns.IntegrityAlways | migration/postgres/000001_create_auth_tables.up.sql:1-35 | The same over every run of calls. |
| OutboxOrder.ReadingsRebuildIff | migration/postgres/000005_create_outbox_events.up.sql:9-14 | Every reading of a log ordered by timestamp rebuilds the tables if and only if each newest-stamped event of a row tells what the log last said about that row. |
| OutboxOrder.BatchAgreesIff | migration/postgres/000005_create_outbox_events.up.sql:9-10 | The events of one more call keep stamps and log in agreement if and only if no row they touch has a newest event stamped no earlier that says something else. |
| OutboxOrder.CallReadsBackIff | migration/postgres/000005_create_outbox_events.up.sql:9-14 | After one more call every reading by timestamp rebuilds the tables if and only if each row the call touches was last changed before the call began, or is left as it is. |
| OutboxOrder.ReadsBackAlwaysIff | migration/postgres/000005_create_outbox_events.up.sql:9-14 | Over a whole run every reading at every moment rebuilds the tables if and only if every call is in order in that sense. |
| OutboxOrder.OverlapMisreads | migration/postgres/000005_create_outbox_events.up.sql:9-10 | Two calls on one row, the second to take effect stamped no later than the first: unless both leave the same row, some reading by timestamp rebuilds other tables. |
| OutboxOrder.LateDeactivationMisreads | internal/infra/write/postgres/query.go:107-112 | A verification overtaking a deactivation that began no later is such a pair. |
| OutboxOrder.FirstUserMisreads | internal/infra/write/postgres/query.go:15-38 | One concrete run from the empty store in which it happens. |
| TokenRuns.TokenAfter | internal/infra/write/postgres/query.go:40-72 | How every call leaves a refresh token, and what the token a call redeems was like. |
| TokenRuns.LiveTokenConservation | internal/infra/write/postgres/repository.go:128-229 | A user's unrevoked tokens number the committed token creations minus the committed sign-outs since its credential was created; rotation leaves the number, deletion makes it zero. |
| TokenRuns.RevocationIsFinal | internal/infra/write/postgres/query.go:67-72 | While a token row exists only its revocation changes, exactly when a call redeems it, and a set revocation never changes again. |
| TokenRuns.RedeemedAtMostOnce | internal/infra/write/postgres/repository.go:168-188 | Over a run with fresh ids no two committed redemptions present the same token. |
| TokenRuns.LineagesAreDisjointPaths | internal/infra/write/postgres/repository.go:168-188 | The rotation history of a run is a set of disjoint simple paths, and only the last token of a path can be unrevoked. |
| TokenRuns.EdgesAreRotations | internal/infra/write/postgres/repository.go:174-184 | Two tokens are neighbours on a path exactly when a committed rotation replaced the one by the other. |
| TokenRuns.StartsAreIssued | internal/application/service.go:192-281 | A path starts with each token issued by a sign-in or at the end of a registration, and with no other. |
| Text.TrimSpaceStrips | internal/application/service.go:64-72 | Trimming takes white space off both ends and nothing else. |
| Text.AtoiInvertsItoa | internal/presentation/event_broker/kafka/broker.go:142-151 | A number written in decimal is read back, within the 64-bit range. |
| Text.ZeroPadded | internal/application/service.go:362-363 | Exactly `width` digits that denote the number, so distinct numbers give distinct codes. |
| Text.GenerateCode | internal/application/service.go:348-364 | A code is six bytes, trimmed and not blank; only a failing random source gives none. |
| Text.CodeFollowsEntropy | internal/application/service.go:348-363 | Without a setting of six bytes the code is the three random bytes as one number, modulo a million, in six digits. |
| Text.EveryCodeCanBeDrawn | internal/application/service.go:357-363 | Each of the million codes can be drawn. |
| Errors.DuplicateIsTold | internal/infra/write/postgres/error_translator.go:27-50 | A duplicate is told by the constraint named, or else by the constraint the message mentions anywhere, the primary key first. |
| Service.AuthService.CreateCredential | internal/application/service.go:54-97 | The use case as a function of the old database: checks in order, then one creation. |
| Service.AuthService.CreatePendingRegistration | internal/application/service.go:137-165 | Two separate writes: a failure between them leaves a pending credential without a code. |
| Service.AuthService.VerifyRegistrationEmail | internal/application/service.go:169-188 | Both texts trimmed, the digest of the code presented, expiry judged by the service's clock. |
| Service.AuthService.StoreRefreshToken | internal/application/service.go:209-233 | Signing comes before the token is drawn and stored. |
| Service.AuthService.IssueRegistrationTokens | internal/application/service.go:192-234 | Tokens for a user whose flag and status both say verified, and an error that leaves the tables alone otherwise. |
| Service.AuthService.SignIn | internal/application/service.go:238-281 | Every refusal before the password is accepted is the same error. |
| Service.AuthService.Refresh | internal/application/service.go:285-319 | The rotation is committed before the access token is signed; the credential's status is not looked at. |
| Service.AuthService.SignOut | internal/application/service.go:322-336 | One revocation of the trimmed token. |
| Service.AuthService.DeactivateRegistrationAuth | internal/application/service.go:340-346 | One deactivation of the trimmed user id. |
| Service.AuthService.DeleteCredential | internal/application/service.go:100-115 | One deletion; the id is not trimmed. |
| UseCases.AddingDecision | internal/application/service.go:54-97 | Every answer of a creation and the row it leaves: the first input missing, then the user, then the email. |
| UseCases.RegistrationDecision | internal/application/service.go:137-165 | A registration answers the stored email and the code whose digest it has stored for ten minutes, or leaves the credential without a code. |
| UseCases.VerificationDecision | internal/application/service.go:169-188 | Exactly who is verified: someone who presents, trimmed, an unused and unexpired code of that user; all rows afterwards, and every other answer. |
| UseCases.WrongCodeIsRefused | internal/application/service.go:169-188 | Whoever presents a text that is no code of the user is refused, and nothing changes. |
| UseCases.SignInDecision | internal/application/service.go:238-281 | Exactly who is let in: someone who names a verified credential and knows its password; the pair holds the token whose digest is stored for that user, with the configured lifetime; everyone else is answered invalid credentials, and nothing changes. |
| UseCases.WrongPasswordIsRefused | internal/application/service.go:251-253 | A password that fits no credential opens no session and changes nothing. |
| UseCases.IssueDecision | internal/application/service.go:192-234 | Tokens are issued exactly to verified users; the claims are the credential and exactly the user's roles. |
| UseCases.RenewalDecision | internal/application/service.go:285-319 | Every answer of a Refresh, the rows it leaves, and why each token is refused. |
| UseCases.RefreshHandsSuccessor | internal/application/service.go:312-318 | The token handed to the client is the one new row's: live, of the user whose token was redeemed, with the configured lifetime; the claims are that user's credential and roles. |
| UseCases.SignOutDecision | internal/application/service.go:322-336 | Every answer of a SignOut and the one row it marks. |
| UseCases.DeactivationDecision | internal/application/service.go:340-346 | Every answer of a deactivation and the one row it changes. |
| UseCases.DeletionDecision | internal/application/service.go:100-115 | Every answer of a deletion; when it takes effect exactly the rows of other users are left. |
| ServiceRuns.UseCaseIsShort | internal/application/service.go:54-346 | Every use case is no call, one call, or a creation followed by a code for the same new user; tokens are stored only for verified users. |
| ServiceRuns.EveryUseCaseIsPossible | internal/application/service.go:54-346 | Whatever the tables hold, every use case can be tried for some choice of the environment. |
| ServiceRuns.UseCaseKeepsCrossTable | internal/application/service.go:137-281 | Every use case, however it fails, keeps the invariant below. |
| ServiceRuns.CrossTableAlways | internal/infra/write/postgres/query.go:4-38 | Over all runs of use cases from an empty store: table integrity, at most one code per user, and a used code for every verified user and every holder of a refresh token. |
| ServiceRuns.VerifiedAtMostOnce | internal/infra/write/postgres/query.go:15-29 | While its row exists, a credential that was verified and is no longer is never verified again. |
| ServiceRuns.RecoveredIsNeverVerified | internal/presentation/event_broker/kafka/recovery_subscriber.go:91 | A credential created without a code, as the recovery path does, is never verified while its row exists. |
| Interleavings.TokenCreationKeepsIff | internal/application/service.go:197-223 | Storing a token keeps "a token means a used code" exactly when its user has a used code at that moment. |
| Interleavings.StaleIssueLeavesToken | internal/application/service.go:197-223 | A deletion and a new creation between the read and the write of an issue leave a live token with an unverified credential that has used no code. |
| Interleavings.StaleIssueHappens | internal/application/service.go:197-223 | One concrete run from the empty store in which it happens. |
| Interleavings.CodeCreationKeepsIff | internal/application/service.go:138-157 | Storing a code keeps "at most one code per user" exactly when its user has none at that moment. |
| Interleavings.StaleRegistrationLeavesTwoCodes | internal/application/service.go:138-157 | A deletion and a second registration between the two writes of a registration leave the user with two unused codes. |
| Interleavings.StaleRegistrationHappens | internal/application/service.go:138-157 | One concrete run from the empty store in which it happens. |
| Interleavings.CrossTableAlwaysIff | internal/application/service.go:138-223 | Over any run of single calls, of whatever use cases they are interleaved steps, the cross-table invariant holds at every moment if and only if every code created was its user's first and every token stored was for a user with a used code, at the moment of the write. |
| Interleavings.SecondVerificationIff | internal/infra/write/postgres/query.go:15-29 | Verified with one code and deactivated, a user is verified again by another call exactly if that names a usable code the first verification did not use up. |
| FirstUser.FirstUserVerifies | internal/infra/write/postgres/query.go:4-38 | A concrete run from the empty store: a user registers, is handed a code and verifies with it, and the tables are consistent. |
| MailedCode.RegistrationLeavesCode | internal/application/service.go:137-165 | A registration that succeeds leaves an unverified user and exactly the code it answers, unused, to expire ten minutes after its clock. |
| MailedCode.WaitingCodeVerifies | internal/infra/write/postgres/query.go:15-24 | A waiting code verifies its user exactly when it has not expired; otherwise it is invalid and nothing changes. |
| MailedCode.UsedUpCodesAreRefused | internal/infra/write/postgres/query.go:16-24 | A user without unused codes is refused every code. |
| MailedCode.MailedCodeVerifiesOnce | internal/presentation/event_broker/kafka/registration_saga_subscriber.go:61-82 | The mailed code verifies its user at any time strictly before ten minutes, whatever other traffic came between as long as the user was neither deleted nor verified, and at no later time; presented again, after any further traffic while the user exists, it is invalid. |
| Saga.RegistrationSagaSubscriber.HandleCreate | internal/presentation/event_broker/kafka/registration_saga_subscriber.go:61-82 | The store changes as by the registration; a failure is published as a result, a success as a result and then, if that was published, as a mail. |
| Saga.RegistrationSagaSubscriber.HandleDelete | internal/presentation/event_broker/kafka/registration_saga_subscriber.go:84-93 | The store changes as by the deletion, and its outcome is published. |
| Saga.CreatePublishesTruth | internal/presentation/event_broker/kafka/registration_saga_subscriber.go:61-82 | A success is published exactly for a registration that is stored; its mail goes to the stored email with the code whose digest is stored, and only after the result was published; otherwise one failure and no mail. |
| Saga.DeletePublishesTruth | internal/presentation/event_broker/kafka/registration_saga_subscriber.go:84-93 | A deletion is published as a success exactly when it found the credential, and then no row of the user is left. |
| Saga.EveryDeliveryIsPossible | internal/presentation/event_broker/kafka/registration_saga_subscriber.go:61-93 | Nothing in the store keeps a command from being delivered, for some choice of the environment. |
| Saga.SuccessCreates | internal/application/service.go:137-165 | A registration that reports success created the credential, for the user named. |
| Saga.DeliveryCounts | internal/presentation/event_broker/kafka/registration_saga_subscriber.go:61-93 | One delivery adds for a user at most as many mails as success results, and at most as many of those as credentials. |
| Saga.MailsResultsCredentials | internal/presentation/event_broker/kafka/registration_saga_subscriber.go:61-82 | Under any redelivery and retry: mails attempted never exceed success results, those never exceed creations, creations exceed deletions by one exactly while the credential exists, and a user never has two codes. |
| Recovery.Planned | internal/presentation/event_broker/kafka/recovery_subscriber.go:42-90 | A command is refused before the store is touched, or it is one creation or one deletion in the given environment. |
| Recovery.NeverHandledIff | internal/presentation/event_broker/kafka/recovery_subscriber.go:42-107 | No delivery of a command is handled, whatever store, bcrypt and environment, if and only if it does not decode, is for another service, asks for something unsupported, names no user the database can read, or creates a credential with a blank email or username or without hash and password. |
| Recovery.PermanentIff | internal/presentation/event_broker/kafka/recovery_subscriber.go:42-90 | Of the commands that are never handled, exactly those that name no user and those without hash and password are marked permanent; all others are retried. |
| Recovery.AuthRecoverySubscriber.Handle | internal/presentation/event_broker/kafka/recovery_subscriber.go:42-107 | The store changes as by the planned use case or not at all; completion is announced exactly when it succeeded; the command is handled only if that was published. |
| Recovery.SucceedsIff | internal/presentation/event_broker/kafka/recovery_subscriber.go:91-100 | Exactly when the use case of a command reports no error; a create that does has left the credential, a delete no row of the user. |
| Recovery.ActionFollowsWord | internal/presentation/event_broker/kafka/recovery_subscriber.go:75-96 | The operation is told by its word, in whatever case. |
| Recovery.FirstIdCounts | internal/presentation/event_broker/kafka/recovery_subscriber.go:61-69 | The user is named by the first id given: the payload's, the aggregate's, the client's, the principal's. |
| Recovery.CreationIsCarriedOut | internal/presentation/event_broker/kafka/recovery_subscriber.go:75-107 | A creation carried out stores the hash given, or else bcrypt's of the password, and its completion names command and user. |
| Recovery.DeletionIsCarriedOut | internal/presentation/event_broker/kafka/recovery_subscriber.go:92-107 | A deletion carried out leaves exactly the rows of other users and is announced likewise. |
| Recovery.RetriesNeverComplete | internal/presentation/event_broker/kafka/recovery_subscriber.go:91-107 | Through any run in which the credential stays as a command wants it, every delivery of the command fails, changes nothing and announces nothing, whatever other traffic there is. |
| Recovery.EffectMeansDone | internal/presentation/event_broker/kafka/recovery_subscriber.go:91-100 | A delivery that changes the store leaves the credential as the command wants it. |
| Recovery.UnannouncedNeverCompletes | internal/presentation/event_broker/kafka/recovery_subscriber.go:91-107 | From the delivery on that took effect, announced or not, no retry succeeds, changes anything or announces completion while the credential stays as it is. |
| Recovery.UnannouncedHappens | internal/presentation/event_broker/kafka/recovery_subscriber.go:91-107 | Every sound command to create a credential has a run from the empty store in which its effect is committed, its completion is not announced, and its next delivery fails although nothing goes wrong with it. |
| Grpc.Server.Refresh | internal/presentation/grpc/server.go:151-174 | The status and tokens answered, and the database left, are those of the use case. |
| Grpc.Server.SignOut | internal/presentation/grpc/server.go:177-195 | The status answered and the database left are those of the use case. |
| Grpc.RefreshAnswersTellEffect | internal/presentation/grpc/server.go:151-174 | A Refresh answered Unauthenticated changed nothing; one whose rotation was committed is answered OK or Internal, and OK exactly when reply, roles and signer all succeeded. |
| Grpc.SignOutAnswersTellEffect | internal/presentation/grpc/server.go:177-195 | A SignOut answered Unauthenticated or InvalidArgument changed nothing; one whose revocation was committed is answered OK or Internal. |
| Grpc.RefreshStatuses | internal/presentation/grpc/server.go:151-174 | Which status each Refresh is answered: every token that is refused is Unauthenticated, everything that breaks Internal. |
| Grpc.SignOutStatuses | internal/presentation/grpc/server.go:177-195 | Which status each SignOut is answered: an unknown or blank token is InvalidArgument, a revoked or expired one Unauthenticated. |
| Grpc.RefreshDecision | internal/application/service.go:285-319 | When nothing fails on the way, Refresh is answered OK for known, unrevoked, unexpired tokens and Unauthenticated for all others. |
| Grpc.RefreshReplaces | internal/infra/write/postgres/repository.go:168-188 | After a Refresh answered OK the presented token is the only one of its digest and revoked, its successor the only one of its digest, live and with the configured lifetime. |
| Sessions.UseCaseKeepsSoleBearer | internal/application/service.go:192-319 | No use case gives a digest it has not drawn to another token row, moves its expiry, or revives it. |
| Sessions.SoleBearerDecision | internal/application/service.go:285-319 | When nothing fails on the way, the token of a sole bearer is redeemed exactly while its row is live and not expired. |
| Sessions.RefreshHandsOver | internal/application/service.go:285-319 | After a Refresh answered OK, and any further run of use cases that does not draw either token again, the old token is refused without effect and the one handed to the client accepted exactly while its row is live and not expired. |
| Grpc.DeactivationKeepsSessions | internal/application/service.go:296-310 | Deactivating any user leaves every refresh token as redeemable as before. |
| KafkaConsumer.FirstHeaderCounts | internal/presentation/event_broker/kafka/broker.go:142-151 | The attempt number is that of the first header that holds a positive one, and 1 if none does. |
| KafkaConsumer.RetryCopyCounts | internal/presentation/event_broker/kafka/broker.go:126-150 | A retried copy is read back with the attempt number it was enqueued with. |
| KafkaConsumer.CommittedIsSettled | internal/presentation/event_broker/kafka/broker.go:91-139 | Across consumers, rebalances, failures and restarts the committed offset passes a message only after it was handled successfully, its next attempt was enqueued, or its event had been claimed. |
| KafkaConsumer.StepKeepsOffsetInv | internal/presentation/event_broker/kafka/broker.go:91-139 | Every step keeps everything below each committed offset, and below each session's next offset but the message in hand, settled. |
| KafkaConsumer.HandledAtMostOnce | internal/presentation/event_broker/kafka/broker.go:98-139 | With a database, over any number of consumers, redeliveries, retries and crashes, the handler succeeds at most once per event. |
| KafkaConsumer.StepKeepsClaimInv | migration/postgres/000006_create_processed_events.up.sql:1-9 | An unhandled claim has at most one holder, and only its holder gives it up. |
| KafkaLoss.HolderOrphansIff | internal/presentation/event_broker/kafka/broker.go:98-127 | A step orphans the event of a claim, claimed with nobody left to handle it, exactly when the claim's holder dies, fails to release it, or meets a message that does not unwrap. |
| KafkaLoss.OrphanedIff | internal/presentation/event_broker/kafka/broker.go:98-139 | Over any run with a database, an event is orphaned if and only if some step has abandoned its claim in one of those ways, or inserted it for a consumer that is told the claim failed. |
| KafkaLoss.OrphanedForever | internal/presentation/event_broker/kafka/broker.go:98-109 | Once orphaned an event stays so: in no continuation of the run does the handler get it again. |
| KafkaLoss.FailedWritesOrphanNothing | internal/presentation/event_broker/kafka/broker.go:119-133 | A retry or a dead letter that cannot be written orphans nothing. |
| KafkaLoss.QueuedComesBack | internal/presentation/event_broker/kafka/broker.go:82-84 | Any message queued for retry can be brought back, to the end of any partition, as it was enqueued, and waits there. |
| KafkaLoss.NothingIsLost | internal/presentation/event_broker/kafka/broker.go:98-139 | Unless a step has orphaned it, every event was handled, or a consumer holds its claim, or its claim is free and a copy is queued for retry, waits at an uncommitted offset, or was skipped while it was claimed. |
| KafkaLoss.PassedOverIff | internal/presentation/event_broker/kafka/broker.go:98-139 | One step at a time: an event a consumer is at work on stops being accounted for exactly when the consumer lets go of it with nothing written and nothing else accounts for it. `KafkaLoss.NothingIsPassedOver` lifts it to runs. |
| KafkaLoss.NothingIsPassedOver | internal/presentation/event_broker/kafka/broker.go:98-139 | When no step forsakes it, every event was handled or dead-lettered, or a consumer is at it, or it is queued for retry, or it waits at an uncommitted offset. It is forsaken when its claim is abandoned with no dead letter or inserted unknown to the consumer, and by a failed write or a crash after the release only where another session has already been. |
| KafkaLoss.SkippedThenUnwrittenLoses | internal/presentation/event_broker/kafka/broker.go:104-130 | That exception is real: two sessions at one message, a skip, and a retry that is not written pass an event over without any crash. |
| KafkaLoss.CrashAfterClaimLoses | internal/presentation/event_broker/kafka/broker.go:98-109 | Concrete runs in which a crash after the claim, or a claim whose reply is lost, orphans an event and a later commit passes it. |
| KafkaRetries.QueueInvAlways | internal/presentation/event_broker/kafka/broker.go:124-131 | In every reachable state everything ever enqueued is the next attempt of a message that had attempts left. |
| KafkaRetries.SettlingIff | internal/presentation/event_broker/kafka/broker.go:119-133 | A permanent failure can only be dead-lettered; a passing one can be retried exactly while attempts are left, and dead-lettered exactly after. |
| KafkaRetries.FailureIsSettled | internal/presentation/event_broker/kafka/broker.go:119-133 | Over any run, the next thing a consumer does after its handler failed, short of dying, is a dead letter if the failure is permanent or no attempt is left, and a retry otherwise. |
| KafkaRetries.ChainEnds | internal/presentation/event_broker/kafka/broker.go:119-133 | Over any run, handler runs on a message and its enqueued retries raise the attempt number by one each and number at most the maximum minus the first plus one, or one if the first exceeds it; a failure of the last of these can only be dead-lettered, of an earlier one only be retried. |
| KafkaBroker.Broker.AfterFailure | internal/presentation/event_broker/kafka/broker.go:119-134 | The claim is released first; a retry follows exactly when the failure is transient and attempts are left, a dead letter otherwise; the loop goes on only after a retry was enqueued. The whole cluster it leaves is stated. |
| KafkaBroker.Broker.OneTurn | internal/presentation/event_broker/kafka/broker.go:91-139 | One turn is a run of the consumer's own steps and leaves the cluster and the end `AfterTurn` gives, which `KafkaBroker.TurnDecision` decides. |
| KafkaBroker.Broker.RunPullConsumer | internal/presentation/event_broker/kafka/broker.go:77-140 | The loop takes only steps the machine allows, runs its turns until one returns or the next fetch fails, as `AfterTurns` has it, ends stopped, and returns nil exactly when its last step dead-lettered a message. |
| KafkaBroker.TurnDecision | internal/presentation/event_broker/kafka/broker.go:91-139 | Everything a turn brings about and exactly when: a handler success, a commit one past the message, the next attempt in the retry queue, a dead letter, a claim that stays, and why the loop returns. |
| KafkaBroker.SmoothTurnsDrain | internal/presentation/event_broker/kafka/broker.go:77-140 | When nothing goes wrong and the events are new, the loop handles every message left in a partition once, one a turn, and leaves the offset committed at its end. |
| KafkaBroker.RestartDrains | internal/presentation/event_broker/kafka/broker.go:77-140 | A consumer that starts on a partition handles exactly what is not committed yet, when nothing goes wrong, and leaves all of it committed. |
| KafkaBroker.Broker.Subscribe | internal/presentation/event_broker/kafka/registration_saga_subscriber.go:54-59 | The delete topic is read if and only if a create command was dead-lettered; the two topics being disjoint, no delete command is fetched before. |
| NatsRuntime.ChannelIsClosedLast | internal/presentation/event_broker/nats/pull_consumer_runtime.go:76-131 | In every interleaving the channel is closed only after cancellation, when fetcher and workers have left; nothing is sent on it afterwards, and no worker receives from it closed. |
| NatsRuntime.StepKeepsChannelInv | internal/presentation/event_broker/nats/pull_consumer_runtime.go:76-131 | Every step keeps the wait group's counter equal to the workers alive, and closing after all of them. |
| NatsRuntime.FetchOrderIsKept | internal/presentation/event_broker/nats/pull_consumer_runtime.go:129-156 | Started messages, then the channel, then the undispatched tail, then what was dropped, are everything fetched, in fetch order; the channel keeps its bound; nothing is dropped before cancellation. |
| NatsRuntime.SettledByOutcome | internal/presentation/event_broker/nats/pull_consumer_runtime.go:88-127 | A message is acked only after its handler returned nil, naked only after it failed; one that is neither is in exactly one worker's hands; at the close none is left. |
| NatsRuntime.SettledOnce | internal/presentation/event_broker/nats/pull_consumer_runtime.go:88-127 | Handler results and acknowledgements are final. |
| NatsRuntime.NeverStuck | internal/presentation/event_broker/nats/pull_consumer_runtime.go:88-156 | Until the channel is closed some goroutine can move, cancelled or not. |
| NatsRuntime.ShutdownEnds | internal/presentation/event_broker/nats/pull_consumer_runtime.go:129-169 | After cancellation a bounded number of steps is left, and a run can stop only with the channel closed. |
| NatsLoops.PullConsumerRuntime.Start | internal/presentation/event_broker/nats/pull_consumer_runtime.go:76-86 | Every worker is counted before it starts, and the fetcher starts last, whatever the workers do meanwhile. |
| NatsLoops.PullConsumerRuntime.DispatchFetchedMessages | internal/presentation/event_broker/nats/pull_consumer_runtime.go:222-232 | The batch is sent to its end and the loop goes on, or the rest is given up, which takes a cancellation; never on a closed channel. What is left after each schedule of the other goroutines is stated. |
| NatsLoops.PullConsumerRuntime.RunFetcher | internal/presentation/event_broker/nats/pull_consumer_runtime.go:129-156 | The fetcher returns exactly when the channel is closed, and by then every worker has left; it polls, dispatches and shuts down round by round, as `AfterRounds` has it. |
| NatsLoops.PullConsumerRuntime.WaitAndClose | internal/presentation/event_broker/nats/pull_consumer_runtime.go:130-131 | The wait group is waited for before the channel is closed. |
| NatsLoops.PullConsumerRuntime.WorkOff | internal/presentation/event_broker/nats/pull_consumer_runtime.go:95-124 | The message received is settled, with an ack exactly if its handler returned nil. |
| NatsLoops.PullConsumerRuntime.RunWorker | internal/presentation/event_broker/nats/pull_consumer_runtime.go:88-127 | A worker returns only after cancellation and never because the channel was closed; it works off one message a turn while there are any, as `AfterShifts` has it. |
| NatsLoops.QuietShiftsSettle | internal/presentation/event_broker/nats/pull_consumer_runtime.go:88-127 | A worker left alone takes the waiting messages in order, one a turn, and settles each by its handler's result, after cancellation too while its select prefers the channel. |
| NatsLoops.CancelledWorkerLeaves | internal/presentation/event_broker/nats/pull_consumer_runtime.go:91-94 | After cancellation a worker leaves as soon as its select prefers to, or finds nothing else ready. |
| NatsLoops.QuietDispatchSends | internal/presentation/event_broker/nats/pull_consumer_runtime.go:222-232 | A batch goes into the channel in order, one message a turn, until it is sent or the channel is full; the dispatch is over only once all of it is sent. |
| NatsLoops.CancelledDispatchGivesUp | internal/presentation/event_broker/nats/pull_consumer_runtime.go:222-232 | After cancellation the rest of a batch is given up when the select prefers to, or the channel is full. |
| NatsLoops.QuietRoundsFetch | internal/presentation/event_broker/nats/pull_consumer_runtime.go:139-156 | Round after round, everything the fetches bring goes into the channel, in order, while there is room; a failed fetch is followed by the next. |
| NatsLoops.CancelledFetcherCloses | internal/presentation/event_broker/nats/pull_consumer_runtime.go:129-143 | Cancelled before a fetch, the fetcher polls no more; it closes the channel if no worker is left, and waits otherwise. |
| NatsLoops.OthersRun | internal/presentation/event_broker/nats/pull_consumer_runtime.go:76-86 | Whatever the other goroutines can do while one waits, they do. |

## Left out

- Token signing, bcrypt, SHA-256, base64 and UUID generation: library code, as parameters and free constructors. Ids and token digests are assumed fresh where a lineage or a hand-over needs it, since `token_hash` carries no unique constraint (migration/postgres/000002_add_refresh_tokens.up.sql:4).
- `KafkaRetryQueue`, `ClaimDB`, `Release` and `Unwrap` are not part of this repository: an append of the same value with the next attempt number, an insert if absent, a delete, and a flag on the message.
- Consumer groups: any consumer may read and commit any partition at any time, which allows more than Kafka's own assignment and fencing do; a redelivered copy of a message is one more produced message with the same event id.
- PostgreSQL waits for row locks: a step that would wait is not enabled, and its own deadlock detection is one of the errors that can strike a transaction. Isolation is read committed.
- Times are whole microseconds, the resolution of the database; the service's nanoseconds are not modelled.
- `KafkaLoss.NothingIsPassedOver`: its guard is sufficient for a whole run and exact for one step (`KafkaLoss.PassedOverIff`); over a run an event may be passed over and still be read again, when a slow consumer moves the committed offset back.
- `ServiceRuns.CrossTableAlways`: over runs of whole use cases only; which interleaved runs keep the invariant is `Interleavings.CrossTableAlwaysIff`.
- `Concurrency.LoadStep`: the locked load is one atomic read of the current rows. PostgreSQL takes its snapshot first and then rechecks the rows it has waited for, so it can miss a row with an equal token digest inserted meanwhile; with distinct digests, as assumed of fresh tokens, there is none.
- `NatsRuntime.ShutdownEnds`: assumes that fetches and handlers return; their time limits are not modelled.
- `KafkaBroker.Broker.RunPullConsumer`: the endless loop runs over a finite schedule of what the environment does, and ends with a failing fetch when the schedule is exhausted; likewise the loops of `NatsLoops`.
- Choosing batch size and wait by backlog (`ResolvePullPlan`) and configuration checks beyond positive sizes: settled by reading a branch. Any batch size may come with any fetch.
- The NATS saga handler and its mapper: the protocol of the Kafka handlers with string tables, and not wired.
- `ExistsByEmail`, `GetEmailByUserID` and the other gRPC methods: reads, or the same status mapping.
- JSON, headers other than the attempt number, metrics, logging, tracing, configuration, process wiring and listener lifecycle: plumbing.
- Texts are sequences of characters; letter case is folded for ASCII letters only, which decides the comparisons with the recovery handler's ASCII words.
