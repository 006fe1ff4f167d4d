# Verification model of the identity service

This project models the session store of the identity service and proves what it guarantees. Postgres is the
source of truth for users, sessions and outbox events; a Valkey map from token hash to a cached session
short-circuits it. Sign-up and sign-in write rows in one transaction and then the cache, sign-out revokes and
announces in one transaction and then deletes the cache entry, and the session middleware answers from the cache
or from the database and repopulates the cache.

`dafny verify dfyconfig.toml` checks everything.

## How it is built

- **Encodings** (`Decimal`, `Binary`, `Text`, `Phc`, `Timestamp`, `Calendar`, `UuidText`, `CachePayload`,
  `JsonReading`, `Email`): printers, parsers and normalisation as functions, with round trips for all inputs, the
  printed text spelled out, and what the parsers accept beyond it.
- **Database** (`Domain`, `Postgres`): committed tables and the staged writes of every open transaction, with the
  unique keys and the foreign key of the migrations. A unique key is reserved by the inserting transaction until it
  ends; a statement that meets a reservation or a row lock of another transaction waits: it completes once the holder
  has ended, or is given up before.
- **Protocol** (`Protocol`): a labelled transition system. Any number of requests are in flight, each a thread with a
  program counter and the local values its code holds there. One step is one call to the database, the cache or the
  clock. Faults, answers, random values, evictions, undecodable cache values and the order of requests are in the
  label. Whatever the protocol needs from the rest of the service (hashing, the cache codec, email normalisation) is
  a parameter, with its assumptions in `Invariant.ConfigOk`.
- **Theorems about runs** (`Invariant`, `Inductive`, `Runs`, `Reasons`, `Acceptance`, `Replies`, `Outbox`, `Revocation`,
  `Serving`, `Witness`, `IssuedTokens`, `Outcomes`, `Accounts`, `Lifetime`, `Progress`, `Success`, `Refinement`): an
  inductive invariant for every interleaving and every fault, and what follows from it along whole runs. `Reasons`
  spells out, without the functions the steps are made of, how a request comes to each program point and each reply.
- **Service** (`Service`): the protocol with the real encodings. SHA-256 and Argon2 stay uninterpreted functions.
- **Running code** (`Runtime`, `Adapters`, `UseCases`, `Http`, `Requests`, `Hasher`, `Tokens`, `Wiring`, `Chain`,
  `TestKit`): the
  repositories, the unit of work, the cache adapter, the use cases and the middleware as classes whose methods change
  state call by call. A `Runtime.Ledger` holds the servers' state and the trace of all steps; before every call other
  requests may take any number of steps. Each contract says from which program point to which program point the call
  takes its request, and `Ledger.Valid` says that the trace is a run of the protocol. So every theorem about runs
  holds for every execution of the use cases, under every interleaving.

## Results worth knowing

- A revoked session can still be served: from a cache entry that outlived the revocation, or to a request that holds
  its own copy of the row, read before the revocation (`Acceptance.AcceptanceSound`). For requests that arrive later
  the exact condition is `Serving.ServedAgainIff`: the session has not expired, and its cache entry is live and
  decodable or some request still holds an unrevoked copy on its way to the cache, be it the middleware that read the
  row or the sign-up or sign-in that created it. For a request that is in the middleware when the sign-out commits it
  is `Serving.InFlightIff`.
- A delete that succeeds is therefore not enough. `Service.SignedOutYetServed` exhibits a run of the service in which a
  session is signed out, its entry is deleted without error, and a request that arrives afterwards is let through.
- `argon2id.Hasher.Verify` is documented to run the KDF always (internal/infrastructure/argon2id/hasher.go:76 and the
  port at internal/domain/user/password_hash.go:36-38). It does not for passwords over 256 bytes; the model follows
  the code, and `Hasher.PasswordHasher.Verify` states exactly when the KDF runs.
- `UserRepository.SaveTx` reports every unique violation as a taken email, the primary key included.
  `Adapters.UserRepository.SaveTx` says exactly when it does, `Adapters.TakenMeans` that the report is wrong exactly
  when only the id collides, and `Adapters.FreeEmailReportedTaken` gives such a case.
- A cached session whose expiry lies outside the years 0000 to 9999 can be stored but never read back
  (`CachePayload.PayloadRoundTrip` is an equation that covers both cases).
- The cache client stores a value without expiry when the TTL is not positive (one value aside, see below).
  Repopulation guards against that, the write after sign-up and sign-in does not; `Lifetime.EntryLifetime` says when an
  entry has no deadline.
- The in-memory fakes keep their two maps consistent exactly when ids and hashes are not reused
  (`TestKit.FakeUsers.SaveTx`, `TestKit.FakeSessions.SaveTx`).

## Model

| member | source | states |
|---|---|---|
| Inductive.StepInv | internal/transport/http/middleware/session.go:35-112 | every step of every thread keeps the invariant: tables, staged writes, threads' local copies and cache agree |
| Runs.RunInv | internal/infrastructure/postgres/migrations/20260528000003_create_sessions.sql:2-18 | in every reachable state each session's owner exists with the session's tenant, keys are unique, users are active with emails that validate and hashes that parse, and each decodable cache entry under hex(h) equals the committed row with hash h |
| Runs.RunExtends | internal/infrastructure/postgres/session_repository.go:76-98 | along every run users never change, sessions are never deleted, and revoked_at is filled in once and keeps its first value |
| Runs.InactiveForever | internal/domain/session/session.go:57-62 | a session inactive at one state and time is inactive at every later one |
| Invariant.UniqueHash | internal/infrastructure/postgres/migrations/20260528000003_create_sessions.sql:18 | a token hash names at most one row |
| Invariant.CommitExtends | internal/infrastructure/postgres/unit_of_work.go:35-41 | a commit keeps every row, adds the staged ones under ids that were free, and changes nothing else but revocations |
| Outbox.OutboxConservation | internal/usecase/sign_up/sign_up_usecase.go:111-167 | in every reachable state exactly one user.created event per user and one session.created event per session, revocation events exactly for revoked sessions, and each event carries its row's data, spelled out field by field |
| Outbox.RevocationEventsCountSignOuts | internal/usecase/sign_out/sign_out_usecase.go:71-99 | the number of session.revoked events of a session is the number of its sign-outs that committed |
| Revocation.PendingShrinks | internal/usecase/sign_out/sign_out_usecase.go:71-110 | after a revocation the threads that may still write the entry are a shrinking subset of those pending at the revocation |
| Revocation.PendingReadEarlier | internal/transport/http/middleware/session.go:73-105 | a pending thread read or committed the unrevoked row at an earlier step and has been pending since |
| Revocation.QuietStays | internal/transport/http/middleware/session.go:88-105 | with the row revoked, nobody able to write it and no entry, there is never an entry again |
| Revocation.EntryReturnsIff | internal/transport/http/middleware/session.go:88-105 | after revocation and delete some value can be stored under the key again if and only if some thread holds an unrevoked copy on its way to the cache, unexpired if it has yet to check that |
| Serving.ServedAgainIff | internal/usecase/sign_out/sign_out_usecase.go:101-110 | after a committed sign-out a request that arrives later can be let through if and only if the session has not expired and its entry is live and decodable, or some thread holds a copy on its way to the cache whose payload decodes |
| Serving.InFlightIff | internal/transport/http/middleware/session.go:47-111 | a request in the middleware when the sign-out commits can be let through if and only if it holds a positive decision, an unexpired cache value or an unrevoked unexpired copy of the row, or has yet to probe while the session is servable |
| Witness.DeleteIsNotEnough | internal/usecase/sign_up/sign_up_usecase.go:164-191 | every sign-up whose payload decodes begins a run in which its session is signed out, the entry deleted without error, and a later request let through |
| Service.SignedOutYetServed | internal/usecase/sign_out/sign_out_usecase.go:101-110 | such a run exists with the encodings of the service |
| Revocation.ProbedAfterDeleteIsRefused | internal/transport/http/middleware/session.go:47-86 | once the entry is absent and nobody can write it, every request whose probe comes later stays on the path to refusal at every later state |
| Revocation.DeleteWhileQuiet | internal/usecase/sign_out/sign_out_usecase.go:103-110 | a successful delete with nobody able to write has that effect on every later probe |
| Acceptance.AcceptanceSound | internal/transport/http/middleware/session.go:50-86 | whoever is let through carries a committed row's exact triple, its expiry was after the clock value of the decision, and if the row was already revoked then, the request was served from an entry or from a copy read before the revocation |
| Acceptance.EnteredAt | internal/transport/http/middleware/session.go:35-112 | every thread of a run came to its program point by one earlier step, for the reason `Reasons` gives for that point, and has not moved since |
| Reasons.StepReason | internal/transport/http/middleware/session.go:35-112 | every step leads where the request, the tables, the cache and the clock say, spelled out for each program point and each reply: among others a refusal is SessionInvalid exactly for no row or a revoked or expired one, a statement fails exactly for the key of a committed row, and rows are made of the input, the drawn values and the clock |
| Replies.RefusalReason | internal/transport/http/middleware/session.go:36-86 | along every run a refusal is for a missing session exactly when the request carried no token, an internal one exactly when the repository did not answer, and for an invalid session exactly when no row has the token's hash or the row read is revoked or expired |
| Replies.SessionOrigin | internal/usecase/sign_in/sign_in_usecase.go:122-130 | the session of every sign-up and sign-in was made by one earlier step of its request, begins at the clock value of that step, lasts for the configured time, and has the token and id drawn there |
| Replies.IssuedOrigin | internal/usecase/sign_in/sign_in_usecase.go:122-198 | a reply that hands out a token names the user, the token and the expiry of the session that was made then and has committed |
| Replies.CacheCalled | internal/usecase/sign_up/sign_up_usecase.go:169-191 | with a cache, a success reply comes only after the entry was written or deleted, or that was tried |
| IssuedTokens.TokenServed | internal/transport/http/middleware/session.go:42-111 | while the session is live and the repository answers, a request with its token is never refused and carries exactly the row's context |
| IssuedTokens.IssuedTokenStaysUsable | internal/usecase/sign_in/sign_in_usecase.go:122-198 | from the commit that issued it until expiry or sign-out a token is accepted as the issued session, whatever the cache does |
| IssuedTokens.IssuedReplyStaysUsable | internal/usecase/sign_up/sign_up_usecase.go:193-197 | the same from the reply the client got: user, token and expiry of the answer |
| IssuedTokens.LiveTokenIsAccepted | internal/transport/http/middleware/session.go:47-111 | a request with a live token is let through by at most six steps of its own, no other request has to move |
| Progress.NoCircularWait | internal/infrastructure/postgres/migrations/20260528000003_create_sessions.sql:2-18 | a transaction that waits, waits for one that can go on or for one that waits for one that can go on |
| Progress.EveryRequestCanFinish | internal/usecase/sign_up/sign_up_usecase.go:100-198 | in every state the invariant allows, every unfinished request has a continuation that finishes it without a failing call, a new arrival or time passing |
| Success.SignInSucceeds | internal/usecase/sign_in/sign_in_usecase.go:122-198 | from every state the invariant allows, an authenticated sign-in whose drawn id and token hash no committed or reserved session has can go on without a failing call to its success: the row and the event are stored, the entry is written with the expiry as its deadline, and the token is issued for the configured time |
| Success.AccountSignsIn | internal/usecase/sign_in/sign_in_usecase.go:87-198 | the same from the arrival: whoever presents the credentials of a stored account can sign in, however many sessions it has |
| Success.SignUpSucceeds | internal/usecase/sign_up/sign_up_usecase.go:69-198 | a valid sign-up for an email that no committed or reserved user of the tenant has, with ids and a token nobody has, can go on to its success, with both rows, both events and the entry |
| Success.SignOutSucceeds | internal/usecase/sign_out/sign_out_usecase.go:53-113 | a sign-out that was let through and whose row no open transaction has locked can go on to its success: the row revoked, the event written, the entry deleted |
| Outcomes.SuccessIffCommitted | internal/usecase/sign_up/sign_up_usecase.go:100-167 | a request is behind its commit, in particular answers success, if and only if its transaction committed |
| Outcomes.CommitWritesAll | internal/usecase/sign_up/sign_up_usecase.go:111-167 | a successful commit adds exactly the use case's rows, revocation and events, on keys that were free |
| Outcomes.TransactionStart | internal/infrastructure/postgres/session_repository.go:76-98 | the time a sign-out writes as the revocation is the clock value of the step that began its transaction |
| Outcomes.FailureLeavesNoTrace | internal/usecase/sign_in/sign_in_usecase.go:132-171 | no step of a request that ends with an error changes a table, nor the cache except by repopulation |
| Outcomes.CommitsOnce | internal/infrastructure/postgres/unit_of_work.go:24-25 | a request commits at most once |
| Outcomes.NoTransactionLeftOpen | internal/usecase/sign_out/sign_out_usecase.go:60-69 | when a request is over its transaction is closed, also when the commit failed and the deferred rollback followed |
| Outcomes.SignOutContext | internal/transport/http/router.go:63-71 | the input of every sign-out is the context the session middleware had put into that request |
| Outcomes.SignOutHitsItsSession | internal/usecase/sign_out/sign_out_usecase.go:53-110 | the revoked row, the event's aggregate, user and tenant and the deleted key belong to one session; the guard never fires and the revoking statement always finds its row |
| Outcomes.AuthenticatedUserExists | internal/usecase/get_me/get_me_usecase.go:21-40 | behind the middleware get_me finds the active user of the session's tenant and never takes its not-found branch |
| Accounts.SignUpOrigin | internal/usecase/sign_up/sign_up_usecase.go:69-98 | the rows of a sign-up are made of the values its request arrived with |
| Accounts.AccountRecoverable | internal/usecase/sign_in/sign_in_usecase.go:92-120 | after a committed sign-up, in every later state, any spelling of the email finds that user and the credential check depends only on the stored hash |
| Accounts.FailedSignInIsUniform | internal/usecase/sign_in/sign_in_usecase.go:92-120 | malformed email, unknown email and wrong password give the same reply, no other case does, and nothing but the reply changes |
| Lifetime.RunDeadlines | internal/transport/http/middleware/session.go:88-99 | no entry is evicted by its deadline before the session expires, and an entry without a deadline is one of an expired session |
| Lifetime.EntryLifetime | internal/usecase/sign_in/sign_in_usecase.go:184-186 | an entry's deadline is the expiry plus the delay between reading the clock and storing; repopulation always sets one |
| Lifetime.CacheEffect | internal/infrastructure/valkey/session_cache.go:106-124 | what every step does to the cache: which key it writes, with which payload and deadline, or deletes, and that no other step changes it |
| Refinement.SimulateStep | internal/transport/http/middleware/session.go:47-71 | one step of the cached service is its image in the cacheless one: nothing for cache calls, a lookup that answers and a check for a hit, the same step otherwise |
| Refinement.CachedRefinesCacheless | internal/transport/http/middleware/session.go:47-111 | with atomic requests and deletes that work, every run of the cached service is matched by a run of the cacheless one with the same arrivals, exactly the faults outside the cache, and the same tables, replies and contexts |
| Service.ServiceConfigOk | internal/infrastructure/valkey/session_cache.go:106-185 | the real encodings meet every assumption of the protocol |
| Service.SignInAgain | internal/infrastructure/argon2id/hasher.go:77-109 | after a committed sign-up the credential check passes exactly for passwords of at most 256 bytes that derive the same key |
| Service.ParsesIsWellFormed | internal/infrastructure/argon2id/hasher.go:81-105 | a hash verifies without error against every password if and only if it is a well-formed PHC string |
| Service.StoredEntryAnswers | internal/infrastructure/valkey/session_cache.go:131-185 | a probe before the deadline returns exactly what was stored, for expiries with a year of four digits |
| Phc.FormatSplits | internal/infrastructure/argon2id/hasher.go:64-83 | the printed hash splits into exactly its six parts |
| Phc.FormatText | internal/infrastructure/argon2id/hasher.go:64-72 | the printed hash, part by part, with its literals |
| Phc.ParseFormat | internal/infrastructure/argon2id/hasher.go:81-105 | parsing what was printed gives back every parameter, the salt and the key |
| Phc.ParseIff | internal/infrastructure/argon2id/hasher.go:81-105 | of the strings of this form exactly those of the algorithm argon2id, version 19 and costs that fit their fields are parsed |
| Phc.OtherParts | internal/infrastructure/argon2id/hasher.go:81-84 | a string with fewer or more than six parts is not parsed |
| Phc.VerifyHash | internal/infrastructure/argon2id/hasher.go:48-109 | verifying against a produced hash never errors and is true exactly when the KDF outputs agree |
| Hasher.PasswordHasher.Hash | internal/infrastructure/argon2id/hasher.go:48-74 | fills the salt in place from the random source and prints the PHC string of that salt; fails exactly for long passwords and when the source delivers nothing |
| Hasher.PasswordHasher.Compare | internal/infrastructure/argon2id/hasher.go:77-109 | the decoding chain computes what the parser says; the KDF runs once exactly on well-formed hashes and passwords of at most 256 bytes |
| Hasher.PasswordHasher.Verify | internal/infrastructure/argon2id/hasher.go:76-109 | the verification the use cases rely on: an error exactly for malformed hashes, and one KDF run on this password otherwise, none for passwords over 256 bytes |
| Binary.HexRoundTrip | internal/transport/http/middleware/session.go:43 | decoding hex text gives back the bytes |
| Binary.HexInjective | internal/usecase/sign_in/sign_in_usecase.go:177 | different hashes have different hex keys |
| Binary.EncodeHexAt | internal/transport/http/middleware/session.go:43 | two lower-case digits per byte, the high one first |
| Binary.DecodeHexIff | internal/infrastructure/valkey/session_cache.go:150-171 | a text is read as bytes exactly when it is their hex text up to letter case |
| Binary.EncodedText | internal/infrastructure/tokens/opaque.go:20-24 | unpadded base64 of n bytes has (8n+5)/6 characters of its alphabet, sections 3.2, 4 and 5 of RFC 4648 |
| Binary.SymbolIs | internal/infrastructure/tokens/opaque.go:24 | the 64 symbols of the two alphabets, sections 4 and 5 of RFC 4648 |
| Binary.EncodeGroup | internal/infrastructure/tokens/opaque.go:24 | three bytes become the four symbols whose numbers make up their 24 bits, section 4 of RFC 4648 |
| Binary.EncodeTail | internal/infrastructure/tokens/opaque.go:24 | a last group of one or two bytes is encoded as if zeros followed, without padding |
| Binary.Base64RoundTrip | internal/infrastructure/argon2id/hasher.go:98-102 | decoding unpadded base64 gives back the bytes, for every length and both alphabets |
| Binary.DecodableIff | internal/infrastructure/argon2id/hasher.go:98-105 | line breaks aside, exactly the texts of symbols whose number is not one more than a multiple of four are decoded |
| Binary.Base64Converse | internal/infrastructure/argon2id/hasher.go:98-105 | whatever is decoded is the encoding of the result, but for line breaks and surplus bits of its last symbol |
| Decimal.ScanPrinted | internal/infrastructure/argon2id/hasher.go:88-94 | scanning a printed number below the width limit gives the number and what follows it |
| Decimal.PrintIsShort | internal/infrastructure/argon2id/hasher.go:67-72 | a printed number has no leading zeros |
| Text.SplitJoin | internal/infrastructure/argon2id/hasher.go:81 | splitting undoes joining when no part contains the separator |
| Text.AsciiSpaces | internal/domain/user/email.go:23 | the six characters of ASCII that trimming takes away |
| UuidText.UuidRoundTrip | internal/infrastructure/valkey/session_cache.go:150-171 | parsing the text of a UUID gives it back, section 4 of RFC 9562 |
| UuidText.ShowForm | internal/infrastructure/valkey/session_cache.go:112-115 | the hex digits of the sixteen bytes in order, with dashes at 8, 13, 18 and 23 |
| UuidText.ParseIff | internal/infrastructure/valkey/session_cache.go:150-171 | a text is read as a UUID exactly when it is its text up to letter case, that text as a URN or between two characters, or the bare digits |
| Timestamp.SplitDaysExact | internal/infrastructure/valkey/session_cache.go:116 | the calendar split of a day number is exact for all days |
| Timestamp.CivilRoundTrip | internal/infrastructure/valkey/session_cache.go:116 | calendar fields determine the instant to the nanosecond |
| Calendar.NextDay | internal/infrastructure/valkey/session_cache.go:116 | a day later the date is the next one of the Gregorian calendar and the time of day the same |
| Calendar.EpochIs1970 | internal/infrastructure/valkey/session_cache.go:116 | the clock starts at midnight of 1 January 1970 |
| Calendar.TimeOfDay | internal/infrastructure/valkey/session_cache.go:116 | hours, minutes, seconds and nanoseconds count the time since midnight |
| Calendar.ShowFields | internal/infrastructure/valkey/session_cache.go:116 | the fields of the printed instant and their separators, section 5.6 of RFC 3339 |
| Timestamp.TimestampRoundTrip | internal/infrastructure/valkey/session_cache.go:172-178 | printing with trimmed fraction and parsing gives back the instant if and only if its year has four digits, section 5.6 of RFC 3339 |
| Timestamp.ZoneReads | internal/infrastructure/valkey/session_cache.go:172-178 | an offset is read in hours and minutes, negative west of Greenwich |
| Timestamp.OffsetShifts | internal/infrastructure/valkey/session_cache.go:172-178 | a time with an offset is read as the instant that much earlier |
| CachePayload.UnmarshalMarshal | internal/infrastructure/valkey/session_cache.go:112-122 | reading the written JSON object gives back its four members |
| CachePayload.StoredText | internal/infrastructure/valkey/session_cache.go:106-122 | the text of a stored value and of its key: the four members in this order and nothing else |
| JsonReading.UnmarshalIff | internal/infrastructure/valkey/session_cache.go:142-149 | a value is read exactly as what an object of a spelled-out grammar says: string members with white space between the tokens, any escapes, names in any letter case, the last value of a name |
| CachePayload.PayloadRoundTrip | internal/infrastructure/valkey/session_cache.go:106-185 | decoding what was stored gives the same session, user, tenant and instant exactly for years 0000 to 9999, and a miss otherwise |
| CachePayload.KeysInjective | internal/infrastructure/valkey/session_cache.go:24 | different hashes live under different keys |
| Email.ScanDecides | internal/domain/user/email.go:10 | the regular expression matches exactly the strings a scan with the first at sign and the last dot accepts |
| Email.AddressCharacters | internal/domain/user/email.go:10 | the characters an address may have, one by one |
| Email.AcceptedIff | internal/domain/user/email.go:22-31 | an email is accepted exactly when its trimmed lower-case form has at most 254 characters and scans, and that form is stored; what trimming and lower-casing come to is said by the next two |
| Email.SpellingAccepted | internal/domain/user/email.go:22-31 | every accepted address, with white space around it and any of its letters as capitals, is accepted as that address |
| Email.AcceptedIsSpelling | internal/domain/user/email.go:22-31 | every accepted ASCII input is such a spelling of the address it is accepted as, which has at most 254 characters and scans |
| Email.Idempotent | internal/infrastructure/postgres/user_repository.go:95-98 | an accepted email normalises to itself, so stored users can be rebuilt |
| Tokens.OpaqueGenerator.NewToken | internal/infrastructure/tokens/opaque.go:19-25 | the 32 bytes the random source delivers become 43 characters that decode to them and satisfy the token bounds; no token exactly when it delivers nothing |
| Adapters.ExecStatement | internal/infrastructure/postgres/session_repository.go:43-45 | a statement applies and moves the request on, or fails and sends it to its rollback with the right error |
| Adapters.UnitOfWork.Begin | internal/infrastructure/postgres/unit_of_work.go:26-32 | opens the transaction of the request, or the request ends with an internal error |
| Adapters.UnitOfWork.Commit | internal/infrastructure/postgres/unit_of_work.go:35-41 | makes the staged writes visible, or applies nothing and leaves only the rollback to do |
| Adapters.UnitOfWork.Rollback | internal/infrastructure/postgres/unit_of_work.go:44-54 | closes the transaction; silent if it was already closed, possibly an error if it was not |
| Adapters.UserRepository.SaveTx | internal/infrastructure/postgres/user_repository.go:30-52 | an answered insert reports a taken email exactly when a committed row shares the id or tenant and email, and succeeds otherwise; an unanswered one is an internal error |
| Adapters.TakenMeans | internal/infrastructure/postgres/user_repository.go:44-49 | the report is right exactly when the email is held, and wrong exactly when only the id is |
| Adapters.FreeEmailReportedTaken | internal/infrastructure/postgres/user_repository.go:44-49 | a free email reported as taken because the id collides |
| Adapters.UserRepository.FindByEmail | internal/infrastructure/postgres/user_repository.go:55-66 | finds the committed row with that tenant and email and validates it again, or reports its absence truthfully |
| Adapters.UserRepository.FindById | internal/infrastructure/postgres/user_repository.go:69-80 | the same by tenant and id |
| Adapters.SessionRepository.SaveTx | internal/infrastructure/postgres/session_repository.go:29-45 | an answered insert succeeds exactly when no committed row has the id or the token hash, whoever owns it; otherwise, or unanswered, the request goes to its rollback |
| Adapters.SessionRepository.FindByTokenHash | internal/infrastructure/postgres/session_repository.go:48-73 | returns the committed row with that hash, or its absence, truthfully |
| Adapters.SessionRepository.RevokeTx | internal/infrastructure/postgres/session_repository.go:76-98 | an answered update always finds its row, of that tenant, and stages the revocation; otherwise the request goes to its rollback |
| Adapters.OutboxRepository.WriteTx | internal/infrastructure/postgres/outbox_repository.go:25-41 | an answered write appends the event inside the transaction; otherwise the request goes to its rollback |
| Adapters.SessionCache.Set | internal/infrastructure/valkey/session_cache.go:106-124 | stores the payload, or reports an error after which it may or may not be stored; the request goes on alike |
| Adapters.SessionCache.Get | internal/infrastructure/valkey/session_cache.go:131-185 | an answered call returns the live decodable value, which agrees with the committed row under that key, and misses on an absent, expired or undecodable one; only an unanswered call is another error |
| Adapters.SessionCache.Delete | internal/infrastructure/valkey/session_cache.go:188-196 | success means the entry is gone |
| UseCases.SignUp.Prepare | internal/usecase/sign_up/sign_up_usecase.go:69-98 | the checks in their order, each with its error, then rows and token for exactly this input |
| UseCases.SignUp.Persist | internal/usecase/sign_up/sign_up_usecase.go:100-167 | the transaction commits, or the request ends rolled back with the error of the failing step |
| UseCases.SignUp.Execute | internal/usecase/sign_up/sign_up_usecase.go:69-198 | the call is one thread of a run of the protocol that came in with this input, and returns that thread's reply; the token was drawn during the call and lasts for the configured time from a moment between call and reply |
| UseCases.WriteThrough | internal/usecase/sign_up/sign_up_usecase.go:172-191 | the committed session goes to the cache with the remaining lifetime; the reply does not depend on it |
| UseCases.SignIn.New | internal/usecase/sign_in/sign_in_usecase.go:54-84 | the dummy hash can be verified against every password |
| UseCases.SignIn.Authenticate | internal/usecase/sign_in/sign_in_usecase.go:87-120 | returns the account bound to the credentials; every refusal for invalid credentials ran the KDF exactly once, on this password, if it has at most 256 bytes |
| UseCases.SignIn.Execute | internal/usecase/sign_in/sign_in_usecase.go:87-199 | the call is one thread of a run of the protocol that came in with this input; the token was drawn during the call and lasts for the configured time from a moment between call and reply; refusals for invalid credentials cost one KDF run whatever their reason |
| UseCases.SignOut.Execute | internal/usecase/sign_out/sign_out_usecase.go:53-113 | the call is one thread of a run of the protocol, for the context it was given |
| UseCases.GetMe.Execute | internal/usecase/get_me/get_me_usecase.go:21-40 | the call is one thread of a run of the protocol and returns the profile of that thread |
| Http.SessionMiddleware.Probe | internal/transport/http/middleware/session.go:47-71 | an unexpired hit yields the entry's context, everything else falls through to the database |
| Http.SessionMiddleware.LookUp | internal/transport/http/middleware/session.go:73-111 | the row's context, or the refusal that the answer calls for: invalid only if no committed row with the hash is active |
| Http.SessionMiddleware.Repopulate | internal/transport/http/middleware/session.go:88-105 | only a positive remaining lifetime is stored; the context does not depend on it |
| Http.SessionMiddleware.Resolve | internal/transport/http/middleware/session.go:35-112 | the call is one thread of a run of the protocol that came in with this token, up to the handler or the refusal: for a missing session exactly without a token, for an invalid one only if no committed row with its hash is active, and otherwise with the key of the token |
| Http.ProtectedRoutes.DeleteCurrentSession | internal/transport/http/router.go:62-71 | session first, then origin, then sign-out, as one thread; a rejected origin never signs out |
| Http.ProtectedRoutes.Me | internal/transport/http/router.go:73-81 | session, then the profile, as one thread |
| Requests.FinishedRequest | internal/usecase/sign_up/sign_up_usecase.go:100-197 | after any finished call: transaction closed, success exactly on commit, a returned token belongs to a stored session, was drawn by a step of the call and expires the configured time after it, and failure changed no table |
| Wiring.Start | internal/usecase/sign_in/sign_in_usecase.go:54-84 | from any environment in range the use cases and routes can be put together over one ledger and one hasher; only a missing dummy hash stops it |
| Chain.Compose | internal/transport/http/middleware/chain.go:18-25 | the descending loop makes the first middleware the outermost |
| Chain.ChainIsPipeline | internal/transport/http/middleware/chain.go:16-25 | a chain of guards answers with the first refusal or hands on the request as the guards left it |
| Chain.ProtectedChains | internal/transport/http/router.go:62-81 | the handler sees the session's tenant instead of the default one, and the origin is checked only behind a session |
| TestKit.IntToString | internal/usecase/internal_testkit/testkit.go:64-74 | the loop prints the decimal numeral, and nothing for negative numbers |
| TestKit.FakeTokensDiffer | internal/usecase/internal_testkit/testkit.go:54-62 | tokens of different calls differ |
| TestKit.FakeTokenGen.NewToken | internal/usecase/internal_testkit/testkit.go:54-62 | the n-th call returns the n-th token |
| TestKit.MailKeyInjective | internal/usecase/internal_testkit/testkit.go:110 | the combined key determines tenant and email |
| TestKit.FakeUsers.SaveTx | internal/usecase/internal_testkit/testkit.go:107-117 | refuses exactly a taken email of the tenant; the two maps stay consistent exactly for new ids |
| TestKit.FakeUsers.FindByEmail | internal/usecase/internal_testkit/testkit.go:120-128 | finds the user with that tenant and email if there is one |
| TestKit.FakeSessions.SaveTx | internal/usecase/internal_testkit/testkit.go:168-174 | overwrites; the two maps stay consistent exactly when no other row shares id or hash |
| TestKit.FakeSessions.RevokeTx | internal/usecase/internal_testkit/testkit.go:199-212 | finds the row as the database does and keeps the first revocation |

## Left out

- HTTP plumbing, request bodies, cookies, response writing, access log, tracing, request ids, health and OpenAPI
  routes: they hold only input/output or easy members.
- The origin check itself: an arbitrary accept or reject step behind the session on the sign-out route.
- Configuration loading, migration tooling and the wiring in `cmd`: a positive session TTL and Argon2 parameters in
  range are assumptions.
- SQL text, the Postgres and Redis protocols, connection pools, context deadlines and logging: tables are maps, and
  a call can fail at any time.
- Argon2, SHA-256, random sources and version 4 UUIDs: uninterpreted functions and arbitrary values; the KDF returns
  keys of the requested length, a fresh UUID is not nil.
- Panics and their recovery, and a commit whose outcome is unknown to the caller: a failed commit applied nothing.
- JSON marshalling of event payloads: a failure is a fault of the step; the ids of outbox events are not modelled.
- Microsecond truncation of TIMESTAMPTZ and millisecond rounding of TTLs by the cache client: instants are exact.
- The row's `revoked_at` is the database's transaction start, the event's is read from the application clock before
  the transaction begins; they are not equated.
- Revoking a session that the same transaction inserted: no use case does it.
- Protocol.SetCache, Protocol.DeleteCache: a cache call takes effect, if at all, before the request goes on. A call
  whose client gave up after its deadline could be applied by the server later; `Revocation.QuietStays` and the "only
  if" of `Serving.ServedAgainIff` and `Serving.InFlightIff` rely on that not happening.
- Forged cache entries: only the service writes decodable values under its key prefix. The environment may drop
  entries, fail calls and replace values by undecodable ones. Cache keys of the protocol are the hex hashes; the
  adapter's prefix is in `CachePayload.Key`.
- CachePayload.Decode: treats as undecodable JSON members that are not strings, which the JSON decoder of the service
  reads or ignores; the two halves of a surrogate pair are read one by one. The writer produces neither.
- Timestamp.Parse: covers the strict form; the lenient fallback forms of the time library are treated as undecodable,
  and the writer produces none.
- Email.ToLower: letters outside ASCII whose lower case is outside ASCII stay as they are; such addresses are
  rejected either way.
- Protocol.Put: a TTL of exactly minus one nanosecond makes the cache client keep the deadline an existing value has;
  the model stores without a deadline, as for every other TTL that is not positive.
- Adapters.UnitOfWork.Rollback: a rollback that reports an error still closes the transaction, because the database
  rolls back when the connection is dropped; the time until it does is not modelled.
- The split of `Execute` into several methods (`Prepare`, `Stage`, `Work`, `Persist`): the source has one method with a
  deferred rollback that reads a flag; the order of calls and the error exits are the same.
- Update in place of the server states by other processes while a call is in progress: other requests run before a
  call's own work, which is then one atomic step.
- FakeOutbox, FakeCache, FakeClock, FakeHasher and FakeUoW of the test kit: easy members.
