# Verified model of the Vecingest API core

This project models the parts of the Go API whose correctness depends on more
than one function, and proves what they are for. Dafny 4.11 checks it with
`dafny verify dfyconfig.toml`.

How the model is built:

- A concurrent protocol is a transition system over atomic SQL statements
  or single operations of a shared counter (`Enrollment`, `AuditAppend`,
  `Invitations`, `InvitationGuesses`, `Throttle`, `LockoutRuns`, `Totp`,
  `RevocationRuns`). Its step function is total, so every finite list of steps
  is an interleaving, and the results speak of every list.
- Code that changes state is also written as a class over mutable tables
  (`EnrollmentServer`, `AuditLog`, `InvitationServer`, `Counter`, `Service`,
  `Handler`, `Table`, `Revocations`) or as a method with the source's loops. Each
  such method's contract is the step, or the function, that the results are
  about.
- Cryptography, UUID and time texts, JSON canonicalisation, the password policy
  and code generation are function-valued parameters. Where a result needs one
  of them to be injective or to be undone by another, it says so in a `requires`.

| file | subject |
|---|---|
| Enrollment, EnrollmentSafety, EnrollmentBudget, EnrollmentHour, EnrollmentTransactions, EnrollmentAnswers, EnrollmentCompletes, EnrollmentServer | email-confirmed TOTP enrollment |
| EnrollmentLocks | the locks of its two transactions and of the audit chain |
| AuditEncoding, AuditChain, AuditAppend, AuditOrder | the audit hash chain: bytes, verifier, writer, and when the order fails it |
| Invitations, InvitationSafety, InvitationOwners, InvitationRetirement, InvitationSweep, InvitationAnswers, InvitationServer, InvitationParity, InvitationGuesses | the invitation lifecycle and accept |
| IncidentCursor, Incidents, IncidentWalk, IncidentAccess | the incident list, its cursor, the page walk and who is shown what |
| AttemptCounter, Throttle, Lockout, LockoutParity, LockoutRuns | the failure counter and what runs on it |
| Totp | replay guard |
| RevocationCache, RevocationRuns | revocation set, and session families over time |
| MergeKeys, SqlClauses | the two linters' graph walk and scanners |
| Base64, Phc | Argon2id PHC strings |
| Common, FiniteSets | shared types and counting facts |

## Where the code and its documentation part

- `api/internal/domain/audit/append.go:35-37` says that clamping `created_at`
  keeps chain order and `(created_at, id)` order from ever disagreeing. The clamp
  does not cover ids. Over every run, whatever the ids, the table verifies exactly
  when insertion order is sort order (`AuditOrder.VerifiesIffInOrder`); one more
  commit keeps it so exactly when, on the head's timestamp, the new id exceeds the
  head's (`AuditOrder.AppendVerifiesIffIdAscends`). Two runs fail:
  `AuditOrder.DescendingIdsBreakTheChain` for any descending ids while the clock
  stands or steps back, and `AuditOrder.ClampedAppendBreaksTheChain` for ids that
  follow two writers' clocks a millisecond apart, where the clamp is what makes
  the timestamps tie. `AuditAppend.EveryRangeVerifies` assumes that UUIDv7
  (section 5.7 of RFC 9562) prevents this.
- `api/internal/domain/audit/hash.go:19` is a marker that no field can be
  mistaken for only while a field's length stays below 0xFF000000: a field reads
  back as itself exactly then (`AuditEncoding.ReadsBackIffBounded`). `prev` is
  hashed without a length (`AuditEncoding.PrevNeedsItsSize`).
- `api/internal/db/invitations.sql.go:337-347` describes the daily sweep as
  bookkeeping only. It does change one outcome: a sweep that lands between an
  accept's BEGIN and its conditional update turns a success into a conflict
  (`InvitationSweep.SweepCanRace`); `InvitationSweep.SweepsUnseen` proves that
  this is the only way.
- `api/internal/domain/auth/mfa/enroll.go:50-53` gives leaving `last_totp_step`
  alone as what keeps the confirmation code from being replayed as the first live
  code. It does not: `Totp.ActivatingCodeReplays` is a run in which whatever code
  activates a factor is accepted by the verification that follows, and
  `Totp.ActivatingCodeAcceptedIff` says, for every run, that the activating code
  is accepted exactly when it still matches a step of the window beyond the last
  accepted one, of which there is none before the first verification.
- The issuance cap's window is open at its far end
  (`api/internal/db/otp_challenges.sql.go:69`), so five challenges an hour holds
  of half-open hours (`EnrollmentBudget.FiveChallengesPerHour`). A closed hour
  holds more than five only if both of its end points carry one, and never more
  than ten (`EnrollmentHour.ClosedHourNeedsBothEnds`); an enrollment keeps the
  closed cap exactly when fewer than five rows lie in the closed hour that ends
  at its start (`EnrollmentHour.ClosedCapKeptIff`), and
  `EnrollmentHour.ClosedHourReached` is a run that reaches six and ten.
- `api/internal/http/handlers/invitations.go:458-529` goes on to create an account for an
  address that the lookup finds no live account for, while the column stays
  unique over soft-deleted ones: no invitation to such an address is ever accepted
  (`InvitationRetirement.RetiredAddressStaysOut`), unless the accept had linked
  the account before it was deleted (`InvitationRetirement.RetiredWhileLinked`).
- `openspec/changes/m0-foundation/design.md:138` promises that a revoked family
  stops its access tokens at once. A refresh reads its row without a lock
  (`api/internal/db/sessions.sql.go:17-18`), inserts the successor, and does not
  look at how many rows its revocation of the old one changed
  (`api/internal/domain/auth/session/rotate.go:138-158`), so a rotation in flight
  at the revocation brings the family back when it commits.
  `RevocationRuns.DeadIffNoneCommitsLate` says that this is the only way, over
  every run; `RevocationRuns.LiveFamilyIsReported` and
  `RevocationRuns.RestartForgetsTheMark` are the runs in which a family with a
  live row is reported and a marked one is not; and the mark holds through every
  continuation exactly when the family has neither a live row nor a rotation in
  flight when it is made (`RevocationRuns.SafeIffNoneInFlight`).

## Model

| member | source | states |
|---|---|---|
| `EnrollmentSafety.OneOpenChallenge` | api/internal/http/handlers/mfa.go:65-108 | in every interleaving a user has at most one open challenge, issued together with the secret stored now, and none once the factor is active |
| `EnrollmentSafety.CodesExpire` | api/internal/domain/auth/mfa/enroll_email.go:134-155 | no challenge ever stands open for longer than the code lifetime from now |
| `EnrollmentSafety.ActivatedOnceByItsPair` | api/internal/http/handlers/mfa.go:195-263 | each user's factor is activated at most once, by the emailed code of a challenge of that user, compared before it expired, with a TOTP code of the secret that challenge was issued with |
| `EnrollmentSafety.ActiveOnlyByActivation` | api/internal/http/handlers/mfa.go:157-159 | no other path ever makes a factor active |
| `EnrollmentSafety.ActiveFactorIsFrozen` | api/internal/http/handlers/mfa.go:82-85 | after activation, secret and recovery codes never change again, whatever was in flight |
| `EnrollmentSafety.InvRun` | api/internal/http/handlers/mfa.go:71-76 | every step of every request keeps the invariant behind these: row locks held by their requests, the latest challenge the only open one, phases in step with the tables |
| `EnrollmentAnswers.OkIffCommitted` | api/internal/http/handlers/mfa.go:107-114 | in every run exactly those requests are answered with success that activated a factor or issued a challenge, each once and for its own user, and every challenge was issued by one |
| `EnrollmentAnswers.AnswersByCondition` | api/internal/http/handlers/mfa.go:81-266 | whichever statement answers a request, the answer is its own condition's on the tables: no factor, an active one, a full hour, a challenge gone, spent or out of time, a wrong code, or the commit |
| `EnrollmentCompletes.NewestIsTargeted` | api/internal/db/otp_challenges.sql.go:15-28 | a confirmation goes on to spend its attempt on a challenge exactly when that is the newest unverified one of its user, and is rejected exactly when there is none |
| `EnrollmentCompletes.ConfirmationSucceeds` | api/internal/http/handlers/mfa.go:188-266 | from any state with the factor pending, its newest challenge open with attempts left and both codes right, the statements of a confirmation in a row activate the factor and change one factor, one challenge and one answer |
| `EnrollmentCompletes.EnrolledThenActive` | api/internal/http/handlers/mfa.go:51-266 | a run: enrolled and confirmed from the empty tables, with every row it leaves |
| `EnrollmentServer.Server.VerifyMFA` | api/internal/http/handlers/mfa.go:148-193 | without a factor the caller is told to enroll, without an emailed code rejected, and neither touches a table or a lock |
| `EnrollmentBudget.FiveComparisonsPerChallenge` | api/internal/db/otp_challenges.sql.go:15-28 | at most five requests compare a code against one challenge, although rejections roll back |
| `EnrollmentBudget.ComparesOnce` | api/internal/http/handlers/mfa.go:229-231 | a request about to compare has not compared yet, so requests count comparisons |
| `EnrollmentBudget.FiveChallengesPerHour` | api/internal/db/otp_challenges.sql.go:66-70 | at most five challenges of a user are created in any half-open hour, whatever order their transactions start and lock in |
| `EnrollmentBudget.TwentyFiveGuessesPerHour` | api/internal/domain/auth/mfa/enroll_email.go:119-132 | at most 25 comparisons target the codes issued in one hour |
| `EnrollmentBudget.ActivationWasPaid` | api/internal/http/handlers/mfa.go:195-231 | the activating request is one of the at most five that compared with its challenge, with an attempt spent on it |
| `EnrollmentHour.ClosedHourNeedsBothEnds` | api/internal/db/otp_challenges.sql.go:66-70 | in every run a closed hour holds at most ten challenges, and more than five only if both end points carry one |
| `EnrollmentHour.ClosedCapKeptIff` | api/internal/db/otp_challenges.sql.go:66-70 | in every run a commit keeps at most five per closed hour exactly when fewer than five lie in the closed hour that ends at its start |
| `EnrollmentHour.ClosedHourReached` | api/internal/domain/auth/mfa/enroll_email.go:119-132 | a run of enrollments from the empty tables reaches five, six and ten in one closed hour |
| `EnrollmentLocks.NoDeadlock` | api/internal/http/handlers/mfa.go:71-76 | with the shared lock order, the audit chain's lock last, no chain of waits between enrollments, confirmations, other appenders and single statements is longer than two, so none closes |
| `EnrollmentLocks.TwoWaitsHappen` | api/internal/http/handlers/mfa.go:71-76 | the bound is reached: a run in which a single statement waits for a confirmation that waits for another appender |
| `EnrollmentLocks.WaitsComeToAnEnd` | api/internal/http/handlers/mfa.go:71-76 | in that run, as the transactions finish, those behind them get their locks |
| `EnrollmentTransactions.InsertionOpensOne` | api/internal/domain/auth/mfa/enroll_email.go:134-156 | inside the transaction the inserted challenge is the only open one of its user, fresh and for the full lifetime; outside nothing shows |
| `EnrollmentTransactions.EnrollmentWorkspace` | api/internal/http/handlers/mfa.go:94-108 | in every interleaving an enrollment about to commit sees one open challenge and its secret stored but inactive, other users as committed, and the commit publishes exactly that |
| `EnrollmentTransactions.ConfirmationWorkspace` | api/internal/domain/auth/mfa/enroll.go:57-77 | in every interleaving the factor is active inside the confirming transaction only, for the secret its TOTP code matched |
| `EnrollmentTransactions.ConfirmationPublishes` | api/internal/http/handlers/mfa.go:233-263 | the commit changes one factor and one challenge: active with its recovery codes, verified, the secret and every other row as they were |
| `EnrollmentServer.EnrollmentReplaces` | api/internal/domain/auth/mfa/enroll_email.go:134-156 | a successful enrollment leaves exactly the new challenge open beside the new pending secret and touches no other user |
| `EnrollmentServer.Server.EnrollMFA` | api/internal/http/handlers/mfa.go:51-114 | the handler's statements in order: active factor refused first, cap second, otherwise challenge and secret together |
| `EnrollmentServer.Server.ConfirmMFAEnrollment` | api/internal/http/handlers/mfa.go:188-266 | activates exactly when the latest unverified challenge is open with attempts left and both codes match; any rejection costs at most one attempt and changes nothing else |
| `EnrollmentServer.Server.CountOTPChallengesIssuedSince` | api/internal/db/otp_challenges.sql.go:66-70 | refuses at the fifth challenge of the window and ends the transaction |
| `EnrollmentServer.Server.ConsumeOTPChallengeAttempt` | api/internal/db/otp_challenges.sql.go:15-28 | spends one attempt or rejects, in the autocommitted step the protocol contains |
| `EnrollmentServer.Server.LockOpenOTPChallenge` | api/internal/db/otp_challenges.sql.go:192-196 | the second read goes on only with an unverified row |
| `EnrollmentServer.Server.EnrollEmailCodeMatches` | api/internal/http/handlers/mfa.go:229-231 | expiry against a fresh clock reading, then the digest, logged as one comparison |
| `Enrollment.Next` | api/internal/http/handlers/mfa.go:51-266 | each statement touches its own request and at most its own user's lock; only the two commits touch secrets, expiries or activation; only spending and comparing touch the budgets |
| `AuditEncoding.StreamRoundTrip` | api/internal/domain/audit/hash.go:32-70 | given its size, a decoder recovers the previous hash and every field from the hashed bytes, NULL apart from empty |
| `AuditEncoding.StreamInjective` | api/internal/domain/audit/hash.go:32-49 | equal streams with previous hashes of one size have equal previous hashes and fields |
| `AuditEncoding.SameStreamIffSameEntry` | api/internal/domain/audit/hash.go:32-112 | two rows share a stream exactly when previous hash, id, time and entry agree, up to canonical JSON and an absent against an invalid address |
| `AuditEncoding.ReadsBackIffBounded` | api/internal/domain/audit/hash.go:16-62 | a field reads back as itself exactly when it is NULL or shorter than 0xFF000000 bytes |
| `AuditEncoding.PrevNeedsItsSize` | api/internal/domain/audit/hash.go:34 | with previous hashes of other sizes two different rows share one stream |
| `AuditEncoding.ComputeHash` | api/internal/domain/audit/hash.go:32-49 | digests exactly the stream of the previous hash and the eleven fields in order, one digest for all formattings of the same JSON |
| `AuditEncoding.FormattingIsNotHashed` | api/internal/domain/audit/hash.go:79-112 | entries whose JSON has one canonical text share one stream; what is not JSON is hashed as it is |
| `AuditEncoding.FieldsInPlace` | api/internal/domain/audit/hash.go:32-49 | each of the eleven fields in its place, as text, canonical JSON or NULL |
| `AuditEncoding.Hasher.WriteField` | api/internal/domain/audit/hash.go:52-58 | appends exactly one length-prefixed field to the stream |
| `AuditEncoding.Hasher.WriteJSONField` | api/internal/domain/audit/hash.go:97-112 | appends the canonical text of JSON, the raw bytes of anything else, or NULL |
| `AuditChain.VerifyRows` | api/internal/domain/audit/verify.go:46-59 | accepts exactly the lists whose every row hashes and links, and names the first broken row and why |
| `AuditChain.SameHeadSameHistory` | api/internal/domain/audit/verify.go:46-59 | two accepted lists with the same head hash are equal row by row, up to one being a suffix of the other |
| `AuditChain.SameHeadSameChain` | api/internal/domain/audit/append.go:24-25 | two accepted chains from genesis with the same head are the same chain |
| `AuditChain.TamperingIsReported` | api/internal/domain/audit/verify.go:37-44 | a list of any length that claims the genuine head is rejected unless it or the genuine list is, row by row, the end of the other |
| `AuditChain.DeletionIsReported` | api/internal/domain/audit/verify.go:46-59 | dropping any row between first and last is rejected |
| `AuditChain.InsertionIsReported` | api/internal/domain/audit/verify.go:46-59 | inserting any row behind the first is rejected |
| `AuditAppend.CommittedRowsChain` | api/internal/domain/audit/append.go:39-95 | however transactions append, commit and roll back, the committed rows are one unforked chain from genesis in (created_at, id) order |
| `AuditAppend.EveryRangeVerifies` | api/internal/db/audit_log.sql.go:96-98 | the verifier accepts every time range of the committed table |
| `AuditOrder.VerifiesIffInOrder` | api/internal/domain/audit/append.go:35-37 | after any events, with any ids and clock, the verifier accepts the table as it is read exactly when insertion order is (created_at, id) order |
| `AuditOrder.AppendVerifiesIffIdAscends` | api/internal/domain/audit/append.go:59-72 | one more commit on a table that verifies leaves one that verifies exactly when, on the head's timestamp, the new id exceeds the head's |
| `AuditOrder.GrownRun` | api/internal/domain/audit/append.go:44-74 | in every run each row hangs off the head its writer saw, at a time no earlier, whatever the ids |
| `AuditOrder.DescendingIdsBreakTheChain` | api/internal/domain/audit/append.go:69-72 | two commits with descending ids while the clock stands or steps back make verification fail |
| `AuditOrder.ClampedAppendBreaksTheChain` | api/internal/domain/audit/append.go:59-72 | ids that follow their writers' clocks fail as soon as the second clock is a millisecond behind the first: the time is clamped, the id is not |
| `AuditAppend.AuditLog.AppendEntry` | api/internal/domain/audit/append.go:39-95 | lock, head, clamp, hash and insert as one step of the protocol; the row hangs off the head, is no earlier than it or the clock, and carries the digest of what was appended |
| `InvitationSafety.FinalStatusesStay` | api/internal/db/invitations.sql.go:268-295 | accepted, revoked and blocked are terminal in every interleaving, and freeze the short code |
| `InvitationSafety.AcceptedOnceInTime` | api/internal/db/invitations.sql.go:16-20 | an invitation is accepted exactly when one claim on it committed, only once, in a transaction begun before it expired |
| `InvitationSafety.AcceptsConserved` | api/internal/http/handlers/invitations.go:534-598 | accepted invitations, memberships inserted by accepts and accept audit rows are the same, invitation by invitation and in number; every other membership was there before or came in by another route |
| `InvitationSafety.EmailsConserved` | api/internal/http/handlers/invitations.go:115-138 | with a queue wired the emails are exactly the committed creations plus resends, and each send counter agrees |
| `InvitationAnswers.JoinedIffAccepted` | api/internal/http/handlers/invitations.go:574-598 | in every run a request is told that a user joined exactly when an accept of its own committed with that user's membership, one answer for one accept |
| `InvitationAnswers.AnswersByCondition` | api/internal/http/handlers/invitations.go:534-670 | whichever step answers a request, the answer is its own condition's: the resolution by the row as read, the claim by the row as it stands, the commit by the addresses and memberships there are |
| `InvitationAnswers.PreviewsOnlyPreview` | api/internal/http/handlers/invitations.go:320-348 | whatever happens, a preview is answered as a preview or refused and never becomes an accept, nor the other way round |
| `InvitationAnswers.LooksUpTheNamed` | api/internal/http/handlers/invitations.go:705-721 | a token or a short code reads the one row that has it, as it stands, or none |
| `InvitationAnswers.GoesOnAsOwner` | api/internal/http/handlers/invitations.go:456-529 | an accept goes on with the live account of the invited address, or with a new one exactly if there is none, and may always be refused |
| `InvitationSafety.RunKeeps` | api/internal/http/handlers/invitations.go:397-598 | every operation keeps conservation, unique secrets and exclusive claims, and only moves rows forward |
| `InvitationSafety.DisplayedExpiredIsSwept` | api/internal/http/handlers/invitations.go:794-806 | a sweep blocks exactly the invitations that were displayed as expired, which are the pending ones nobody can use any more |
| `InvitationSafety.RotatedCodeNeverResolves` | api/internal/db/invitations.sql.go:291-295 | in every run, after a resend went through, whoever presents the replaced code is answered as for an unknown one and never gets further, unless that code is issued again |
| `InvitationSafety.ResendUnholds` | api/internal/http/handlers/invitations.go:229-244 | a committed resend leaves the replaced code in no row, and its new code resolves to this invitation |
| `InvitationOwners.AcceptsLetInTheInvited` | api/internal/http/handlers/invitations.go:456-598 | whoever an accept lets in owns the invited address, linked or created, and joins the invitation's unit in its role, whatever accounts and memberships other accepts and other routes create meanwhile |
| `InvitationRetirement.RetiredAddressStaysOut` | api/internal/db/users.sql.go:28-30 | once an address belongs to a soft-deleted account that no accept under way has linked, no invitation to it is ever accepted |
| `InvitationRetirement.LinkedInTimeGetsIn` | api/internal/http/handlers/invitations.go:534-598 | an accept that linked the account before, with its row free and usable and no such membership yet, goes through whether the account has been deleted since or not |
| `InvitationRetirement.RetiredWhileLinked` | api/internal/http/handlers/invitations.go:456-598 | a run from the empty table in which such an accept commits for a deleted account's address |
| `InvitationSweep.SweepsUnseen` | api/internal/db/invitations.sql.go:332-335 | taking every sweep out of a run changes no answer of a preview or accept at any moment, if and only if no claim races a sweep |
| `InvitationSweep.AgreeIffRaceFree` | api/internal/http/handlers/invitations.go:646-670 | the same from any two states that differ only by earlier sweeps, half-finished resolutions included |
| `InvitationSweep.SweepCanRace` | api/internal/http/handlers/invitations.go:534-551 | the race occurs: a sweep after BEGIN makes the conditional update conflict |
| `InvitationServer.Server.CreateInvitation` | api/internal/http/handlers/invitations.go:62-146 | one new row beside the old ones with the columns asked for, usable for fourteen days, with its email and audit entry; on a clash nothing |
| `InvitationServer.Server.ResendInvitation` | api/internal/http/handlers/invitations.go:211-274 | conflict, missing address and success, each exactly when it applies; success moves one row and leaves the old code in none, anything else leaves no trace |
| `InvitationServer.Server.RevokeInvitation` | api/internal/http/handlers/invitations.go:278-312 | only a pending invitation of this community is revoked, no other row changes, and it is usable at no later time; otherwise a conflict |
| `InvitationServer.Server.SweepExpired` | api/internal/db/invitations.sql.go:332-354 | leaves no stale row, changes no other and reports how many, unless a claim makes it wait |
| `InvitationServer.Server.ResolveSecret` | api/internal/http/handlers/invitations.go:705-721 | reads the one row the secret names, as committed, or none |
| `InvitationServer.Server.ResolveUsable` | api/internal/http/handlers/invitations.go:659-669 | the row as it was read decides at the present clock, dead and unknown alike; a preview is told that row's community, unit, role and expiry; of the table only that row's counter moves |
| `InvitationServer.Server.ClaimInvitation` | api/internal/db/invitations.sql.go:16-36 | goes through exactly when the row is free, pending and unexpired at the transaction's start |
| `InvitationServer.Server.CommitAccept` | api/internal/http/handlers/invitations.go:553-598 | account, membership, audit row and accepted row together, exactly when address and membership are free, or no table changes; joined, failed or conflict accordingly |
| `InvitationParity.GuessesDiscloseNothing` | api/internal/http/handlers/invitations.go:397-529 | any sequence of policy-violating guesses is answered the same, the switch to 429 included, whether or not the address has an account |
| `InvitationParity.AlikeExactlyWhen` | api/internal/http/handlers/invitations.go:619-629 | at the credential step any account answers as an unknown address does exactly when the policy passes the candidate and the caller may act for the account, or the policy does not pass it and it is not the account's own |
| `InvitationGuesses.GuessesTellNothing` | api/internal/http/handlers/invitations.go:397-529 | the same with accepts, logins and previews interleaved operation by operation: taking the accounts of any addresses away, guesses at them stand at the same point with the same answer at every moment, the invitation counter is equal and the login counter up to alerts |
| `InvitationGuesses.AlikeIffNoneTells` | api/internal/http/handlers/invitations.go:619-629 | over every interleaving the accepts stand alike at every moment if and only if no attempt on such an address gets past its lockout that is neither entitled with a password the policy passes nor a wrong one it refuses |
| `InvitationGuesses.AcceptIsItsSteps` | api/internal/http/handlers/invitations.go:397-529 | a run of an accept from its arrival on that nothing interrupts answers and counts as the handler |
| `InvitationParity.Handler.AcceptInvitation` | api/internal/http/handlers/invitations.go:397-450 | reaches the transaction exactly when both counters stand, consent is given, the secret is usable and the caller may act for its address; the order of gates decides the answer otherwise |
| `InvitationParity.Handler.CheckCredentials` | api/internal/http/handlers/invitations.go:458-529 | lets through exactly who may act for the address; right credentials cost nothing, a mismatch one failure on either counter, a superadmin's password one on the login counter |
| `InvitationParity.GatesInOrder` | api/internal/http/handlers/invitations.go:397-450 | what each gate answers before the credentials, in order, in counted failures: ten at secrets close the first, five at the email or the address the last |
| `InvitationParity.GatesCost` | api/internal/http/handlers/invitations.go:659-669 | only a dead or unknown secret costs a try at those gates, and only the caller's own address |
| `InvitationParity.CredentialsAnswer` | api/internal/http/handlers/invitations.go:458-529 | a wrong password is answered as the policy has it, a superadmin as a wrong password, the second factor last |
| `InvitationParity.CredentialsCost` | api/internal/http/handlers/invitations.go:478-519 | a wrong password costs one failure on either counter, a superadmin one on the login counter, anybody else nothing |
| `InvitationParity.CredentialsAlert` | api/internal/http/handlers/invitations.go:470-490 | the owner's alert is tried exactly for a charged failure on an account at the fifth of its email or caller |
| `IncidentWalk.FixedWalkIsTheList` | api/internal/http/handlers/incidents.go:279-341 | over a fixed visible set the walk ends, in the number of full pages the list takes, and yields the filtered visible incidents, each once, descending; every completed walk yields the same |
| `IncidentWalk.NothingTwice` | api/internal/db/incidents.sql.go:222-233 | whatever changes between the statements of the requests, no (created_at, id) and so no incident is returned twice |
| `IncidentWalk.NothingMissed` | api/internal/http/handlers/incidents.go:318-341 | a completed walk returns every incident that was visible and matching at the page query of each of its requests |
| `IncidentWalk.PageMatchesRequest` | api/internal/http/handlers/incidents.go:240-341 | every page holds at most the limit of incidents, each visible and matching the filters in the public vocabulary |
| `IncidentWalk.OutsidersSeeOnlyTheirOwn` | api/internal/db/incidents.sql.go:176-221 | whoever has neither an office role nor an active membership at each page query is shown nothing on any page of a walk but the private incidents they reported |
| `IncidentAccess.ShownIsGranted` | api/internal/db/incidents.sql.go:172-221 | whatever a walk shows is, column by column, a standing row of the table its page was read from that meets the request, and some office role, authorship or running membership of the caller grants it |
| `IncidentAccess.PrivateNeedsOwnUnit` | api/internal/db/incidents.sql.go:199-217 | who is neither reporter nor office admin is shown a private incident only with a running membership in its own unit |
| `IncidentAccess.GrantedIsListed` | api/internal/db/incidents.sql.go:176-221 | any one ground at each page query, be it admin, staff, authorship, membership for common or own unit for private ones, puts a matching incident into every completed walk |
| `IncidentAccess.NewestFirst` | api/internal/db/incidents.sql.go:231 | creation times never rise along a walk, and ids fall among equal ones |
| `IncidentAccess.AnsweredIff` | api/internal/http/handlers/incidents.go:240-341 | a page is answered exactly when filters, unit and limit are good and the cursor's incident is still there, unmoved, granted and matching; it is full if there are more |
| `IncidentWalk.RestSpec` | api/internal/db/incidents.sql.go:172-233 | the query's rows are exactly the selected ones, strictly descending |
| `IncidentWalk.RowAnchors` | api/internal/http/handlers/incidents.go:285-306 | the last row of any page passes the anchor check of the next request on the same database |
| `Incidents.ListIncidents` | api/internal/http/handlers/incidents.go:240-341 | the handler's three statements, each on the tables as it finds them, answer as the page function the walk results are about, errors included |
| `Incidents.FetchPage` | api/internal/http/handlers/incidents.go:307-341 | one row of lookahead decides whether there is a next cursor, and the cursor names the last row shown |
| `IncidentCursor.Validate` | api/internal/http/handlers/incidents.go:415-460 | accepts exactly an object of the eight fields, each once and of its type, with nothing after it |
| `IncidentCursor.Decode` | api/internal/http/handlers/incidents.go:380-413 | the struct's checks after validation, in order |
| `IncidentCursor.DecodesExactlyTheIssued` | api/internal/http/handlers/incidents.go:391-413 | a cursor decodes to a pivot in a context exactly when every field is what the cursor issued there says |
| `IncidentCursor.DecodesIffPermuted` | api/internal/http/handlers/incidents.go:391-460 | a cursor decodes to a pivot exactly when it is one closed object of the eight issued items in any order and nothing else |
| `IncidentCursor.CursorRoundTrip` | api/internal/http/handlers/incidents.go:375-378 | what is issued is accepted and yields its pivot |
| `IncidentCursor.CursorBoundToContext` | api/internal/http/handlers/incidents.go:396-399 | a cursor accepted for one community, caller and filters is accepted for no other |
| `MergeKeys.FreshWalkIsReachability` | api/cmd/lintcompose/main.go:376-403 | from an empty visited set, on any graph, the keys are those of exactly the mappings reachable by merges |
| `MergeKeys.InnerCallsArePartial` | api/cmd/lintcompose/main.go:383-396 | whenever two mappings merge each other, the inner call returns its own keys alone while both direct calls return both mappings' keys |
| `MergeKeys.ResolvedKeySet` | api/cmd/lintcompose/main.go:383-403 | the recursion over one shared visited set terminates on cycles and computes the walk those results are about |
| `MergeKeys.CheckShallowMergeTrap` | api/cmd/lintcompose/main.go:272-312 | names exactly the services that write an environment and take another one along a chain of merge keys, each leading to the next mapping itself, by alias or in a list, in the order of the document |
| `MergeKeys.AliasedEnvironmentTraps` | api/cmd/lintcompose/main.go:299-309 | a service with an environment that merges an alias, alone or in a list, of a mapping with an environment is trapped |
| `MergeKeys.AnySourceHasEnvironment` | api/cmd/lintcompose/main.go:302-309 | stops at the first merge source that reaches an environment, and only then |
| `MergeKeys.MergeSources` | api/cmd/lintcompose/main.go:348-366 | exactly the values of merge keys, lists spread, those of earlier pairs before those of later ones |
| `MergeKeys.MappingOwnKeys` | api/cmd/lintcompose/main.go:330-343 | exactly the keys some pair of the mapping has, but for the merge key |
| `MergeKeys.MappingValue` | api/cmd/lintcompose/main.go:316-326 | the value of the first pair with the key, and none exactly when no pair has it |
| `AttemptCounter.CounterCountsHistory` | api/internal/platform/attempts/counter.go:35-65 | after any orderly operations on any keys, Fail and Count answer the failures since the last reset strictly after now minus window |
| `AttemptCounter.Prune` | api/internal/platform/attempts/counter.go:67-76 | keeps exactly the times strictly after the cutoff, in order |
| `AttemptCounter.Counter.Fail` | api/internal/platform/attempts/counter.go:35-46 | prunes, records and answers as the history results assume |
| `Throttle.FailuresPerWindow` | api/internal/domain/auth/mfa/throttle.go:41-65 | with at most k calls overlapping, no window holds more than 4 + k failures |
| `Throttle.SequentialFailuresPerWindow` | api/internal/domain/auth/mfa/throttle.go:13-16 | calls that do not overlap never exceed the threshold of five |
| `Throttle.BoundIsReached` | api/internal/domain/auth/mfa/throttle.go:44-63 | for every k some run records exactly 4 + k |
| `Throttle.ThrottledForAWindow` | api/internal/domain/auth/mfa/throttle.go:41-50 | after five refusals in an instant the user is throttled, and a window later not any more |
| `Throttle.CallIsItsSteps` | api/internal/domain/auth/mfa/throttle.go:41-65 | a call of its own leaves in the counter what its outcome says, and only refusals as failures |
| `Throttle.ThrottledVerify` | api/internal/domain/auth/mfa/throttle.go:41-65 | throttles at five, resets on success, records on refusal, changes no other user's count |
| `Lockout.ReportAgreesWithCheck` | api/internal/domain/auth/lockout/lockout.go:123-170 | the attempt just recorded reports a lock exactly when a check at the same instant would |
| `Lockout.LocksFromFive` | api/internal/domain/auth/lockout/lockout.go:123-170 | the fifth failure in the window locks, by email or by address, for the check and for the attempt alike |
| `Lockout.AlertsIff` | api/internal/domain/auth/lockout/lockout.go:197-212 | an alert goes out exactly when a known address is locked and none was tried in the window |
| `Lockout.RecordingSparesOthers` | api/internal/domain/auth/lockout/lockout.go:123-136 | a failure counts once against its email, once against its address and against nobody else |
| `LockoutRuns.ExistenceChangesNoReply` | api/internal/domain/auth/lockout/lockout.go:115-122 | two runs that differ only in which addresses have accounts, their calls interleaved operation by operation: at every moment every call stands at the same point with the same counts, replies and blocks, and the counters differ in alerts only |
| `LockoutRuns.AlertsAreSpaced` | api/internal/domain/auth/lockout/lockout.go:197-212 | however calls interleave, any two alerts of one account are a full window apart |
| `Lockout.LockedDoesNotEscalate` | api/internal/domain/auth/lockout/lockout.go:137-163 | attempts made while both budgets are spent report a lock and start no lock cycle |
| `LockoutRuns.BlocksLengthen` | api/internal/domain/auth/lockout/lockout.go:171-190 | however calls interleave, each lock cycle's block is 15, 30 or 60 minutes by the cycles of its key in the hour before, and a call reports the longest of those it started |
| `LockoutRuns.AttemptIsItsSteps` | api/internal/domain/auth/lockout/lockout.go:123-170 | a run of an attempt that nothing interrupts adds up to the service's one |
| `LockoutRuns.CheckIsItsSteps` | api/internal/domain/auth/lockout/lockout.go:247-260 | and so does that of a check |
| `Lockout.Service.RecordFailure` | api/internal/domain/auth/lockout/lockout.go:123-170 | counters, escalation and alert as the service function those results are about |
| `Lockout.Service.IsLocked` | api/internal/domain/auth/lockout/lockout.go:247-260 | answers by either budget and changes no count any later call can see |
| `Totp.NoReplay` | api/internal/domain/auth/mfa/verify.go:43-64 | in any interleaving an account's accepted steps strictly increase, and the same code under the same secret is accepted again only beyond the window examined before (section 5.2 of RFC 6238) |
| `Totp.ActivatingCodeAcceptedIff` | api/internal/domain/auth/mfa/enroll.go:48-77 | in every run the code that activated a factor is accepted exactly when it matches a window step beyond the last accepted one, of which there is none at first |
| `Totp.ActivatingCodeReplays` | api/internal/domain/auth/mfa/enroll.go:50-53 | a run: the activating code is accepted by the verification that follows |
| `Totp.ActivatingCodeOutlived` | api/internal/domain/auth/mfa/totp.go:93-113 | a run: once no step of the window fits the activating code any more, it is refused |
| `Totp.AcceptedUnderTheActivated` | api/internal/domain/auth/mfa/verify.go:43-64 | in any interleaving an accepted code is one of an active factor, under the secret it was activated with |
| `Totp.AnswersByCondition` | api/internal/domain/auth/mfa/verify.go:43-64 | a verification is refused as invalid exactly when no step of the window fits, and accepted and logged exactly when nothing conflicts and the step is beyond the stored one |
| `Totp.StepOf` | api/internal/domain/auth/mfa/totp.go:79-81 | the middle step covers the thirty seconds the clock is in |
| `Totp.MatchStep` | api/internal/domain/auth/mfa/totp.go:93-113 | succeeds exactly when some step of the three-step window matches, with the highest one; that is one of the thirty seconds around the clock, before or after |
| `Totp.Table.VerifyTOTP` | api/internal/domain/auth/mfa/verify.go:43-64 | invalid, replayed and accepted exactly when each applies; only acceptance moves the stored step |
| `Totp.Table.UpdateLastStep` | api/internal/db/user_mfa.sql.go:93-96 | moves the step forward or affects no row |
| `RevocationRuns.ReportedIff` | api/internal/platform/cache/revocation.go:126-145 | in every run, rotations and all: while the process is younger than a lifetime or its listener has been down for longer, checks report exactly the families without a live row, otherwise exactly those marked in this process within the last lifetime; start, outage and mark as the events tell them |
| `RevocationRuns.LiveNeverReported` | api/internal/platform/cache/revocation.go:132-138 | a family with a live row that was never revoked is never reported |
| `RevocationRuns.RotationSpends` | api/internal/domain/auth/session/rotate.go:138-158 | a committed rotation spends the row it read, whatever became of it, and makes one successor live |
| `RevocationRuns.SpentStaysSpent` | api/internal/domain/auth/session/rotate.go:114-122 | a spent or revoked row stays so in every run, and no rotation starts from it any more |
| `RevocationRuns.AbortedNeverCommits` | api/internal/domain/auth/session/rotate.go:97-101 | a rotation that was rolled back writes nothing then or later |
| `RevocationRuns.DeadIffNoneCommitsLate` | api/internal/domain/auth/session/rotate.go:103-158 | in every run a revoked family has no live row at any later moment exactly when no rotation in flight at the revocation commits after it |
| `RevocationRuns.RevokedWhileTokensLive` | api/internal/platform/cache/revocation.go:126-145 | a family dead at its mark is reported at every later moment an older access token is within its lifetime, through prunes, outages and restarts, unless a rotation in flight at the mark commits |
| `RevocationRuns.RestartCoversTheMark` | api/internal/platform/cache/revocation.go:121-138 | the same after a restart between the commit and the mark, without any mark |
| `RevocationRuns.SafeIffNoneInFlight` | api/internal/http/handlers/auth_logout.go:36-42 | after the mark, and as well after a restart instead of it, every continuation within the lifetime reports the family exactly when it then has neither a live row nor a rotation in flight |
| `RevocationRuns.LiveFamilyIsReported` | api/internal/domain/auth/session/rotate.go:138-158 | a run: a refresh commits after the logout that revoked and marked its family, whose live row is then reported revoked |
| `RevocationRuns.RestartForgetsTheMark` | api/internal/platform/cache/revocation.go:132-138 | the same run and a restart: the marked family is not reported while an older token lives |
| `RevocationRuns.UnmarkedGoesUnreported` | api/internal/platform/cache/revocation.go:76-82 | a run: outside the degraded times a revoked family whose mark has not come goes unreported while an older token lives |
| `RevocationRuns.LifetimeIsExact` | api/internal/platform/cache/revocation.go:129 | the bound is tight: one lifetime after a restart in the instant of the mark it is forgotten |
| `RevocationCache.Revocations.IsRevoked` | api/internal/platform/cache/revocation.go:126-145 | by the sessions table while the process is younger than a lifetime or the listener has been down for longer, otherwise by the unexpired entries of the map |
| `RevocationCache.Revocations.Prune` | api/internal/platform/cache/revocation.go:84-90 | deletes exactly the entries past their expiry |
| `Phc.PrintedParsesIffInBounds` | api/internal/domain/auth/password/argon2.go:80-160 | what is printed parses back to exactly those values if in bounds, and is refused otherwise |
| `Phc.AcceptedIffSpelled` | api/internal/domain/auth/password/argon2.go:105-160 | a string is accepted as given values exactly when it is the header and three segments that read as them, all in bounds, so the narrowing conversions lose nothing |
| `Phc.ScannedIffSpelled` | api/internal/domain/auth/password/argon2.go:117-124 | the three parameters are scanned exactly from the texts that spell them, blanks but no line feeds before each number, 64 bits at most, anything behind the last |
| `Phc.ReprintParses` | api/internal/domain/auth/password/argon2.go:105-160 | a leniently accepted text and its canonical reprint carry the same values |
| `Phc.HashVerifies` | api/internal/domain/auth/password/argon2.go:171-183 | a stored hash verifies a candidate exactly when its parameters are in bounds and the keys agree, and asks for a rehash exactly when its parameters are not the pinned ones |
| `Phc.DummyIsWellFormed` | api/internal/domain/auth/password/argon2.go:56-63 | the dummy hash is accepted with the pinned parameters, a 16-byte salt and a 32-byte tag |
| `Phc.SplitJoin` | api/internal/domain/auth/password/argon2.go:106-111 | splitting at `$` undoes joining parts that hold none |
| `Phc.DecimalRoundTrip` | api/internal/domain/auth/password/argon2.go:81-85 | a printed number scans back to itself |
| `Base64.RoundTrip` | api/internal/domain/auth/password/argon2.go:83-84 | decoding undoes unpadded encoding on every byte string (section 4 of RFC 4648) |
| `Base64.DecodesIff` | api/internal/domain/auth/password/argon2.go:136-143 | a text decodes exactly when, line breaks aside, it is all alphabet and leaves no single character over, and to how many bytes |
| `Base64.CharsAreTheTable` | api/internal/domain/auth/password/argon2.go:83-84 | the alphabet of table 1 of RFC 4648 |
| `Base64.KnownAnswers` | api/internal/domain/auth/password/argon2.go:83-84 | test vectors of section 10 of RFC 4648 |
| `Base64.BreaksIgnored` | api/internal/domain/auth/password/argon2.go:136-143 | a line feed or carriage return anywhere in the text changes nothing |
| `Base64.SpareBitsIgnored` | api/internal/domain/auth/password/argon2.go:136-143 | the spare bits of the last character do not matter to the lenient decoder |
| `SqlClauses.BalancedParenBody` | api/cmd/lintscope/parse.go:86-103 | finds a body exactly when the parenthesis has a match, which is the only one; the body never goes below depth zero and ends at it |
| `SqlClauses.SplitClauses` | api/cmd/lintscope/parse.go:109-126 | the clauses rejoin to the body, have no top-level comma, and are each balanced when the body is |
| `SqlClauses.ClausesUnique` | api/cmd/lintscope/parse.go:109-126 | no other balanced clauses without top-level commas rejoin to the same body |

## Left out

- HTTP, cookies, rate limiting, captcha, breach lookups, mail delivery, job queue internals, migrations and configuration: input and output around the core.
- Cryptography: digests, MACs, Argon2id, AES-GCM and TOTP code generation are uninterpreted functions; chain results assume that the digests at hand have 32 bytes and do not collide.
- Clocks: the application has one nondecreasing clock; a database transaction's start may lie anywhere in enrollment, and equals the clock reading at BEGIN in the invitation accept. A single lockout call and the credential part of an accept read the clock once; in `LockoutRuns` and `InvitationGuesses` every counter operation reads it anew.
- `Lockout.ReportAgreesWithCheck`: holds of a check with nothing between; a concurrent success may clear the email budget.
- `AuditAppend.CommittedRowsChain`: assumes ascending ids on equal timestamps and that stored JSON keeps its canonical text, and what has none its bytes; both are conditions on UUIDv7 and jsonb that the code relies on. The `AuditOrder` results do without the first.
- `AuditOrder.VerifiesIffInOrder`: assumes distinct (created_at, id) pairs, which the primary key enforces (`api/migrations/schema/00002_audit_log.sql:21`), and that no row hashes to the genesis value.
- `AuditChain.SameHeadSameHistory`: rows are compared by hashed content, and the first row's prev_hash is assumed to have 32 bytes, because nothing in the list fixes it.
- `EnrollmentBudget.FiveChallengesPerHour`: counts half-open hours, as the query's strict comparison does; the closed hour has its own exact results.
- `EnrollmentLocks.NoDeadlock`: a model of the locks alone, granted one at a time, without the rows of other tables that other appenders hold; the protocol of the other enrollment files keeps only the users row lock, which already serialises a user's transactions.
- Enrollment progress under interference: the latest challenge is chosen by the database's created_at, whose order can differ from lock order, so only a confirmation that nothing interrupts is proved to succeed. The emailed message and the enrollment audit entry are not tracked.
- The bookkeeping update of a resolution and the test after it are one step: the test reads only the row looked up before and the clock.
- Invitation creation's unit lookup, secret generation and the list endpoint, and the session an accept issues afterwards; a failure at any point is the abort step.
- `InvitationSweep.SweepsUnseen`: assumes that no short code is issued twice, as random codes are; resend and revoke answers may differ once a sweep blocked the row.
- `InvitationParity.GuessesDiscloseNothing`: takes accepts one after another, which `InvitationGuesses.GuessesTellNothing` does not.
- `InvitationGuesses.GuessesTellNothing`: compares answers and the two counters, not response times, and takes the secret lookups, the policy verdicts and the outcomes of logins as the same in both cases.
- `InvitationSafety.AcceptsConserved`: a membership whose role is changed later is no event, so its row stays in the role it was inserted with.
- Incident creation, titles and the other content columns, and the URL-safe base64 and JSON text of the cursor with their length limits: the cursor is modelled from the token stream on.
- `IncidentWalk.NothingTwice`: for incidents rather than sort keys it assumes that creation times never change, which no statement does.
- Multi-replica revocation; tokens, cookies and the expiry of a refresh, which ends its rotation as an abort does. A family-wide revocation is one step, at the snapshot of its statement.
- `RevocationRuns.RevokedWhileTokensLive`: speaks of marked families only, `RevocationRuns.ReportedIff` of the others; a mark follows the commit that ended the family, and the table lookup works: its failure is the error answer of `IsRevoked`.
- The YAML parser, the failure text of the linter and its other checks; a graph of nodes with kinds, values, contents and alias targets is the input.
- Column names, regular expressions and file walks of the SQL linter: only the two scanners are modelled.
- The reported block duration of a login lock: it is computed and returned as in the code, and no claim is made that a lock lasts that long.
- Serialization failures other than the one VerifyTOTP maps, and database isolation above READ COMMITTED.
- The superadmin login, recovery codes, CSRF and JWT code, authorization resolvers and partial updates: their properties are single-branch.
