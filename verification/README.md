# Upload inbox: a verified model

The system is a self-hosted inbox for files. Administrators issue links with limits; whoever holds a link uploads
files to it, in one request or resumably; administrators sign in to a panel to fetch the files and to manage
accounts. This project models the three parts whose promises are hardest to keep, and proves the promises.

**The upload ledger.** `Ledger` holds the rows of the `files` and `links` tables, the statements that change them
and the SQL sums. `Storage` is the directory behind the local backend. `Interleaving` is a step system: one step is
the code between two awaits, and any number of direct uploads, tus uploads, revocations, deletions and cleanup runs
interleave. `InterleavingSafety` proves its invariant, `InterleavingRuns` what follows for whole runs and
`InterleavingObjects` when a finished upload has its bytes. `FileNames` ties entries to the names they have on disk.
`FileService` and `UploadServer` are the same code run from beginning to end.

**The panel.** `Tables` are accounts, sessions, passkeys, recovery codes and device bindings; `Auth`, `Passkeys`,
`Bindings` and `Users` say what each service does to them. `Panel` is a machine whose step is one request: the gates
in front of a handler and the handler itself. It also writes down a history that no handler reads. `PanelMoves`
splits a step into single writes and `PanelSteps` proves that every step is a sequence of them. `PanelFactors`,
`PanelSessions`, `PanelLockout`, `PanelReplay`, `PanelCodes`, `PanelCeremonies`, `PanelConfirm`, `PanelBindings` and
`PanelAdmins` each prove one family of promises over all runs. `Database`, the `*Service` modules and `AdminHandlers`
are the imperative code over mutable tables, each method proved to do what the corresponding function says.

**Codecs.** `Base32`, `Totp`, `WebAuthn` and `Shell` are the encodings, with the specification each must meet.

Time is a natural number of milliseconds that never goes back. Ids, challenges, cookies and secrets are drawn outside
the set of values drawn before, and hashing them is taken to be injective, so a row is named by the value behind its
hash. `hotp` of a secret at a step, the hash of a file's bytes, key checks and signatures are parameters. Statements about runs quantify over
every sequence of steps from a freshly migrated database, with any interleaving and any inputs.

## What the proofs bring to light

- The orphan sweep is safe exactly when the age limit is positive. With a limit of zero an upload that starts after
  the snapshot of live keys can lose its object.
- A direct upload answers 201 whatever `completeUpload` returned. The row is complete exactly when no revocation or
  expiry ended the upload on the way; there is a run in which the answer goes out and the row is aborted.
- A revocation and the expiry of stale uploads remove the data first and fail the row afterwards. An upload that
  completes in between keeps a complete row, is answered 201, and has lost its bytes; again there is such a run. With a
  positive age limit nothing else ever takes the object of a complete row.
- `put` on a key that exists fails and then removes the existing object. Upload ids are fresh, so no caller meets this.
- A failed passkey registration leaves its challenge pending, since its transaction is rolled back; a failed sign-in or
  confirmation spends it.
- A recovery code that confirms an action leaves the failure count as it was, unlike one that completes a sign-in.
- The bound on wrong codes is about login and confirmation. Codes entered to enrol, to renew recovery codes or to
  disable the app are not counted by the code, and so not by the theorem.

## Model

| member | source | states |
|---|---|---|
| `InterleavingRuns.QuotaAlwaysHolds` | src/services/files.ts:65-101 | In every state of every run, for every link: stored plus reserved bytes stay within its total limit, and completed plus running uploads within its file limit, as both were set when it was issued. |
| `InterleavingRuns.GrantIsTheReservation` | src/services/files.ts:65-110 | What a row reserves at first is the declared size when one was declared, and never above the effective per-file limit of its link. It stays granted for good: in every later state the upload reserves exactly it while in progress, and a completed size never exceeds it. |
| `InterleavingRuns.RowsOnlyMoveForward` | src/services/files.ts:104-124 | Between any two moments of a run a row survives, keeps its identity, and its status only moves uploading to complete, aborted or expired, complete to missing or deleted, missing to deleted; what was recorded at completion never changes. |
| `InterleavingRuns.RowsAreWellShaped` | src/services/files.ts:104-124 | In every reachable state nothing is reserved outside uploading, and size and completion time are set exactly in rows that have been complete. |
| `InterleavingRuns.CompletesAtMostOnce` | src/services/files.ts:104-110 | Of all completion attempts for one id in a run, at most one takes effect. |
| `InterleavingRuns.SweepSafeIffTtlPositive` | src/storage/local.ts:74-90 | The orphan sweep, which acts on a snapshot of live keys taken earlier, never removes an entry whose row is uploading or complete at that moment, in any run, exactly when the age limit is positive. |
| `InterleavingRuns.HastySweepIsUnsafe` | src/services/cleanup.ts:54-57 | With an age limit of zero there is a run in which the sweep removes the object of an upload that began after the snapshot. |
| `FileNames.PatternExact` | src/storage/local.ts:79-80 | The pattern of the orphan sweep, as a regular expression over strings, matches a name iff it is a key, or a key followed by `.json`. |
| `FileNames.EntryOfName` | src/storage/local.ts:61-63 | Different objects and sidecars have different names, and each is found again under its name. |
| `FileNames.NameOfEntry` | src/storage/local.ts:80-81 | Every file name there can be is the name of exactly one entry: an object, a sidecar or a foreign file. |
| `FileNames.SweepIsByName` | src/storage/local.ts:77-86 | Matching the pattern, cutting off `.json` and looking the key up removes from a listing of names what the model removes from its entries. |
| `FileNames.ForeignFilesAreLeftAlone` | src/storage/local.ts:77-80 | A file whose name the pattern does not match is unchanged throughout every run. |
| `FileNames.DrawnIdsAreKeys` | src/crypto.ts:3-6 | Every id drawn for an upload is a key the pattern recognises, and different draws give different ids. |
| `InterleavingRuns.RevocationEndsUploads` | src/http/admin.ts:623-636 | When a revocation returns, every upload that was in progress on the link when it was revoked is no longer in progress, whatever interleaved. |
| `InterleavingRuns.CreatedMeansCompleteUnlessInterrupted` | src/http/public.ts:112-136 | When a direct upload is answered 201, its row is complete with the answered size exactly when no revocation or expiry ended it on the way; otherwise it is aborted or expired. |
| `InterleavingObjects.AcknowledgedThoughAborted` | src/http/public.ts:112-136 | That bad case is reachable, for any content the limits admit: a run in which the upload is answered 201 with its size while its row is aborted. |
| `InterleavingObjects.CompleteIsIntactUnlessRemoved` | src/http/public.ts:112-134 | In every state of every run a complete row, direct or tus, has its object in storage, holding exactly the bytes the upload sent, in order, with their number in the row, iff no step has removed that object; otherwise nothing is left of it. |
| `InterleavingObjects.OnlyDiscardsLoseCompleteFiles` | src/services/cleanup.ts:15-36 | The only steps that can have removed it are the discarding of data by a revocation or by the expiry of stale uploads and, with an age limit of zero, the orphan sweep; not put, the tus library, or the deletion of a file. |
| `InterleavingObjects.AcknowledgedThoughLost` | src/http/admin.ts:630-633 | Such a loss is reachable, for any content the limits admit: a run in which the upload is answered 201 and its row is complete while its object is gone. |
| `InterleavingObjects.LedgerTellsTheTruth` | src/http/public.ts:112-134 | In every reachable state, while the object of a complete row is in storage, the recorded size is its length and, for a direct upload, the recorded hash is the hash of its content. |
| `InterleavingObjects.RunKeepsObjects` | src/storage/local.ts:26-64 | In every reachable state an object not yet created is absent, an object that is kept holds the bytes taken so far, and a completed tus upload has all its declared bytes and was not terminated. |
| `InterleavingRuns.LimitsAreFixed` | src/services/links.ts:80-83 | Revoking is the only change a link sees: its limits stay as issued in every run. |
| `InterleavingSafety.RunKeepsInv` | src/http/public.ts:96-137 | The joint invariant of rows, storage entries, running uploads, quotas, revocations and sweeps holds in every state of every interleaving. |
| `InterleavingSafety.StepKeepsQuotas` | src/services/files.ts:65-115 | Whatever the next step of whichever process, no link leaves its quota. |
| `InterleavingSafety.CompletesWithinReservation` | src/http/tus.ts:99-112 | Any completing step, direct or tus, records at most the bytes reserved for that upload. |
| `InterleavingSafety.StepKeepsSweeps` | src/services/cleanup.ts:54-57 | During a sweep a live row missing from its snapshot is never older than the snapshot, and what is chosen for removal never belongs to a live row. |
| `Ledger.AdmitExact` | src/services/files.ts:65-89 | Admission is exact: a declared size is reserved as declared iff it fits every limit and the quota is not used up; an unknown size is admitted iff some size would be, and then the largest that fits is reserved. |
| `Ledger.TotalSplit` | src/services/links.ts:114-122 | The SQL sums do not depend on the order in which rows are visited. |
| `Ledger.TotalWrite` | src/services/links.ts:114-122 | Writing one row changes a sum by exactly the difference that row makes. |
| `Ledger.ReserveKeepsQuota` | src/services/files.ts:69-101 | A reservation keeps every link, the one it is for and any other, within its quota. |
| `Ledger.WriteKeepsQuota` | src/services/files.ts:104-124 | A statement that charges a row no more than before keeps every quota. |
| `FileService.LinkUsage` | src/services/links.ts:114-122 | The four aggregates, computed row by row in any order, are the sums of the specification. |
| `FileService.ReserveUpload` | src/services/files.ts:65-101 | The statements insert the row, or refuse with the right limit, exactly as admission decides. |
| `FileService.CompleteUpload` | src/services/files.ts:104-110 | Only an uploading row becomes complete; a missing hash keeps the stored one; the result says whether a row changed. |
| `FileService.FailUpload` | src/services/files.ts:112-115 | Only an uploading row is failed, and its reservation is released. |
| `FileService.MarkMissing` | src/services/files.ts:117-119 | Only a complete row becomes missing. |
| `FileService.MarkDeleted` | src/services/files.ts:121-124 | Only a complete or missing row becomes deleted. |
| `FileService.RevokeLink` | src/services/links.ts:80-83 | A link is revoked once; its first revocation date stays. |
| `Storage.LimitHashStream.Transform` | src/storage/limit.ts:18-26 | The count grows by the chunk; the chunk passes and is hashed iff the count is still within the limit. |
| `Storage.Directory.Put` | src/storage/local.ts:26-38 | For every chunking: the object holds the concatenated chunks, with their length and hash, iff the key was free, the source ended well and the total is within the limit; otherwise nothing is left under the key, not even an object that was there before. |
| `Storage.Directory.Delete` | src/storage/local.ts:61-64 | Object and sidecar go, everything else stays. |
| `Storage.Directory.CleanupOrphans` | src/storage/local.ts:74-90 | Exactly the recognised, unreferenced entries last written at or before the cutoff are removed, and their number is returned. |
| `UploadServer.Direct` | src/http/public.ts:96-137 | Undisturbed, a direct upload is refused without a trace; or ends complete with size and hash of the concatenated chunks, the declared length if there was one, within the reservation; or ends aborted with no object and no reservation. Which one is decided exactly by the limits, the length and how the stream ended. |
| `UploadServer.RevokeHandler` | src/http/admin.ts:623-636 | Revoking ends exactly the uploads in progress on that link, removes their data, and touches nothing else; a second revocation changes nothing. |
| `UploadServer.DeleteHandler` | src/http/admin.ts:667-676 | The object is removed iff the row was complete or missing, and the row is then deleted. |
| `UploadServer.DiscardUploads` | src/services/cleanup.ts:15-20 | Each listed upload loses its data and its reservation; the count is the number of rows that changed. |
| `UploadServer.VerifyFiles` | src/services/cleanup.ts:43-52 | Exactly the complete rows without an object become missing, and they are counted. |
| `UploadServer.RunCleanup` | src/services/cleanup.ts:30-65 | The whole run, loop by loop, does what its specification says of rows, directory, sessions and counters. |
| `UploadServer.CleanupTidies` | src/services/cleanup.ts:22-65 | Afterwards no upload is older than the TTL, an object is behind every complete row, every recognised entry older than the cutoff belongs to a live row, and no session is expired. |
| `UploadServer.TidyNeedsNoCleanup` | src/services/cleanup.ts:30-65 | A run over such a state changes nothing and reports zero four times. |
| `UploadServer.SecondCleanupIsIdle` | src/services/cleanup.ts:30-65 | So a second run at the same instant reports zero in all four counters and changes nothing. |
| `PanelFactors.VerifiedSessionsProvedAFactor` | src/services/auth.ts:163-193 | In every state of every run, a session reported as verified on an account with a second factor proved a factor in that very session at an earlier step: at its own birth at login, or by adding one. |
| `PanelFactors.UnverifiedIsReportedSo` | src/services/auth.ts:185-187 | The stored flag and the reported one agree in every reachable state: an unverified row means that the account has a second factor. |
| `PanelFactors.PendingNeverBecomesVerified` | src/services/auth.ts:126-161 | A session born pending is never verified for as long as it exists, whatever factors are added, removed or reset meanwhile. |
| `PanelFactors.RunKeepsInv` | src/services/auth.ts:322-413 | Every step of the panel keeps the invariant behind these three, including the handlers that break and restore it half-way. |
| `PanelFactors.FinishAppKeeps` | src/http/admin.ts:391-403 | Enabling an app marks every session verified; ending the others in the same handler restores the invariant. |
| `PanelFactors.AddPasskeyKeeps` | src/http/admin.ts:447-470 | So does adding a passkey. |
| `PanelFactors.DropPasskeyKeeps` | src/services/passkeys.ts:107-116 | Removing a passkey, even the last factor, leaves no session that the removal would upgrade. |
| `PanelFactors.ForceDisableKeeps` | src/services/auth.ts:386-390 | Clearing the app does not either. |
| `PanelSteps.StepIsMoves` | src/http/admin.ts:100-520 | Every step of the panel, gates and handler, equals a sequence of single writes, each meeting the guard of its kind: among others, why a session may end, whose sessions may be verified and by what request, who may be noted to have proved a factor, and that only this step's own names are drawn. Every promise below is argued move by move over it. |
| `PanelLockout.GuessingIsSlow` | src/services/auth.ts:218-233 | Over any stretch of any run in which no factor of the account is accepted and its factors are not reset, the wrong codes judged for it at login and in confirmations number at most ten per lock period begun. Requests the gates reject, codes entered while locked and refused resets do not interrupt the stretch. |
| `PanelLockout.WrongCodesAreSlow` | src/services/auth.ts:45-48 | The same for any stretch of the recorded times of wrong codes: ten in a row span a pause of the lock period. |
| `PanelLockout.CountsStayLow` | src/services/auth.ts:250-297 | The stored failure count stays below ten and the attempt count of every session below five, in every reachable state. |
| `PanelLockout.WrongIsRecorded` | src/services/auth.ts:250-297 | Every wrong code judged at login or in a confirmation is counted. |
| `PanelLockout.ForgottenExactlyByRelief` | src/services/auth.ts:284-297 | What the panel remembers of wrong codes is forgotten in exactly these steps: an admitted sign-in whose code or passkey is accepted, a confirmation by an app code, an accepted disabling of the app, and a reset of the account's factors that takes place. Not by a recovery code in a confirmation. |
| `PanelReplay.NoStepIsAcceptedTwice` | src/services/auth.ts:250-380 | For one secret, acceptances at enrolment, login, confirmation, code renewal and disabling are of strictly increasing steps, however far apart. |
| `PanelReplay.AcceptancesAreFew` | src/totp.ts:59-88 | Between two moments of a run a secret is accepted at most as often as steps began, plus three. |
| `PanelReplay.CodeStepIsNew` | src/services/auth.ts:256-262 | A step accepted for an enrolled app is within one of the present and newer than the last accepted one. |
| `PanelReplay.RunKeepsInv` | src/services/auth.ts:307-332 | The stored last step is always the last one accepted for the enrolled secret, a pending secret has none, and no two accounts share a secret. |
| `PanelCodes.CodesBackAFactor` | src/services/auth.ts:386-407 | Recovery codes of an account exist only while it has an authenticator app or a passkey, in every reachable state. |
| `PanelCodes.CodesWorkOnce` | src/services/auth.ts:299-304 | If one recovery code is accepted at two steps of a run, at login, in a confirmation or to disable the app, then at some step in between the account was really given new codes: an admitted request of its own that succeeded. |
| `PanelCodes.UnusedOnlyShrinks` | src/services/auth.ts:299-351 | Between two steps that really give the account new codes the unused ones only become fewer, also through refused renewals and further passkeys. |
| `PanelCodes.ReplacementIsFresh` | src/services/auth.ts:334-360 | A step that gives the account new codes leaves it with exactly the eight drawn ones, all unused. |
| `PanelCodes.ConsumingSpendsOneCode` | src/services/auth.ts:299-304 | Redeeming takes exactly that code out of the unused ones. |
| `PanelCodes.RedeemableIsUnused` | src/services/auth.ts:299-304 | A code is accepted iff its normal form has ten characters and is unused. |
| `PanelCeremonies.ChallengesServeOnce` | src/services/passkeys.ts:33-42 | Once an attempt to sign in or confirm, or a successful registration, had a challenge pending, no later attempt of any session or purpose finds it pending again. |
| `PanelCeremonies.SuccessAnswersItsOwnRequest` | src/services/passkeys.ts:25-42 | A success answers the very challenge drawn at an earlier request of the same session for the same purpose, less than five minutes ago. |
| `PanelCeremonies.AttemptSpends` | src/services/passkeys.ts:77-101 | A failed attempt to sign in or confirm spends the pending challenge too. |
| `PanelCeremonies.RegistrationSpendsIffItSucceeds` | src/services/passkeys.ts:49-63 | In any run, a registration spends the pending challenge iff it succeeds; a failed one leaves tables and history as they were. |
| `PanelCeremonies.CountersNeverDecrease` | src/services/passkeys.ts:68-74 | The stored counter of a passkey never decreases over a run, for as long as it is registered. |
| `PanelCeremonies.AcceptedAssertionCounts` | src/services/passkeys.ts:68-74 | An accepted assertion changes only that counter, raising it unless both sides have none. |
| `PanelConfirm.GuardedHandlersFollowAConfirmation` | src/http/middleware.ts:139-146 | A handler behind requireConfirmed runs only if the same session completed a sign-in or a confirmation at an earlier step, less than the window ago. |
| `PanelConfirm.StepMarks` | src/http/admin.ts:148-321 | Nothing else moves the time the window counts from: only a completed sign-in or confirmation of that session does, and to the present. |
| `PanelConfirm.RunKeepsInv` | src/services/auth.ts:143-147 | The stored end of the window is always that time plus the window. |
| `PanelBindings.SessionCookieAloneIsNotEnough` | src/http/middleware.ts:101-117 | A request counts as coming from a bound session only with a cookie issued for that session's binding less than eleven minutes ago. |
| `PanelBindings.CookiesExpire` | src/services/sessions.ts:148-158 | A cookie is accepted only within eleven minutes of the step that issued it, for the binding it was issued for. |
| `PanelBindings.AtMostTwoCookies` | src/services/sessions.ts:148-158 | Of any three cookies accepted for one session at one moment two are the same. |
| `PanelBindings.ReplacedCookieStaysGood` | src/services/sessions.ts:133-140 | The cookie a refresh replaces is accepted until its own deadline, as long as no further renewal happens. |
| `PanelBindings.DeviceChallengesServeOnce` | src/services/sessions.ts:84-140 | A device challenge leads to at most one registration or renewal over a whole run. |
| `PanelBindings.BindingsAreFixed` | src/services/sessions.ts:84-140 | The key and the session of a binding never change. |
| `PanelBindings.OfferedOnce` | src/services/sessions.ts:66-76 | A session is offered a binding at most once. |
| `PanelBindings.OneBindingPerSession` | src/services/sessions.ts:84-104 | A session has at most one binding. |
| `PanelAdmins.AnAdministratorRemains` | src/services/users.ts:65-142 | Once there is an active administrator there is one in every later state, whoever changes, disables or deletes whom. |
| `PanelAdmins.OwnAccountIsUntouched` | src/services/users.ts:69-74 | No action on accounts changes the actor's own row, passkeys, recovery codes or sessions. |
| `PanelSessions.SessionsEndInTime` | src/services/auth.ts:131-141 | A request counts as coming from a session only within the configured time after the step that started it; nothing extends it. |
| `PanelSessions.SessionsEndOnlyForCause` | src/services/auth.ts:163-205 | A session ends in a step only because it has expired or its account is disabled, its holder signs out or takes the second step, an administrator or the operator acts on its account, or an admitted request of the same account changes its factors or password, names that session, or locks the account while the session is pending. A rejected request ends at most its own stale session. |
| `PanelSessions.EndedSessionsStayEnded` | src/services/auth.ts:195-205 | A session that has ended, by whatever means, never comes back. |
| `PanelSessions.SessionsKeepTheirAccount` | src/services/auth.ts:154-161 | A session belongs to one account for as long as it exists. |
| `PanelSessions.DisabledAccountsHaveNoSessions` | src/services/users.ts:102-111 | In every reachable state a disabled account has no session, pending or complete. |
| `Database.Db.Rollback` | src/db.ts:50-53 | Everything since the transaction began is undone. |
| `Database.Db.DeleteSessions` | migrations/005_session_security.sql:40-42 | Sessions go with their bindings, everything else stays. |
| `AuthService.SetAdminPassword` | src/services/auth.ts:84-92 | A long enough password for an existing account is stored, no longer to be replaced, and every session of the account ends; otherwise nothing changes. |
| `AuthService.ChangeAdminPassword` | src/services/auth.ts:94-103 | The password changes iff the current one is right and the new one is long enough and different; sessions stay. |
| `AuthService.CreateSession` | src/services/auth.ts:131-141 | A new session of the configured length, verified from the start iff the account has no second factor. |
| `AuthService.CompleteSecondFactor` | src/services/auth.ts:154-161 | The pending session gives way to a fresh, verified one, and failures are forgotten. |
| `AuthService.GetSession` | src/services/auth.ts:163-193 | A session that expired or whose account is disabled is deleted, not used. |
| `AuthService.DestroyOtherSessions` | src/services/auth.ts:199-201 | Every session of the account but the given one ends, with its binding. |
| `AuthService.PurgeExpiredSessions` | src/services/auth.ts:203-205 | Exactly the sessions whose time is up end, and they are counted. |
| `AuthService.RecordTotpFailure` | src/services/auth.ts:218-229 | The tenth failure locks the account, clears the count and ends its pending sessions; earlier ones are counted. |
| `AuthService.VerifySessionTotp` | src/services/auth.ts:250-278 | The statements, in order and inside one transaction, lead to the tables and the answer the panel's step prescribes: lock first, then app code, then recovery code, then both failure counts. |
| `AuthService.VerifyConfirmCode` | src/services/auth.ts:284-297 | The same for a confirmation; an app code clears the count, a recovery code leaves it. |
| `AuthService.ConsumeRecoveryCode` | src/services/auth.ts:299-304 | The row-by-row update marks exactly the unused rows holding the code, and succeeds iff there was one. |
| `AuthService.BeginTotpEnrolment` | src/services/auth.ts:307-314 | An account without an enabled app gets a new pending secret and no last step; an enabled one is left alone. |
| `AuthService.ConfirmTotpEnrolment` | src/services/auth.ts:322-332 | Enables the app, verifies every session and replaces the codes, or changes nothing. |
| `AuthService.ReplaceRecoveryCodes` | src/services/auth.ts:334-340 | The old codes go, eight new ones are stored in normal form, and what is returned is how they are shown. |
| `AuthService.RegenerateRecoveryCodes` | src/services/auth.ts:342-351 | A current app code, which is used up, replaces the recovery codes; any other code changes nothing. |
| `AuthService.RegenerateRecoveryCodesConfirmed` | src/services/auth.ts:354-360 | The codes are replaced iff the account has a second factor. |
| `AuthService.DisableTotp` | src/services/auth.ts:371-380 | A current code or an unused recovery code clears the app and ends every other session. |
| `AuthService.ForceDisableTotp` | src/services/auth.ts:386-390 | App, last step, failures and lock are cleared, the codes go unless a passkey remains, and every session but the one kept ends; for an id without an account only sessions end. |
| `AuthService.ResetSecondFactors` | src/services/auth.ts:396-401 | Passkeys, app, codes and every session go, in one transaction; likewise for an id without an account. |
| `AuthService.DropRecoveryCodesIfUnused` | src/services/auth.ts:404-407 | The codes go iff the account exists and no second factor is left. |
| `PasskeyService.BeginCeremony` | src/services/passkeys.ts:25-30 | A fresh challenge for five minutes replaces any pending one. |
| `PasskeyService.TakeChallenge` | src/services/passkeys.ts:33-42 | The challenge leaves the session whatever it was for; it is returned only for its purpose and before its deadline. |
| `PasskeyService.RegisterPasskey` | src/services/passkeys.ts:49-63 | A new passkey verifies this session; any error undoes the transaction, challenge included. |
| `PasskeyService.CheckAssertion` | src/services/passkeys.ts:68-74 | The challenge is spent first; an accepted assertion of one of the account's passkeys records its counter. |
| `PasskeyService.VerifyPasskeyLogin` | src/services/passkeys.ts:77-92 | A failed check still spends the challenge; an accepted one starts the full session. |
| `PasskeyService.VerifyPasskeyConfirm` | src/services/passkeys.ts:95-101 | The same for a confirmation, without a new session. |
| `PasskeyService.RemovePasskey` | src/services/passkeys.ts:107-116 | The passkey goes, with the codes if no factor is left, and every other session. |
| `SessionService.RevokeSession` | src/services/sessions.ts:39-41 | Only sessions of this account with this public id end. |
| `SessionService.OfferBinding` | src/services/sessions.ts:66-76 | An offer is made once, to a verified, unbound session. |
| `SessionService.RegisterBinding` | src/services/sessions.ts:84-104 | A proof answering the offered challenge binds the session; nothing is written otherwise. |
| `SessionService.RefreshBinding` | src/services/sessions.ts:116-141 | Ended, refused, challenged or renewed, decided and written as the panel's step prescribes. |
| `SessionService.CheckBoundCookie` | src/services/sessions.ts:148-158 | Reading the session's one binding decides what the specification says of all of them. |
| `UserService.CountActiveAdminsOtherThan` | src/services/users.ts:65-67 | The count over all rows is the number of other active administrators. |
| `UserService.SetUserRole` | src/services/users.ts:90-101 | Refused for oneself and for the last active administrator; otherwise only the role changes. |
| `UserService.SetUserDisabled` | src/services/users.ts:103-111 | Likewise; disabling ends every session. |
| `UserService.ResetUserPassword` | src/services/users.ts:114-122 | A new password to be replaced, and every session ends. |
| `UserService.ResetUserTotp` | src/services/users.ts:125-129 | Every second factor and every session goes. |
| `UserService.DeleteUser` | src/services/users.ts:135-142 | Account, sessions, passkeys and codes go, unless it is oneself or the last active administrator. |
| `AdminHandlers.Gate` | src/http/middleware.ts:101-117 | The gate lets a session through iff it is alive and its binding is satisfied. |
| `AdminHandlers.SignIn` | src/http/admin.ts:148-171 | The password step: pending with a second factor, complete and confirmed without. |
| `AdminHandlers.Login` | src/http/admin.ts:177-247 | The second step, by passkey or code, and logout, service call by service call. |
| `AdminHandlers.Confirm` | src/http/admin.ts:274-321 | The four ways to confirm. |
| `AdminHandlers.FinishApp` | src/http/admin.ts:391-403 | Enrolment ends the other sessions, and every code it shows is redeemable. |
| `AdminHandlers.AddPasskey` | src/http/admin.ts:447-470 | A passkey ends the other sessions; the first factor comes with recovery codes. |
| `AdminHandlers.Factor` | src/http/admin.ts:360-491 | Every handler of the security page that adds, removes or renews factors. |
| `AdminHandlers.Sessions` | src/http/admin.ts:252-261 | Password change, ending sessions, and the binding offer and registration. |
| `AdminHandlers.Users` | src/http/admin.ts:717-770 | Every handler that manages accounts. |
| `Base32.DecodeEncode` | src/totp.ts:9-38 | Decoding an encoded byte string gives it back, for every byte string. |
| `Base32.Base32Encode` | src/totp.ts:9-21 | The loop over a 32-bit wrapping accumulator computes the bit-string specification of section 6 of RFC 4648, unpadded. |
| `Base32.Base32Decode` | src/totp.ts:23-38 | So does the decoding loop, and it refuses exactly the inputs with a foreign character. |
| `Base32.DecodeShape` | src/totp.ts:23-38 | m digits decode to floor(5m/8) bytes. |
| `Base32.DecodeAnyWriting` | src/totp.ts:23-25 | However an encoded value is rewritten, in any case and with separators anywhere, it decodes to the same bytes. |
| `Base32.LetterIsTheAlphabet` | src/totp.ts:7-7 | Letter values and the alphabet agree both ways. |
| `Base32.WrapKeepsLowBits` | src/totp.ts:12-16 | Wrapping at 32 bits never loses a bit that is still to be read. |
| `Totp.TruncateIsLow31Bits` | src/totp.ts:54-55 | Dynamic truncation is the big-endian number of four bytes at the offset, without its top bit (section 5.3 of RFC 4226). |
| `Totp.HotpIsSixDigits` | src/totp.ts:49-57 | A code is six digits whose value is the truncated value modulo one million. |
| `Totp.VerifyTotpExact` | src/totp.ts:72-88 | A code is accepted iff some step within one of the present and above the minimum shows it; the greatest such step is returned. |
| `Totp.SearchWindow` | src/totp.ts:72-88 | The loop over the window finds that step. |
| `Totp.ShownCodeNormalizes` | src/totp.ts:97-108 | A generated code as shown normalises to its ten characters. |
| `Totp.GenerateRecoveryCodes` | src/totp.ts:97-104 | The loop shows each random draw as two groups of five. |
| `Auth.ShownCodesWork` | src/services/auth.ts:334-340 | Every code, entered as it was shown, opens the row it was stored in. |
| `WebAuthn.ParseSerialise` | src/webauthn.ts:45-57 | Parsing inverts the authenticator-data layout of section 6.1 of W3C Web Authentication Level 2 for every hash, flags, counter and credential id. |
| `WebAuthn.ParsedIsSerialised` | src/webauthn.ts:45-57 | Whatever parses is the layout of the fields it parsed to. |
| `WebAuthn.ParseExact` | src/webauthn.ts:45-57 | An input parses to given fields iff it is a layout of them, and is refused iff it is a layout of none. |
| `WebAuthn.CounterAdvances` | src/webauthn.ts:119-120 | An accepted counter is above the stored one, or both are zero. |
| `WebAuthn.AssertionAcceptedExactly` | src/webauthn.ts:106-121 | An assertion is accepted iff it answers this challenge for this site with a user present, is signed by the stored key and its counter advances. |
| `WebAuthn.RegistrationAcceptedExactly` | src/webauthn.ts:89-100 | A registration is accepted iff it answers this challenge for this site with a user present and a usable key for the credential it attests. |
| `Shell.QuoteIsOneWord` | src/http/views/upload.ts:20-22 | A POSIX shell reads the quoted string as exactly one word, the string itself, iff the string has no NUL. |
| `Shell.QuoteAmongWords` | src/http/views/upload.ts:29-33 | Also between other words of a command line. |

## Left out

- Cryptography: scrypt, SHA-256, HMAC, signatures and the proofs of src/dbsc.ts are parameters or injective names.
- Text formats: JSON, JWT, base64url decoding and cookie text; client data and proofs arrive decoded.
- Routing, CSRF tokens, rate limits, headers, pages, locales, logs and audit rows.
- The session read while a request body is parsed: gate and handler are one step.
- Cases, members, user names, client addresses, original file names, link labels and tokens, last-login and last-seen dates.
- The S3 backend.
- The tus library: that it creates an upload once, takes no byte beyond the declared size, reports it finished only with all of them and does not terminate it afterwards is taken from its options and hooks.
- Storage errors other than a failing upload stream: stat, delete and the directory listing succeed.
- The command line's prompts; its three commands that change accounts are steps of the panel.
- Tables as SQL text: queries are set comprehensions and sums, cascades are part of the deleting statement.
- `parseSize`, `formatSize`, `sanitizeFilename`, `safeNext`, `negotiateLang` and `canAccessCase`: they would only add easy members.
- Totp.VerifyTotpExact: the window before the first step would reach a negative counter, which the source cannot encode; the model compares codes there like anywhere else.
- Base32.DecodeAnyWriting: inputs are ASCII; the source also folds the case of other letters and strips other white space.
- Totp.ShownCodeNormalizes: likewise for ASCII only.
- InterleavingRuns.SweepSafeIffTtlPositive: times are whole milliseconds, where the file system may report fractions.
- PanelAdmins.OwnAccountIsUntouched: about managing accounts; an actor's own security page is another handler.
