# A model of haproxy-operator, with proofs

haproxy-operator keeps an HAProxy gateway at the configuration held in a Kubernetes Secret.
Three parties take part: the operator with its in-memory fields, the Secret in the API
server, and the gateway behind the Dataplane API. The operator's only durable memory is a
handful of annotations on that Secret (`last-applied-hash`, `last-observed-hash`,
`last-failed-hash`, `status`, `cert-sync`), written by patches that may conflict, get lost
or reach the server without an answer. This project models the reconciler, the certificate
sync, the Dataplane client, the error classifier, the local runner and the message
sanitizer, and proves what that durable memory can be trusted for.

## How it is built

* `Platform.dfy` is the world. The API server is an append-only log of Secret revisions, a
  resourceVersion is an index into it. The gateway is a live configuration, a version
  counter and certificate storage. A `trace` records what happened, for the theorems to talk about. The
  environment is the parameter `Setup.env`: around the k-th action of the operator it may
  write Secrets (Flux, other annotators, deletion with recreation), write or re-image the
  gateway, write or delete stored certificates, serve any stale revision, refuse a patch,
  lose a patch before or after it lands, answer a request with any status or transport
  error (with or without effect), and kill the process. A theorem for every `Setup` is a
  theorem for every interleaving.
* `Errors.dfy`, `Dataplane.dfy`, `Reconciliation.dfy`, `Backoff.dfy`, `LocalRun.dfy`,
  `Utf8.dfy` and `Sanitize.dfy` give each operation as a function.
* `Environment.dfy`, `Client.dfy`, `Controller.dfy`, `LocalRunner.dfy` and `Serving.dfy` are
  the program in the form the source has: classes whose methods update fields, Secrets in
  memory, the API server and the gateway, with the source's loops. Every method is proved to
  compute its function in the specification, and `Serving.Serve` shows that the life of the
  operator, over any triggers and process deaths, is a `Run` of the specification. The long
  body of the source's Reconcile is split at its phases; the branches it repeats (a
  transient failure, a rejection) are one helper each.
* `Safety.dfy`, `Actions.dfy`, `Protocol.dfy` and `ReconcileSafety.dfy` carry one invariant
  through every action; `Theorems.dfy`, `Relevance.dfy` and `Race.dfy` draw conclusions.
  `History.dfy` reads a trace; `Suffix.dfy` says which kinds of events each part of a
  Reconcile can add to it, and `Tracking.dfy` and `Copies.dfy` what a copy still shows of its
  revision, in any environment. On these rest `CertOrder.dfy` and the book kept on the Secret (`Ledger.dfy`,
  `Bookkeeping.dfy`, `Drift.dfy`). `Steadiness.dfy` and `Suppression.dfy`,
  `Convergence.dfy`, `CertCache.dfy` and `CertAgreement.dfy`, `RetrySchedule.dfy`,
  `Bundle.dfy` each prove one family of properties.
* `Answers.dfy` and `Posts.dfy` tell what each request sequence makes of the gateway's answers.
  `Verdict.dfy`, `Reports.dfy`, `Events.dfy`, `Counting.dfy` and `ClientLife.dfy` tell how a whole
  Reconcile ends and what it leaves stored, counted and kept; `Unscoped.dfy` carries that over to
  an operator without a configured Secret name, and `LocalOrder.dfy` does the same for the runner.
* `Limits.dfy` holds the claims that are false, with the exact condition under which they
  hold, and `Clearing.dfy` the one condition that takes a whole Reconcile to prove. `Calm.dfy`,
  `CertRun.dfy`, `CheckRun.dfy` and `StaleRun.dfy` work out concrete runs from an untouched
  world that show it, and with `Witnesses.dfy` that hypotheses of the theorems can be met.

A digest is written `Hash(b)`: SHA-256 is taken to be injective. What the gateway stores
for a submission is `norm(b)` for an arbitrary function `norm`.

## Where the code and its comments, or an obvious claim, disagree

The model follows the code.

* `internal/controller/secret_controller.go:160-162` says a deterministic rejection resets
  the failure counter. It does not (`RetrySchedule.RejectionKeepsTheCount`).
* `internal/controller/secret_controller.go:252` removes `last-failed-hash` from the copy
  only, so a success after a certificate event can leave it stored
  (`StaleRun.CertTriggeredSuccessKeepsFailedHash`; exact conditions in
  `Limits.SuccessClearsFailedHashExactlyWhen` for the record and in
  `Clearing.CertTriggeredSuccessClearsExactlyWhen` for the whole Reconcile). A config-triggered
  success never does (`Tracking.RecordedApplyIsShown`).
* `internal/controller/secret_controller.go:237-248` is to leave no stale CertSync status. If the
  patch that clears it is lost, the copy shows it cleared, so that a success recorded by the same
  Reconcile does not touch it either: the bytes are applied and the failed sync stays reported
  (`StaleRun.SuccessLeavesStaleStatus`; exact condition in `Limits.SuccessReportedExactlyWhen`).
* `internal/controller/secret_controller.go:311` resets the counter on every live read, so a
  drift remediation that keeps failing never gets past its first delay
  (`RetrySchedule.FailedRemediationNeverBacksOff`).
* `internal/controller/secret_controller.go:314-329`: the first successful live read after an
  apply does not yet fix the baseline, because the patch that adopts it may be lost
  (`Limits.FirstReadIsNotEnough`; exact condition in `Drift.BaselineIsRightExactlyWhen`).
  `Drift.DriftDetectionIsExact` therefore assumes that nobody else writes the gateway until a
  baseline has been recorded.
* `internal/controller/certs.go:88` accepts an older recorded hash, so after a lost record a
  push can be skipped although storage holds other bytes (`StaleRun.LostRecordSkipsWrongly`;
  exact condition in `Limits.PushStoresExactlyWhen`).
* `internal/controller/secret_controller.go:241-243` reports `Applied` when a certificate
  sync recovers, whether or not anything was applied (`Limits.RecoveredPushReportsApplied`, and
  `CertRun.AppliedWithoutAnApply` for a run in which nothing was). Nothing else stores that
  status without an applied hash (`Theorems.AppliedStatusIsBacked`).
* `internal/controller/secret_controller.go:339` clears drift-check statuses only
  (`Limits.InSyncKeepsOtherFailures`, and `CheckRun.FailureOutlivesACheck` for a run).
* `internal/status/reporter.go:70-72` cuts at a byte, so sanitizing twice is not always
  sanitizing once (`Sanitize.NotAlwaysIdempotent`; exact condition in
  `Sanitize.IdempotentExactlyWhen`).

## Model

| member | source | states |
|---|---|---|
| Theorems.AppliedStampIsTrue | internal/controller/secret_controller.go:503-516 | In every run, a committed patch that sets last-applied-hash lands on a Secret whose data hash to it at that revision, after an apply POST of those bytes was accepted in the same Reconcile. |
| Theorems.FailedStampIsTrue | internal/controller/secret_controller.go:434-436 | In every run, a committed patch that sets last-failed-hash lands on a Secret holding those bytes, and in that Reconcile the gateway answered 400 or 422 to a POST of them, or they are empty. |
| Theorems.ObservedStampIsTrue | internal/controller/secret_controller.go:494-505 | A committed baseline is pending or the digest of a configuration the gateway served in that Reconcile. |
| Theorems.EveryOwnRevisionIsAPatch | internal/controller/secret_controller.go:633-643 | Every operator revision is the outcome of a committed patch, which compares it with the revision of the Secret directly before it; so the three rows above speak of every hash the operator ever stored. |
| Theorems.OneRunIsOneReconcile | internal/controller/secret_controller.go:183-520 | Events that carry one run number have no other Reconcile's beginning between them, so "the same Reconcile" means what it says. |
| Theorems.SuppressionIsSound | internal/haproxy/errors.go:104-139 | A stored failed hash implies that its bytes are empty or that the gateway answered 400 or 422 to a raw-config POST of exactly these bytes; nothing else ever suppresses. |
| Theorems.RecordedApplyHappened | internal/controller/secret_controller.go:503-510 | A stored applied hash names bytes whose apply the gateway accepted. |
| Theorems.StatusAlwaysConsistent | internal/controller/secret_controller.go:650-658 | On every stored revision a status message is present exactly when the status is present and is not Applied. |
| Theorems.RestartForgets | internal/controller/secret_controller.go:677-710 | After a restart, or a Reconcile in which the process died, what follows does not depend on what the process remembered. |
| Theorems.AppliedStatusIsBacked | internal/controller/secret_controller.go:237-248 | In every run, a revision with status Applied and no applied hash belongs to an unbroken stretch of such revisions that began with the patch clearing a stored CertSync failure after a push of a listed certificate in the same Reconcile. |
| Theorems.ApplyIsValidatedAndCertified | internal/controller/secret_controller.go:401-456 | Every apply POST follows, in its Reconcile, an accepted validation of the same bytes, and that follows, for every listed certificate Secret, a sync in which storage accepted the bundle or was found to hold it. |
| Theorems.NoPostWithoutEveryCertificate | internal/controller/secret_controller.go:405-417 | A Reconcile in which some listed certificate was never synced sends no raw-config POST of either kind. |
| CertOrder.AnyCertFailureMeansNoPost | internal/controller/secret_controller.go:405-417 | In every run, a Reconcile in which any certificate fails, in the event of its own Secret or in the sync before the validation, even after an earlier success, sends no raw-config POST of either kind. |
| CertOrder.EverySyncFailureIsMarked | internal/controller/certs.go:59-70 | Whatever makes the sync of the listed Secrets fail (a read, the bundle, the gateway, the record) leaves the failure mark the previous row speaks of. |
| CertOrder.EveryEventFailureIsMarked | internal/controller/certs.go:41-54 | So does whatever makes the push of a certificate event fail. |
| Events.NothingAfterCertFailure | internal/controller/certs.go:59-70 | After the first certificate that fails in a Reconcile no other one is touched and nothing is posted; only the failure is recorded. |
| Events.EventFailureIsTold | internal/controller/secret_controller.go:216-228 | A failed push of an event is told on the config Secret with the class of its error, and retried; nothing more is sent. |
| Events.EventWithoutConfig | internal/controller/secret_controller.go:205-236 | Without a config Secret the certificate is pushed all the same, a failure is counted, and nothing is recorded or posted. |
| Events.EventLiftsSuppression | internal/controller/secret_controller.go:249-274 | After a successful push bytes that are not applied are pushed, whether or not their refusal is stored. |
| Events.OtherStatusStays | internal/controller/secret_controller.go:241-248 | A successful push leaves every status but a CertSync one alone. |
| Events.UnreadableStorageEndsEvent | internal/haproxy/dataplane_client.go:285-288 | A storage GET answered by anything but 2xx and 404 ends the event with exactly that error: nothing is written, skipped, validated or applied. |
| Events.PushIsRecorded | internal/controller/certs.go:91-111 | A push that succeeds is remembered and recorded next to the records of other certificates, and undisturbed it is on the config Secret. |
| Events.ConflictIsSwallowed | internal/controller/certs.go:102-106 | A conflict of the record fails no push; a record without an answer fails it. |
| Events.KnownIsNotRewritten | internal/controller/certs.go:84-89 | A bundle that is remembered or on record is not written again while storage reports its metadata, with or without a config Secret. |
| Theorems.SkipIsJustified | internal/controller/certs.go:84-97 | In every run, including stale reads, conflicts, restarts and foreign storage writes, a skipped push implies that storage accepted exactly this bundle under this name before, and that the remote serial is not empty and matches and the size matches or is unreported. |
| Theorems.NoLostGatewayUpdate | internal/haproxy/dataplane_client.go:215-222 | With a version-locking gateway no foreign gateway write falls between the version read of an apply that the gateway stored, however it was answered, and its POST. |
| Theorems.OthersFindTheirOwnWrites | internal/controller/secret_controller.go:629-643 | Every revision shows data, labels and foreign annotations as the last foreign writer of that Secret left them. |
| Theorems.OnlyTheConfigSecretIsWritten | internal/controller/secret_controller.go:172-175 | With a config Secret that is not among the certificate Secrets, every operator revision is of the config Secret. |
| ReconcileSafety.RunKeeps | internal/controller/secret_controller.go:183-520 | Any sequence of Reconciles and restarts, in any environment, keeps the safety invariant (the law of each event, of each revision, and their order). |
| ReconcileSafety.ReconcileKeeps | internal/controller/secret_controller.go:183-520 | One Reconcile, from any memory backed by evidence, keeps the invariant whatever happens between its actions. |
| Safety.EnvStepKeeps | internal/controller/secret_controller.go:629-632 | Every step of another actor keeps the invariant. |
| Actions.PatchEnds | internal/controller/secret_controller.go:633-643 | A patch ends in one of four ways: not landed; landed and unanswered; landed and acknowledged with the refreshed copy; in each case what the copy and the server hold. |
| Actions.PatchKeeps | internal/controller/secret_controller.go:633-643 | A patch whose stamps are backed by what this Reconcile saw keeps the invariant, committed or not; an uncommitted patch leaves the local mutation in place. |
| Verdict.LastPostDecides | internal/controller/secret_controller.go:423-519 | In any environment the answer to the last POST of a Reconcile, of the config Secret or of a certificate, decides its end: 400 or 422 (validating or applying) ends in the 300 s interval with status ConfigRejected, a message and the hash of these bytes; any other bad answer is retried with the class of that answer; an accepted validation without an apply is retried; an accepted apply is recorded with its bytes and, as baseline, what was read back. Stored if the patch commits, and it does undisturbed; only a patch without an answer is an error. |
| Verdict.RefusedIsNotPostedAgain | internal/controller/secret_controller.go:384-472 | Bytes refused while validating or applying, once that is stored, are not posted again by any config-triggered Reconciles and restarts. |
| Reports.AttemptIsExplained | internal/controller/secret_controller.go:374-449 | Bytes stored neither as applied nor as refused: without a client, after a failed certificate, or without an answer to any POST, the failure is told with its kind and retried and nothing is posted; empty bytes are rejected; else the last POST decides. |
| Reports.FailedCheckIsTold | internal/controller/secret_controller.go:275-306 | An unchanged configuration that cannot be checked, for want of a client or of the live read: told with the class of that error, retried, nothing sent. |
| Reports.CheckIsExplained | internal/controller/secret_controller.go:312-368 | A completed check is counted with what it compared; it closes an open baseline with what was read, ends when in sync, when only alerting or when the remedy was refused, and else pushes the bytes. |
| Reports.MissingKeyIsTold | internal/controller/secret_controller.go:259-272 | A config Secret without its key: status, 30 s requeue, gateway left alone. |
| Reports.SuppressedIsQuiet | internal/controller/secret_controller.go:384-387 | Bytes stored as refused and not as applied: no action but the read. |
| Reports.OthersAreIgnored | internal/controller/secret_controller.go:183-200 | Other Secrets and Secrets that are gone are ignored; one that cannot be read is an error; nothing else happens. |
| ClientLife.NothingWithoutClient | internal/controller/secret_controller.go:526-560 | Over any Reconcile: a client is kept for good, none is kept that was not built, and without one nothing reaches the gateway. |
| Unscoped.EverySecretIsTheConfig | internal/controller/secret_controller.go:622-627 | Without a configured name every Secret that is no certificate is reconciled exactly as if it were the config Secret. |
| Unscoped.EventStandsAlone | internal/controller/secret_controller.go:205-236 | Without a configured name a certificate event ends with its push, told and recorded on that Secret itself. |
| Platform.Latest | internal/controller/secret_controller.go:639-642 | The current revision of a Secret is the last one of its name; a patch is locked on it. |
| Steadiness.CommittedAnnotations | internal/controller/secret_controller.go:639-642 | After a commit the server's annotations are the overlay of the local difference on its own map, and nothing was posted to the gateway. |
| Race.LosingApplyIsTransient | internal/controller/secret_controller.go:456-482 | An apply that loses the version race stores nothing, ends as a transient ConflictError with backoff, and no revision it writes touches the applied, failed or observed hash. |
| Race.LosingPost | internal/haproxy/dataplane_client.go:215-222 | A POST with an outdated version is answered 409 and changes nothing at the gateway. |
| Relevance.RelevantExactlyWhen | internal/controller/secret_controller.go:589-603 | An update is relevant if and only if data, labels or some annotation outside the operator's prefix changed. |
| Relevance.OwnWritesAreIrrelevant | internal/controller/secret_controller.go:589-603 | In every run, an operator revision compared with the revision directly before it is not relevant. |
| Relevance.FilterAnnotations | internal/controller/secret_controller.go:605-620 | The loop over the map returns exactly the foreign annotations, and nil for none. |
| Suppression.StoredHashForbidsApply | internal/controller/secret_controller.go:353-387 | Once the stored failed hash (or, in alert-only mode, the applied hash) equals the desired one, no number of config-triggered Reconciles and restarts posts anything or changes that annotation, whatever the live reads return and whatever fails, as long as no read of the Secret serves a revision older than the one that stored the hash. |
| Suppression.NoRemediationLoop | internal/controller/secret_controller.go:314-349 | For an arbitrary gateway normalisation and with fresh reads of the Secret, once it shows the apply with an open or served baseline, no number of later config-triggered Reconciles applies again while nobody else writes the gateway, whichever reads and patches fail. |
| Suppression.NoRemediationLoopAfterApply | internal/controller/secret_controller.go:492-510 | The same from the Reconcile on in which the apply is recorded, with or without a read-back, whatever fails in it or later. |
| Tracking.RecordedApplyIsShown | internal/controller/secret_controller.go:503-510 | A config-triggered Reconcile that records an apply, in any environment, leaves the Secret showing the bytes of that very record, their digest and its baseline, and no failed hash: success clears last-failed-hash. |
| Convergence.ConvergesAndStays | internal/controller/secret_controller.go:274-519 | In a quiet, healthy environment one config-triggered Reconcile ends with the gateway serving norm(desired) and the baseline recorded, and all later ones, across restarts, write no Secret revision and nothing to the gateway. |
| Convergence.OneReconcileConverges | internal/controller/secret_controller.go:420-519 | The first half: applied, read back, recorded, requeued at the interval. |
| Convergence.ConvergedRunIsIdle | internal/controller/secret_controller.go:333-349 | The second half: from a converged world every run of config triggers only reads. |
| Drift.DriftDetectionIsExact | internal/controller/secret_controller.go:312-353 | In every run in which no foreign gateway write meets an open baseline and no record of an apply is lost, a completed check compares what the gateway serves with norm of the recorded bytes; with fresh reads these are the bytes of the last accepted apply, and the check counts drift if and only if the gateway serves anything but norm of them. |
| Drift.BaselineIsRight | internal/controller/secret_controller.go:494-505 | In such a run every revision that shows an apply shows a pending baseline or the digest of norm of its bytes, and the current one shows the last accepted apply unless that still waits to be recorded. |
| Drift.BaselineIsRightExactlyWhen | internal/controller/secret_controller.go:314-331 | In every run in which no record of an apply is lost, a baseline (read back or adopted) stands beside the digest of the last accepted bytes, and is the digest of norm of them if and only if, when it was read, nobody else had written the gateway since that apply or had last written just that. |
| Bookkeeping.RunKeepsBook | internal/controller/secret_controller.go:312-505 | Any run keeps the book: what each baseline was read from, which accepted apply each record belongs to, and what the gateway serves. |
| Bookkeeping.RecordSuccessSafe | internal/controller/secret_controller.go:492-510 | Recording an accepted apply, with or without a read-back, keeps the book. |
| Bookkeeping.AdoptSafe | internal/controller/secret_controller.go:314-329 | Adopting the live configuration for a pending baseline keeps the book. |
| CertAgreement.RecordsAgreeWithStorage | internal/controller/certs.go:78-111 | If every accepted push is recorded before the operator does anything else and only the operator writes storage, every hash on the config Secret and in memory is that of the stored bytes, over all runs with restarts and failed pushes. |
| CertAgreement.SuccessfulSyncFillsStorage | internal/controller/certs.go:59-70 | Under the same assumptions a sync that reports success leaves storage holding, for each listed name, the bundle assembled from the Secret as it was when the sync began or later, also where the write was skipped. |
| CertAgreement.SyncInARunFillsStorage | internal/controller/secret_controller.go:401-417 | The same after any run, for the sync of the next Reconcile, of the config Secret or of a certificate Secret, with or without a drift check before it. |
| CertAgreement.PushCertSecretCached | internal/controller/certs.go:78-111 | One push keeps records, memory and storage in agreement, and on success storage holds the bundle. |
| Errors.RejectedExactlyWhen | internal/haproxy/errors.go:116-139 | A chain is ConfigRejected if and only if it contains ErrLocalRejection, or contains no VersionCheckError at any depth and its outermost APIError has status 400 or 422. |
| Errors.ContextKeepsTypedClass | internal/haproxy/errors.go:116-139 | Wrapping with context text never changes a class decided by a typed error. |
| Errors.ContextDecidesUntypedClass | internal/haproxy/errors.go:78-97 | Without a typed error the text does decide. |
| Errors.VersionCheckIsNeverAVerdict | internal/haproxy/errors.go:104-134 | A failed version read keeps its class, except that it is never a rejection. |
| Errors.WalksFindTheChain | internal/haproxy/errors.go:121-126 | errors.Is and errors.As find a local rejection or a version check at any depth of the chain, and only then. |
| Errors.APIWalkFindsTheOutermost | internal/haproxy/errors.go:136-139 | errors.As yields the status of the first APIError of the chain. |
| Errors.StatusDecidesClass | internal/haproxy/errors.go:58-73 | Outside a version check the outermost status alone decides, each class exactly by its own statuses. |
| Errors.KindDecidesClass | internal/haproxy/errors.go:141-164 | Without an answer the transport error inside decides; a failed request is at least a connection error. |
| Backoff.CappedExponential | internal/controller/secret_controller.go:81-97 | The delay is min(30 * 2^n, 300) for every count; the cut-off at seven shifts loses nothing. |
| Backoff.NonDecreasing | internal/controller/secret_controller.go:81-97 | Delays never decrease and stay within 30 and 300 seconds, for negative counts too. |
| Backoff.TotalWaitExact | internal/controller/secret_controller.go:81-97 | From the third on, n consecutive failures have waited 300n - 480 seconds. |
| RetrySchedule.BackoffOverRuns | internal/controller/secret_controller.go:374-399 | Over a run of consecutive transient failures of newly seen bytes the i-th delay is min(30 * 2^i, 300), delays do not decrease, and n >= 3 of them sum to 300n - 480. |
| RetrySchedule.StreakFollowsSchedule | internal/controller/secret_controller.go:441-448 | The same from any failure count: each failure counts one more, whatever branch it ended in. |
| Witnesses.OutageStreak | internal/controller/secret_controller.go:441-448 | A gateway that answers 503 for good makes the streak above as long as one likes. |
| Witnesses.ConvergenceIsPossible | internal/controller/secret_controller.go:274-519 | The hypotheses of convergence are met, for one, by a gateway that was never configured. |
| Counting.CountIsExact | internal/controller/secret_controller.go:160-162 | After any Reconcile of any Secret the count is nought if the gateway was read or accepted an apply in it or other bytes were taken up, else as before; a transient failure adds one and waits as scheduled. |
| Counting.OutageBacksOff | internal/controller/secret_controller.go:81-97 | From any count k, whatever is reconciled and wherever it fails, the i-th Reconcile of an outage waits min(30 * 2^(k+i), 300) seconds. |
| Counting.FailedCheckIsTransient | internal/controller/secret_controller.go:275-306 | A drift check that hears nothing from the gateway is a transient failure unless its patch is lost. |
| Counting.FailedChecksBackOff | internal/controller/secret_controller.go:275-311 | So n drift checks in a row without a client or a live read wait min(30 * 2^(k+i), 300) seconds. |
| RetrySchedule.RejectionKeepsTheCount | internal/controller/secret_controller.go:431-472 | A deterministic rejection, by the validation or by the apply, leaves the failure count as it was. |
| RetrySchedule.FailedRemediationNeverBacksOff | internal/controller/secret_controller.go:307-311 | A failed drift remediation always waits 60 seconds, however many failed before. |
| Limits.SuccessClearsFailedHashExactlyWhen | internal/controller/secret_controller.go:503-510 | For any trigger, a recorded success leaves the stored failed hash if and only if it was there and the copy had already dropped it. |
| Clearing.CertTriggeredSuccessClearsExactlyWhen | internal/controller/secret_controller.go:249-510 | In a cert-triggered Reconcile that records an apply, the stored failed hash survives if and only if the revision that the record patched has it and no patch committed between the drop in memory and the record; the record is the last event. |
| StaleRun.CertTriggeredSuccessKeepsFailedHash | internal/controller/secret_controller.go:249-252 | A run of two cert-triggered Reconciles from an untouched world: the first validation is refused, the second Reconcile applies and records the bytes, and both their applied and their failed hash are stored. |
| Limits.SuccessReportedExactlyWhen | internal/controller/secret_controller.go:503-510 | A recorded success stores status Applied if and only if it was stored before or the copy did not show it yet. |
| StaleRun.SuccessLeavesStaleStatus | internal/controller/secret_controller.go:241-248 | A run of two cert-triggered Reconciles from an untouched world: a failed sync recovers, the patch that clears its status is lost, the bytes are applied and recorded, and the status still reports the failed sync. |
| Limits.FirstReadIsNotEnough | internal/controller/secret_controller.go:314-331 | A run of three Reconciles after which the baseline names a foreign write, although the first live read after the apply returned what was applied. |
| Limits.SuccessStoresExactlyWhen | internal/haproxy/dataplane_client.go:289-299 | A sync that reports success leaves the bundle stored if and only if it was stored, or no hash of it was recorded, or the stored metadata did not match it. |
| Limits.PushStoresExactlyWhen | internal/controller/certs.go:84-97 | The same for the push of a Secret, where recorded means by the annotation or by the memory mirror. |
| StaleRun.LostRecordSkipsWrongly | internal/controller/certs.go:88-107 | A run of two cert-triggered Reconciles from an untouched world: the record of a renewed bundle is lost to a conflict, the old Secret comes back, and its push is skipped and reported as synced while storage holds the renewed bundle. |
| Limits.RecoveredPushReportsApplied | internal/controller/secret_controller.go:241-248 | Whenever the patch after a recovered push commits, the stored status is Applied and the presence of the applied hash is as it was. |
| CertRun.AppliedWithoutAnApply | internal/controller/secret_controller.go:237-248 | A run from an untouched world after which the stored status is Applied although no POST was ever sent; in it a push is skipped while every accepted push is recorded. |
| Limits.InSyncKeepsOtherFailures | internal/controller/secret_controller.go:335-346 | A check without drift replaces the status by Applied if that came from a drift check, and otherwise writes nothing. |
| CheckRun.FailureOutlivesACheck | internal/controller/secret_controller.go:339-347 | A run from an untouched world in which a check finds everything in order and an older failure status stays stored. |
| CheckRun.FairRunWithDrift | internal/controller/secret_controller.go:351-366 | A run from an untouched world that meets the hypotheses of drift exactness and in which a check counts a drift. |
| Bundle.BundleRefusedExactlyWhen | internal/controller/certs.go:116-121 | No bundle if and only if tls.crt or tls.key is missing or blank. |
| Bundle.BundleOfCores | internal/controller/certs.go:122-131 | The trimmed chain stands first, then ca.crt if any, then the key, each closed by one newline, and nothing else. |
| Bundle.PaddingIsDropped | internal/controller/certs.go:117-125 | Trimming yields the core of a part, whatever space surrounds it. |
| Controller.SecretReconciler.Reconcile | internal/controller/secret_controller.go:183-520 | The method changes the world, the operator's fields and its result exactly as the specification says. |
| Controller.SecretReconciler.CertEvent | internal/controller/secret_controller.go:205-253 | A certificate event: which Secret carries the record, failure and recovery. |
| Controller.SecretReconciler.CertFailed | internal/controller/secret_controller.go:216-228 | A failed push is recorded on the config Secret if there is one, counted, and retried after the backoff. |
| Controller.SecretReconciler.AfterCertPush | internal/controller/secret_controller.go:237-252 | Clears a CertSync status by a patch, and the failed hash in the copy. |
| Controller.SecretReconciler.DriftCheck | internal/controller/secret_controller.go:274-311 | Client, live read, and the comparison. |
| Controller.SecretReconciler.CompareLive | internal/controller/secret_controller.go:312-368 | Adoption of a pending baseline, the in-sync branch, and the three outcomes of drift. |
| Controller.SecretReconciler.PushDesired | internal/controller/secret_controller.go:374-417 | Reset of the streak for new bytes, suppression, client, certificates. |
| Controller.SecretReconciler.ValidatePhase | internal/controller/secret_controller.go:423-449 | Validation: rejection, transient failure or apply. |
| Controller.SecretReconciler.Validate | internal/config/validator.go:23-31 | Empty bytes are refused locally, others by a validate-only POST. |
| Controller.SecretReconciler.ApplyPhase | internal/controller/secret_controller.go:454-490 | Apply: rejection, transient failure or success. |
| Controller.SecretReconciler.RecordSuccess | internal/controller/secret_controller.go:492-519 | Read back, record in one patch, and the three outcomes of that patch. |
| Controller.SecretReconciler.ConfigPhase | internal/controller/secret_controller.go:255-274 | Foreign Secret, missing key, unchanged or changed bytes. |
| Controller.SecretReconciler.RetryLater | internal/controller/secret_controller.go:444-448 | Record, count, back off; an error of the patch is returned uncounted. |
| Controller.SecretReconciler.RejectBytes | internal/controller/secret_controller.go:431-440 | Record the rejection and its hash in one patch. |
| Controller.SecretReconciler.PatchAnnotations | internal/controller/secret_controller.go:633-643 | Mutate in memory, send the difference, refresh only on success. |
| Controller.SecretReconciler.FailWithStatus | internal/controller/secret_controller.go:650-665 | Status, message and time in one patch with the optional hash; a conflict is no error. |
| Controller.SecretReconciler.GetOrCreateClient | internal/controller/secret_controller.go:526-560 | The client is built once and kept; a failure is not cached. |
| Controller.SecretReconciler.ExportConfigHash | internal/controller/secret_controller.go:99-108 | Afterwards the series of the latest outcome is the only one exported. |
| Controller.SecretReconciler.PushCertSecret | internal/controller/certs.go:78-98 | Assemble, sync with either recorded hash, remember. |
| Controller.SecretReconciler.RecordPush | internal/controller/certs.go:98-111 | Record on the config Secret when something changed or the record differs; swallow a conflict. |
| Controller.SecretReconciler.EnsureCertSecretsSynced | internal/controller/certs.go:59-70 | Push every listed Secret in order, stopping at the first failure. |
| Controller.SecretReconciler.SyncCertSecret | internal/controller/certs.go:41-54 | Client, then push. |
| Controller.CertPEMBundle | internal/controller/certs.go:116-132 | The buffer ends up holding the specified bundle, or the error. |
| Serving.Serve | internal/controller/secret_controller.go:677-710 | Reconciles one after the other, with a fresh reconciler after every process death, are a run of the specification; from an untouched world they reach only reachable worlds. |
| Answers.WaitEndsExactly | internal/haproxy/dataplane_client.go:173-192 | For any k failed probes: the wait goes on unless the time is up (then the error of the last probe, or not ready if there was none) or the context has ended after a probe (then its error), and it succeeds at the first good answer. |
| Answers.PostNeedsVersion | internal/haproxy/dataplane_client.go:215-245 | A POST goes out exactly once, with the version just read, or not at all after a failed read, whose error comes back wrapped. |
| Answers.ApplyNeedsReadiness | internal/haproxy/dataplane_client.go:195-213 | Without readiness nothing is validated or applied, and that error comes back. |
| Answers.UnreadableIsNotOverwritten | internal/haproxy/dataplane_client.go:285-288 | A storage GET that fails other than with 404 makes the sync return exactly that error; storage and trace are as others left them. |
| Answers.MissingIsWritten | internal/haproxy/dataplane_client.go:285-286 | A missing object is created with this bundle, whatever is recorded. |
| Answers.StoredIsKeptExactlyWhen | internal/haproxy/dataplane_client.go:289-299 | An object that is there is left alone if and only if a hash is recorded and the reported serial and size do not differ; else it is replaced. |
| Answers.SyncNeedsReadiness | internal/haproxy/dataplane_client.go:278-284 | Without a local serial, or without readiness, nothing is sent to storage. |
| DataplaneClient.Client.WaitForReady | internal/haproxy/dataplane_client.go:173-192 | Probe until the version read succeeds, the deadline passes or the context ends; the last error wins. |
| DataplaneClient.Client.ApplyRaw | internal/haproxy/dataplane_client.go:215-222 | One version read, then a POST at that version. |
| DataplaneClient.Client.ValidateRawConfiguration | internal/haproxy/dataplane_client.go:237-245 | One version read, then a validate-only POST. |
| DataplaneClient.Client.ApplyRawConfigurationValidated | internal/haproxy/dataplane_client.go:208-213 | Wait, then apply. |
| DataplaneClient.Client.ApplyRawConfiguration | internal/haproxy/dataplane_client.go:195-203 | Wait, validate, apply. |
| DataplaneClient.Client.SyncSSLCertificate | internal/haproxy/dataplane_client.go:278-300 | Create on 404, skip on matching metadata and a recorded hash, replace otherwise. |
| DataplaneClient.LeafSerial | internal/haproxy/dataplane_client.go:336-352 | The serial of the first certificate block, if there is one and it parses. |
| DataplaneClient.Client.GetConfigVersion | internal/haproxy/dataplane_client.go:247-255 | A failed version read is returned as a VersionCheckError, whose class is transient unless its cause is a local rejection. |
| LocalRunner.Runner.Run | internal/local/runner.go:43-139 | The run computes the specified state; its lastHash stands for the bytes of the last accepted apply. |
| LocalRunner.Runner.ApplyWithRetry | internal/local/runner.go:65-84 | The loop computes the specified retries, with at most five reads and three seconds of sleep. |
| LocalRunner.Runner.Watch | internal/local/runner.go:108-138 | The event loop with its five ways to ignore an event. |
| LocalRunner.Runner.ApplyOnce | internal/local/runner.go:53-63 | Read the file, apply what was read. |
| LocalOrder.RunnerValidatesFirst | internal/haproxy/dataplane_client.go:195-203 | Over any events and file changes, the POST right before each apply of the runner is an accepted validation of the same bytes. |
| LocalOrder.CallValidatesFirst | internal/haproxy/dataplane_client.go:195-203 | It lies in the same call. |
| LocalOrder.UnacceptedIsNotApplied | internal/haproxy/dataplane_client.go:199-202 | A validation that is not accepted ends the call with its error, nothing is applied, and the live configuration is as others left it. |
| LocalOrder.CallSucceedsExactlyWhen | internal/haproxy/dataplane_client.go:195-203 | A call succeeds if and only if its apply is accepted. |
| LocalOrder.AttemptsEndExactly | internal/local/runner.go:65-84 | For any k failed attempts: the runner tries again unless the context has ended (then that error) or five have failed (then the error of the fifth), and stops at the first success. |
| LocalOrder.IdleEventCosts | internal/local/runner.go:112-129 | An event without an attempt changes nothing; a write to the file costs the 150 ms pause and one read. |
| LocalOrder.EventsInTurn | internal/local/runner.go:108-138 | Every event is handled, in turn. |
| LocalRun.LastHashIsWhatWasApplied | internal/local/runner.go:108-134 | Over any events and any file changes, also between the hash check and the re-read, lastHash stands for the bytes of the last apply the gateway accepted. |
| LocalRun.ApplyWithRetryBounded | internal/local/runner.go:65-84 | At most five attempts; 200 * (2^k - 1) ms of sleep after the k-th failure for k up to four, 3000 ms at most. |
| LocalRun.ApplyWithRetryApplies | internal/local/runner.go:65-84 | Success returns the bytes of the last read, just accepted; failure changes nothing about what was accepted last. |
| LocalRun.TriesExactlyWhenChanged | internal/local/runner.go:112-133 | A write event leads to an attempt if and only if the file reads as other bytes than those applied last, so failed bytes stay eligible. |
| Sanitize.SanitizeMessage | internal/status/reporter.go:56-74 | The loop over the runes, and the cut, compute the specified bytes. |
| Sanitize.SanitizedIsSafe | internal/status/reporter.go:56-74 | At most 515 bytes, none below 0x20 and none 0x7f, also where the cut splits a rune. |
| Sanitize.AsciiIsCleanedInPlace | internal/status/reporter.go:59-67 | For any surrounding bytes, malformed ones included: a line break becomes " \| " in its place, other controls vanish, other ASCII stays. |
| Sanitize.FullReadsAsClean | internal/status/reporter.go:59-68 | Read back as runes, the uncut output is the message's runes, cleaned in order. |
| Sanitize.IdempotentExactlyWhen | internal/status/reporter.go:69-72 | Sanitizing twice equals sanitizing once if and only if nothing was cut, the cut fell between two runes, or what it left is the start of a replacement character. |
| Sanitize.NotAlwaysIdempotent | internal/status/reporter.go:69-72 | 511 letters and an accented one: the second pass changes the message. |
| Utf8.RoundTrip | internal/status/reporter.go:59-66 | Decoding what WriteRune encoded returns the runes, whatever bytes follow (sections 3 and 4 of RFC 3629). |
| Utf8.DecodeAroundAscii | internal/status/reporter.go:59 | Malformed bytes never swallow an ASCII character. |
| Utf8.CutRuneReads | internal/status/reporter.go:70-72 | Each byte of a rune that was cut short reads as one replacement character. |

## Left out

* HTTP, URLs and queries, JSON and multipart bodies, basic authentication, TLS and SPIRE: a
  request is answered with a status or a transport error. A 2xx answer with an unreadable
  body, and HTTP 204 to a read, are not modelled.
* PEM and X.509 parsing: `Setup.pem` yields the blocks of a bundle, of which only "is a
  certificate" and its serial, if it parses, matter.
* The message texts. The classifier sees only which of the searched-for texts each link of a
  chain contains; the text stored as status-message is a value of the environment and is not
  tied to `Sanitize.SanitizeMessage`.
* The distinct TLS and x509 error types are one kind of leaf error; errors.Join trees are not
  modelled, only chains.
* Clock readings and the readiness deadline are values of the environment, with at most 40
  probes of 250 ms in 10 seconds.
* Work queue, informers, leader election and RBAC: one Reconcile at a time, and reads that may
  return any stored revision. Deletion of a Secret appears as an absent read, or as its
  recreation without annotations.
* A mutex-guarded client used by the readiness probe in parallel with Reconcile; closing the
  SPIRE source.
* Events, logs and all metrics except the config-hash series; `Checked` events of the trace
  stand for the drift and in-sync metrics.
* Nil and empty maps are one value, so an update that only turns one into the other does not
  count as a change of data or labels.
* bytes.TrimSpace trims the ASCII space characters; Unicode spaces are not modelled.
* Sizes and counters are unbounded integers.
* Configuration flags, the Helm chart, main.go, the file loader beyond "the read succeeds or
  fails", and the registration of file watches.
* Relevance.IsRelevantUpdate: an absent old or new object stands for a nil pointer; objects of
  another type are not modelled.
