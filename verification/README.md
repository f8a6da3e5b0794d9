# Certhub server: certificate jobs, rows, DNS records and limits

A Dafny model of the parts of the certhub server that must agree with each other, with proofs
about every interleaving. `dafny verify dfyconfig.toml` checks everything.

## What is modelled

* `Protocol.dfy` is the certificate-job protocol as a transition system. Requests, the renewal
  scan, job workers, stuck-job cleanup, shutdown and the remaining handlers interleave over the
  database lease, the job registry, the per-domain wait groups, the shutdown group and the slot
  pool. Each mutex section and each database function is one step; time is a clock that never
  goes back; CNAME checks, the ACME call, successful waits and new key material are arbitrary, and
  a wait gives up only when its timeout has passed. The other handlers' database functions may
  happen at any time with any arguments and check nothing but what their SQL checks, so a handler
  that acts on a row read earlier is covered. The renewal scan and the cleanup share one goroutine,
  so an automatic attempt arrives, and a cleanup pass begins, only when neither is under way.
* `ProtocolInvariant`, `JobSafety`, `Supersession`, `Leases`, `Takeover`, `Lifecycle`,
  `CleanupRace`, `Origins`, `RenewalRate`, `Sequence`, `EarlyLease`, `SilentEnds`,
  `JobScript`, `Cancellation`, `Handover` and `Handlers` prove what holds in every
  run and where a promise fails exactly; `Hazard` gives the concrete runs. `History` and
  `Continuations` are shared tools.
* `Rows.dfy` holds the domain and certificate tables as values and the effect of every database
  function; `RowEffects.dfy` says field by field what each of them does; `Store.dfy` is the same
  code on mutable tables, proved equal to it. `Registry.dfy`
  has the job registry and the slot pool in both forms, and `Server.dfy` the operations that span
  them, with the answer of a wait coming from outside.
* `Delegation.dfy` is the manager of the TXT records that answer the DNS challenge of section 8.4
  of RFC 8555: objects for the code, and a step system for many jobs at once. Remote calls may
  fail, also after taking effect.
* `RateLimit.dfy` is the keyed limiter with idle eviction. The token-bucket library is modelled in
  exact credit (tokens times the refill interval).
* `Backoff.dfy` is the doubling loop on wrapping 64-bit durations, `Hostname.dfy` the hostname
  grammar of section 2.1 of RFC 1123 and section 2.3.4 of RFC 1035.

## Where the code does not do what its documentation says

* `DeleteDomain` refuses a generating domain, but by the row it read at the start.
  `Handlers.DeleteHitsLeaseIff` says exactly when the delete hits a lease all the same, taking the
  certificate with it; `Hazard.DeleteUnderLease` is such a run.
* `AddDomain` decides on the row it read. `Handlers.AddRespectsOwnersIff` gives the exactly three ways in
  which it hits a live domain of another owner: removing a row that was restored since
  (`Hazard.ReplaceTakesLiveDomain`); claiming a row that was written since, because
  `assignUnclaimedDomainToUser` rechecks the status and not the release time
  (`Hazard.ClaimIgnoresRelease`); and restoring a row that another user claimed since, which also
  answers with success (`Hazard.RestoreResetsClaimedDomain`). A request that removes another user's
  deleted row can still end in a conflict (`Handlers.AddOutcomeIff`, `Hazard.ReplaceLosesName`).
* Stuck-job cleanup judges a lease by its scan alone. `CleanupRace` says exactly when its rollback
  ends a lease, and its cancellation a job, that is newer than the scan;
  `Hazard.CleanupFreesFreshLease` ends with two renewal requests holding the lease at one instant,
  `Hazard.CleanupCancelsNewJob` with a job cancelled under a lease just taken.
  A lease taken after the scan can carry an older lock time, so the condition names that time.
* `rollbackCancelledCertJob` is documented to reset the row of a job cancelled without a
  replacement. `Supersession.OnlySupersededUndo` shows it never does: a worker looks while its own
  registry entry is still there, so only superseded workers get past the check. The row is put back by
  cleanup, takeover or shutdown. A client timeout inside the ACME call looks like a cancellation too:
  `SilentEnds.SilentEndIff` says exactly when a job that nobody cancelled or replaced ends with
  nothing recorded, and `SilentEnds.UnreplacedLeavesLeaseIff` when a job leaves its row generating.
  Such an attempt schedules no backoff (`Hazard.AbortedAttemptIsNotCounted`).
* A renewal attempt checks the backoff deadline once, on the row it read earlier.
  `RenewalRate.AttemptWaitsForBackoff` therefore needs the row to have been read after the failure;
  `EarlyLease.EarlyLeaseIff` says exactly which attempts can still take the lease too early, and
  `Hazard.RenewalRunsEarly` reaches one: the user verifies the CNAME again while a job runs, the
  next scan reads the row, and then the job fails. `Sequence.OldAttemptNeedsRelease` shows that it
  takes a lease lost before its job recorded the failure.
* `beginCertJob` ignores the result of its wait. `Supersession.SupersessionIsSafe` needs waits that
  succeed, `Hazard.TimedOutWaitIsUnsafe` reaches a superseded job about to save after one that did
  not, and `Supersession.RegistrationIsSafeIff` gives the exact condition without any hypothesis.
* Overlapping starts leave a superseded job uncancelled. It presents no more
  records, because that checks the token; its requests to the CA and the deletion of a record it
  presented check the context alone and go on (`Supersession.LateCaRequestIff`,
  `Hazard.OverlapReachesCa`). The deletion is harmless (`Delegation.LateCleanupIsHarmless`). `Leases.OverlapNeedsRelease` says what such an overlap takes.
* Idle eviction changes answers for the default hourly limiter (10 requests, burst 3); it is
  invisible for the per-IP limiter.
* The backoff loop returns a negative delay when the first doubling that reaches the cap does not
  fit in 64 bits; `Backoff.DurationIsCappedIff` is the exact condition.
* `NormalizeDomain` is not idempotent: `Hostname.NormalizeTwiceIff`.

## Model

| member | source | states |
|---|---|---|
| Supersession.SupersessionIsSafe | controllers/cert_job_registry.go:72-96 | if up to some moment the starts of a domain do not overlap inside beginCertJob and each registers after a wait that succeeded, then from that moment on a job with an older token passes no check, not even one of its context alone, never saves a certificate or records a failure, and its worker has given up its entry or holds a context that is done |
| Supersession.SupersededPassesNothing | controllers/cert_job_registry.go:75-96 | without overlap alone, whatever the waits did, a superseded job starts no ACME work, sends nothing to the CA, presents and deletes no record, and passes no check before a write |
| Supersession.LateWriteIff | controllers/certificate.go:135-144 | a job that is no longer active can still save or record a failure in some continuation if and only if its worker already stands between its last check and that write |
| Supersession.RegistrationIsSafeIff | controllers/cert_job_registry.go:84-96 | without hypotheses: registering leaves a superseded job that may still write exactly when a worker of the domain is past its last check at that moment |
| Supersession.InactivePassesNoGuard | controllers/certificate.go:178-226 | once a token is inactive no later step passes a check of the token with it: before or after the ACME call, when presenting a record, before the save or the failure record |
| Supersession.LateCaRequestIff | services/acme_http.go:35-40 | a job that is no longer active can still send requests to the CA, or delete a record it presented, in some continuation if and only if its ACME call is running and its context is not done |
| Supersession.OnlySupersededUndo | controllers/certificate.go:301-314 | in every reachable state a worker about to roll its row back is superseded, so a job cancelled without a replacement never restores its own row |
| JobScript.EndMatchesAnswers | controllers/certificate.go:146-259 | a job that is active when it ends does exactly what the answers it got decide: it saves, or records the first failure among missing target, CNAME check, missing certificate, unreadable certificate, ACME call and save, with that message, or nothing after a cancelled or timed-out call; after a panic it records the panic |
| JobScript.WritesMatchAnswers | controllers/certificate.go:146-259 | whatever became of the job meanwhile, a save comes after good answers throughout, and a recorded failure is the one the answers decide or a panic |
| JobScript.SaveNeedsGoodCall | controllers/certificate.go:203-258 | a job that saves had an earlier ACME call that came back without an error |
| JobScript.FailedCallNeverSaves | controllers/certificate.go:203-217 | a job whose ACME call came back with an error, cancelled or timed out never saves |
| JobScript.SaveStepStores | controllers/certificate.go:238-257 | after a save the domain's only certificate carries the job's user and name and the new key material, and other certificates are as before |
| SilentEnds.SilentEndIff | controllers/certificate.go:201-219 | a job that is active when it ends has neither saved nor recorded a failure if and only if its ACME call came back cancelled or timed out and the worker did not panic after that; it then changes nothing |
| SilentEnds.UnreplacedLeavesLeaseIff | controllers/certificate.go:301-314 | a job that was not replaced leaves its row generating when it ends if and only if the row was generating and the job neither saved nor recorded a failure |
| Hazard.AbortedAttemptIsNotCounted | controllers/certificate.go:210-213 | a run in which an automatic attempt reaches its ACME call and ends unrecorded, and after cleanup the next one passes its checks with no failure on record |
| Hazard.TimedOutWaitIsUnsafe | controllers/cert_job_registry.go:82-90 | a reachable state in which a superseded job may still save, after a replacement waited for its whole timeout, gave up and registered |
| Hazard.OverlapReachesCa | controllers/cert_job_registry.go:76-90 | a reachable state in which a superseded job may still reach the CA although every wait succeeded, because two starts overlapped inside beginCertJob |
| JobSafety.InactiveForever | controllers/cert_job_registry.go:98-131 | over every run a token that was cancelled, superseded or ended never becomes active again and keeps its domain |
| Cancellation.ContextEndsOnly | controllers/cert_job_registry.go:75-142 | the context of a job ends only one timeout after its registration, at shutdown, when an attempt that took the lease replaces it, or when an attempt or a cleanup pass found the lease of its domain timed out |
| JobSafety.RegistrationIsFresh | controllers/cert_job_registry.go:84-90 | registering issues a token that no earlier state had issued, and makes it the only active token of its domain |
| JobSafety.StaleEndIsHarmless | controllers/cert_job_registry.go:98-105 | a worker's step never removes or changes a registry entry that holds another token |
| JobSafety.SlotConservation | controllers/cert_job_semaphore.go:23-37 | in every reachable state occupied slots equal the starters and workers holding one, at most the configured number of workers run, a release never finds the pool empty, and a drained system holds none |
| JobSafety.WaitMeaning | controllers/certificate.go:32-39 | when a wait for a domain can succeed, every worker that had begun has released its slot, given up its entry and left the shutdown group; the others have not begun |
| Leases.RowInvariant | controllers/renewal_scheduler.go:120-151 | every reachable state keeps: generating has a start time, verified has a verification time, live active has a certificate, failures are zero exactly when there is no deadline, one certificate per domain, unique names |
| Leases.LeaseExclusion | controllers/renewal_scheduler.go:297-331 | two successful locks of a domain that stayed generating are more than the timeout apart, one timeout for every takeover in between |
| Leases.OverlapNeedsRelease | controllers/renewal_scheduler.go:297-331 | two starts of one domain are past their locks at once, inside beginCertJob included, only if a step took the row out of generating in between or the second lock came more than the timeout after the first |
| Takeover.TakeoverIsJustified | controllers/renewal_scheduler.go:284-325 | an attempt takes the lease only if since it began it saw the domain without a registered job, or judged the lease of the row it read stale, then cancelled the job, and then found every worker that had begun gone |
| Takeover.GivesUpLate | controllers/cert_job_registry.go:54-70 | a start about to register after a wait that failed cancelled the old job at least one timeout ago |
| Leases.CertificateKept | controllers/certificate.go:67-105 | as long as no request deletes the domain, generating or not, a certificate row keeps its id, domain and creation time, and its contents change only by a save that makes the live domain active and clears failures and backoff |
| Handlers.DeleteHitsLeaseIff | controllers/domain.go:255-276 | a delete whose read row was not generating hits a generating row, leaving it deleted and generating and without its certificate, if and only if a lock of the domain lies between the read and the delete and still holds |
| Hazard.DeleteUnderLease | controllers/domain.go:255-276 | a run in which a delete removes the certificate of a domain while an attempt that locked it after the read goes on |
| Handlers.AddRespectsOwnersIff | controllers/domain.go:56-104 | registering a name takes a live domain from an owner with a right to it, or changes that row, if and only if it removes a row read as deleted that was restored since, or claims a row of another owner that is in error after a verification and was written within the release time since it was read, or restores a row that another user claimed since it was read and that is not already as a restore leaves it |
| Handlers.RestoreResetsIff | controllers/domain.go:278-289 | a restore resets a live row if and only if the row was restored since it was read, and ends a lease if and only if a lock after the read still holds |
| Handlers.ClaimIsStaleIff | controllers/domain.go:138-168 | a claim that goes through takes a domain that is not unclaimed any more if and only if the row is in error after a verification and was written within the release time since it was read |
| Handlers.AddOutcomeIff | controllers/domain.go:56-115 | a registration succeeds if and only if nobody created the name since it looked (creating, or removing another user's deleted row and creating), the row may still be assigned (claiming), or the row is still there (restoring); success leaves the caller owning a live row with the name, except for a restore if and only if another user claimed the row since; a replacing request that fails has removed the old row all the same |
| Hazard.ReplaceTakesLiveDomain | controllers/domain.go:289-296 | a run in which a request removes a domain for good although its owner had restored it |
| Hazard.ClaimIgnoresRelease | controllers/domain.go:138-168 | a run in which a claim takes a domain whose owner wrote the row after it was read, within the release time |
| Hazard.RestoreResetsClaimedDomain | controllers/domain.go:278-289 | a run in which a restore succeeds and resets a verified domain that another user owns by then |
| Hazard.ReplaceLosesName | controllers/domain.go:94-104 | a run in which a request removes another user's deleted row for good and then answers with a conflict |
| Leases.RefusalUndoesLock | controllers/certificate.go:272-297 | an attempt refused for lack of a slot leaves its row active with a certificate and verified otherwise, never error and never generating, unless the domain was deleted or reset meanwhile; a row already moved on is left alone |
| Lifecycle.CleanupProgress | controllers/renewal_scheduler.go:68-91 | with tracked workers, successful waits and no start for the stuck domains, a finished pass took every domain stuck at its scan out of generating |
| Lifecycle.CleanupFrame | controllers/renewal_scheduler.go:93-103 | a cleanup step changes only the row of a domain that was stuck at the scan and had no registered job at the check after its wait |
| CleanupRace.CleanupEndsFreshLeaseIff | controllers/renewal_scheduler.go:81-103 | the rollback of a cleanup pass ends a lease that is not stale by the cutoff of its scan if and only if that lease was taken after the scan with a lock time past the cutoff |
| CleanupRace.CleanupCancelsNewJobIff | controllers/renewal_scheduler.go:81-90 | the cancellation of a cleanup pass hits a job issued after its scan if and only if a start of the domain registered between the scan and the cancellation |
| Hazard.CleanupFreesFreshLease | controllers/renewal_scheduler.go:81-103 | a run without a step of any other handler in which cleanup rolls back a lease just taken over, and two renewal requests hold the lease at the same instant |
| Hazard.CleanupCancelsNewJob | controllers/renewal_scheduler.go:81-90 | a run in which cleanup cancels an active job registered after its scan, under a lease that is not stale |
| Lifecycle.ShutdownStopsJobs | controllers/cert_job_registry.go:135-142 | once shutdown cancels all jobs, no job registered before is ever active or passes a check again |
| Lifecycle.DrainLeaves | controllers/certificate.go:43-55 | after a successful drain no job runs; every registered job awaits its start by an attempt still under way, and every held slot is held by one |
| Lifecycle.ShutdownLeavesIff | controllers/renewal_scheduler.go:243-252 | whatever else runs, after the rollback loop a domain is generating if and only if an attempt took its lease after the loop listed the rows |
| Lifecycle.ShutdownIsClean | main.go:71-78 | with no attempt under way at a successful drain and none afterwards, the registry is empty, no worker has work left and no slot is held, for good, and the rollback loop leaves no live domain generating |
| Lifecycle.ShutdownActivatesCertified | controllers/renewal_scheduler.go:243-252 | a domain generating at the drain that holds a certificate comes out of shutdown active |
| RenewalRate.AttemptWaitsForBackoff | controllers/renewal_scheduler.go:184-202 | an attempt that read its row after the n-th consecutive recorded failure is admitted no earlier than that failure's time plus the delay for n failures |
| RenewalRate.ChecksAdmitIff | controllers/renewal_scheduler.go:184-216 | an attempt passes its checks if and only if the CNAME verifies, the row it read on arrival has a target and, for the scan, also automatic renewal on, a status other than generating and pending, and a deadline that is over |
| RenewalRate.RetryGap | controllers/renewal_scheduler.go:184-202 | for two consecutive failures, the attempt behind the second passed its checks no earlier than the first failure plus its delay, or it had read its row before the first failure |
| Origins.WorkerStems | controllers/certificate.go:29-40 | every worker stems from an attempt that arrived, passed its checks and then started it, for the same domain and of the same kind |
| Handover.WorkerInherits | controllers/certificate.go:29-40 | a worker runs for the name and target of the row its attempt read on arrival and for the owner of the live row read again before the lock, who existed |
| Handover.AttemptWrites | controllers/certificate.go:261-297 | an attempt writes only: the verification of an uncertified row read as not verified, the lock, an error when the owner is gone, and the rollback when there is no slot |
| Origins.RecordsOnce | controllers/certificate.go:135-144 | a worker records at most one failure |
| RenewalRate.SeriesTakesTime | controllers/renewal_scheduler.go:254-268 | unless a failure comes from an attempt that had read its row before the previous failure, the n-th consecutive failure and the moment its attempt passed its checks come no earlier than the first failure plus the first n-1 delays, and the row counts the failures |
| RenewalRate.FailureRate | config/config.go:77-94 | under the same exclusion the failing attempts started by time t are at most the logarithmic ramp plus one per cap of elapsed time plus one |
| Sequence.OldAttemptNeedsRelease | controllers/renewal_scheduler.go:172-181 | a failure of an attempt that had read its row before the previous failure means that the lease of one of the two attempts was lost before the first failure was recorded |
| Sequence.FailureRateWhileLeasesHold | controllers/renewal_scheduler.go:254-268 | as long as no failing job loses its lease before recording, the failing attempts started by a time are at most the logarithmic ramp plus one per cap of elapsed time plus one, with no hypothesis on attempts |
| EarlyLease.EarlyLeaseIff | controllers/renewal_scheduler.go:194-218 | before shutdown, an attempt on its way to the lease can take it before the time the row asks it to wait for, with no further failure and no reset, if and only if that time is not over and no check still to come stops it: a certificate must be found, and before its own check the row it read must be renewable and ask for less |
| Hazard.RenewalRunsEarly | controllers/renewal_scheduler.go:194-218 | a reachable state with a recorded failure in which an automatic attempt, which read the row while the failing job ran, can take the lease at once |
| Rows.SaveKeepsOk | controllers/certificate.go:67-105 | saving keeps the joint invariant, unique certificates included, and leaves the domain with a certificate |
| RowEffects.SaveStores | controllers/certificate.go:67-105 | after a save the domain's only certificate row has exactly the record's user, name and material; an existing row keeps its id and creation time, a new one is created now; other rows and certificates stay, and a live row becomes active with nothing left of failures |
| Rows.FailKeepsOk | controllers/certificate.go:123-133 | recording a failure keeps the joint invariant, automatic or not, with or without a certificate |
| RowEffects.FailureEffect | controllers/certificate.go:113-133 | a failed automatic renewal of a certified domain leaves the live row active, any other failure puts it in error; the message is recorded, the start time cleared, failures and deadline grow exactly for automatic attempts, and nothing else changes |
| Rows.DeletesKeepOk | controllers/domain.go:266-296 | deleting, whatever the status has become, and permanently removing keep the joint invariant although certificates disappear |
| RowEffects.DeletesEffect | controllers/domain.go:266-296 | deleting and removing take exactly the domain's certificates; a delete only marks the row, a removal takes it away |
| Rows.RollbackSetClears | controllers/renewal_scheduler.go:243-252 | rolling back all locked rows leaves none locked, certified ones active, others verified or error, and changes no other row |
| RowEffects.RollbackEffect | controllers/renewal_scheduler.go:120-151 | a rollback touches only a live generating row: active with a certificate, else verified if allowed and verified before, else in error with a message |
| RowEffects.LockEffect | controllers/renewal_scheduler.go:316-325 | the update takes the lease exactly of a live row that is free or generating since before the bound, and changes only status, message and start time |
| RowEffects.SetAutoRenewEffect | controllers/domain.go:221-253 | switching automatic renewal on clears failures, deadline and message, switching it off clears nothing, and both store the switch |
| RowEffects.CreateEffect | controllers/domain.go:170-189 | a new name gets an unused id and a live pending row with its owner and target; a name that any row carries changes nothing |
| Rows.DedupKeepsNewest | config/database.go:44-50 | from any table: one row per domain remains, no domain loses its last row, survivors are unchanged and newest, and a table is left alone exactly when it had no duplicates |
| Store.Store.SaveCertificateRecord | controllers/certificate.go:67-105 | the upsert keeps id and creation time of an existing row and activates the live domain |
| Store.Store.RollbackGeneratingDomain | controllers/renewal_scheduler.go:120-151 | equals the row rollback: active with a certificate, else verified if allowed and verified before, else error |
| Store.Store.RollbackAllGeneratingDomains | controllers/renewal_scheduler.go:243-252 | equals rolling back exactly the locked rows, and leaves no live row generating |
| Store.Store.TakeLease | controllers/renewal_scheduler.go:316-338 | the conditional update succeeds exactly when the row is live and free or stale; a missing owner turns it into an error row |
| Store.Store.FailCertJob | controllers/certificate.go:123-133 | equals the failure effect: certified automatic renewals stay active, all automatic ones schedule backoff |
| Store.Store.ScheduleAutoRenewBackoff | controllers/renewal_scheduler.go:254-268 | one more failure and the deadline of the loop's delay |
| Store.Store.AssignUnclaimedDomainToUser | controllers/domain.go:138-168 | succeeds exactly for live pending or error rows without a certificate |
| Store.Store.DeleteDomain | controllers/domain.go:255-276 | refuses by the row read earlier; otherwise the domain ends deleted, generating or not, and without a certificate |
| Server.LockAnswerMeaning | controllers/renewal_scheduler.go:284-338 | the lease is granted exactly when the row is live, certified if required, owned by an existing user, and free, or stale with its registered job gone; not found and missing owner are answered exactly in their cases; any other answer leaves the row free or as it was |
| Server.LockSparesJobs | controllers/renewal_scheduler.go:301-314 | locking leaves every job alone unless the row is live and generating past the timeout; then only the job registered for it is cancelled, and only it can leave |
| Server.Server.LockDomainForCertJob | controllers/renewal_scheduler.go:284-338 | answers and changes the row as specified; the registry stays as it was unless the lease timed out, and then only the job of that domain is cancelled and can leave; no job is registered when granted |
| Server.Server.LockAndAcquire | controllers/certificate.go:279-298 | started exactly when locked and a slot was free; otherwise a granted lease is given back as active or verified; the registry changes only by the lock |
| Server.Server.RunStuckGeneratingCleanup | controllers/renewal_scheduler.go:68-116 | puts back exactly the rows stuck at the scan whose job, if any, is gone after the wait, cancels every stuck job, and touches nothing else |
| Registry.CertJobRegistry.RegisterCertJob | controllers/cert_job_registry.go:84-90 | a new token one above the last becomes the domain's entry |
| Registry.CertJobRegistry.CancelAllCertJobs | controllers/cert_job_registry.go:135-142 | makes the context of every registered token done and keeps every entry |
| Registry.CertJobSlots.TryAcquire | controllers/cert_job_semaphore.go:23-30 | takes a slot exactly when one is free |
| Delegation.TrackingIsComplete | services/delegation_dns.go:98-132 | after any interleaving of any jobs the live records of a target are its tracked one and leaked ones, leaks are at most the failed deletes inside replace plus half-failed creates, and with none of these at most one record is live per target |
| Delegation.LateCleanupIsHarmless | services/delegation_dns.go:134-147 | a cleanup, however late, deletes and untracks only records its own job created |
| Delegation.LeftoverStaysTracked | services/delegation_dns.go:142-146 | a record whose cleanup failed stays tracked until a replacement or release reclaims it |
| Delegation.ReclaimRemovesLeftover | services/delegation_dns.go:111-130 | the next reclaim whose delete works takes the leftover out of the zone without leaking it |
| Delegation.ReplaceMeaning | services/delegation_dns.go:98-132 | a refused replacement does nothing; otherwise it makes one attempt to delete and forgets the tracked record, then at most one attempt to create, tracked when reported; other targets stay |
| Delegation.DelegationZone.ReplaceDelegationTXT | services/delegation_dns.go:98-132 | the zone after a replacement with its three checks, one delete and one create, and the new id exactly on success |
| Delegation.DelegationZone.ReleaseDelegationTXT | services/delegation_dns.go:134-147 | deletes and untracks only the tracked record, and reports exactly a failed delete |
| Delegation.DelegationDNSProvider.Present | services/delegation_dns.go:176-200 | remembers the record under the challenge token exactly on success |
| Delegation.DelegationDNSProvider.CleanUp | services/delegation_dns.go:202-229 | forgets the token and releases what it held, or does nothing for an unknown token |
| RateLimit.EvictionInvisibleIff | middleware/ratelimit.go:57-85 | no sequence of requests and sweeps tells an evicting limiter from one that never evicts if and only if a drained bucket refills within the idle time plus one nanosecond |
| RateLimit.GrantedIffWindowsFit | middleware/ratelimit.go:67-85 | a request is granted if and only if, counted from every earlier grant to its key, the grants up to this one cost no more than a full bucket and its refill since; denied requests and other keys do not matter |
| RateLimit.CapacityWithinWindow | middleware/ratelimit.go:30-47 | a full refill takes burst times floor(window / requests), at most the window |
| RateLimit.WhichLimitersMayEvict | middleware/ratelimit.go:91-98 | the per-IP limiter may always evict, the hourly one exactly from 18 requests an hour up |
| RateLimit.LimitersMean | middleware/ratelimit.go:91-98 | the per-IP limiter has its requests per minute as burst, the hourly one three at most, and each refills one request per equal share of its window, rounded down |
| RateLimit.KeyedRateLimiter.Allow | middleware/ratelimit.go:67-85 | grants exactly when the key's bucket, full if new, holds the cost of a request, and spends it |
| RateLimit.KeyedRateLimiter.EvictStale | middleware/ratelimit.go:57-65 | removes exactly the entries last seen before the cutoff |
| RateLimit.KeyedRateLimiter.constructor | middleware/ratelimit.go:30-47 | normalizes requests and burst and sets the refill interval |
| Backoff.AutoRenewBackoffDuration | config/config.go:77-94 | the loop returns the specified delay for every failure count, wrap-around included |
| Backoff.DurationIsCappedIff | config/config.go:84-93 | the delay equals min(base * 2^(max(n,1)-1), max) for every n if and only if the first doubling that reaches the cap fits in 64 bits |
| Backoff.RampThenCap | config/config.go:84-93 | exact doublings for the first log2(max/base) failures, rounded up, and the cap ever after |
| Backoff.SmallCapsFit | config/config.go:78-79 | bases and caps up to 2^62 never overflow |
| Backoff.DurationMonotone | config/config.go:77-94 | more failures never shorten the delay |
| Hostname.ValidateDomainLabels | utils/domain.go:54-65 | accepts exactly the strings of the position-wise hostname grammar |
| Hostname.LabelsMatchGrammar | utils/domain.go:54-65 | checking every piece between dots is the same as the grammar by positions |
| Hostname.ValidateLabel | utils/domain.go:67-89 | accepts exactly labels of 1 to 63 letters, digits and hyphens with no hyphen at an end |
| Hostname.SplitJoins | utils/domain.go:55 | splitting at dots loses nothing |
| Hostname.AcceptedIsNormal | utils/domain.go:15-18 | every accepted name is a fixed point of normalization |
| Hostname.NormalizeMeaning | utils/domain.go:15-18 | normalizing strips the white space at both ends, lower-cases the rest letter by letter and drops one dot at its end |
| Hostname.NormalizeTwiceIff | utils/domain.go:15-18 | a second normalization changes nothing exactly when the first result does not end in a dot or a space |

## Left out

* Database failures, and interleavings inside one database function or one mutex section. The
  deletes at the end of DeleteDomain (domain.go:266-271) count as one database function.
* HTTP binding, sessions, CORS, responses, logging, error texts beyond those stored in a row.
* The ACME protocol, account registration, CNAME lookups, encryption and PEM parsing: outside answers.
* The duplicate-key branch of the certificate upsert: unreachable when the upsert is one step.
* Wrap-around of the 64-bit job token after 2^64 jobs.
* Rounding of stored times by the database, and floating-point rounding inside the token-bucket library.
* Limiter calls read the clock once; the code reads it again inside the library after its mutex section.
* Deploy targets and jobs, configuration defaults and validation other than backoff.
* Blocking itself: a wait is a step that may succeed when nobody is tracked or give up once its timeout has passed.
* Server.Server.RunStuckGeneratingCleanup: does not model other goroutines during its waits beyond the awaited workers; Lifecycle.CleanupProgress and Lifecycle.CleanupFrame do.
* Server.Server.LockDomainForCertJob: does not model steps of other goroutines between its sections; the protocol model does.
* Hostname.AcceptedIsNormal: does not model Unicode white space and case mapping, which cannot occur in an accepted name.
* Conversion of internationalized names and the rejection of IP addresses in ValidateDomainName.
* RenewalRate.FailureRate: does not bound attempts that end without a recorded failure: the code schedules no backoff for them. SilentEnds.SilentEndIff says which they are; Leases.LeaseExclusion spaces them by the timeout unless something ends their lease.
