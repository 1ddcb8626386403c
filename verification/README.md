# Certificate lifecycle management: verified model

A Dafny model of the durable protocols of a certificate lifecycle manager, and proofs of what
they keep over whole runs:

- **lifecycle jobs**: a renewal or migration is a database row that a worker takes through
  launch, AAP polling, wire verification with backoff, and one of three outcomes, while any
  number of API calls insert and claim rows, their statements between any two of the worker's;
- **the event outbox and the scan queue**: two more lease queues, with capped attempts and
  with heartbeats;
- **certificate rows** across rescans, revocation checks, catalog imports and Vault reconcile;
- **loops that must agree with a simple description**: posture recompute, the SC-081 fast
  count, secret patches, CIDR expansion, scan counters, table cells.

Run `dafny verify dfyconfig.toml` in this directory.

## How it is built

Code that changes state step by step is a class whose methods are proved against functions on
values (`Store`, `ClaimHandler`, `Worker`, `EventStore`, `Dispatcher`, `ScanStore`, `CertificateStore`,
`Reconciler`, `PostureStore`, `ConnectionStore`, `ScanStats`). Each SQL statement or transaction
is one atomic step under one clock, save where "Left out" says otherwise. The protocols are state
machines whose steps are those functions; theorems speak about every run, that is, every sequence
of enabled steps from the empty state. `JobWorker.Worker.Tick` connects the two: whatever one tick
of the worker class does is a sequence of machine steps, and each method of `ClaimHandler` is one.
What the functions decide is told a second time by raw inputs: a claim by the columns of the
rows, the worker's statements by the certificates of a page and AAP's status strings, a rule by
the columns of the certificate, a summary by the answers it sums up.
Instants are integer nanoseconds since Go's zero time. Whatever the outside world answers (AAP,
TLS probes, sinks, Vault) is an argument. So are failures of the database: any single statement of
the job worker or of a claim, any mark of the dispatcher and any update of the reconcile pass may
fail, and the model then goes on exactly as the source does, which often means as if nothing had
happened. The theorems hold for all answers and failures unless a row says otherwise.

| module | content |
|---|---|
| `Backoff`, `AapClient`, `WireCheck` | delay table, AAP polling loop, successor search |
| `Selection`, `JobTable`, `JobStore` | claim queries, job rows and statements, the store class |
| `WorkerPlan`, `JobWorker` | the statements each worker function sends, the worker class |
| `JobMachine`, `JobInvariants`, `JobTheorems` | runs of one worker and the API |
| `JobClaims`, `JobOutcomes` | which jobs are taken, and what the worker makes of the answers, by columns and raw answers |
| `JobAnnouncements`, `JobProbes` | outcomes announced and probes counted along a run |
| `JobIds`, `JobLaunches`, `JobRaces` | who writes the AAP id, how often a launch is logged, and the races that spoil either |
| `JobLeases` | runs of any number of workers |
| `Outbox`, `Dispatcher` | event leases and attempts, one dispatch round, draining |
| `ScanQueue`, `ScanCounters`, `ScanTargets` | scan leases and slots, probe goroutines, CIDR ranges |
| `Certificates`, `Reconcile` | certificate rows and the Vault pass |
| `Compliance`, `Sorting`, `Posture` | packs, counts, findings table, risk score |
| `PostureRules` | when each rule is open, how severe it is and what score comes of it, by the certificate's columns |
| `Connections`, `Settings` | secret patches and metadata over the environment |
| `Markdown` | table cells |

## Facts of the code that the theorems depend on

- A claim by idempotency key is a look, a SELECT, an UPDATE and a second SELECT, each by itself.
  Neither the SELECT nor the UPDATE asks for the job's status: `JobTheorems.ClaimReopensIff` says
  when a claim revives an ended job, `JobTheorems.EndedWithoutId` that there are such jobs, and
  `JobTheorems.ClaimRevivesAfterSweep` that the job may well have been alive when it was read.
  Outcomes are final if and only if no claim's UPDATE lands on an ended job
  (`JobTheorems.OutcomesFinalIff`); runs, in all other theorems, are those in which none does.
- The UPDATE does not ask for the id either, and no writer looks again before it writes. A
  recorded id is overwritten if and only if a claim or the worker writes that read the row
  before the id was recorded (`JobIds.IdOverwrittenIff`); two claims with different ids can both
  succeed (`JobRaces.TwoClaimsBothSucceed`), and a claim can lose its id to the worker
  (`JobRaces.CarelessClaimIsOverwritten`). Once nobody who read it without an id is left, the id
  is final (`JobIds.UndisputedIdStays`).
- `renewal.launched` is logged outside the statement that records the id.
  `JobLaunches.LaunchLedger` balances events logged, on the way and dropped against ids recorded;
  it is logged twice exactly when somebody announces who looked before another announcement
  (`JobLaunches.LaunchLoggedTwiceIff`), and never for a claim whose look came before the job
  (`JobRaces.LookBeforeInsert`).
- Statements of a holder carry no owner guard, so lease exclusion needs holders to act within
  their lease (`JobLeases.LateReleaseFreesTheJob`). A mark of an event may come late as long as
  nobody else has claimed the event; one that is overtaken takes the attempts above the cap
  (`Outbox.OvertakenMarkExceedsCap`).
- The worker ignores whether the statement that stores an outcome succeeded and announces the
  outcome all the same. An outcome is announced at most once, and truthfully, if and only if no
  announcement goes out behind such a failed statement
  (`JobAnnouncements.OutcomeAnnouncedOnceIff`); with one, the same deadline is announced twice
  (`JobAnnouncements.DeadlineAnnouncedTwice`). It is announced exactly once if and only if, in
  addition, no announcement of a stored outcome is dropped by a crash or a failing statement
  (`JobAnnouncements.OutcomeAnnouncedExactlyIff`).
- What survives crashes and failing statements anywhere: the stored statuses and their fields,
  the permanence of outcomes, the measure, the bound on changes, the sweep, and the exact
  conditions on ids and events above. What does not: the number of launches AAP accepts
  (`JobRaces.LostReferenceForgetsLaunch`) and the number of probes, which grows by one for each
  statement recording a probe that is dropped (`JobProbes.ElevenProbesPerEntry`,
  `JobProbes.ElevenIsAttained`).
- Scans that the collector or the command line runs are not claimed; the scan theorems are
  about scans run by scan workers.

## Where the code and its comments disagree

- "Heartbeat at half the lease TTL so a healthy worker is never stolen" holds from a lease of
  one second on; below it the heartbeat comes after the lease
  (`ScanQueue.LeaseFitsItsHeartbeatIff`, `ScanQueue.LateHeartbeatIsStolen`), and the worker that
  was late can put a scan completed by the thief back to running (`ScanQueue.LateWorkerReopens`).
- "when false the scan-derived status is preserved" on a Vault update: a status that Vault
  itself had set to revoked is preserved too, until the next rescan
  (`Certificates.ReinstatedKeepsStatusUntilRescan`).
- Blocking private ranges also means link-local multicast in the address check, but the check
  of one address does not cover a /16 around 224.0.0.0/24 (`ScanTargets.MulticastTargetIff`).
- `cert.expiring` is meant for the transition; a revoked certificate announces it again at
  every rescan inside the window (`Certificates.RescanAnnouncesExpiry`).
- A stored connection overlays the environment field by field, except that the namespace, the
  auth method and the two AAP switches never fall back once a row exists
  (`Settings.FirstSecretPatchKeepsMetadataIff`, `Settings.FirstAapSecretPatchKeepsMetadataIff`).

## Model

| member | source | states |
|---|---|---|
| `Backoff.NextVerifyDelay` | internal/lifecyclejobs/backoff.go:6-27 | every delay is between ten seconds and six hours, for any attempt number |
| `Backoff.NextVerifyAt` | internal/lifecyclejobs/backoff.go:36-42 | the next probe never passes the deadline, is marked last exactly at it, and lies in the future before it |
| `Backoff.MissAlwaysReschedules` | internal/lifecyclejobs/worker.go:326-345 | the branch that times a job out after a miss before the deadline cannot be taken |
| `Backoff.ElevenProbesPerDay` | internal/lifecyclejobs/backoff.go:6-42 | n probes fit a 24 hour window if and only if n is at most eleven |
| `Backoff.ProbeTimes` | internal/lifecyclejobs/backoff.go:6-27 | the probes of a job fall 0, 10, 40, 100, 400, 2200, 5800 and 16600 seconds after its creation and then every six hours, with steps that never shrink |
| `Backoff.PunctualProbeTime` | internal/lifecyclejobs/backoff.go:19-42 | the bound is attained: probes run on time fall exactly at the sums of the delays |
| `AapClient.WaitForJob` | internal/aap/client.go:327-356 | the polling loop returns what the recursive description gives on every script of answers |
| `AapClient.WaitMeaning` | internal/aap/client.go:327-356 | the wait ends at the first answer that is terminal or is the fifth failure in a row, with no error only for a terminal status, and only if no such answer comes is it cancelled |
| `WireCheck.ObserveSuccessor` | internal/lifecyclejobs/worker.go:347-381 | the scan of the page finds the described best certificate |
| `WireCheck.BestIsLatest` | internal/lifecyclejobs/worker.go:353-367 | the chosen successor replaces the predecessor and no other candidate of the page expires later |
| `WireCheck.ProbeSucceedsIff` | internal/lifecyclejobs/verify.go:53-67 | verification succeeds if and only if the page holds a certificate with the expected non-empty name, another fingerprint and a later expiry |
| `Selection.FirstMatchingMeaning` | internal/store/lifecycle_jobs.go:286-300 | a claim query returns matching rows oldest first, and omits a matching row only when the batch is full of older ones |
| `Selection.AllMatchingChosen` | internal/store/store.go:290-303 | with room for all rows every matching row is claimed |
| `JobTable.DueIdsMeaning` | internal/store/lifecycle_jobs.go:636-656 | due jobs come most overdue first, distinct, and one is left out only when the batch is full of more overdue ones |
| `JobTable.ExpiredIdsMeaning` | internal/store/lifecycle_jobs.go:722-753 | the sweep takes exactly the waiting jobs whose deadline has come, each once |
| `JobStore.Store.UpdateLifecycleStatus` | internal/store/lifecycle_jobs.go:220-242 | absent fields keep their values, the lease is cleared on request, nothing else changes; on failure nothing at all |
| `JobOutcomes.UpdatedRow` | internal/store/lifecycle_jobs.go:220-242 | the same, field by field |
| `JobStore.Store.SetLifecycleAapRef` | internal/store/lifecycle_jobs.go:190-218 | records the AAP id, kind and status of one row |
| `JobStore.Store.ScheduleNextVerify` | internal/store/lifecycle_jobs.go:700-720 | sets attempt, next probe and status, and releases the lease |
| `JobOutcomes.ScheduledRow` | internal/store/lifecycle_jobs.go:700-720 | the row then waits for its next probe, held by nobody |
| `JobStore.Store.InsertJob` | internal/store/lifecycle_jobs.go:345-582 | the four insert paths add one row with its timeline and outbox events, or nothing on an idempotency conflict |
| `JobClaims.InsertRefusedIff` | internal/store/lifecycle_jobs.go:104-112 | an insert is refused exactly when there is a job of the same kind for the certificate at this fingerprint; else the row holds what the caller gave, in the stage of its path |
| `JobClaims.InsertIsLogged` | internal/store/lifecycle_jobs.go:345-582 | what each insert path logs and announces |
| `JobClaims.OneJobPerKey` | internal/store/lifecycle_jobs.go:104-112 | in every run there is at most one renewal and one migration per certificate and fingerprint |
| `JobClaims.OriginIsForever` | migrations/000009_lifecycle_jobs.up.sql:4-22 | in every run what a job is about, expects and has time for never changes, and its certificate can only come loose |
| `JobClaims.DropLoosens` | migrations/000009_lifecycle_jobs.up.sql:7-8 | deleting a certificate nulls exactly the references to it |
| `JobStore.ClaimHandler.Select` | internal/store/lifecycle_jobs.go:757-770 | not found, a conflict with another id, a repeated claim with the same id, or a row without an id that the next statement will write |
| `JobStore.ClaimHandler.Update` | internal/store/lifecycle_jobs.go:190-208 | writes the id into the row by row id alone, whatever it holds by now |
| `JobStore.ClaimHandler.Reread` | internal/store/lifecycle_jobs.go:771 | reads the certificate to announce, if the look had found no id |
| `JobStore.ClaimHandler.Append` | internal/api/server.go:1036-1039 | the event goes out, or is lost without a word |
| `JobStore.ClaimHandler.Handle` | internal/api/server.go:1021-1048 | undisturbed, an accepted claim leaves its id in the row and is announced exactly if the look found no id and the append did not fail; a rejected one changes nothing |
| `JobStore.ClaimHandler.constructor` | internal/api/server.go:1021 | the look: whether the job exists without an id, as far as it could be read |
| `JobStore.Store.ClaimLifecycleJobs` | internal/store/lifecycle_jobs.go:274-341 | leases exactly the chosen batch and returns the rows as leased |
| `JobClaims.ClaimTakesUnfinished` | internal/store/lifecycle_jobs.go:286-300 | of every table a claim takes rows that wait for no approval and have not concluded, whose lease is absent or over, and omits one only when the batch is full of older ones |
| `JobClaims.ClaimTakes` | internal/store/lifecycle_jobs.go:274-341 | in every run a claim takes and leases exactly the jobs without an outcome whose lease is absent or over, oldest first, and leaves all others alone |
| `JobStore.Store.ClaimDueVerifyJobs` | internal/store/lifecycle_jobs.go:628-697 | the same for due jobs, on the time the tick started |
| `JobClaims.DueClaimTakes` | internal/store/lifecycle_jobs.go:628-697 | in every run the due claim takes exactly the waiting jobs whose next probe has come, whose deadline has not and whose lease is absent or over, all at the time the tick started, most overdue first |
| `JobStore.Store.ExpireTimedOutVerifyJobs` | internal/store/lifecycle_jobs.go:722-753 | ends exactly the overdue jobs, whoever holds their lease |
| `JobClaims.SweepTakes` | internal/store/lifecycle_jobs.go:722-753 | in every run the sweep ends exactly the waiting jobs with a deadline at or before the start of the tick, keeps a reason given before, and has exactly those to announce |
| `WorkerPlan.FinishedWaitHasTwoOutcomes` | internal/lifecyclejobs/worker.go:232-268 | a finished wait maps to success or failure, so the branch for other statuses is dead |
| `WorkerPlan.PlanKeepsToItsJob` | internal/lifecyclejobs/worker.go:137-345 | handling a job sends statements about that job only |
| `JobOutcomes.TakenFor` | internal/lifecyclejobs/worker.go:137-162 | what a claimed job is taken for, by its status and the clock |
| `JobOutcomes.LaunchedMeaning` | internal/lifecyclejobs/worker.go:164-230 | what is sent for a job to launch in each case, and when Renew is called |
| `JobOutcomes.LaunchedRow` | internal/lifecyclejobs/worker.go:196-230 | an undisturbed launch leaves the id and the kind AAP answered in a free row, and one entry in either log |
| `JobOutcomes.PolledMeaning` | internal/lifecyclejobs/worker.go:232-281 | by the raw answer at which the wait stops: "failed", "error" and "canceled" fail the job and are announced, "successful" is logged and schedules the first probe, a fifth failing answer in a row gives the job back |
| `JobOutcomes.FailedIffAapFailed` | internal/lifecyclejobs/verify.go:14-28 | the job fails and is announced as failed if and only if that answer is one of those three, and goes on to verification if and only if it is "successful" |
| `JobOutcomes.UnpolledMeaning` | internal/lifecyclejobs/worker.go:232-250 | without such an answer the job is given back; without an id or a poller it fails |
| `JobOutcomes.VerifiedIff` | internal/lifecyclejobs/worker.go:296-345 | before the deadline a job is verified if and only if the page shows a certificate with the expected name, another fingerprint and a later expiry, then by the one that expires last, which becomes the successor; otherwise it is probed again at the time the backoff gives |
| `JobOutcomes.UnverifiedOtherwise` | internal/lifecyclejobs/worker.go:283-311 | past the deadline it times out, an expectation that does not decode fails it, an unreadable page leaves it |
| `JobOutcomes.VerifiedRow` | internal/lifecyclejobs/worker.go:314-325 | an undisturbed verification leaves certificate and successor in a free row, and one entry in either log |
| `JobOutcomes.VerifiedWasRenewed` | internal/lifecyclejobs/worker.go:283-325 | in every run a job is verified only after the worker saw, before the deadline, a page with a renewed certificate of what the job expects, and its successor is the one of them that expires last |
| `JobWorker.Worker.Launch` | internal/lifecyclejobs/worker.go:164-230 | sends the launch plan and calls Renew exactly under its conditions; if the id cannot be stored nothing else is sent |
| `JobWorker.Worker.PollAap` | internal/lifecyclejobs/worker.go:232-268 | sends the polling plan for every script of AAP answers and every set of failing statements |
| `JobWorker.Worker.EnterPendingVerify` | internal/lifecyclejobs/worker.go:270-281 | schedules the first probe within the job's deadline, which is the stored one or a day from now |
| `JobWorker.Worker.VerifyPending` | internal/lifecyclejobs/worker.go:283-345 | verifies, times out or reschedules as planned on the tick's time, announcing outcomes whether or not they could be stored |
| `JobWorker.Worker.Process` | internal/lifecyclejobs/worker.go:137-162 | dispatches on the claimed status; any status it does not know fails the job |
| `JobWorker.Worker.ExpireTimedOut` | internal/lifecyclejobs/worker.go:124-135 | after the sweep no waiting job is past its deadline, and each swept job has its two events, save for those that could not be stored |
| `JobWorker.Worker.Tick` | internal/lifecyclejobs/worker.go:97-122 | a tick is a run of machine steps: one sweep, one claim and one due claim in this order, each followed by the work on what it handed out; a failed sweep is passed over and a failed claim ends the tick |
| `JobWorker.AnyCalls` | internal/lifecyclejobs/worker.go:97-122 | what the worker does is a run of the machine whatever claim handlers are under way |
| `JobMachine.RunExtends` | internal/lifecyclejobs/worker.go:83-122 | a tick after a run is part of a longer run, so the theorems on runs cover the class |
| `JobInvariants.StepKeeps` | internal/lifecyclejobs/worker.go:97-345 | the joint invariant of rows, events, held batch, unsent statements and claim handlers survives every step, with crashes, API statements and failures anywhere |
| `JobTheorems.StoredRows` | internal/store/lifecycle_jobs.go:190-242 | in every run only six statuses are stored; launching has no AAP id, aap_pending has one, pending_verify has a next probe |
| `JobTheorems.AttemptsPerDay` | internal/lifecyclejobs/worker.go:326-345 | in every run the attempt counter of a job with a one-day window never exceeds eleven |
| `JobProbes.ProbeFitsWindow` | internal/lifecyclejobs/worker.go:283-345 | a probe is completed only within the budget of the window, on a day never with more than ten attempts on the row |
| `JobProbes.ElevenProbesPerEntry` | internal/lifecyclejobs/worker.go:270-345 | in every run a job with a one-day window completes at most eleven probes per entry into pending_verify, a successful one included, and one more for each statement recording one of them that failed or died with the worker |
| `JobProbes.ElevenIsAttained` | internal/lifecyclejobs/worker.go:326-345 | the bound is attained: for every number of dropped records that fits the day there is a run with eleven probes more than that, so twelve with one |
| `JobTheorems.OutcomeIsForever` | internal/lifecyclejobs/worker.go:97-345 | verified, timed_out and failed are absorbing in every run, that is, as long as no claim's UPDATE lands on an ended job |
| `JobTheorems.OutcomesFinalIff` | internal/store/lifecycle_jobs.go:190-208 | in every sequence of steps, claims that land on ended jobs included, the outcomes are final if and only if no claim does |
| `JobTheorems.ChangesComeCloser` | internal/lifecyclejobs/worker.go:137-345 | every change of a job lowers a lexicographic measure of missing id, stage and time from next probe to deadline, except the UPDATE of a claim that lands on a waiting job with an id, which sends it back to polling |
| `JobTheorems.ChangesAreBounded` | internal/lifecyclejobs/worker.go:270-345 | over a run of any length a job with a one-day window changes at most 29 times, and 13 times more for each claim that sends it back |
| `JobAnnouncements.TruthfulMeaning` | internal/lifecyclejobs/worker.go:283-320 | truthful means: at most one of renewal.verified, renewal.timed_out and renewal.failed, and only for the stored status |
| `JobAnnouncements.OutcomeAnnouncedOnceIff` | internal/lifecyclejobs/worker.go:283-320 | in every run a job's announcements stay truthful if and only if none is sent after the statement that stores the outcome has failed |
| `JobAnnouncements.OutcomeAnnouncedExactlyIff` | internal/lifecyclejobs/worker.go:124-135 | then, with nothing pending about the job, exactly the verified and timed out jobs are announced, once, if and only if no event of a stored outcome was dropped |
| `JobAnnouncements.OutcomeAnnouncedExactly` | internal/lifecyclejobs/worker.go:283-345 | in particular in runs without crashes and failing statements |
| `JobAnnouncements.LostOutcomeIsAnnounced` | internal/lifecyclejobs/worker.go:250-256 | every outcome the worker concludes, failed ones included, is announced with the row untouched when its first statement fails |
| `JobAnnouncements.DeadlineAnnouncedTwice` | internal/lifecyclejobs/worker.go:287-294 | a run with one failing statement in which the same deadline is announced twice |
| `JobAnnouncements.CrashLosesAnnouncement` | internal/lifecyclejobs/worker.go:124-135 | a crash after the sweep's update loses the announcement |
| `JobTheorems.SweepLeavesNoneOverdue` | internal/store/lifecycle_jobs.go:722-753 | after a sweep no pending_verify job has its deadline at or before the tick time |
| `JobTheorems.ClaimReopensIff` | internal/store/lifecycle_jobs.go:757-772 | an undisturbed claim of an ended job leaves its status alone if and only if the job has an AAP id |
| `JobTheorems.ClaimRevivesAfterSweep` | internal/store/lifecycle_jobs.go:757-772 | a run in which the claim of a job that is alive at the SELECT would revive it after the sweep |
| `JobTheorems.EndedWithoutId` | internal/store/lifecycle_jobs.go:523-582 | a reachable ended job without an id, which a claim would revive |
| `JobIds.IdOverwrittenIff` | internal/store/lifecycle_jobs.go:757-772 | in every run a recorded AAP id is replaced if and only if a write lands, of a claim or of the worker, whose writer read the row before that id was recorded |
| `JobIds.IdIsWriteOnce` | internal/store/lifecycle_jobs.go:190-208 | without such late writes the id of a job is written once |
| `JobIds.UndisputedIdStays` | internal/store/lifecycle_jobs.go:190-208 | once nobody who read the row without an id is left to write, no step of anybody changes the id |
| `JobIds.RenewAfterIdIff` | internal/lifecyclejobs/worker.go:164-212 | the worker calls Renew for a job that has an id if and only if a claim's UPDATE landed since the worker took the job |
| `JobLaunches.LaunchLedger` | internal/api/server.go:1021-1039 | in every run the launch events of a job logged, on their way and dropped are together its id plus the ids recorded or accepted late |
| `JobLaunches.LaunchLoggedExactlyIff` | internal/lifecyclejobs/worker.go:196-230 | where nobody records or accepts an id late, renewal.launched is logged at most once and only with an id, and, with none on its way, for every id exactly if none of its events was dropped by a failure, a crash or a look that came too early |
| `JobLaunches.LaunchLoggedTwiceIff` | internal/api/server.go:1035-1039 | in every run a launch is logged twice if and only if somebody announces it who had looked at the job before another announcement of it |
| `JobLaunches.RepeatedClaimLogsIff` | internal/store/lifecycle_jobs.go:762-767 | a claim whose SELECT finds an id never changes the row, and logs exactly when the id is its own and its look came before that |
| `JobLaunches.LaunchesAccepted` | internal/lifecyclejobs/worker.go:196-212 | AAP accepts one launch of a job, and one more for each id that could not be stored and each id the worker stored over another |
| `JobRaces.TwoClaimsBothSucceed` | internal/store/lifecycle_jobs.go:757-772 | a run in which two claims of one job with different ids succeed: the first id is overwritten and the launch logged twice |
| `JobRaces.CarelessClaimIsOverwritten` | internal/lifecyclejobs/worker.go:196-212 | a claim of a job the worker is launching can lose its id to the worker, whether the worker has yet to call AAP or has the id on its way |
| `JobRaces.CarelessClaimLogsTwice` | internal/lifecyclejobs/worker.go:196-230 | and then claim and launch are both logged |
| `JobRaces.LookBeforeInsert` | internal/api/server.go:1021-1039 | a run without failures in which a claim that looked before the insert records an id that is never announced |
| `JobRaces.LostReferenceForgetsLaunch` | internal/lifecyclejobs/worker.go:210-212 | if the id of an accepted launch cannot be stored the table is as before, so the job will be launched again |
| `JobLeases.OneHolder` | internal/store/lifecycle_jobs.go:274-341 | with any number of workers and stale tick times, a job never has two holders with live leases |
| `JobLeases.LateReleaseFreesTheJob` | internal/store/lifecycle_jobs.go:220-242 | a release after the lease has ended makes the job claimable under the next holder |
| `Outbox.ClaimBatch` | internal/store/store.go:991-1066 | a claim takes undelivered events below the cap whose lease is absent or over, oldest first |
| `Outbox.ClaimTakes` | internal/store/store.go:991-1066 | and leaves such an event only when the batch is full of older ones; what it takes it leases |
| `Outbox.LeavesThePoolIff` | internal/store/store.go:1069-1087 | in every run attempts count the recorded failures and an event has left the pool exactly when a success or cap failures were recorded; there are never more unless one of its marks was overtaken by another claim |
| `Outbox.TimelyRunsKeepTheCap` | internal/eventbus/dispatcher.go:130-156 | where no mark is overtaken, attempts stay within the cap and a success is recorded once |
| `Outbox.OvertakenMarkExceedsCap` | internal/store/store.go:1080-1087 | a run with a cap of one in which a late mark makes two attempts |
| `Outbox.DeliveredWasReceived` | internal/eventbus/dispatcher.go:135-179 | in every run of any number of dispatchers, late marks included, a delivered event was received by every sink of the dispatcher that delivered it, which had at least one |
| `Outbox.RunExtends` | internal/eventbus/dispatcher.go:107-127 | a round after a run is part of a longer run, none of whose new marks is overtaken, so the theorems on runs cover the class |
| `Outbox.OneHolder` | internal/store/store.go:991-1066 | an event none of whose marks was overtaken is handed to no second dispatcher before the first lease ends |
| `Outbox.DeliveredIsNeverClaimed` | internal/store/store.go:1003-1011 | a delivered event is never claimed again |
| `Dispatcher.EventStore.ClaimUndeliveredEvents` | internal/store/store.go:991-1066 | an owner is required; otherwise exactly the batch is leased, with the default lease, limit and cap |
| `Dispatcher.EventStore.MarkEventDelivered` | internal/store/store.go:1069-1075 | one row is delivered and its lease cleared, or nothing changes on error |
| `Dispatcher.EventStore.MarkEventFailed` | internal/store/store.go:1080-1087 | one attempt is counted with its message and the lease cleared, or nothing changes on error |
| `Dispatcher.Dispatcher.Deliver` | internal/eventbus/dispatcher.go:160-179 | no error exactly when every configured sink took the event and one is configured; ITSM is tried only after EDA took it |
| `Dispatcher.Dispatcher.RunOnce` | internal/eventbus/dispatcher.go:130-156 | delivered plus failed is the batch size, delivered counts the recorded successes, the table ends as the answers say, store errors included, every configured sink has received whatever is recorded as delivered, and the round, however long, is a run of queue steps without an overtaken mark |
| `Dispatcher.SettleAllMeaning` | internal/eventbus/dispatcher.go:135-154 | each event of the batch ends by its own answer and no other row changes |
| `Dispatcher.SettleMeaning` | internal/eventbus/dispatcher.go:135-179 | by the answers: delivered if every sink there is took it and that could be recorded, else one attempt more with the first error in the order of the sinks, or as before if not even that could be recorded |
| `Dispatcher.SettlingCosts` | internal/eventbus/dispatcher.go:135-154 | each event of a batch costs at least one remaining attempt |
| `Dispatcher.QueueDrains` | internal/eventbus/dispatcher.go:107-156 | with a reliable store, once leases left by a crashed dispatcher are over, after as many rounds as attempts remained every event is delivered or at the cap, whatever the sinks answer |
| `ScanQueue.ScanStore.ClaimNextScans` | internal/store/store.go:273-348 | claims the oldest pending or stale scans, sets owner and claim time, keeps the first start time |
| `ScanQueue.TickTakes` | internal/api/scan_worker.go:96-123 | a tick takes exactly scans that are pending, or running under a claim absent or older than the lease, and leaves one only when its free slots are filled with older ones |
| `ScanQueue.OnlyTheOwner` | internal/store/store.go:351-373 | only the owner of a running scan refreshes it or gives it back, after which anybody may take it; a closed scan is completed or failed as asked and taken by nobody |
| `ScanQueue.ScanStore.HeartbeatScanClaim` | internal/store/store.go:351-363 | refreshes the claim if and only if the scan is running under this owner |
| `ScanQueue.ScanStore.ReleaseScanClaim` | internal/store/store.go:367-373 | clears the claim under the same guard |
| `ScanQueue.ScanStore.UpdateScanRunning` | internal/store/store.go:376-382 | marks a scan as running and started now by its id alone |
| `ScanQueue.StartedScansHaveATime` | internal/store/store.go:376-382 | in every run a scan that is no longer pending has a start time, not in the future |
| `ScanQueue.ScanStore.CloseScan` | internal/store/store.go:390-428 | completes or fails the scan and clears its claim |
| `ScanQueue.SlotsSuffice` | internal/api/scan_worker.go:96-123 | in every run a worker executes at most its slots, and while a claimed scan waits a slot is free, so the semaphore send never blocks |
| `ScanQueue.TokensMeaning` | internal/api/scan_worker.go:96-123 | the tokens of a worker are its scans that are executing or not yet given back |
| `ScanQueue.LeaseFitsItsHeartbeatIff` | internal/api/scan_worker.go:134-139 | the heartbeat interval fits the lease exactly for leases of at least a second |
| `ScanQueue.OneExecutor` | internal/api/scan_worker.go:125-174 | with heartbeats on time an executing scan has one executor, no claim takes it, and its next heartbeat still owns it |
| `ScanQueue.EndsAsClosed` | internal/store/store.go:390-428 | with heartbeats on time a scan is completed if and only if a worker has closed it as completed, and failed if and only if one has closed it as failed |
| `ScanQueue.EndedIsForever` | internal/store/store.go:290-303 | with heartbeats on time a completed or failed scan stays so and is never claimed |
| `ScanQueue.LateHeartbeatIsStolen` | internal/api/scan_worker.go:134-154 | when heartbeats may land after the lease there is a run with two holders of one scan |
| `ScanQueue.LateWorkerReopens` | internal/store/store.go:376-382 | and one in which the late worker marks a scan as running that the other one has completed |
| `Certificates.ComputeStatus` | internal/lifecycle/lifecycle.go:16-30 | never revoked; expired exactly in the past, expiring exactly within the window plus one day |
| `Certificates.CertificateStore.UpsertCertificate` | internal/store/store.go:489-593 | a rescan updates the days, keeps the status of marked rows and announces as the catalogue does |
| `Certificates.RescanMeaning` | internal/store/store.go:489-593 | column by column: days always, status unless marked, nothing else, and what is announced |
| `Certificates.StepTouches` | internal/store/certificates.go:21-81 | which columns a revocation, an import, a Vault update and a deletion touch |
| `Certificates.DaysLeft` | internal/lifecycle/lifecycle.go:16-30 | whole days, toward zero |
| `Certificates.CertificateStore.MarkRevoked` | internal/store/store.go:858-891 | status, marker and event change together, or nothing for an unknown certificate |
| `Certificates.CertificateStore.SetManagedStatus` | internal/store/certificates.go:21-40 | imports unless Vault manages the row; tells an unknown certificate from a managed one |
| `Certificates.CertificateStore.UpdateManagedStatusByFingerprint` | internal/store/certificates.go:56-81 | promotes to revoked, and clears only Vault's own marker |
| `Certificates.MarkedIsRevoked` | internal/store/store.go:858-891 | in every run a marker implies status revoked, and each revoked_via marker has its event |
| `Certificates.ViaMarkerSurvives` | internal/store/store.go:524-531 | a revoked_via marker survives every rescan, import and not-revoked report |
| `Certificates.RevocationLostIff` | internal/store/certificates.go:62-74 | along any run a recorded revocation is lost if and only if Vault cleared its own marker and a rescan followed before anything revoked the certificate again |
| `Certificates.ReinstatedKeepsStatusUntilRescan` | internal/store/certificates.go:62-74 | after Vault takes a revocation back the status stays revoked until a rescan computes it anew |
| `Certificates.ManagedIsForever` | internal/store/certificates.go:21-81 | managed_in_vault is absorbing in every run without deletion |
| `Certificates.RescanAnnouncesExpiry` | internal/store/store.go:564-593 | unmarked rows announce exactly the transition to expiring, marked rows at every rescan in the window |
| `Reconcile.Reconciler.Run` | internal/vault/reconcile.go:54-119 | rows and every counter are those of the updates read; revoked, matched and read are ordered; the unmatched count is exact and its clamp dead |
| `Reconcile.Reconciler.ReconcileMount` | internal/vault/reconcile.go:63-103 | one mount: an unreadable list or certificate is recorded and skipped |
| `Reconcile.NormalizeMount` | internal/vault/pki.go:207-212 | ends in exactly the slash it needs |
| `Reconcile.OkIffClean` | internal/vault/reconcile.go:123-131 | status ok if and only if every mount was listed and every certificate read, parsed and stored |
| `Reconcile.StatusMeaning` | internal/vault/reconcile.go:123-131 | failed exactly when something went wrong and not a single certificate came back, partial when something went wrong and one did |
| `Reconcile.UpdatesMeaning` | internal/vault/reconcile.go:63-103 | the store is asked to update exactly the certificates that could be read, parsed and stored, each with its mount, its issuer and what Vault says of it |
| `Reconcile.SummaryCounts` | internal/vault/reconcile.go:63-103 | read, matched and revoked count the answers: certificates that came back, those stored for a known certificate, and those of them Vault calls revoked |
| `Reconcile.FailuresMeaning` | internal/vault/reconcile.go:63-103 | the error list holds an entry, with its stage, exactly for whatever could not be listed, read, parsed or stored |
| `Reconcile.ManagedAfter` | internal/vault/reconcile.go:84-102 | the managed set grows by exactly the known certificates Vault showed, and no row comes or goes |
| `Reconcile.ManagedIsSubset` | internal/vault/reconcile.go:105-112 | managed rows never outnumber rows |
| `Reconcile.ClosedForm` | internal/store/certificates.go:62-74 | after any reports the last one decides mount, issuer and Vault's marker, and one revocation decides the status |
| `Reconcile.SecondPassChangesNothing` | internal/vault/reconcile.go:54-119 | a second pass over the same answers in the same order is the identity |
| `Reconcile.OrderDecidesTheMarker` | internal/vault/reconcile.go:63-103 | for a certificate in two mounts that disagree, the mount read last decides the marker |
| `Reconcile.PassIsARun` | internal/vault/reconcile.go:84-102 | a pass is a sequence of store steps, so the theorems on runs cover it |
| `Compliance.StrictestCeiling` | internal/compliance/sc081.go:17-22 | the table lookup gives the smallest ceiling in force when the certificate was issued |
| `Compliance.FlaggedIffOverCeiling` | internal/compliance/sc081.go:37-59 | a certificate is flagged exactly when the day count shown for it exceeds its ceiling |
| `Compliance.ExpiryWindows` | internal/compliance/sc081.go:70-116 | the expiry findings split time before expiry without gap or overlap, and are information exactly for internal certificates outside production |
| `Sorting.SortMeaning` | internal/compliance/evaluator.go:147-165 | the sort is a permutation in order |
| `Sorting.SortIsStable` | internal/compliance/evaluator.go:147-165 | findings of one sort key keep their order |
| `Compliance.LoadAll` | internal/compliance/evaluator.go:110-129 | the page loop returns the whole list, each row once, in order |
| `Compliance.EvaluateCerts` | internal/compliance/evaluator.go:40-67 | every counter of the summary counts the summary's own sorted findings |
| `Compliance.OnlySc081Counts` | internal/compliance/evaluator.go:29-38 | sorting and the other packs do not change the violations of a certificate |
| `Compliance.CountSc081Violations` | internal/compliance/evaluator.go:87-103 | the fast count equals the violation count of the full evaluation, for every inventory and clock |
| `Compliance.ViolationsMeaning` | internal/compliance/sc081.go:37-116 | that count is the certificates valid for longer than a ceiling in force at their issue plus those whose expiry within 61 days is not for information only |
| `Compliance.SortedByGravity` | internal/compliance/evaluator.go:147-165 | no finding stands behind a lesser one, and equal ones come in the order of their rules |
| `Posture.RulesAreDistinct` | internal/posture/ops.go:115-124 | no rule fires twice for a certificate |
| `Posture.ExpiryBlamedOnce` | internal/posture/ops.go:14-52 | a counted SC-081 expiry finding never stands beside ops.expired or ops.expiring_soon |
| `Posture.ConvertInsights` | internal/posture/ops.go:14-52 | the loop yields the insights as findings, minus the suppressed ones |
| `Posture.PostureStore.UpsertFindings` | internal/store/findings.go:46-97 | upserts in turn, resolves what is missing, returns the open rows |
| `Posture.UpsertedMeaning` | internal/store/findings.go:46-97 | row by row: evaluated rules open as given, other rows of the certificate resolved, other certificates untouched |
| `Posture.PostureStore.RecomputeCert` | internal/posture/recompute.go:25-70 | findings table and risk after a recompute, or no change for an unknown certificate |
| `Posture.OpenIffEvaluated` | internal/posture/recompute.go:25-70 | after a recompute a rule is open if and only if it fires; no row is lost |
| `PostureRules.OpenIffFires` | internal/posture/recompute.go:25-70 | each of the 22 rules is open after a recompute if and only if it fires on the certificate's columns, stored with its severity, the policy version and whether it is waived |
| `PostureRules.ClassifyMeaning` | internal/report/insight.go:55-125 | which insights a certificate gives, with their severities |
| `Posture.OpenRowContents` | internal/posture/recompute.go:36-58 | an open row holds the mapped severity, the policy version and whether an active waiver covers it |
| `Posture.MaxUnwaivedMeaning` | internal/posture/recompute.go:103-125 | the score loop computes an attained upper bound over rows without waiver |
| `Posture.ScoreIsMaxUnwaived` | internal/posture/recompute.go:103-125 | the stored score is the greatest score among the firing rules that no active waiver covers |
| `PostureRules.ScoreIsWorstBlame` | internal/posture/recompute.go:103-125 | a critical rule that fires without a waiver gives 90 whatever else fires, else a high one 70, a medium one 40, a low one 20, one for information 5, and none 0 |
| `PostureRules.ReasonsMeaning` | internal/posture/recompute.go:103-125 | the reasons beside the score are the rules that fire, with severity, score and waiver |
| `PostureRules.WaivedIff` | internal/store/waivers.go:31-51 | a waiver covers its rule of its certificate until it expires or is revoked |
| `Posture.RecomputeIsIdempotent` | internal/posture/recompute.go:25-70 | recomputing again at the same clock changes nothing |
| `Posture.WaiversNeverRaise` | internal/store/waivers.go:31-51 | more waivers never raise the score |
| `Posture.PostureStore.CreateWaiver` | internal/store/waivers.go:80-99 | a waiver is created exactly with actor, reason and a future expiry, and is then active |
| `Posture.PostureStore.RevokeWaiver` | internal/store/waivers.go:102-112 | a waiver is revoked once |
| `Connections.CollectSecrets` | internal/api/handlers_settings.go:508-523 | in any map order: null clears, empty or absent keeps, and every field is one or the other |
| `Connections.MergeSecrets` | internal/store/connections.go:178-195 | in any map order the result is the same |
| `Connections.KeysHave32Bytes` | internal/store/connections.go:205-220 | a key that parses has 32 bytes and was given as 64 hex digits or 32 characters |
| `Connections.HexRoundTrip` | internal/store/connections.go:205-220 | a key given as hex digits of either case is the bytes they stand for |
| `Connections.ConnectionStore.UpsertConnection` | internal/store/connections.go:40-64 | a failed upsert changes no row, a successful one exactly its target |
| `Connections.ConnectionStore.ApplyPatch` | internal/api/handlers_settings.go:464-506 | collecting and storing the secrets of one target gives the patched row, or leaves the table as it was |
| `Connections.PatchOutcome` | internal/store/connections.go:115-164 | a patch on a sound row fails exactly for a bad target, or for a missing key when it writes |
| `Connections.OtherKeyFails` | internal/store/connections.go:115-164 | a row sealed under another key is not written over |
| `Connections.StoredIsLastWrite` | internal/store/connections.go:115-195 | after any sequence of patches each stored secret is the last value written to it |
| `Connections.SecretsSetIff` | internal/store/connections.go:148-163 | the public flag is set exactly when some secret's last write was a value |
| `Connections.ResolvedIsLastWriteElseEnv` | internal/settings/resolve.go:120-256 | the secret in use is the last value written, else the environment's |
| `Settings.PatchesCompose` | internal/api/handlers_settings.go:525-551 | two metadata patches are one in which the later field wins |
| `Settings.VaultPatchMeaning` | internal/api/handlers_settings.go:525-551 | a patch changes exactly the fields it gives; a first or a replacing one leaves the others at their defaults |
| `Settings.VaultInUse` | internal/settings/resolve.go:120-175 | address, namespace, auth method and the three secrets in use, each from the row where there is one and else from the environment |
| `Settings.AapInUse` | internal/settings/resolve.go:177-224 | the same for AAP, its two switches always from the row |
| `Settings.FirstSecretPatchKeepsMetadataIff` | internal/settings/resolve.go:120-175 | the first secrets-only patch keeps namespace and auth method exactly when the environment leaves them at their defaults |
| `Settings.SecretPatchKeepsMetadata` | internal/settings/resolve.go:120-175 | later secrets-only patches keep all resolved metadata |
| `Settings.FirstAapSecretPatchKeepsMetadataIff` | internal/settings/resolve.go:177-224 | the same for AAP and its two switches |
| `ScanTargets.ExpandTargets` | internal/scanner/scanner.go:48-69 | all ranges expand, or the first refused entry is reported with the first reason in the code's order |
| `ScanTargets.ExpandPrefix` | internal/scanner/scanner.go:62-66 | the walk ends, also at the last address of all, with the described targets |
| `ScanTargets.ExpandsToTheRange` | internal/scanner/scanner.go:62-66 | a range yields exactly its addresses with every port, two to the power of its free bits |
| `ScanTargets.NoTargetTwice` | internal/scanner/scanner.go:62-66 | with distinct ports no target appears twice |
| `ScanTargets.AcceptedIff` | internal/scanner/scanner.go:48-69 | an IPv4 range is accepted exactly with at least 16 prefix bits and, where private ranges are disallowed, with its address in none of six ranges |
| `ScanTargets.NoPrivateTarget` | internal/scanner/scanner.go:55-60 | with private ranges disallowed no IPv4 target is private (section 3 of RFC 1918), loopback or link-local unicast |
| `ScanTargets.MulticastTargetIff` | internal/scanner/scanner.go:167-173 | an accepted range yields link-local multicast targets exactly when it has fewer than 24 bits and holds 224.0.0.0 |
| `ScanCounters.ScanStats.RecordProbeFailure` | internal/store/diagnostics.go:44-47 | counts and samples a failed probe, samples up to fifty |
| `ScanCounters.ScanStats.RecordUpsertFailure` | internal/store/diagnostics.go:53-56 | the same for failed upserts |
| `ScanCounters.WithinConcurrency` | internal/scanrunner/runner.go:70-80 | under every interleaving the sampled failures are distinct targets that did fail that way; the bound on probes in flight is the semaphore's capacity, the guard of the spawning step |
| `ScanCounters.FinalCounters` | internal/scanrunner/runner.go:80-182 | when all goroutines are done scanned is targets is succeeded plus failed, succeeded is found plus upsert failures, samples are min(50, failures) |
| `ScanCounters.NeverStuck` | internal/scanrunner/runner.go:70-182 | until then some goroutine or the spawning loop can move |
| `ScanCounters.RunsEnd` | internal/scanrunner/runner.go:70-182 | a run has at most five steps per target |
| `Markdown.EscapeRoundTrip` | internal/report/markdown.go:237-246 | unescaping a cell gives the value with line ends turned into spaces |
| `Markdown.SplitEscaped` | internal/report/markdown.go:237-246 | no pipe of an escaped cell ends the cell |
| `Markdown.RowRoundTrip` | internal/report/markdown.go:186-194 | a row of any cells reads back as exactly those cells |
| `Markdown.WriteRows` | internal/report/markdown.go:175-196 | the insight loop writes the first rows up to its limit |
| `Markdown.TableRoundTrip` | internal/report/markdown.go:175-210 | a table body of any values reads back row by row and cell by cell |

## Left out

- JobProbes.ElevenProbesPerEntry: counts completed probes; one that ends because the page could not be read is not counted.
- JobStore.Store.InsertJob: the pending renew insert is three statements in the source (row, timeline entry, event) and one step here.
- Certificates.CertificateStore.UpsertCertificate: the read of the previous status and the upsert are two statements in the source and one step here, so two scans of one certificate at once are not modelled.
- Outbox.LeavesThePoolIff: a mark whose statement took effect but reported an error is not modelled.
- JobLeases.OneHolder: the statements of a holder come within its lease.
- Dispatcher.QueueDrains: no event is appended and no other dispatcher works between the rounds.
- Connections.ConnectionStore.UpsertConnection: the SELECT and the upsert are two statements in the source and one step here, so two patches of one target at once are not modelled.
- Connections.ConnectionStore.ApplyPatch: the same.
- Connections.StoredIsLastWrite: the patches come one after the other.
- Posture.PostureStore.RecomputeCert: several statements and a transaction of the source are one step here, and store errors between them are not modelled.
- ScanQueue.OneExecutor: all workers share one lease length; deleting a scan is not modelled; neither is the wind-down of a cancelled scan, during which the source no longer refreshes the claim it is about to release.
- ScanTargets.NoPrivateTarget: IPv4 only; IPv6 ranges have no size limit in the code and their classification is a parameter here.
- Compliance.LoadAll: the pages come from one snapshot in one order; rows that move between pages are not modelled.
- Posture.RecomputeIsIdempotent: first-seen, last-seen and resolved times are not part of the rows.
- Reconcile.SecondPassChangesNothing: update and check times are not part of the rows.
- Certificates.ComputeStatus: day counts use exact durations; the source divides floating-point hours.
- Compliance.FlaggedIffOverCeiling: the same; one nanosecond over the ceiling the source flags a certificate whose floating-point day count equals it.
- Markdown.TableRoundTrip: as for the cells of one row, below.
- Markdown.RowRoundTrip: the one space the writer puts on each side of a cell is kept by the reader here.
- Postgres locking, clock skew and microsecond rounding: each statement is atomic under one clock, and SKIP LOCKED skips nothing.
- A claim of the job worker that takes effect although reading the claimed rows back fails: it counts as a crash.
- The time the worker spends waiting for AAP: it passes before the step that ends the wait.
- The hypothesis that an insert's first probe is not before the insert, which every caller meets.
- Job payloads, extra variables, approvals and the certificate existence check of the persist transactions.
- The HTTP handlers except the claim handler, and the API's own AAP launch before it persists a job.
- The limit of fifty certificates in the successor search: the page is whatever the search returned.
- Identifiers and encodings: ids are indices or fingerprints, keys are tuples, sealing is an inverse pair.
- Titles and descriptions of findings; rule ids are an enumeration in alphabetical order.
- Algorithm inventory and report aggregates, hostname expansion, and scan progress updates: counters and branch tables.
- Recomputing a whole scan: it calls the recompute of one certificate for each certificate loaded.
- Patching several connection targets in one request: each target is saved by itself, without a common transaction.
