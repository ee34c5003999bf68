# Stowline, modelled and proved in Dafny

Stowline is a fleet manager for restic backups: a control plane (Python), a gateway (Python) and a
Windows agent (Go). This project models the parts of it whose correctness spans several functions,
several processes or a crash, and proves what those parts are for.

| file | what it models |
|---|---|
| `Commands.dfy`, `Delivery.dfy`, `Executor.dfy` | commands from the control plane to an agent: the server's rows, the agent's journal, a network that loses, repeats and delays, crashes between any two journal calls |
| `Bandwidth.dfy`, `Admission.dfy`, `AdmissionRuns.dfy`, `AdmissionSeeds.dfy` | upload admission: numbered slots, time-limited leases, revival, races on the unique keys, and the arithmetic of the shares in both languages |
| `LocalJournal.dfy`, `Orchestration.dfy`, `OrchestrationSlots.dfy`, `OrchestrationLimits.dfy`, `Service.dfy` | backup and restore on the agent: durable intent, one operation at a time, idempotent ids, reconciliation after a crash |
| `Upgrade.dfy`, `Upgrader.dfy`, `UpgradeLimits.dfy` | the agent replacing its own executable, one step per file operation, with the boot-loop guard |
| `Catalog.dfy`, `Paging.dfy` | upload of a snapshot's listing, its verification, and reading it page by page (local directories too) |
| `Ingest.dfy` | attempt reports that arrive late, twice or out of order |
| `TokenBucket.dfy`, `FailureLimiter.dfy` | the gateway's rate limiter and the sign-in failure limiter |
| `LocalCaller.dfy` | which paths a signed-in Windows account may restore |
| `Ordering.dfy`, `Options.dfy`, `Paths.dfy`, `Sets.dfy` | string order and sorting, optional values, trailing slashes, sizes of sets |

## How it is built

Where several parties interleave or a process may die, the state is one value, each atomic step an
event, and `ValidRun` / `Run` describe every sequence of events. The main results are about every
run. The code itself is modelled as classes and methods that change fields in place; their contracts
say the whole new state, and for the executor, the service and the upgrader also that one call is a
run of the corresponding transition system, so that the results about runs apply to them. Fields
that the code does not have (dispatch counts, the build a swap set aside, the full failure history)
are ghost, or are named as bookkeeping where the state is declared.

What the environment decides is a parameter: clock readings, fresh ids, answers of the backup
engine, which journal call or file operation fails, the order in which a database lists rows.

Assumptions, each local to one part:

- SHA-256, and JSON where it is hashed, are injective. The catalog takes any injective path hash.
- A journal call of the agent (`agent/internal/adapters/journal/sqlite.go`) happens whole or not at
  all; an error means no change. One process uses a journal, through one `Service` and its lock: the
  canary command loads a second one with a lock of its own on the same journal
  (`agent/cmd/stowline-agent/main.go:621-623`, `agent/cmd/stowline-agent/main.go:1119`), and so does a
  second process; these are not part of this model. The stored ledger at the start is one this code wrote.
- A transaction of the control plane is one step, except where the code reads before it writes
  without a lock: claiming is split into its SELECT and its UPDATE, acknowledging into its reading and
  its writing, and acquiring into reaping, planning on what it then reads, and inserting. Within
  planning, all reads see one snapshot at one clock reading. Reaping, renewing and releasing a lease
  (`server/app/admission.py:42-74`, `server/app/admission.py:266-325`), recording an attempt report
  (`server/app/services.py:824-929`), and creating, filling and finalizing a catalog
  (`server/app/services.py:1457-1521`) also read before they write without a lock; each of them is
  assumed to be one step.
- The clock never runs backwards, except in the upgrade, where going back is modelled.
- The host does not delete or overwrite the image of a running process, and renames it if asked.
  Rollback stamps have equally many digits, so that their names sort as numbers.
- An engine that returns an error and no outcome returns an otherwise empty result
  (`agent/internal/adapters/restic/adapter.go:307`).
- Rates and token counts are exact reals, and 0.90 is nine tenths.

Where the code and its comments disagree, the code is modelled. Results that show a promise fails, or
holds only under a condition, are in the table beside the promise: two seeds that race or one that is
revived, a late renewal after a release, a claim that is slow between its SELECT and its UPDATE, a
reconciliation that lists an operation's attempt, the replay of a demoted qualification run, a clock
set back across an upgrade, a heartbeat of the process that waits to restart, ties and undated
reports, a path key that is not its own key, a budget that rounds differently in the two languages.
Where a promise fails, the table has an input, or a run from an empty or fresh state, that shows it,
and the condition under which it holds; of a late renewal and of a replay it says for every state
whether the promise holds.

## Model

| member | source | states |
|---|---|---|
| Commands.CommandStore.EnqueueCommand | server/app/services.py:969-1025 | a kind that is not allowed changes nothing; a request that a live command already covers is answered with the oldest such command; otherwise exactly one new row appears and no live twin existed |
| Commands.CommandStore.ClaimCommand | server/app/services.py:1036-1091 | an undisturbed claim hands out the oldest claimable command and changes that row only, or nothing is claimable |
| Commands.CommandStore.AckCommand | server/app/services.py:1094-1149 | accepted exactly for a delivered command (an expired one too) with a terminal state; stores that state and result and cancels queued copies of a backup; anything else changes nothing and is refused as 404, 409, 422 or answered idempotently |
| Commands.CommandStore.ExpireCommands | server/app/services.py:2130-2137 | afterwards nothing queued or delivered is past its window, and the count is the number of rows changed |
| Delivery.StepKeepsInv | server/app/services.py:1036-1149 | every claim, redelivery, acknowledgement, expiry, agent step, lost or repeated message and crash keeps the link between server rows and agent journals |
| Delivery.VerdictsMatchTheJournal | agent/internal/control/execute.go:249-316 | in every run, a command the server shows as SUCCEEDED or FAILED is finished in its agent's journal with that state and that result |
| Delivery.VerdictsComeFromHandlers | agent/internal/control/execute.go:249-316 | in every run, what the server shows as SUCCEEDED was returned without an error by the handler at work on it, what it shows as FAILED with one, and its result is what that handler returned; but for what the agent's journal held before the run |
| Delivery.SettledIsFinal | server/app/services.py:1094-1149 | once a command is settled, its state and result never change in any continuation |
| Delivery.DispatchesAreBounded | agent/internal/control/execute.go:256-316 | a command is dispatched at most once more than it was interrupted between its consume and its durable finish |
| Delivery.FinishedIsFinal | agent/internal/control/execute.go:263-289 | a command finished in the journal keeps its record and is never dispatched again |
| Delivery.DeliveriesAreBounded | server/app/services.py:1018-1076 | a command enqueued for m minutes is handed out n times only if 20(n-1) < 60m; for 15 minutes that is at most 45 times |
| Delivery.DeliveriesAreSpaced | server/app/services.py:1033-1076 | with any concurrent claims, the delivery stamps of one command are more than 20 seconds apart, and its deliveries more than 20 seconds less the time the earlier claim took between its SELECT and its UPDATE |
| Delivery.SpacingIsTight | server/app/services.py:1045-1076 | no better bound holds: for every lag up to the lease a run from the empty state has the next delivery that much earlier |
| Delivery.OneLiveBackupRequest | server/app/services.py:985-1005 | at no time do two live backup requests wait for one installation |
| Delivery.ClaimIsTwoSteps | server/app/services.py:1045-1076 | an undisturbed claim is the SELECT step and the UPDATE step at one clock reading |
| Delivery.AckIsTwoSteps | server/app/services.py:1095-1148 | an undisturbed acknowledgement is the reading step and the writing step, and settles the row with its copies |
| Executor.CommandIsARun | agent/internal/control/execute.go:256-316 | for all failures of its calls, handling one command is a run of the agent from idle to idle that leaves the journal `RunCommand` leaves |
| Executor.PollIsASystemRun | agent/internal/control/execute.go:221-317 | what a poll does to its agent is a run of the whole delivery system |
| Executor.Executor.FlushOutbox | agent/internal/control/execute.go:319-371 | rows leave the outbox from the front, each after it was reported, built or found impossible to build; it stops at the first that was not, and does nothing if the rows cannot be read |
| Executor.Executor.AcceptHeartbeat | agent/internal/control/execute.go:233-248 | what a heartbeat reply changes, and that a policy that is malformed or not saved leaves the revision alone and marks the policy invalid |
| Executor.Executor.Poll | agent/internal/control/execute.go:221-317 | the outbox only loses rows from its front; settings and heartbeat sequence change only as the flush and the heartbeat decide; a handler is called exactly if flush, heartbeat, policy, claim and consume went through and the command was never finished; what it returned without or with an error is what is recorded and acknowledged as SUCCEEDED or FAILED; a finished command is replayed with its recorded state, and as FAILED without one; an acknowledgement leaves only after the journal holds exactly what it says |
| Executor.Executor.RunCommand | agent/internal/control/execute.go:256-316 | when the handler is called, what is recorded and sent of its answer, what is replayed without it, and at which failed call the command stops; no other command changes |
| Bandwidth.AgentsFitUnderGateway | server/app/bandwidth.py:32-63 | n agents at the compiled ceiling stay together under the gateway's cap of bps//8 bytes per second |
| Bandwidth.FairShareShrinks | server/app/bandwidth.py:32-42 | the share never grows with the number of jobs |
| Bandwidth.FairShareIsMost | server/app/bandwidth.py:32-42 | in whole numbers: the share is the largest that all the jobs together fit with in nine tenths of the budget |
| Bandwidth.CeilingShrinks | server/app/bandwidth.py:32-42 | the same for the ceiling with its guards |
| Bandwidth.GoCeilingIsServersOrOneLess | agent/internal/domain/rateconv.go:44-84 | for one budget the agent's ceiling is the server's or one less, and equal for whole bytes per second |
| Bandwidth.GoCeilingCanBeOneLess | agent/internal/domain/rateconv.go:44-84 | a budget for which it is one less |
| Bandwidth.CeilingIsMost | server/app/bandwidth.py:32-42 | in whole numbers: the compiled ceiling is the largest one that, for all the jobs together, fits in nine tenths of the budget, and there is none exactly if that is below one or above the limit |
| Bandwidth.BudgetsDifferOnlyOnTies | agent/internal/domain/rateconv.go:29-42 | the two budgets differ exactly on a half above an even number, then by one bit per second |
| Bandwidth.BudgetIsNearest | server/app/bandwidth.py:15-29 | the budget is the whole number nearest to the percentage of the measured rate, and there is none exactly for a rate or a percentage out of range |
| Bandwidth.CompiledExactly | server/app/bandwidth.py:45-63 | what a site is compiled to, and that it is compiled exactly if budget and ceiling exist |
| Admission.AdmissionDesk.ReapExpiredLeases | server/app/admission.py:42-59 | every unreleased lease that ran out is released as expired with freed keys, nothing else changes, and the count is right |
| Admission.AdmissionDesk.FindFreeSlot | server/app/admission.py:229 | the least slot number not in use |
| Admission.AdmissionDesk.PlanAdmission | server/app/admission.py:191-253 | the decision between reaping and inserting, with its loops, as the function the results below are about |
| Admission.AdmissionDesk.ExecutePlan | server/app/admission.py:206-263 | the insert checks the three unique columns and adds in one step; a lost race is a grant only if a live lease of the same attempt won it |
| Admission.AdmissionDesk.Acquire | server/app/admission.py:188-263 | an undisturbed acquire answers and writes as the results on closed sites, known attempts, waiting seeds and competing requests say, and keeps the lease table sound |
| Admission.AdmissionDesk.RenewLease | server/app/admission.py:62-74 | a held lease is extended, one that only expired is retaken exactly if nobody holds its slot or its device, any other is denied |
| Admission.AdmissionDesk.ReleaseLease | server/app/admission.py:318-325 | afterwards the lease is released; a second release changes nothing |
| Admission.SlotFound | server/app/admission.py:223-229 | below capacity the slot search always finds a slot, and no active lease of the site has it |
| Admission.PlannedKeyIsFree | server/app/admission.py:223-253 | with everything expired reaped, the planned slot key is free, and the insert succeeds exactly if the device holds nothing |
| Admission.GrantedExactly | server/app/admission.py:188-263 | a fresh non-seed request past the gates is granted exactly when the site has fewer live leases than its limit and the device has none |
| Admission.ClosedSites | server/app/admission.py:191-201 | over all requests: PAUSED exactly if the site exists and is paused, PROVIDER_UNAVAILABLE exactly if it exists, is not paused and its circuit is open, denied if unknown, unmeasured if neither; nothing is written but what ran out |
| Admission.KnownAttempts | server/app/admission.py:203-212 | an attempt that already has a lease: extended by 90 seconds if it is held, denied if it is not |
| Admission.FreshAnswers | server/app/admission.py:213-222 | a new attempt of no known class is denied; a seed waits behind overdue backups, and behind any live seed unless the site may seed on its own |
| Admission.CompetingAnswers | server/app/admission.py:223-263 | any other request waits without a slot or with its device busy, and otherwise gets a lease on the least free slot, for 90 seconds, with its share of the budget and the restore limit in force |
| Admission.PlanSeesLiveOnly | server/app/admission.py:188-253 | whether lapsed leases are reaped before makes no difference to the decision |
| Admission.ReapsExactly | server/app/admission.py:42-59 | row by row: what ran out is released as expired and lets go of both keys, every other row stays |
| Admission.AcquireKeepsTable | server/app/db.py:112-122 | acquiring keeps keys and holds in step and the unique columns unique |
| Admission.SecondGateExactly | server/app/admission.py:199-232 | for every measured rate and job count: once the first measurement gate passed, the second fails exactly if the undivided ceiling is below the number of jobs |
| AdmissionRuns.StepKeepsInv | server/app/admission.py:42-325 | every interleaving step of reaping, planning, inserting, renewing, reviving, releasing and operator changes keeps the lease table sound and slots within the limits so far |
| AdmissionRuns.LeasesAreAlone | server/app/admission.py:42-325 | in every run two unreleased leases share neither a device nor a slot of a site |
| AdmissionRuns.CapacityHolds | server/app/admission.py:62-74 | a site's unreleased leases never outnumber its largest slot limit so far, although revival checks no capacity |
| AdmissionRuns.LimitsOnlyGrow | server/app/admission.py:223-229 | the remembered limit covers the limit in force and only grows |
| AdmissionRuns.PlansExactly | server/app/admission.py:188-253 | in every reachable state a request plans a lease exactly if it competes and a slot is left, and then plans the lease it is admitted to |
| AdmissionRuns.PausedSiteGainsNoLease | server/app/admission.py:195-196 | a site that is paused throughout a run, with no request of it under way, gains no lease in it |
| AdmissionRuns.ReleasedStaysReleased | server/app/admission.py:266-325 | a lease released for any reason but expiry is never held again and its row never changes |
| AdmissionRuns.ReleaseIsFinalExactly | server/app/admission.py:318-325 | after a release the lease is never held again exactly if the call found it unreleased, or released for another reason than expiry; one reaped before can still be retaken by a late renewal |
| AdmissionRuns.UploadBudgetHolds | server/app/admission.py:223-253 | with fixed rate and percent, each lease's limit is at most the share of its slot number, and unreleased leases sum to at most the sum of those shares, in every reachable state |
| AdmissionSeeds.SeedsRiseExactly | server/app/admission.py:62-74 | a step raises the number of active seeds exactly if it inserts a seed whose keys are free, or renews or retakes one that was not live; and by one |
| AdmissionSeeds.OneSeedExactly | server/app/admission.py:216-221 | at most one seed is active throughout a run exactly if every seed, new or revived, joins while none is |
| AdmissionSeeds.RacingSeedsBothEnter | server/app/admission.py:216-221 | from an empty system, two requests at two sites both pass the gate before either is inserted: two seeds, no renewal |
| AdmissionSeeds.RevivedSeedJoins | server/app/admission.py:62-74 | from an empty system, a seed that ran out comes back beside a new one |
| LocalJournal.SameRestoreSameHash | agent/internal/domain/restore.go:94-116 | two requests hash alike exactly when they agree in everything, selections in any order |
| LocalJournal.CompleteKeepsStates | agent/internal/adapters/journal/sqlite.go:182-202 | closing an open attempt together with its job keeps jobs and attempts in step, each kind of work apart |
| LocalJournal.BeginAttemptKeepsStates | agent/internal/adapters/journal/sqlite.go:398-422 | reopening a job that is neither active nor succeeded keeps jobs and attempts in step |
| Orchestration.GreenNeedsAllEvidence | agent/internal/application/service.go:638-670 | a backup counts as succeeded exactly with every piece of evidence present and nobody having cancelled |
| Orchestration.BackupOutcomes | agent/internal/application/service.go:248-266 | cancelled exactly with nothing published, partial exactly with a snapshot that was cancelled, is partial or lacks the required consistency; the snapshot is never dropped |
| Orchestration.BackupErrors | agent/internal/application/service.go:638-670 | which error a missing piece of evidence is reported as, when a snapshot is marked as not green, and that an honest failure passes through unchanged |
| Orchestration.RestoreEndsDecided | agent/internal/application/service.go:345-385 | a finished restore is ready, failed or cancelled: ready exactly when verified, intact and recorded, cancelled exactly if the caller or the engine cancelled |
| Orchestration.RestoreErrors | agent/internal/application/service.go:345-385 | only a ready restore has a manifest and no error; the error says whether the stage, the evidence or a cancellation ended it |
| Orchestration.JobSaysOutcome | agent/internal/application/service.go:625-636 | a job's state says its attempt's outcome, for backups and for restores |
| Orchestration.RepliesExactly | agent/internal/application/service.go:389-423 | which of the four answers a call under an existing id gets, and that a job without a recorded result is answered by its state, as failed where in doubt |
| Orchestration.StepKeepsBase | agent/internal/application/service.go:117-601 | whatever overlaps, every step of an operation, a waiting caller, a reconciliation or a crash keeps the ledger's links and keys, and an operation on its own row |
| Orchestration.StepKeepsKind | agent/internal/application/service.go:117-601 | for each kind of work: every step keeps attempts and jobs in step and the operation's attempt open, unless a reconciliation lists that attempt |
| OrchestrationSlots.OneSuccessExactly | agent/internal/application/service.go:117-266 | over all runs: no slot ever gets on the way to a second success exactly if no reconciliation resolves a listed attempt after another attempt of its job has succeeded |
| OrchestrationSlots.SecondSuccessExactly | agent/internal/application/service.go:467-536 | the same step by step: after such a resolution, and after no other step, some later run without one ends with two succeeded attempts of a slot |
| OrchestrationSlots.OneSuccessPerSlot | agent/internal/application/service.go:148-179 | in every run without such a resolution a non-empty slot has at most one succeeded attempt |
| OrchestrationSlots.BackupsInTurnSucceedOnce | agent/internal/scheduler/controller.go:58-63 | there is no such resolution where no reconciliation lists an ordinary backup in flight, while qualification backups and restores may be listed as they run |
| OrchestrationSlots.OverlapSucceedsTwice | agent/internal/application/service.go:467-536 | from an empty ledger, for any slot of ordinary backups, a run with such a resolution ends with two succeeded attempts |
| Orchestration.ReconcileNeverSucceeds | agent/internal/application/service.go:467-536 | no step but a commit of its own operation makes an attempt a success |
| Orchestration.ReconcileClosesEverything | agent/internal/application/service.go:467-536 | in every run, whatever overlaps, a reconciliation that has worked off its list leaves no attempt open but those begun after it was made and the one then in flight |
| Orchestration.EngineRestoresOnce | agent/internal/application/service.go:268-387 | for each job id the engine's Restore is called at most once, with any callers, crashes and overlapping reconciliations |
| Orchestration.CommittedRestoreIsReplayed | agent/internal/application/service.go:268-447 | in every run, after the commit every later call with the same request is answered with that result, and a different request under the id is refused, unless a reconciliation in progress had listed the restore |
| Orchestration.SettledRestoreAnswersAlike | agent/internal/application/service.go:389-423 | in every run, once a restore job is settled and neither in flight nor listed, every later call under its id gets the same answer |
| Orchestration.SettledChangesExactly | agent/internal/application/service.go:425-536 | in every run a step changes the record of a settled restore exactly if it is the restore's own commit or the resolution of its listed attempt |
| Orchestration.SettledIsFinalExactly | agent/internal/application/service.go:389-536 | in every run the record of a settled restore stays the same whatever happens later exactly if the restore is neither in flight nor listed by a reconciliation in progress |
| Orchestration.SettledIsQuiet | agent/internal/application/service.go:467-536 | where no reconciliation lists a restore in flight, every settled restore is neither in flight nor listed |
| Orchestration.ReplayIsDurableUnlessDemoted | agent/internal/application/service.go:76-115 | in every run, a qualification replay agrees with the outcome just recorded exactly if the first terminal commit went through; after a demotion it still claims success |
| Orchestration.ReplayExactly | agent/internal/application/service.go:76-115 | the replay is the stored result, else the attempt's outcome, else what the job's state says |
| Orchestration.ResolveRewritesReplay | agent/internal/application/service.go:467-536 | resolving a listed attempt makes its replay the listed summary or, without one, the outcome of the resolution and never a success, whatever was committed meanwhile |
| OrchestrationLimits.OverlapRewritesAResult | agent/internal/application/service.go:467-536 | from an empty ledger, for any request: a reconciliation lists the restore while it runs and settles it as failed, and the restore's commit then rewrites that answer to ready |
| Service.Service.LockOp | agent/internal/application/service.go:28-43 | the lock is taken exactly if nobody had it |
| Service.Service.Settled | agent/internal/application/service.go:148-179 | what the slot's job alone decides: done, busy, replayed, or free for another attempt; without a readable history a replay rests on the job's state |
| Service.Service.Backup | agent/internal/application/service.go:117-266 | performs a run of the transition system; a busy or settled call changes nothing; otherwise one new attempt of the slot's job, numbered after the latest, or of a new job is filed and nothing else changes; the ledger, the job's state and the queued reports are those of the verdict; a success whose commit failed is reported and, if possible, recorded as partial |
| Service.Service.Finish | agent/internal/application/service.go:542-601 | the verdict is durable before anything is queued for the server: then its report, and for a success with a snapshot the request to build its catalog; a failed commit demotes a success and queues nothing |
| Service.Service.FileIntent | agent/internal/application/service.go:181-215 | the intent is durable before anything is done: a new job with attempt 1, or the next attempt of the slot's job, refused only where a key is taken or the journal fails |
| Service.VerdictsExactly | agent/internal/application/service.go:217-262 | a full disk or missing roots fail the backup before the engine is asked, and which error each is |
| Service.Service.Restore | agent/internal/application/service.go:268-387 | performs a run; an existing id is answered from the ledger alone; otherwise which failed call ends it where, and a finished one is filed under its id and nothing else changes; after a committed restore the very next lookup replays its result; the engine is called at most once more |
| Service.Service.RestoreIdempotent | agent/internal/application/service.go:389-423 | the answer is the one the ledger determines, a conflict even where the history cannot be read |
| Service.Service.FinishRestore | agent/internal/application/service.go:425-447 | an uncommitted restore is reported failed and its job stays active for reconciliation |
| Service.Service.Reconcile | agent/internal/application/service.go:467-536 | with any steps of other threads before each of its own: performs a run, and without an error leaves no attempt open but those begun meanwhile and the one in flight at the start; with nothing beside it, backup work ends partial exactly if its recorded snapshot was readable or a tagged one was found, with that snapshot, and everything else failed, its job alike; others are untouched |
| Service.LatestExists | agent/internal/adapters/journal/sqlite.go:369-376 | a job with attempts has a latest one |
| Upgrade.LiveIsTrusted | agent/cmd/stowline-agent/upgrade.go:31-78 | cut off anywhere, the live path holds only a build that was live before or that matched the pin and passed its self-check |
| Upgrade.PreviousBuildStays | agent/cmd/stowline-agent/upgrade.go:31-179 | from the swap until a heartbeat or its undoing, the build set aside is on disk at every cut-off point, if the clock names no copy older than two existing ones |
| Upgrade.PendingEndsBy | agent/cmd/stowline-agent/upgrade.go:62-78 | a swap stops being watched only by a heartbeat or with the previous build live again |
| Upgrade.GuardedStartsAreBounded | agent/cmd/stowline-agent/upgrade.go:107-134 | while the marker stands at most three starts pass the guard, and one more per failed guard operation |
| Upgrade.GuardEndsBy | agent/cmd/stowline-agent/upgrade.go:107-140 | the marker stops counting only by a heartbeat, a torn write of itself, or the previous build's return |
| Upgrade.FourthStartRestores | agent/cmd/stowline-agent/upgrade.go:124-131 | after three counted starts the next one puts the previous build back |
| UpgradeLimits.SurvivesExactly | agent/cmd/stowline-agent/upgrade.go:145-179 | after a swap whose marker is not written, the previous build survives every run without a heartbeat exactly if fewer than two copies are newer |
| UpgradeLimits.ClockBackLosesPrevious | agent/cmd/stowline-agent/upgrade.go:145-179 | from a fresh installation, a run with the clock set back behind two copies loses the previous build |
| Upgrade.WaitingHeartbeatDisarms | agent/cmd/stowline-agent/main.go:638-684 | wherever a process waits to restart, its heartbeat removes the marker, and the new build may then start and die any number of times |
| UpgradeLimits.DisarmedCrashLoop | agent/cmd/stowline-agent/main.go:638-684 | from a fresh installation, for any number: a run in which the upgraded build starts and dies that often and is never rolled back |
| Upgrader.Upgrader.StageVerifiedUpgrade | agent/cmd/stowline-agent/upgrade.go:31-60 | only the pinned, self-checked build goes live, with the old one as the rollback copy, exactly if the hash matches and every file operation is allowed; a failure leaves the live binary where it was whenever the host lets it be moved back; the whole directory after each failure |
| Upgrader.Upgrader.RestoreRollback | agent/cmd/stowline-agent/upgrade.go:68-78 | succeeds exactly if its renames are allowed, and then the rollback copy is live and the bad binary kept; if the copy cannot be put, the bad binary is back wherever the host lets it be moved back; the whole directory after each failure, and no build on disk is lost |
| Upgrader.Upgrader.GuardUnconfirmedUpgrade | agent/cmd/stowline-agent/upgrade.go:111-134 | a start below the limit passes and is counted; after three it is a rollback that puts the recorded copy live and takes the marker away, unless a file operation fails; a start that is let through has its live binary unless it could not be moved back; an unreadable marker goes |
| Upgrader.Upgrader.ConfirmUpgradeHealthy | agent/cmd/stowline-agent/upgrade.go:138-140 | a heartbeat removes the marker, if the host lets it, and nothing else |
| Upgrader.Upgrader.PruneUpgradeLeftovers | agent/cmd/stowline-agent/upgrade.go:145-179 | exactly the failed and staged binaries and the copies older than the newest two go, but for the recorded one and what the host refuses |
| Upgrader.DoomedExactly | agent/cmd/stowline-agent/upgrade.go:145-179 | failed and staged binaries go; a rollback copy goes exactly if two newer ones are there and the marker does not name it; nothing else does |
| Upgrader.NewerCount | agent/cmd/stowline-agent/upgrade.go:170-178 | a position in the sorted list of copies tells how many are newer |
| Upgrader.Upgrader.RecordOrUndo | agent/cmd/stowline-agent/upgrade.go:102-105 | a swap whose marker cannot be written is undone, if the host allows the two renames; the live path is empty only if it allows no rename back |
| Upgrader.Upgrader.RunAgentUpgrade | agent/cmd/stowline-agent/upgrade.go:234-260 | the swap happens exactly if the pin is qualified and differs from the live build, the download is that build, and every step of the swap is allowed; otherwise the live binary stays or comes back, if the host lets it |
| Upgrader.Upgrader.OnAgentPin | agent/cmd/stowline-agent/main.go:638-684 | a restart is asked for exactly if nothing is busy, the upgrade of the pin goes through and the marker is written; then the pinned build is live, the build before it the rollback copy, and the marker records that with no starts; if not, the old build or the pinned one is live wherever the host lets binaries be moved back, and the old one if it allows the whole undoing |
| Catalog.ReadyIsTheListing | server/app/services.py:1457-1521 | after any calls over one listing with distinct paths, repeated, restarted or lost, READY means the rows are those of one complete upload |
| Catalog.ReadyRowsAreNodes | server/app/services.py:1478-1521 | and those are, for each node of the listing, one row under its path's hash with its path, name, kind, size and time, in the folder the path is right below; and no other rows |
| Catalog.ReadyIsFinal | server/app/services.py:1478-1521 | after READY no call whatever changes state or rows |
| Catalog.ConfirmedIsDistinct | server/app/services.py:1499-1513 | a listing that names a path twice is never confirmed |
| Catalog.FullUploadIsConfirmed | server/app/services.py:1382-1387 | a completely stored listing matches its declared totals exactly when its paths are distinct |
| Catalog.ParentAndLeaf | agent/cmd/stowline-agent/catalog.go:89-104 | the stored parent is the one folder that with a slash and a last element without one makes up the path, or the root |
| Catalog.Server.AppendEntries | server/app/services.py:1478-1496 | refused with nothing changed once READY; else the last node of the batch under each hash is shown by its row, and rows under other hashes stay |
| Catalog.Server.Measure | server/app/services.py:1503-1507 | counts and checksum are those of the stored rows, in whatever order they are read |
| Catalog.MatchesExactly | server/app/services.py:1503-1508 | the comparison holds exactly if the numbers of file rows and of other rows and the digest of all hashes, in any order, are as declared |
| Catalog.Server.FinalizeCatalog | server/app/services.py:1499-1513 | READY exactly when what is stored matches what is declared |
| Catalog.Declare | agent/cmd/stowline-agent/catalog.go:54-67 | the declared totals count the listing's files and other nodes and digest its hashes |
| Catalog.UploadBatches | agent/cmd/stowline-agent/catalog.go:68-76 | the batches together are the listing, in order |
| Catalog.BuildCatalog | agent/cmd/stowline-agent/catalog.go:39-87 | the server sees only calls about this listing; success means READY with a row for each node and no other, and distinct paths; distinct paths and no loss mean success |
| Ingest.Desk.IngestAttempt | server/app/services.py:824-929 | a repeated or foreign report changes nothing; any other is recorded once under its job, its slot's job or a new one of this device; the last success moves exactly for a published success with a snapshot that is not older |
| Ingest.LatestWins | server/app/services.py:883-901 | after any reports in any order, the end time is the latest of the recorded one and all new green reports, and the snapshot is that of a contender: an undated report, or a dated one with the latest end time that is not stale |
| Ingest.OrderDoesNotMatter | server/app/services.py:824-901 | the same reports in any order with any repetitions leave the same last success exactly if all contenders name one snapshot |
| Ingest.DistinctEndsAgree | server/app/services.py:883-901 | green reports with distinct end times leave the same last success in any two orders with any repetitions |
| Ingest.PairOrderExactly | server/app/services.py:883-901 | two new green reports leave the same last success in both orders exactly if they name one snapshot, have different end times, or one is stale from the start |
| Ingest.TiesFollowArrival | server/app/services.py:894-901 | two green reports with one end time: the later arrival wins |
| Ingest.UndatedTakesOver | server/app/services.py:892-901 | a green report without an end time takes over however old it is |
| TokenBucket.BytesInWindow | gateway/gw/limiter.py:21-43 | in any window of any run with any takers the counted bytes are at most the burst plus the rate times the time between its first and last turn |
| TokenBucket.TurnExactly | gateway/gw/limiter.py:21-41 | a turn refills by rate times time up to the burst; with a whole byte there it takes what is asked for, or empties the bucket and counts its whole bytes; else it takes nothing |
| TokenBucket.RemainingFalls | gateway/gw/limiter.py:29-41 | the remaining count strictly falls on every taking turn, never below zero |
| TokenBucket.RunConserves | gateway/gw/limiter.py:27-73 | the bucket counted exactly what its takers received, a device exactly what its finished takers asked for |
| TokenBucket.WaitSuffices | gateway/gw/limiter.py:42-43 | after the computed wait a whole byte is there, if nobody else took |
| TokenBucket.Limiter.Take | gateway/gw/limiter.py:27-43 | what was received is counted exactly and within the rate; a call still waiting has left less than a whole byte |
| TokenBucket.Limiter.constructor | gateway/gw/limiter.py:12-19 | the bucket starts full, with a quarter of a second's bytes between 16384 and 65536 |
| FailureLimiter.Limiter.RetryAfter | server/app/ratelimit.py:47-56 | 0 exactly when every key is below its limit in the full history; otherwise the least delay after which that is so, rounded up |
| FailureLimiter.Limiter.Recent | server/app/ratelimit.py:37-45 | the pruned queue holds exactly the failures inside the window |
| FailureLimiter.Limiter.Fail | server/app/ratelimit.py:58-62 | every named key's history grows by this failure |
| FailureLimiter.Limiter.Clear | server/app/ratelimit.py:64-67 | the named keys' histories are empty, others unchanged |
| FailureLimiter.Limiter.Check | server/app/ratelimit.py:77-88 | an attempt is let through exactly with fewer than 10 failures of its address and, if it names an account, fewer than 20 of that inside the window |
| FailureLimiter.LiveCountExactly | server/app/ratelimit.py:41 | what counts are the failures less than a window ago |
| FailureLimiter.PrunedKeyOk | server/app/ratelimit.py:41-44 | popping what left the window keeps the queue a tail of the history and as long as what counts |
| FailureLimiter.DelayIsLeast | server/app/ratelimit.py:54-55 | a key at its limit is free after the delay of the failure that has to leave, and not earlier |
| LocalCaller.RestoreShowsNothingHidden | agent/cmd/stowline-agent/localcaller.go:83-116 | of a path that may be restored, nothing at or below it is hidden from the caller exactly if the path itself is not, for any profile, profiles folder and other profiles |
| LocalCaller.MayRestoreExactly | agent/cmd/stowline-agent/localcaller.go:102-116 | with nobody's folder inside the caller's own profile: a path that is not hidden passes exactly if the key of its key is not hidden and nothing hidden would come along |
| LocalCaller.UnstablePathPasses | agent/cmd/stowline-agent/localcaller.go:49-116 | a path with a blank before its last separator passes the check although it is hidden |
| LocalCaller.StableExactly | agent/cmd/stowline-agent/localcaller.go:49-59 | when a path's key is its own key |
| LocalCaller.EverySpelling | agent/cmd/stowline-agent/localcaller.go:47-59 | white space around, trailing slashes, case, kind of slash and drive letter make no difference: every spelling of a folder has its key |
| LocalCaller.AccountFolders | agent/cmd/stowline-agent/localcaller.go:93-98 | of the folders under the profiles folder that are neither the caller's nor known to be another's, only the one named public shows |
| LocalCaller.ProfilesDecide | agent/cmd/stowline-agent/localcaller.go:83-99 | the caller's own folder shows whoever else has it, a known other's is hidden, and what is in nobody's and outside the profiles folder shows |
| LocalCaller.Comparable | agent/cmd/stowline-agent/localcaller.go:62-67 | two folders around one path lie one in the other |
| LocalCaller.NewLocalCaller | agent/cmd/stowline-agent/localcaller.go:69-78 | the others are every key that names a folder other than the caller's own |
| Paging.PagesCoverListing | server/app/services.py:1535-1553 | following cursors from the empty one yields every name once, in order, and ends, for any page size of at least one |
| Paging.PageExactly | server/app/services.py:1535-1553 | a page holds the names after the cursor in order, at most the limit; all of them without a next cursor, else up to it |
| Paging.CatalogPagesCoverFolder | server/app/services.py:1536-1553 | the pages of a folder are exactly its rows, each once and in order |
| Paging.PagesNameTheFolder | server/app/services.py:1478-1554 | after any upload that ended READY, the pages of a folder name the hashes of exactly the nodes of the listing right below it, each once |
| Paging.ReadSnapshotCatalog | server/app/services.py:1524-1554 | nothing is shown before READY; then the page of the folder's rows after the cursor, in order, at most the limit, and all of them where there is no next cursor |
| Paging.BrowseLocalDir | agent/cmd/stowline-agent/browse_local.go:26-93 | the loops give the page of the sorted directory, with a limit of 1 to 1000 taken as it is and any other as 1000 |
| Paging.SortedIsListing | agent/cmd/stowline-agent/browse_local.go:46-52 | a directory's names, sorted, are a listing whose pages cover it |
| Ordering.SortIsCanonical | server/app/services.py:1386-1387 | sorting forgets exactly the order, so the checksum tells exactly the contents |
| Ordering.LeExactly | server/app/services.py:1386-1387 | the order: prefixes first, else by the first character that differs |

## Left out

- HTTP routing, authentication, database sessions and migrations, audit rows, browse caches, health, display fields and the row of a restore request: they carry no property of the parts modelled.
- restic, rclone, volume shadow copies and Windows services: the engine and the host are choices of the environment.
- WAN progress samples of a renewal and `trip_provider`: independent field updates.
- Bandwidth: `CompileSite` does not keep the display field `restic_kibps`.
- Ingest.Desk.IngestAttempt: the snapshot row, health and provider circuit it also writes are left out; they do not feed back into the last success.
- Ingest.OrderDoesNotMatter: needs one report per attempt id, which the agent's ids give.
- Service.Service.Backup: one call without interleaving, and none beside a reconciliation in progress; interleavings of callers, crashes and reconciliation are the runs of `Orchestration`.
- Service.Service.Reconcile: a crash in the middle is in the runs of `Orchestration`.
- OrchestrationSlots.BackupsInTurnSucceedOnce: that the agent calls ordinary backups and reconciliations in turn is read off its sources and not modelled: both run in the one goroutine of a tick, scheduled backups and the command to back up (`agent/cmd/stowline-agent/main.go:782-800`, `agent/internal/windows/service/service_windows.go:85-97`), while qualification backups and restores of the local page run beside it.
- Upgrade.PreviousBuildStays: a clock that goes back behind two copies is excluded by condition; `UpgradeLimits.SurvivesExactly` shows that the build is then lost.
- Upgrade.GuardedStartsAreBounded: a torn marker write ends the count, as `Upgrade.GuardEndsBy` says.
- Upgrader.Upgrader.OnAgentPin: the wait for running backups before the restart, and failures to find or hash the executable, end the call as a live path that is missing does.
- Catalog: a batch that was checked against PENDING before another request finished the catalog and is written after it is not modelled; the totals' byte count is not, because the server never compares it.
- TokenBucket.Limiter.Take: sleeping is the sequence of clock readings; how long the loop sleeps is not bounded. `SiteLimiter`'s table of buckets is one gateway per site, `set_rate` is left out because the rate bound is for a constant rate.
- FailureLimiter.Limiter.Check: the account is given in lower case; reading the clock and changing the queues is one step.
- LocalCaller: white space as in Unicode, letter case for ASCII only; how the Windows account is found is not part of this model.
- Paging.BrowseLocalDir: the path checks before the listing, and each entry's path and type, which come from the system.
- Executor: the handlers behind `dispatch` are one call with a result; `PolicyFromServer` is a choice between valid and malformed.
- `http_range.py`, `schedule_policy.py`, the search functions, the scheduler and the restore job list: they would add only easy members.
