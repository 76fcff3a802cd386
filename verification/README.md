# Rabi: a verified model of the control plane

Rabi moves quantum jobs through a Postgres-backed state machine, places them with a filter, score, bind scheduler and
drives adapter tasks to completion. This project models its three cores in Dafny and proves what the repository promises
about them.

**The job/task protocol.** `Tables` holds the store's transactions as functions on the tables, `Store` the same
transactions as an object that rewrites its fields in place, `Audit` the invariants the repository checks after a chaos
run. `Protocol` is one transition system of any number of dispatcher processes (cycle, session affinity, bind, execute,
follow, crash, resume), the API, the tables and the adapter engine of `AerEngine`; between two effects of a process
anything else may happen and any write or call may be lost. `Guarantees` proves one execution per job, exact billing,
session affinity and declared floors for every run of it; `Outcomes` that what the engine reports is what the job
becomes; `Orphans` names the events, and only those, that leave an engine task running without anyone following it.
`Quota` interleaves admission transactions statement by statement with all other writers, and `Deployment` puts that
admission in front of the protocol and proves the quota end to end. `Witness` builds runs of the same systems, for any
tenant, gate-model document and feasible device, in which a promise fails. `Chassis` is the worker and cancel protocol
of the shared adapter service.

**The placement pipeline.** `Fleet`, `Esp`, `Pareto`, `Scheduling` and `Placement` follow the scheduler package;
`Replay` is the calibration drift that feeds it. The theorems compose: drift, estimate, floor, placement.

**Ordering and simulation.** `FairShare` is the weighted order of a cycle's batch, `BenchSim` the benchmark's
discrete-event simulator. `Common`, `OrderStatistics`, `Phases` and `Ledger` hold what the others share.

Conventions. Floats are reals. Ids are numbers or strings. Times are seconds as reals. Random draws, foreign calls,
clocks and fleet views are parameters or nondeterministic steps. One `Engine` stands for the adapters of all sites, keyed
by the full `site/target` name. Rejection reasons are a small datatype. Map iteration order is arbitrary.

What the proofs found, with the exact condition in each case:

- `terminalImmutable` (internal/chaos/invariants.go:102-119) is not an invariant, because `SetJobCondition` does not look
  at the phase: `Audit.TerminalEventsIff` is the exact condition, `Witness.ConditionAfterTerminal` a run of the protocol
  that breaks it. The phase itself never changes after a terminal one: `Audit.AuditHolds`.
- `fairOrder` uses the empty string as "nothing picked yet", so a tenant named `""` would be served after everyone else:
  `FairShare.DocumentedOrderIff`. The schema (spec/schemas/quantumjob.schema.json:15) and `EnsureProject`
  (internal/store/tenancy.go:66-68) refuse that name, so every batch the dispatcher sees comes out in the documented
  order: `FairShare.NamedTenantsAreInDocumentedOrder`.
- The comment at internal/scheduler/esp.go:27-28 says that an opaque target never outranks a measured one. Adding a measurement lowers the
  estimate exactly when the estimate is not zero, the circuit uses the class, the window the estimate looks at is not
  full, and the value is worse than the class default: `Esp.EspAfterMeasurement`.
- Usage that arrives after a job was cancelled overdraws the quota: `Witness.OverdraftHappens`. Only late or excessive
  usage can: `Quota.LedgerWithinQuota`. Units other than
  gate-model shots are never checked at admission; whatever they record while a job runs is the excess term of
  `Quota.LedgerWithinQuota`.
- A failing ledger write is logged and the job still succeeds, so reconciliation then fails:
  `Witness.LostLedgerWriteBreaksReconciliation`.
- A job can end FAILED while its task runs on at the adapter: `Witness.LostAnswerLeavesOrphan` is such a run after a lost
  SubmitTask answer. `Orphans.AttendedIff` is the exact list of events that leave a task alone.
- A floor whose metric is missing blocks a target but is not reported as a violation, although the comment at
  internal/scheduler/conflict.go:26 says that no violations means the floors were not the binding constraint:
  `Placement.MissingMetricIsUnreported`. `Placement.RelaxationExplained` is the exact condition.

## Model

| member | source | states |
|---|---|---|
| `Phases.TransitionsClimb` | internal/job/phase.go:32-75 | every legal move other than back to PENDING strictly climbs the lifecycle |
| `Phases.LegalMoves` | internal/job/phase.go:32-75 | a request is legal exactly one step along the lifecycle, to FAILED or CANCELLED from any state that has not ended, and from SCHEDULED or SUBMITTED back to PENDING; an illegal one names its reason |
| `Phases.LifecycleIsShort` | internal/job/phase.go:32-40 | a chain of legal moves that never re-enters PENDING changes phase at most four times |
| `Phases.TerminalSticks` | internal/job/phase.go:49-75 | after a terminal phase the chain never shows another phase |
| `Phases.AuditGapless` | internal/chaos/invariants.go:147-170 | the checker reports nothing exactly when the chain starts at PENDING and every step is a repeat or legal |
| `Phases.TerminalImmutable` | internal/chaos/invariants.go:102-119 | the checker reports nothing exactly when no event follows a terminal one |
| `Tables.FirstOfKind` | internal/store/jobs.go:199-211 | the position found is the first condition of that type, or the length when there is none |
| `Tables.ConditionIsSet` | internal/store/jobs.go:179-235 | afterwards the first condition of that type says what was asked and everything else on the job stands |
| `Tables.ConditionSetTwice` | internal/store/jobs.go:199-211 | setting the same condition again changes nothing and writes no event |
| `Tables.InsertedJob` | internal/store/jobs.go:43-87 | a new job is PENDING with its conditions, last in order, with one event, and no other job changes |
| `Tables.UpdatedTask` | internal/store/tasks.go:154-177 | the task row takes the new state and adapter id and nothing else changes |
| `Tables.SessionWrites` | internal/store/sessions.go:38-75 | a session is stored once, closing touches its row alone, stamping one field of one status |
| `Store.JobStore.constructor` | internal/store/jobs.go:41-56 | a new store abstracts to empty tables, which satisfy the audit invariant |
| `Store.JobStore.InsertJob` | internal/store/jobs.go:43-87 | the tables become exactly the insert transaction's, or stay unchanged with its error; the audit invariant is kept |
| `Store.JobStore.InsertJobWithQuota` | internal/store/tenancy.go:212-253 | without interference a request is rejected exactly when some limited unit it costs cannot afford it, names such a unit, and changes nothing |
| `Store.JobStore.BindJob` | internal/store/tasks.go:38-96 | the tables become exactly the bind transaction's (row, event and task together) or stay unchanged |
| `Store.JobStore.TransitionTo` | internal/store/jobs.go:125-174 | the tables become exactly the transition's or stay unchanged with the precise lifecycle error; the audit invariant is kept by every request other than one for PENDING, which no caller makes |
| `Store.JobStore.SetJobCondition` | internal/store/jobs.go:179-235 | the loop replaces the first condition of the type or appends one, and reports a change exactly when the tables changed |
| `Store.JobStore.UpdateTaskRow` | internal/store/tasks.go:154-177 | only the task row changes, and an empty adapter id keeps the stored one |
| `Store.JobStore.RecordUsage` | internal/store/tasks.go:180-193 | recorded rows stay, only missing units are added at the given amounts, on success none is missing, (task, unit) stays unique |
| `Store.JobStore.JobEventsSince` | internal/store/jobs.go:238-262 | returns the job's events above the cursor in order |
| `Store.ReadsAreSound` | internal/store/jobs.go:237-262 | what is read stands in the log above the cursor, in strictly growing sequence |
| `Store.ReadsAreComplete` | internal/store/jobs.go:237-262 | every event of the job above the cursor is read |
| `Store.ReadsCompose` | internal/api/jobs.go:184-227 | reading twice from an append-only log with the last sequence number as cursor equals reading once |
| `Store.WatchJob` | internal/api/jobs.go:174-228 | over any growing log the stream sends each event of the job once, in order, up to and including the first terminal one; the record is sent instead exactly when the first read finds none |
| `Store.WatchShowsTheChain` | internal/api/jobs.go:174-228 | a watcher of the whole log sees exactly the job's phase chain |
| `Store.NeverBlind` | internal/api/jobs.go:200-204 | a stored job always has events, so the fallback that sends the record is never needed |
| `Audit.StepKeeps` | internal/store/jobs.go:60-235 | every write of the control plane keeps chains legal, the three copies of the phase equal, one task per job and one ledger row per task and unit |
| `Audit.RunInvariant` | internal/chaos/invariants.go:7-11 | that invariant holds in every state of every interleaving of writers |
| `Audit.RunRows` | internal/chaos/invariants.go:55-68 | an accepted job is never lost, keeps tenant and document, and its phase only advances |
| `Audit.AuditHolds` | internal/chaos/invariants.go:144-170 | each chain starts at PENDING, steps are repeats or legal, it ends in the phase column and status phase, at most four changes, terminal is final |
| `Audit.NoDuplicateExecution` | internal/chaos/invariants.go:70-99 | at most one task row per job and one ledger row per task and unit in every reachable state |
| `Audit.StatusNamesTheTarget` | internal/store/tasks.go:60-96 | in every reachable state the target in a job's status is the one of its task row |
| `Audit.TerminalEventsIff` | internal/store/jobs.go:179-235 | a write breaks "no event after terminal" exactly when it is a changing SetJobCondition on a terminal job |
| `Quota.CostsAgreeIff` | internal/api/jobs.go:116-127 | the API's demand and the SQL reservation (migration 00005) agree on every unit exactly for documents without negative shots |
| `Quota.WriteLowers` | internal/store/tenancy.go:208-211 | no write other than an admission raises a tenant's exposure |
| `Quota.CommittedCovers` | internal/store/tenancy.go:230-240 | what a transaction reads as committed usage bounds the exposure |
| `Quota.StepKeeps` | internal/store/tenancy.go:212-253 | every statement of every transaction keeps exposure within the limit and within what each lock holder has read |
| `Quota.LedgerSplits` | internal/store/tenancy.go:202-253 | in every state of every run a tenant's ledger total is exactly its usage within, above and after the reservations |
| `Quota.LedgerWithinQuota` | internal/store/tenancy.go:202-253 | over every interleaving a tenant's ledger total is at most its limit plus late, excess and bypassed amounts; what is recorded in time and as declared stays within limit plus bypassed, so an overdraft needs late or excessive usage |
| `Quota.RacesAdmitTheAffordableNumber` | internal/store/tenancy.go:202-206 | racing requests of equal cost: the number admitted is affordable, and after a rejection it is exactly the affordable number |
| `Ledger.SumOne` | internal/store/accounting.go:64-67 | the sum over a selection with exactly one row is that row's amount |
| `AerEngine.StepKeeps` | adapters/aer/src/rabi_aer/tasks.py:101-236 | every lock region keeps the engine invariant: keys unique, usage and result exactly on success, one worker per target, each task simulated at most once |
| `AerEngine.RunAdvances` | adapters/aer/src/rabi_aer/tasks.py:157-236 | over every interleaving tasks only advance, terminal tasks never change, timestamps never fall |
| `AerEngine.RunsAreBilledOnce` | adapters/aer/src/rabi_aer/tasks.py:112-137 | usage and result exist exactly on success and no idempotency key is simulated twice |
| `AerEngine.CancelledWhileQueuedNeverRuns` | adapters/aer/src/rabi_aer/tasks.py:286-299 | a task cancelled while queued is never simulated nor billed |
| `AerEngine.CancelBeforeTheGate` | adapters/aer/src/rabi_aer/tasks.py:186-190 | a cancel before the worker's last look at the flag prevents the simulation for good |
| `AerEngine.AdmittedIff` | adapters/aer/src/rabi_aer/tasks.py:101-137 | a new task is queued exactly when every check passes; otherwise it has failed with the category of the check |
| `AerEngine.OutcomeDecides` | adapters/aer/src/rabi_aer/tasks.py:219-236 | a finished run is billed with its counts, failed with its category, or cancelled, as its outcome says |
| `AerEngine.StateChangesAreStamped` | adapters/aer/src/rabi_aer/tasks.py:157-236 | every change of state carries the instant of the change or a later one |
| `AerEngine.FirstComeFirstServed` | adapters/aer/src/rabi_aer/tasks.py:86-167 | a task submitted while another waits on the same target is not simulated as long as that one waits |
| `AerEngine.ObservationsAreMonotone` | adapters/aer/src/rabi_aer/tasks.py:262-284 | what a watcher sees at successive instants of a run only advances |
| `AerEngine.Watch` | adapters/aer/src/rabi_aer/tasks.py:262-284 | the yielded states strictly advance with non-decreasing timestamps, cover every observed state and stop at a terminal one |
| `AerEngine.TaskEngine.constructor` | adapters/aer/src/rabi_aer/tasks.py:86-99 | a new engine is the initial state |
| `AerEngine.TaskEngine.Submit` | adapters/aer/src/rabi_aer/tasks.py:101-137 | the object takes the submit step, and a repeated key returns the first task and changes nothing |
| `AerEngine.TaskEngine.BeginRun` | adapters/aer/src/rabi_aer/tasks.py:157-167 | the object takes the begin step of the head of the queue, and a task no longer queued is skipped |
| `AerEngine.TaskEngine.PassGate` | adapters/aer/src/rabi_aer/tasks.py:186-190 | the object takes the gate step, and a simulation starts exactly when the cancel flag is not set |
| `AerEngine.TaskEngine.FinishRun` | adapters/aer/src/rabi_aer/tasks.py:219-236 | the object takes the finishing step |
| `AerEngine.TaskEngine.CancelTask` | adapters/aer/src/rabi_aer/tasks.py:286-299 | the object takes the cancel step, accepted exactly for known tasks that have not ended |
| `Chassis.StepKeeps` | adapters/qrmi/src/rabi_qrmi/service.py:159-224 | every region of the worker and of any number of cancel calls keeps the cancel invariant |
| `Chassis.NoAcceptedCancelLost` | adapters/qrmi/src/rabi_qrmi/service.py:159-224 | once the worker has finished, an accepted cancel means never started, failed to start, or stop attempted on the backend id |
| `Chassis.OneConclusion` | adapters/qrmi/src/rabi_qrmi/service.py:171-224 | at most one of failed, cancelled-before-run and backend id is set, exactly one at the end, and the backend starts at most once |
| `Chassis.ConclusionIsFinal` | adapters/qrmi/src/rabi_qrmi/service.py:226-256 | after the worker's end the reported status differs only where the backend's own does |
| `Chassis.StatusFollows` | adapters/qrmi/src/rabi_qrmi/service.py:226-256 | QUEUED until the worker is done, then FAILED after a failing start, CANCELLED after a look that found the flag, and what the backend says once its id is stored |
| `Chassis.CancelAnswer` | adapters/qrmi/src/rabi_qrmi/service.py:293-306 | a cancel is refused exactly when the worker finished without a backend task, accepted while it has not finished, and otherwise stops that task |
| `Chassis.EarlyCancelNeverStarts` | adapters/qrmi/src/rabi_qrmi/service.py:159-176 | a cancel before the worker calls the backend means it is never started |
| `Chassis.ChassisTask.constructor` | adapters/qrmi/src/rabi_qrmi/service.py:52-62 | a new task is the initial state of the state machine |
| `Chassis.ChassisTask.PollDelay` | adapters/qrmi/src/rabi_qrmi/service.py:211-220 | the delay loop's look at the flag is that step and keeps the cancel invariant |
| `Chassis.ChassisTask.EnterStart` | adapters/qrmi/src/rabi_qrmi/service.py:171-176 | the last look before the backend is that step; the backend may be started exactly when no cancel was accepted |
| `Chassis.ChassisTask.BackendStarts` | adapters/qrmi/src/rabi_qrmi/service.py:186 | the backend hands out an id that no cancel call can see yet |
| `Chassis.ChassisTask.RecordStarted` | adapters/qrmi/src/rabi_qrmi/service.py:187-194 | storing the id is that step, and stop is attempted under the same lock exactly when a cancel came in meanwhile |
| `Chassis.ChassisTask.RecordFailure` | adapters/qrmi/src/rabi_qrmi/service.py:195-204 | a failing start is that step and concludes the task |
| `Chassis.ChassisTask.RequestCancel` | adapters/qrmi/src/rabi_qrmi/service.py:293-306 | the cancel region is that step: refused after a local conclusion, accepted, or left to stop the backend id |
| `Protocol.UsageToMap` | internal/dispatch/dispatcher.go:674-680 | the loop returns exactly the units that occur, each with the sum of its amounts |
| `Protocol.UsageMapSums` | internal/dispatch/dispatcher.go:674-680 | the per-unit map that statuses and ledger rows use has those units and sums |
| `Protocol.UsageForgetsOrder` | internal/dispatch/dispatcher.go:674-680 | the order of the adapter's records does not matter |
| `Guarantees.ReceiveOk` | internal/dispatch/dispatcher.go:473-540 | a received SUCCEEDED status carries exactly what the engine billed, however stale the stream |
| `Guarantees.StepSanctioned` | internal/dispatch/dispatcher.go:365-576 | a job is concluded SUCCEEDED only with the engine's usage, all of it recorded unless a ledger write failed, and ledger rows only carry engine amounts |
| `Guarantees.StepKeeps` | internal/dispatch/dispatcher.go:99-576 | every step of every process, the API and the adapter keeps the system invariant |
| `Guarantees.RunIsAudited` | internal/store/tasks.go:38-193 | the tables of every protocol run are a run of the audited tables |
| `Guarantees.OneExecutionPerJob` | internal/dispatch/dispatcher.go:131-148 | with any crashes, resumes, races and cancels all submissions of a job share one task id and target, and at most one simulation runs for it |
| `Guarantees.BilledOnce` | internal/store/tasks.go:180-193 | per unit a job's ledger sum is the engine's amount if recorded and zero otherwise, never more |
| `Guarantees.BillingReconciles` | internal/store/accounting.go:53-85 | every SUCCEEDED job's status usage equals its ledger sum per unit unless a ledger write failed for its task; the sum is that usage or zero exactly by whether the unit is recorded |
| `Guarantees.LostLedgerWriteBreaksReconciliation` | internal/dispatch/dispatcher.go:496-518 | from every sound state of a recording executor, a failed ledger write and the conclusion leave a SUCCEEDED job whose usage the ledger lacks |
| `Guarantees.UsageWithinCaps` | internal/chaos/invariants.go:121-142 | no job is ever billed more shots than it declared, nor more than one task |
| `Guarantees.SessionAffinity` | internal/dispatch/sessions.go:31-53 | every submission for a joining job goes to the joined session's target with its adapter session, and the job has its tenant |
| `Guarantees.EndedJobsAreNeverBound` | internal/store/tasks.go:47-58 | an ended job keeps phase and error and gets no further task |
| `Guarantees.LostSessionsFailTheJob` | internal/dispatch/sessions.go:31-71 | a joiner whose session is missing, unreadable, foreign, closed or expired ends FAILED with SESSION_LOST and is never bound again if the failing write arrives; if it is lost the job stays as it was, and either way the attempt binds nothing |
| `Guarantees.JoinersArePinned` | internal/dispatch/sessions.go:31-53 | a joiner of a session that serves it is placed on the session's target only, any other job as its document says |
| `Guarantees.JoinersSubmitIntoTheirSession` | internal/dispatch/sessions.go:152-167 | before submitting a joiner looks again: it carries the session's adapter id exactly if the session is open, else it fails with SESSION_LOST |
| `Guarantees.SweptSessionsStayClosed` | internal/dispatch/sessions.go:180-190 | once the sweep has closed a session every later joiner is refused |
| `Guarantees.FloorsHoldOrWereWaived` | internal/dispatch/conflict.go:18-62 | over whole runs, under a floor-checking policy, every task's floors held when placed, or the job prefers its deadline, was at or past the horizon, and every broken floor was recorded |
| `Outcomes.OwedWritesArrive` | internal/dispatch/dispatcher.go:394-576 | over whole runs an executor that is not disturbed makes the writes it owes, all of them and in order, whatever others do in between |
| `Outcomes.StatusIsMirrored` | internal/dispatch/dispatcher.go:473-540 | each received status leads to exactly its writes: RUNNING, passing through RUNNING to success, FAILED with the category, or CANCELLED |
| `Outcomes.EngineOutcomeIsTheJobs` | internal/dispatch/dispatcher.go:520-576 | if the engine's task failed (was cancelled) and the executor received that undisturbed, a job that had not ended ends FAILED with the engine's category (CANCELLED) and stays so |
| `Outcomes.SubmissionOwes` | internal/dispatch/dispatcher.go:365-405 | an answered submission is stored and marks the job SUBMITTED; every other way out fails it with the category of the cause |
| `Outcomes.CategoriesStayApart` | internal/dispatch/dispatcher.go:520-524 | different engine categories are different error categories on the job |
| `Outcomes.RefusedExecutorsStop` | internal/dispatch/dispatcher.go:403-418 | an executor whose transition was refused stops exactly if the job has ended, and then the engine's task is over or asked to stop unless the call is lost |
| `Outcomes.BindReachesTheJob` | internal/dispatch/dispatcher.go:216-227 | a bind moves a PENDING job to SCHEDULED with its task row on the chosen target and starts an executor, and does nothing otherwise |
| `Outcomes.RejectionReachesTheJob` | internal/dispatch/conflict.go:69-91 | a rejection ends the job FAILED with CAPABILITY_MISMATCH and its condition; staying pending writes nothing |
| `Outcomes.ApiReachesTheJob` | internal/api/jobs.go:50-160 | an accepted submission is a PENDING job of its tenant, and a cancellation ends a job that has not ended |
| `Outcomes.ProcessesAreFree` | internal/dispatch/dispatcher.go:131-148 | cycles, crashes, resumes and cancels are always possible, and a resume gets a task's job its executor |
| `Outcomes.ExecutorsCanMove` | internal/dispatch/dispatcher.go:365-576 | wherever an executor stands it can go on |
| `Outcomes.EnvironmentIsFree` | internal/dispatch/dispatcher.go:365-418 | every failure before the submission and every answer of a second look is possible |
| `Outcomes.OwedWriteCanBeMade` | internal/dispatch/dispatcher.go:394-576 | a write that is owed can be made, or be lost |
| `Orphans.NoOrphans` | internal/dispatch/dispatcher.go:365-488 | in every run an engine task is over, asked to stop, attended, or was abandoned by an earlier exception and attended by nobody since (a crash, a lost SubmitTask answer or CancelTask call, an executor failing before it (re)submits); with no executor of its job left nobody attends it |
| `Orphans.AttendedIff` | internal/dispatch/dispatcher.go:365-418 | a step leaves an open task, new or old, whose task id has a sole attending executor unattended exactly when it is such an exception |
| `Orphans.StepAttends` | internal/dispatch/dispatcher.go:365-540 | every other step of every process keeps each open task attended |
| `Deployment.ControlWrites` | internal/dispatch/dispatcher.go:496-513 | every write of the protocol is one the quota argument covers, and gate-model jobs never record shots above their reservation |
| `Deployment.TenantsStayWithinQuota` | internal/store/tenancy.go:202-253 | in every run of the whole control plane a tenant of gate-model jobs is billed at most its limit in shots plus late and bypassed shots, and its bill is exactly the shots within its reservations plus the late ones |
| `Witness.OverdraftHappens` | internal/dispatch/dispatcher.go:496-513 | a run of the whole system in which a cancelled job and its replacement are both executed and billed: spent is twice the limit, the limit plus the late usage |
| `Witness.LostLedgerWriteBreaksReconciliation` | internal/dispatch/dispatcher.go:504-516 | a run of the protocol from the initial state to a SUCCEEDED job whose status reports its shots while the ledger has none |
| `Witness.LostAnswerLeavesOrphan` | internal/dispatch/dispatcher.go:386-402 | for any tenant, gate-model document and feasible device a run ends with a FAILED job, no executor, and its task open at the adapter |
| `Witness.ConditionAfterTerminal` | internal/store/jobs.go:179-235 | a run of the protocol in which a cycle annotates a job cancelled behind its back, so an event follows the terminal one |
| `Witness.WorkPath` | internal/dispatch/dispatcher.go:174-227 | look, pin, bind, submit, simulate, follow and store take any pending gate-model job on a free feasible device to the point of billing |
| `Fleet.CollectValues` | internal/scheduler/esp.go:65-73 | the loop keeps exactly the values of one metric class in order |
| `Fleet.ValuesPermute` | internal/scheduler/esp.go:65-73 | reordering a snapshot only reorders the values of each class |
| `Fleet.AggregateIndex` | internal/scheduler/views.go:61-74 | the chosen order statistic is within the values |
| `Fleet.AggregateExtremes` | internal/scheduler/views.go:61-74 | best and worst bound every value and are attained |
| `Fleet.AggregateMedian` | internal/scheduler/views.go:61-74 | median is the lower median: it splits the values into halves below and above |
| `Fleet.AggregateMonotone` | internal/scheduler/views.go:61-98 | pointwise lower error values never raise any aggregate |
| `Fleet.UnknownAggregateIsBest` | internal/scheduler/views.go:61-74 | any other aggregate name means best |
| `Fleet.MetricClasses` | internal/scheduler/views.go:76-98 | which metric names count as one-qubit, two-qubit and readout errors |
| `Esp.MeanBestK` | internal/scheduler/esp.go:75-88 | the loop returns the mean of the k best values, padded with the default |
| `Esp.ReadoutProduct` | internal/scheduler/esp.go:36-63 | the loop multiplies one factor per measured qubit from the best readouts, padded with the default |
| `Esp.ApplyGates` | internal/scheduler/esp.go:39-51 | a gate class multiplies the estimate by its survival probability under the mean of its best values, and leaves it alone without gates |
| `Esp.EstimateSuccess` | internal/scheduler/esp.go:36-63 | the computed value is the estimate of the specification |
| `Esp.EspIsProbability` | internal/scheduler/esp.go:29-63 | the estimate lies in [0, 1] |
| `Esp.EspForgetsOrder` | internal/scheduler/esp.go:36-88 | the estimate does not depend on metric order |
| `Esp.EspAntitone` | internal/scheduler/esp.go:36-88 | pointwise lower errors never lower the estimate |
| `Esp.MeanOfBest` | internal/scheduler/esp.go:75-88 | the mean error is that of a window of k: the best values, and the default where there are too few |
| `Esp.EspIsProduct` | internal/scheduler/esp.go:36-63 | the estimate is the product of the factors of the three classes |
| `Esp.NothingFails` | internal/scheduler/esp.go:36-63 | an empty circuit has estimate one |
| `Esp.OneQubitGateMore` | internal/scheduler/esp.go:39-45 | one more one-qubit gate multiplies its factor by one minus the mean error of as many values as qubits |
| `Esp.TwoQubitGateMore` | internal/scheduler/esp.go:46-51 | one more two-qubit gate multiplies its factor by one minus the mean error of one value fewer |
| `Esp.MeasuredQubitMore` | internal/scheduler/esp.go:52-63 | one more measured qubit multiplies the readout factor by one minus the next best readout error |
| `Esp.MeanBestAfterMeasurement` | internal/scheduler/esp.go:77-88 | a new measurement does not raise the mean error exactly when the window is full or it is no worse than the default |
| `Esp.EspAfterMeasurement` | internal/scheduler/esp.go:36-88 | a new measurement keeps the estimate from falling exactly when the estimate is zero already, or its class is unused, its window full, or the value no worse than the default |
| `Esp.OpaqueNeverOutranks` | internal/scheduler/esp.go:27-34 | a target whose measurements are no worse than the defaults is never outranked by one without measurements |
| `Esp.MeasurementCanLowerEsp` | internal/scheduler/esp.go:77-88 | one two-qubit gate and a measurement above the default: the estimate drops |
| `Pareto.NonDominatedFronts` | internal/scheduler/absorbed.go:69-111 | terminates with fronts: every point ranked, no dominance inside a front, every later point dominated from the front before |
| `Pareto.PeelAll` | internal/scheduler/absorbed.go:92-110 | the peeling loop ends with every point ranked |
| `Pareto.FrontIsLongestChain` | internal/scheduler/absorbed.go:65-111 | a point's front is the length of the longest dominance chain above it |
| `Pareto.FrontsUnique` | internal/scheduler/absorbed.go:65-111 | that ranking is the only one |
| `Pareto.SomePointIsUndominated` | internal/scheduler/absorbed.go:65-67 | any non-empty set of points has one that none of the set dominates |
| `Pareto.Normalize` | internal/scheduler/absorbed.go:113-133 | values are scaled to [0, 1] by minimum and range, and to a constant when the range is empty |
| `Pareto.ScoreSet` | internal/scheduler/absorbed.go:39-61 | the scores come from the fronts and the normalised tie-break |
| `Pareto.DominatorScoresHigher` | internal/scheduler/absorbed.go:39-61 | a dominating target scores strictly higher: the tie-break never crosses fronts |
| `Pareto.ScoresUnique` | internal/scheduler/absorbed.go:39-61 | the points determine their scores |
| `Pareto.NormalizedIsAffine` | internal/scheduler/absorbed.go:113-133 | normalizing is the affine map of least and greatest value to 0 and 1 |
| `Pareto.TieBreakIsBalanced` | internal/scheduler/absorbed.go:39-61 | among undominated points the sum of both normalized objectives decides |
| `Scheduling.FilterGuaranteesFloors` | internal/scheduler/filter.go:89-114 | a target passing the full filter meets every declared floor |
| `Scheduling.FilterMonotone` | internal/scheduler/filter.go:35-123 | better calibration never makes a feasible target infeasible |
| `Scheduling.FeasibleIff` | internal/scheduler/filter.go:35-123 | a target is feasible exactly if it is online, out of maintenance, fits kind, format, width, shots and technology, meets the floors and the calibration age where the policy checks them, and is not excluded by a selector |
| `Scheduling.FloorReasonsAreTrue` | internal/scheduler/filter.go:35-123 | a reported floor reason is the broken floor with the true aggregate, and capability is checked first, selectors last |
| `Scheduling.DefaultProfile` | internal/scheduler/policies.go:118-135 | an unprofiled job counts as a chain on its qubits, two if it declares none |
| `Scheduling.CalibAwareScoreMonotone` | internal/scheduler/policies.go:91-111 | lower errors and a wait that does not rise never lower the score |
| `Scheduling.CandidatesAreFeasible` | internal/scheduler/scheduler.go:107-120 | the candidates are exactly the feasible targets, in name order |
| `Scheduling.FilterFleet` | internal/scheduler/scheduler.go:112-120 | the loop splits the fleet: the rejections are exactly the failing targets with their reasons, and both parts together number the fleet |
| `Scheduling.RejectionsExplained` | internal/scheduler/scheduler.go:112-120 | a rejection is listed if and only if some target of that name fails the filter for that reason |
| `Scheduling.ScoreCandidates` | internal/scheduler/policies.go:43-111 | each policy's scores, and round-robin advances its wrapping counter once per decision |
| `Scheduling.FirstMaximum` | internal/scheduler/scheduler.go:132-138 | the loop finds the first position of the maximum |
| `Scheduling.Schedule` | internal/scheduler/scheduler.go:107-166 | the decision is the first best-scored feasible target in name order, with every rejection recorded; round-robin takes the candidate whose turn it is and advances its wrapping counter |
| `Placement.DecisionIsFeasible` | internal/scheduler/scheduler.go:107-166 | no target is chosen exactly when none is feasible, and a chosen one is feasible |
| `Placement.DecisionIsBest` | internal/scheduler/scheduler.go:122-138 | the choice has the highest score, ties to the smallest name |
| `Placement.BestNameUnique` | internal/scheduler/scheduler.go:122-138 | the tie-break leaves one name |
| `Placement.PlacementMonotone` | internal/scheduler/policies.go:91-111 | under calib-aware/v0 improving the chosen target, all else fixed, keeps it chosen |
| `Placement.CalibAwareTradeOff` | internal/scheduler/policies.go:70-111 | for each of the four intents, with the documented weights, the chosen target's fidelity gain over any feasible one outweighs its longer wait, ties to the smaller name |
| `Placement.CalibAwarePlacementIsUndominated` | internal/scheduler/policies.go:70-111 | under calib-aware/v0 no feasible target is better on ESP or wait and no worse on both |
| `Placement.BaselinePlacements` | internal/scheduler/policies.go:22-50 | fifo/v0 takes the first feasible name, static-best/v0 the lowest published error |
| `Placement.DecisionUnique` | internal/scheduler/scheduler.go:107-166 | every policy but round-robin has one decision |
| `Placement.ParetoPlacementIsOptimal` | internal/scheduler/absorbed.go:39-61 | under pareto/v0 no feasible target dominates the chosen one on (ESP, wait) |
| `Placement.ScheduleRelaxed` | internal/scheduler/conflict.go:27-64 | schedules with the error floors removed and reports the chosen target's violations |
| `Placement.ViolationsAreTrue` | internal/scheduler/conflict.go:45-63 | every reported violation is the true aggregate and exceeds the declared limit |
| `Placement.RelaxationExplained` | internal/scheduler/conflict.go:27-64 | a relaxed-feasible target is feasible as declared exactly when nothing is violated and no floored metric is missing |
| `Placement.MissingMetricIsUnreported` | internal/scheduler/conflict.go:23-64 | a job with a floor and an unmeasured sole target: infeasible as declared, feasible relaxed, no violation reported, so its prefer-deadline never acts |
| `Placement.RelaxedReportsCause` | internal/scheduler/conflict.go:27-64 | on one fleet, infeasible as declared and feasible relaxed means a reported violation or a missing floored metric |
| `Placement.PlaceJob` | internal/dispatch/dispatcher.go:174-227 | one dispatch attempt: bind as declared; with nothing feasible, exactly what the conflict pass on a fresh fleet view says for a job with a floor and a deadline (bind relaxed, reject, or stay pending only when neither applies), and stay pending otherwise |
| `Placement.ConflictIsResolved` | internal/dispatch/conflict.go:22-106 | with nothing feasible as declared, a job with a floor and a deadline is rejected, bound or left pending by its mode and the horizon of its relaxed choice |
| `Placement.ConflictRules` | internal/dispatch/conflict.go:34-91 | reject fails the job, and prefer-deadline binds it with all violations, if and only if the horizon of the relaxed choice has come; any other mode waits |
| `Placement.ViolationsAreComplete` | internal/scheduler/conflict.go:45-63 | every broken floor of the chosen target is reported |
| `Placement.FloorsBrokenOnlyAsDeclared` | internal/dispatch/conflict.go:22-62 | floors are broken only for prefer-deadline jobs with a deadline at or past the horizon, and then recorded |
| `Placement.PinnedJobsStay` | internal/scheduler/filter.go:71-73 | a job pinned to one target is only ever bound there, relaxed or not |
| `Replay.ComputeWalk` | adapters/aer/src/rabi_aer/replay.py:79-92 | the loop returns the capped sum of increments |
| `Replay.SnapshotAt` | adapters/aer/src/rabi_aer/replay.py:105-137 | the snapshot is the drifted baseline of the cycle and step in effect |
| `Replay.PhaseWithinPeriod` | adapters/aer/src/rabi_aer/replay.py:105-137 | the time into the cycle is at least zero and less than the period |
| `Replay.TimeDecomposes` | adapters/aer/src/rabi_aer/replay.py:105-137 | sim time lies within the cycle and the step in effect |
| `Replay.WalkStep` | adapters/aer/src/rabi_aer/replay.py:79-92 | the walk starts at zero and gains the drift rate and the noise of each step until it rests at the cap |
| `Replay.WalkAtLeast` | adapters/aer/src/rabi_aer/replay.py:79-92 | after n steps the walk is at least the drift rate times the time, up to the cap, and exactly that without noise |
| `Replay.SnapshotDrifts` | adapters/aer/src/rabi_aer/replay.py:105-137 | every error metric of a snapshot has risen, and every coherence time fallen, by at least that drift, by exactly it without noise; nothing else moves |
| `Replay.DriftIsBounded` | adapters/aer/src/rabi_aer/replay.py:105-137 | every error metric stays within [baseline, min(baseline times (1 + max drift), 1)] |
| `Replay.DriftNeverImproves` | adapters/aer/src/rabi_aer/replay.py:79-92 | within a cycle no error metric falls |
| `Replay.EspDegradesWithinCycle` | adapters/aer/src/rabi_aer/replay.py:105-137 | within a cycle the estimate never rises |
| `Replay.FloorsHeldEarlier` | internal/scheduler/filter.go:89-114 | floors that hold held at every earlier time of the cycle, for best, median and worst |
| `Replay.CycleStartRestoresBaseline` | adapters/aer/src/rabi_aer/replay.py:105-137 | every cycle starts with the baseline errors and estimate |
| `Replay.RecalibrationKeepsPlacement` | internal/scheduler/policies.go:91-111 | recalibrating the chosen target never moves a calib-aware/v0 placement away |
| `FairShare.GroupByTenant` | internal/dispatch/fairshare.go:20-33 | the queues are each tenant's jobs in order, the tenants are exactly those with a queue, strictly sorted by name |
| `FairShare.PickTenant` | internal/dispatch/fairshare.go:34-52 | the tenant picked precedes every other open one |
| `FairShare.FairOrder` | internal/dispatch/fairshare.go:20-59 | the greedy loop returns the pending jobs, FIFO within each tenant, sorted by virtual finish time and tenant |
| `FairShare.SameQueuesPermute` | internal/dispatch/fairshare.go:20-59 | equal per-tenant queues mean the output is a permutation |
| `FairShare.FairOrderUnique` | internal/dispatch/fairshare.go:20-59 | that sorted order is unique, so the loop refines the sort |
| `FairShare.FairShareBound` | internal/dispatch/fairshare.go:34-58 | after any number of picks, served(A)/w(A) is at most (served(B)+1)/w(B) for any tenant B with jobs left |
| `FairShare.ExactCadence` | internal/dispatch/fairshare.go:34-58 | with long enough queues the first n times the total weight positions hold exactly n times its weight of each tenant |
| `FairShare.OrderByWeights` | internal/dispatch/fairshare.go:34-58 | in the configured weights (one where none is set) earlier positions have the smaller virtual time, ties the smaller name |
| `FairShare.SharesFollowWeights` | internal/dispatch/fairshare.go:34-58 | the prefix bound in the configured weights |
| `FairShare.CadenceFollowsWeights` | internal/dispatch/fairshare.go:34-58 | n full rounds serve every tenant exactly n times its configured weight |
| `FairShare.ThreeToOne` | internal/dispatch/fairshare.go:15-19 | weights three to one come out as A, A, A, B |
| `Common.NamesCompare` | internal/dispatch/fairshare.go:32 | names compare lexicographically: a prefix first, then the first difference |
| `FairShare.DocumentedOrderIff` | internal/dispatch/fairshare.go:34-52 | the documented order holds exactly when no tenant is named "" or its jobs come last anyway |
| `FairShare.NamedTenantsAreInDocumentedOrder` | internal/dispatch/fairshare.go:20-59 | a batch of named tenants comes out in the documented order |
| `FairShare.EmptyNameIsMisordered` | internal/dispatch/fairshare.go:34-52 | two jobs of equal weight, one of tenant "", are not in the documented order |
| `BenchSim.SnapAtIsInEffect` | bench/runner/main.go:79-88 | on ascending offsets the snapshot found is the last one at or before the time |
| `BenchSim.MinMetric` | bench/runner/main.go:378-402 | the loop returns the minimum of the class, which is the scheduler's "best" aggregate |
| `BenchSim.Violates` | bench/runner/main.go:349-362 | the verdict is exactly that the floors do not hold on the snapshot at execution start |
| `BenchSim.TryPlace` | bench/runner/main.go:326-376 | places exactly when some target is feasible now, on the policy's choice for exactly the fleet the earlier placements left (round-robin: the candidate whose turn it is), starting when that target is free, with the whole record; the free times and the counter follow |
| `BenchSim.Round` | bench/runner/main.go:290-303 | one pass at `now`: every due job is placed, in arrival order, exactly when it has a feasible target, and is otherwise left for a minute later; jobs not due are left as they were |
| `BenchSim.PassCosts` | bench/runner/main.go:290-303 | a pass with a due job uses up at least one of the tries left before the horizon |
| `BenchSim.RunEvents` | bench/runner/main.go:264-304 | the event loop terminates with a log of placements in order of decision, ties in arrival order, each job at most once; a job without a placement was infeasible at every try up to the horizon |
| `BenchSim.Simulate` | bench/runner/main.go:243-324 | one record per job in order, which is what the log holds for it or an unplaced record; each log entry is a job's first minute tick with a feasible target, on the policy's choice given exactly the entries before it, started as soon as that target is free |
| `BenchSim.NoOverlap` | bench/runner/main.go:342-346 | executions on one target never overlap |
| `BenchSim.RecordsAreApart` | bench/runner/main.go:243-324 | two placed records of one target never overlap and none starts before its job arrived |
| `BenchSim.StartsPromptly` | bench/runner/main.go:342-346 | an execution starts when decided, at time zero, or exactly when one placed earlier on its target ends |
| `BenchSim.RecordIsExact` | bench/runner/main.go:326-376 | a record's numbers: tried on minute ticks, on a capable target, 20 s and a second per 150 shots long, with its wait, snapshot, deadline and SLO verdicts |
| `BenchSim.UnplacedRecord` | bench/runner/main.go:305-322 | the record of a job that was never placed: no target, the whole time to the horizon as its wait, the deadline missed |
| `BenchSim.BenchViews` | bench/runner/main.go:86-225 | the scheduler sees the job's own numbers and the snapshot in effect, with times cut to whole seconds |
| `BenchSim.ViolationsNeedDrift` | bench/runner/main.go:326-376 | under a floor-checking policy a record is SLO-violating only if the snapshot changed between decision and start |

## Left out

- adaptive-deferral/v0 (internal/scheduler/absorbed.go:135-182): its score uses the exponential function.
- Float rounding: arithmetic is over reals; Go's truncation of simulated instants to nanoseconds is not modelled.
- orderPending: reading the weights from the store and falling back to arrival order on an error is not modelled; the weights are a parameter of the order.
- Leader election, LISTEN/NOTIFY wake-ups, claim batches: any process may look at any job at any time.
- The dispatcher as an object: its goroutines are modelled as steps with program counters, so the mutex around `inFlight` appears only as one executor per process and job.
- The retry loop of follow: a broken stream and a reconnect are a later receive of any status the task has been in.
- A write that commits although its caller sees an error: a lost write of the model has no effect.
- Adapter restarts that forget tasks: the engine stays up over a run.
- Whether a non-joining job opens a session: any of them may, since the session duration field is not in the view.
- Parts of the control plane that only read for display (lists, dashboards, shadow placements, metrics).
- Documents that do not parse: a job in the tables has a view.
- Quota.LedgerWithinQuota: limits are fixed over the run.
- BenchSim.Simulate: queue depth, circuit names, predicted fidelity and the physics seed of a record are not modelled, because no decision reads them.
- Placement.PlaceJob: the conditions written on a job that stays pending are free-form writes of the protocol.
- The delay parameter of the Aer engine is assumed to parse, and `get`, which hands out a live object outside the lock, is not modelled.
- Liveness: resume runs only at start-up, so that every job eventually finishes is not decided by this code.
- Program profiling, schema admission, transport, command line and console: input and output.
