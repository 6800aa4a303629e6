# Janus, modelled and proved

Janus is a CI server that runs pipelines of jobs on remote runners. The server walks a chain of job
rows: it dispatches a ready job to its runner under an idempotency key, polls it, and finishes, cancels
or requeues it under a fresh key. A runner admits jobs under a concurrency guard, answers a repeated key
with the run it already has, keeps a status file per run, executes scripts, and recovers after a crash.
Requests and replies get lost and either side may stop at any moment.

This project states what each part of that does and proves what the parts guarantee together.

- **The protocol.** `Protocol` is a transition system over one pipeline of any length, any number of
  runners and a lossy network: dispatch, poll and cancel passes of the server, and create, start,
  cancel, finish, shutdown and crash-and-recover on every runner. `ProtocolSafety` holds its inductive
  invariant, `ProtocolTheorems` what follows for every run, `EnqueuedRuns` where runs begin, `Chronology` what
  a clock that never goes back rules out, `BoundsMet` that the bounds on script executions and statements
  are met, `CanceledReruns` when a canceled job runs again, `TornChains` what an unlucky stop can lead to.
  `RowOutcomes`, `RunnerOutcomes` and `StepOutcomes` say what every decision comes to, case by case and exactly
  when; `FinishedJobs` and `SignaledRuns` draw from that, over every run, that a finished job says what its
  run did, and that nothing is canceled that nobody canceled.
  `Scheduler`, `JobRows`, `StateMachine` and `PipelineShape` are the server's decisions and row updates,
  `RunnerJobs` and `Manifests` the runner's operations.
- **The code behind it.** `PipelineStore`, over the records of `JobRunRecord`, and `JobStore` are the same
  operations as the program writes them, with fields updated in place and loops, each method proved to do
  what the transition system says.
- **Typing.** `Workflows` is the check a workflow passes when saved, `SchemaDiff` and `SchemaEvolution`
  the report on changed runner schemas and what it is worth, `Payload` the building of a job's inputs
  and the keeping of its outputs, `JobInputs` the runner's own checks. `TypeSafety` proves that the four
  fit together.
- **Time windows.** `NonceReplay` is the acceptance of signed requests, `RateLimit` the two rate limiters.
- **Crash consistency and capture.** `Artifacts` is the artifact store, `LogCapture` the bounded log.

Decisions are functions; what they promise is proved about them as lemmas over all inputs, all reachable
states or all histories. `dafny verify dfyconfig.toml` checks the whole project.

## How the model reads the program

- One step is one job's turn in a dispatch or poll pass, one pipeline cancellation, or one operation of a
  runner. `set_job_run_started` and `transition_metadata_status` read, decide and write without a guard;
  each is taken as part of one such step.
- The server may stop between any two statements of a step: after a row is written and before the pipeline
  is finalized (`finalized`), and after any number of the rows of a pipeline being canceled (`reach`). A
  runner may crash at any moment and then recovers. Enqueueing a pipeline is one step.
- A poll's cancel call and its status call are separate: between the two the runner may act (`between`).
- A step of the server takes one reading of the clock. Readings may come in any order: what is proved of every
  run does not rest on the clock. Where a run is exhibited, or a result depends on time, the run is required to be time-ordered
  (`Chronology.Chronological`): no reading, on the server or a runner, lies before an earlier one.
- A create call is lost on the way, stopped by something before the run store, executed with its reply
  lost, or executed and answered. Cancel calls are lost, executed unseen, or answered.
- Idempotency keys the server issues are numbered, which stands for their being fresh; any other client's
  keys are distinct from them. The directory name derived from a key is an arbitrary function of it, which
  need not be injective, because the runner compares the stored key. Only the runs exhibited in `BoundsMet`
  and `CanceledReruns` need the names of one job's keys to differ (`BoundsMet.NoCollisions`).
- Atomic file replacement either happens or does not. Digests, signature checks, pattern matching and
  serialized sizes are arbitrary functions or answers.
- `TypeSafety.DispatchedInputsTypeCheck` takes the manifest the runner checks against to be the schema the
  report compared with: the report is made when the pipeline is enqueued, the runner's check when the job
  is dispatched.

## Where documentation and code differ

The model follows the code.

- janus-runner/README.md:551-558 lists `rejected` among the job statuses and omits the two cancelling ones.
  The code reports `cancel_requested` and `canceling` and never records `rejected`
  (`ProtocolTheorems.RecordedVerdicts`).
- janus-runner/README.md:617 says jobs still running at a stop are marked failed. Those already being
  canceled become `canceled` (`RunnerJobs.RecoveryIsProjection`).
- janus-runner/README.md:635 says inputs must match the manifest exactly. Optional inputs may be
  missing, and the reserved names are accepted unchecked (`JobInputs.ValidateInputs`).

## Results that differ from what one might expect

- The configured nonce retention is exactly enough for a clock of whole seconds read once a call
  (`NonceReplay.WholeSecondsAreSafe`). On a finer clock, or with time passing between the two readings,
  the retention a tolerance needs is larger by the amount `NonceReplay.ReplaySafeExactlyWhen` gives. Both
  assume that calls reach the nonce memory in the order of their clock readings (`NonceReplay.Orderly`):
  janus-runner/src/auth.rs:166-169 reads the clock before taking the lock, so readings of concurrent calls
  could come in another order.
- A blocked predecessor does not hold a job back (`StateMachine.ReadyExactlyWhen`); a pipeline whose jobs
  have all finished may still read running (`StateMachine.FinishedJobsLeavePipelineRunning`); and a finished
  pipeline may be relabelled canceled (`PipelineShape.CancelRelabelsFinished`).
- A window length lets through at most 2 * limit - 1 calls, one less than twice the limit, because the call
  that opens a period is itself counted in it (`RateLimit.SlidingWindowBound`, `RateLimit.SlidingWindowBoundIsMet`).
  This takes calls to reach the windows in the order of their clock readings (`RateLimit.Ordered`); like
  the nonce memory, the runner's limiter reads the clock before taking its lock
  (janus-runner/src/rate_limit.rs:39-40).
- The status and retry-count statements of a job row number at most
  (max infra retries + 1) * (3 + max cancel retries) + 1, requeues included
  (`ProtocolTheorems.WritesAreBounded`). Storing the input payload (janus-server/src/db.rs:1184-1195) is not
  counted: every dispatch attempt repeats it. A time-ordered run reaches this number exactly when the stuck
  timeout or the number of cancel retries is positive (`BoundsMet.WriteBoundIsMetExactlyWhen`); with neither,
  2 * max infra retries + 3 is the most (`Chronology.LeanWritesAreBounded`, `BoundsMet.LeanBoundIsMet`).
- A job the user has canceled can run again. A job in Canceling is never requeued, but one in CancelRequested
  is, if its run ends on an infrastructure failure before the server sees it stopping
  (`CanceledReruns.CanceledJobRunsAgain`); `CanceledReruns.CanceledRowIsRequeuedExactlyWhen` is the exact
  condition for one poll, `CanceledReruns.CanceledJobRunsAgainExactlyWhen` that on the settings.
- Jobs run one at a time, in order, unless the server stops after canceling some, but not all, of the jobs that
  wait behind one in flight (`ProtocolTheorems.StepKeepsShapeExactlyWhen`). If it leaves one job waiting, that
  job is never dispatched. If it leaves more, the first of them is blocked behind the canceled ones, and the
  next can be dispatched while the first job of all is still under way (`TornChains.TearOverlapsExactlyWhen`,
  `TornChains.AtMostOneInFlight`). Everything else proved of every run survives such a stop.
- The schema report looks neither at promotion sources nor at literal limits, so an accepted workflow need not
  pass the save-time check again (`SchemaEvolution.AcceptedRevalidatesExactlyWhen`).

## Model

| member | source | states |
|---|---|---|
| ProtocolTheorems.ExecutionBound | janus-server/src/scheduler.rs:285-388 | Over every run of server, network and runners, the scripts started for one job run number at most 1 + its infrastructure retries, hence at most 1 + the configured maximum |
| ProtocolTheorems.OneScriptPerKey | janus-runner/src/jobs/store.rs:87-231 | Over every run at most one script is started under each dispatch key, on all runners together |
| BoundsMet.ExecutionBoundIsMet | janus-server/src/scheduler.rs:285-516 | In every setting some run, on a clock that never goes back, starts exactly 1 + maximum scripts, so the bound cannot be lowered |
| ProtocolTheorems.WritesAreBounded | janus-server/src/db.rs:1161-1408 | Over every run a job row undergoes at most (max infra retries + 1) * (3 + max cancel retries) + 1 status and retry-count statements; storing the input payload (db.rs:1184-1195), repeated by every dispatch attempt, is not counted |
| BoundsMet.WriteBoundIsMet | janus-server/src/scheduler.rs:285-516 | If the watchdog leaves a cancellation some time or some retry, some run, on a clock that never goes back, executes exactly that many of the counted statements on a row |
| BoundsMet.WriteBoundIsMetExactlyWhen | janus-server/src/scheduler.rs:613-670 | That many are reached in some time-ordered run if and only if the stuck timeout or the number of cancel retries is positive |
| Chronology.LeanWritesAreBounded | janus-server/src/scheduler.rs:613-670 | With neither, every time-ordered run executes at most 2 * max infra retries + 3 counted statements on a row |
| BoundsMet.LeanBoundIsMet | janus-server/src/scheduler.rs:613-670 | And some time-ordered run then executes exactly that many |
| CanceledReruns.CanceledRowIsRequeuedExactlyWhen | janus-server/src/scheduler.rs:390-516 | A poll requeues a job in cancellation if and only if its row reads CancelRequested with a retry left, the poll gets past the watchdog to the status call, and the record it then reads has ended on an infrastructure failure or has an artifact that is not brought across |
| CanceledReruns.CanceledJobRunsAgain | janus-server/src/scheduler.rs:185-516 | A time-ordered run in which a job is canceled by the user while its script runs, is requeued, and has its script started again under the next key |
| CanceledReruns.CanceledJobRunsAgainExactlyWhen | janus-server/src/scheduler.rs:603-670 | In time-ordered runs a job in cancellation can get a new key and a script under it if and only if there is an infrastructure retry, and the stuck timeout or the number of cancel retries is positive |
| ProtocolTheorems.JobsRunInOrder | janus-server/src/scheduler.rs:285-388 | In every state of every run in which the server never stops between canceling the jobs that wait behind one in flight, the chain reads finished jobs, then at most one unfinished job, then only waiting or only canceled ones; an in-flight job is alone, everything before it has finished and nothing after it has started |
| ProtocolTheorems.StepKeepsShapeExactlyWhen | janus-server/src/scheduler.rs:185-224 | A step keeps the order of the chain if and only if it is not such a stop: a job is in flight, and of the jobs waiting behind it some are canceled and some are not |
| TornChains.TornChainOverlaps | janus-server/src/scheduler.rs:193-215 | After such a stop two jobs of one pipeline can be in flight at once: a concrete time-ordered run of four jobs |
| TornChains.TearOverlapsExactlyWhen | janus-server/src/scheduler.rs:185-224 | After any such stop two jobs can come to be in flight at once if and only if it leaves at least two jobs waiting, given that the runner of the second of them is there, with at most a run of this job in the directory for its key, and some manifest offers the job |
| TornChains.TearOverlaps | janus-server/src/state_machine.rs:70-98 | Then a time-ordered continuation leads there: the first waiting job is blocked behind the canceled one, and the next is dispatched |
| TornChains.AtMostOneInFlight | janus-server/src/scheduler.rs:185-388 | In every run whose stops of that kind each leave only the last job waiting, no two jobs of the pipeline are ever in flight at once |
| ProtocolTheorems.RowsAreCoherent | janus-server/src/db.rs:1161-1408 | In every reachable state a row has a finish time exactly when terminal, no cancel fields while pending or running, counters within budget and dated, fails as stuck only with its cancel budget used up, and in cancellation has the time the watchdog needs |
| ProtocolTheorems.RunnersExclude | janus-runner/src/jobs/store.rs:686-727 | In every reachable state of every runner a global-exclusive run is the only one in memory and a job-exclusive run the only one of its name |
| ProtocolTheorems.StepForward | janus-runner/src/jobs/store.rs:481-501 | No step takes a run record or a row backwards; finished ones are untouched; only a requeue returns a row to Pending |
| ProtocolTheorems.RunsGoForward | janus-server/src/scheduler.rs:390-516 | The same for any sequence of steps from a sound state |
| ProtocolTheorems.RowsGoForward | janus-server/src/scheduler.rs:412-438 | Between any two moments of any run a row moves only forward through Pending, Running, CancelRequested, Canceling, terminal, except by a requeue, and a finished row is untouched |
| ProtocolTheorems.RecordsGoForward | janus-runner/src/jobs/store.rs:481-501 | Between any two moments of any run a run record is never lost, never changes identity, never steps back, and is untouched once finished |
| ProtocolTheorems.RunIsForCurrentKey | janus-server/src/db.rs:1347-1390 | A row that names a runner run names the one created for its current dispatch key, whose record is on its runner |
| ProtocolTheorems.ScriptFailuresAreFinal | janus-server/src/scheduler.rs:451-506 | Whenever a step raises the retry count of a job with a run, that run ended neither by exit code nor by timeout, and is an infrastructure failure or has artifacts to transfer; without a run, preparing its inputs had failed |
| ProtocolTheorems.SuccessIsEarned | janus-server/src/state_machine.rs:100-143 | A pipeline marked success is not empty, all its jobs are Success, each backed by a successful record under its current key whose script was started exactly once; a pipeline marked failed has a required job that failed |
| ProtocolTheorems.SuccessfulJobRan | janus-server/src/scheduler.rs:451-506 | A successful row is backed by a successful record under its current key and exactly one script start |
| ProtocolTheorems.RecordedVerdicts | janus-runner/src/jobs/execution.rs:237-378 | Every record on every runner: category Job exactly for reason ExitCode, exit codes and timeouts carry no outputs, finish time exactly when terminal, never Rejected |
| FinishedJobs.FinishedJobsSayWhatTheirRunsDid | janus-server/src/scheduler.rs:405-506 | Over every run, a finished job that has a run and was not given up on has the verdict, exit code, reason, category and outputs of that run, or failed for an artifact of it that could not be brought across |
| SignaledRuns.CanceledRunsWereTold | janus-runner/src/jobs/execution.rs:148-176 | Over every run, a run record under one of the keys of the server reads CancelRequested, Canceling or Canceled only if at some earlier step its runner got a cancel call for it or was shut down |
| StepOutcomes.PollStepOutcome | janus-server/src/scheduler.rs:390-516 | Every poll step, told from the record the runner answers from: unchanged, followed, ended, put back in line, counted or given up on, each case with its condition and its columns, and the pipeline |
| StepOutcomes.EndedRunEndsJob | janus-server/src/scheduler.rs:467-506 | A poll that finds the run ended, brings its artifacts across and does not retry leaves the job Success iff the record is, Canceled iff the record is, Failed otherwise, with exit code, reason, category and outputs of the record |
| StepOutcomes.EndedRunIsRetried | janus-server/src/scheduler.rs:451-491 | When an artifact is lost, or an infrastructure failure has a retry left: back in line under the next key while retries last; with none left, failed for output registration |
| StepOutcomes.LiveRunIsFollowed | janus-server/src/scheduler.rs:412-438 | Which status follows each report of a run under way: the further of the status of the row and that of the run |
| StepOutcomes.DispatchStepOutcome | janus-server/src/scheduler.rs:285-388 | Every dispatch step, told from the answer of the runner: Running iff answered with a run, under its id and start time; Failed iff the runner is unregistered, the call is rejected, or preparation fails with no retry left; back in line under the next key iff preparation fails with one left; Blocked iff the predecessor rules it out; untouched otherwise |
| StepOutcomes.RejectingErrors | janus-server/src/scheduler.rs:526-537 | Which errors of the runner carry a status that counts as a rejection |
| StepOutcomes.PollCallsWhenDue | janus-server/src/scheduler.rs:613-670 | A poll makes its cancel call exactly when the cancellation is overdue and a cancel retry is left, and does nothing else to the runners |
| StepOutcomes.DispatchCallsInTurn | janus-server/src/scheduler.rs:285-372 | A dispatch makes its create call exactly when it is the turn of a waiting job, its runner is enabled and its inputs are prepared, and does nothing else to the runners |
| StepOutcomes.StepJudgesPipeline | janus-server/src/db.rs:1536-1574 | A step that changes the status of a job and gets to the pipeline leaves it the verdict its jobs call for; it is Success iff it has jobs and all succeeded, Failed iff a required one failed |
| StepOutcomes.OtherStepsKeepVerdict | janus-server/src/scheduler.rs:285-516 | Any other turn of the two passes leaves the pipeline alone |
| StepOutcomes.CancelStepOutcome | janus-server/src/scheduler.rs:185-224 | Every pipeline cancellation, told from how the runners stand before it: each row, whether the loop completes, and the pipeline |
| StepOutcomes.MarkedJobsAreInformed | janus-server/src/scheduler.rs:193-211 | A running job the cancellation marks is one whose runner has been told: its record no longer reads Running, and its task, if there is one, is signaled |
| RowOutcomes.VerdictIsJudged | janus-server/src/state_machine.rs:100-143 | Each of the seven verdicts on a pipeline exactly when, in terms of the statuses of its rows |
| RowOutcomes.DispatchCarried | janus-server/src/scheduler.rs:285-388 | One turn of the dispatch pass by what the server sees: each end exactly when, each column, and whether the pipeline is recomputed |
| RowOutcomes.PollCarried | janus-server/src/scheduler.rs:390-516 | One turn of the poll pass likewise, the watchdog included |
| RowOutcomes.CancelOutcomeIs | janus-server/src/scheduler.rs:185-224 | Canceling a pipeline of any rows: it completes iff no runner to be told refuses and the server does not stop; then the pipeline is CancelRequested, dated, for the user and unfinished iff some runner had to be told, and Canceled and finished otherwise; without completing it is unchanged |
| ProtocolTheorems.ReachableIsSound | janus-server/src/scheduler.rs:107-113 | The whole invariant holds after any sequence of actions |
| ProtocolSafety.StepSound | janus-server/src/scheduler.rs:285-516 | Every action of every component keeps the invariant of the whole system |
| ProtocolSafety.RunSoundThroughout | janus-server/src/scheduler.rs:107-113 | Every sequence of actions keeps it |
| ProtocolSafety.InitialIsSound | janus-server/src/scheduler.rs:129-183 | It holds when a pipeline has just been enqueued |
| ProtocolSafety.DispatchStepSound | janus-server/src/scheduler.rs:285-388 | Dispatching keeps the invariant, whether the create call is lost, intercepted, answered unseen or answered, and whether or not the server gets to finalize |
| ProtocolSafety.PollStepSound | janus-server/src/scheduler.rs:390-516 | Polling keeps it, whatever the runner reports, whichever calls are lost, and whether or not the server gets to finalize |
| ProtocolSafety.CancelStepSound | janus-server/src/scheduler.rs:185-224 | Canceling the pipeline keeps it, wherever the cancel calls break off or the server stops |
| ProtocolSafety.RunnerWorldStepSound | janus-runner/src/jobs/store.rs:285-441 | Everything a runner does on its own keeps it, crashes and restarts included |
| ProtocolSafety.CancelingIsReportedSo | janus-server/src/scheduler.rs:412-438 | A row in Canceling has a run that is, and will be reported as, Canceling or Canceled without outputs |
| ProtocolSafety.ScriptStart | janus-runner/src/jobs/execution.rs:55-95 | Starting a script keeps at most one start logged under each key, on any runner |
| ProtocolSafety.CreatedRunIsHeld | janus-runner/src/jobs/store.rs:514-548 | A create reply the server acts on means the runner holds the record of a run for that key and job |
| StateMachine.ReadyExactlyWhen | janus-server/src/state_machine.rs:70-98 | A job may be dispatched if and only if every predecessor is terminal, none canceled and none a required failure; a Blocked one does not hold it back |
| StateMachine.VerdictIgnoresOrder | janus-server/src/db.rs:1536-1574 | The pipeline verdict depends only on the multiset of rows, as the unordered query needs |
| StateMachine.FinishedJobsLeavePipelineRunning | janus-server/src/state_machine.rs:100-143 | Exactly when a pipeline of finished jobs is still judged Running |
| JobRows.WriteStep | janus-server/src/db.rs:1161-1408 | Any statement the scheduler may issue keeps a row coherent and strictly lowers the number of statements it can still undergo |
| JobRows.WritesSpendPotential | janus-server/src/db.rs:1161-1408 | The same for any sequence of statements |
| JobRows.StageAdvancesExceptOnRequeue | janus-server/src/db.rs:1266-1390 | Every statement but the requeue and the counting of a cancel retry moves the row strictly forward; the requeue alone returns to Pending and raises the retry count |
| JobRunRecord.JobRun.SetStarted | janus-server/src/db.rs:1161-1182 | A dispatch in place: the columns it sets and clears, and that it keeps a row coherent, takes it forward and leaves it fewer statements to undergo |
| JobRunRecord.JobRun.Finish | janus-server/src/db.rs:1197-1264 | Likewise for finishing, which keeps cancellation progress only for canceled jobs |
| JobRunRecord.JobRun.SetStatus | janus-server/src/db.rs:1266-1310 | Likewise for a status change with its conditional columns |
| JobRunRecord.JobRun.MarkCancelRequested | janus-server/src/db.rs:1312-1328 | Likewise for a cancel request; the first request time stays |
| JobRunRecord.JobRun.RecordCancelRetry | janus-server/src/db.rs:1330-1345 | Likewise for a counted cancel retry, which leaves the status alone; returns the new count |
| JobRunRecord.JobRun.RequeueForInfraRetry | janus-server/src/db.rs:1347-1390 | Likewise for a requeue, which alone takes a row back, under a fresh key, at the price of one retry; returns the new count |
| JobRunRecord.JobRun.MarkCancelRetryExhausted | janus-server/src/db.rs:1392-1408 | Likewise for a cancellation given up |
| Scheduler.DispatchIsPermitted | janus-server/src/scheduler.rs:285-388 | Dispatching issues only statements its row allows, and only on a pending row at the front of the chain |
| Scheduler.PollIsPermitted | janus-server/src/scheduler.rs:390-516 | Polling issues at most two statements, all allowed, and only on an in-flight row |
| Scheduler.RequeueOnlyForInfrastructure | janus-server/src/scheduler.rs:451-506 | Polling requeues if and only if the report is terminal, budget is left, and it is an infrastructure failure or an output transfer fails |
| PipelineShape.InFlightIsAlone | janus-server/src/scheduler.rs:168-181 | In a well-shaped chain everything before an in-flight job is terminal and everything after it waits or is canceled |
| PipelineShape.FrontWriteKeepsShape | janus-server/src/scheduler.rs:285-388 | Replacing the row at the front keeps the shape of the chain, whatever it becomes |
| PipelineShape.CancelClosedForm | janus-server/src/scheduler.rs:185-224 | What the cancel loop does to a well-shaped chain, row by row, wherever it is refused or cut, and when it completes |
| PipelineShape.CancelWritesOnce | janus-server/src/scheduler.rs:193-215 | The cancel loop runs at most one statement on each row of any chain, and only on waiting or running ones |
| PipelineShape.CancelKeepsShapeExactlyWhen | janus-server/src/scheduler.rs:185-224 | Canceling keeps the shape of the chain if and only if it is not cut between jobs waiting behind one in flight |
| PipelineShape.CancelKeepsShape | janus-server/src/scheduler.rs:185-224 | Canceling that gets through all rows keeps the shape of the chain |
| PipelineShape.CancelRelabelsFinished | janus-server/src/scheduler.rs:216-222 | Canceling a finished pipeline leaves its jobs alone and still relabels it canceled: pipeline verdicts are not final |
| PipelineStore.Enqueue | janus-server/src/scheduler.rs:129-183 | A workflow becomes one pending, freshly keyed row a job, linked into a chain, if and only if its schema report is not Incompatible and its definition is valid |
| EnqueuedRuns.EnqueuedIsInitial | janus-server/src/scheduler.rs:129-183 | What enqueueing builds is a starting point of the transition system |
| EnqueuedRuns.LinksAreTheChain | janus-server/src/scheduler.rs:168-181 | The stored links are the predecessors dispatching consults |
| PipelineStore.PipelineStore.Execute | janus-server/src/db.rs:1161-1408 | Runs a statement on the record of one job, in place, and leaves the records of the others alone |
| PipelineStore.PipelineStore.DispatchJob | janus-server/src/scheduler.rs:285-388 | One turn of the dispatch loop over the job records, step by step, is the decision of the transition system, whose every end RowOutcomes.DispatchCarried pins down |
| PipelineStore.PipelineStore.PollJob | janus-server/src/scheduler.rs:390-516 | One turn of the poll loop, watchdog first, likewise, with RowOutcomes.PollCarried |
| PipelineStore.PipelineStore.TakeReport | janus-server/src/scheduler.rs:405-506 | Handling one status report: each status of the job exactly when, with result, outputs, retry and dates, and the pipeline recomputed whenever the status changes |
| PipelineStore.PipelineStore.RetryOrFailInfraError | janus-server/src/scheduler.rs:563-601 | Back in line under a fresh key while the budget lasts, failed for the given reason after that |
| PipelineStore.PipelineStore.CancelPipeline | janus-server/src/scheduler.rs:185-224 | The cancel loop in place: every row it passes, whether it completes, and what becomes of the pipeline, CancelRequested iff some runner had to be told |
| PipelineStore.PipelineStore.RecoverIncompletePipeline | janus-server/src/scheduler.rs:271-283 | A pipeline is put back to Running, or to its cancellation, iff it or one of its jobs is unfinished; otherwise it is untouched |
| PipelineStore.PipelineStore.FinalizePipelineStatus | janus-server/src/db.rs:1536-1574 | The pipeline afterwards carries each of the seven verdicts exactly when its rows call for it, is finished iff that verdict ends it, and keeps of its cancellation what goes with it |
| Scheduler.ReportAfterRetry | janus-server/src/scheduler.rs:401-404 | Judging a report by the row read before the watchdog counted its retry comes to the same |
| Manifests.LoadFromDir | janus-runner/src/manifest.rs:25-70 | Loading succeeds if and only if every manifest file parses and is valid, script, output paths and patterns included, and names are pairwise distinct; then each is filed under its own name, and nothing else is |
| RunnerJobs.CreateKeepsSound | janus-runner/src/jobs/store.rs:70-231 | Creating a run, wherever it fails, keeps the runner invariant, loses no record, and adds records only for the requested key |
| RunnerJobs.CreatedRunIsRecorded | janus-runner/src/jobs/store.rs:70-231 | A positive reply names a run recorded durably under the requested key and job |
| RunnerOutcomes.RepeatedKey | janus-runner/src/jobs/store.rs:514-548 | A key seen before is answered with its run iff job, key and body are the same, is a conflict iff the record differs, and a storage failure iff there is none to read; nothing changes |
| RunnerOutcomes.NewKey | janus-runner/src/jobs/store.rs:150-231 | A new key is admitted iff the concurrency guard allows it and the directory is prepared; the record and the run in memory then; the refusals otherwise |
| RunnerOutcomes.NotEntertained | janus-runner/src/jobs/store.rs:70-150 | A runner shutting down, an unknown job and refused inputs: each refusal exactly when, nothing changed |
| RunnerOutcomes.GuardIsExclusion | janus-runner/src/jobs/store.rs:686-727 | The guard admits a run if and only if mutual exclusion survives it |
| RunnerOutcomes.CancelAnswers | janus-runner/src/jobs/store.rs:285-321 | A cancel call is taken iff the record reads and the run is in memory, its mark stored if due, or is being or was canceled; the replies otherwise; the run told and marked, nothing else changed |
| RunnerOutcomes.ShutDownTellsAll | janus-runner/src/jobs/store.rs:424-441 | Shutting down closes the door, signals every run, and marks exactly the running ones whose mark can be stored |
| RunnerOutcomes.FinishOutcome | janus-runner/src/jobs/execution.rs:102-383 | The finished record outcome by outcome: each status, reason and category iff, exit code, outputs and date; the run leaves memory, and nothing else changes |
| RunnerJobs.AdmissionKeepsExclusion | janus-runner/src/jobs/store.rs:686-727 | A run admitted by the concurrency guard keeps mutual exclusion, given that entries have the concurrency of their uniquely named manifests |
| RunnerJobs.CancelingEndsCanceled | janus-runner/src/jobs/execution.rs:148-176 | A run whose record reads Canceling can only be finished as Canceled |
| RunnerJobs.FinishedRecordSound | janus-runner/src/jobs/execution.rs:237-383 | Every outcome with every result of output registration gives a consistent terminal record of the same run |
| RunnerJobs.CancelKeepsSound | janus-runner/src/jobs/store.rs:285-321 | A cancel call never takes a record back, removes none and keeps the runner invariant |
| RunnerJobs.ShutDownKeepsSound | janus-runner/src/jobs/store.rs:424-441 | Likewise for beginning shutdown |
| RunnerJobs.SeeCancelKeepsSound | janus-runner/src/jobs/execution.rs:148-176 | Likewise for a task observing its cancel signal |
| RunnerJobs.RestartKeepsSound | janus-runner/src/jobs/store.rs:323-422 | Likewise for a crash at any moment followed by recovery, with new manifests |
| RunnerJobs.RunnerStepKeepsSound | janus-runner/src/jobs/store.rs:70-441 | No act of a runner breaks its invariant, loses or rewinds a record, or makes one under a key it was not asked for |
| RunnerJobs.RecoveryIsProjection | janus-runner/src/jobs/store.rs:323-422 | Afterwards every directory holds a terminal record; terminal ones are unchanged, interrupted ones Failed/Infra, cancelling ones Canceled, both for shutdown and dated; a second recovery changes nothing |
| RunnerJobs.InterruptedRecovery | janus-runner/src/jobs/store.rs:323-422 | Recovery cut short after any of the directories and started over later ends where one pass would, up to the finishing times of those |
| JobStore.JobStore.CreateJob | janus-runner/src/jobs/store.rs:70-231 | The method step by step is the admission of the transition system, with the checks of key, inputs and log limit it made, each of which refuses exactly when it should |
| JobStore.JobStore.EnforceConcurrency | janus-runner/src/jobs/store.rs:686-727 | Admits exactly when the guard of the manifest allows it |
| JobStore.JobStore.TransitionMetadataStatus | janus-runner/src/jobs/store.rs:481-501 | Changes exactly a live record with the expected status, and reports whether it could be read and stored |
| JobStore.JobStore.CancelJob | janus-runner/src/jobs/store.rs:285-321 | Is the cancel of the transition system, with its reply, also for malformed ids and for tasks that no longer listen |
| JobStore.JobStore.BeginShutdown | janus-runner/src/jobs/store.rs:424-441 | The loop marks and signals every run and counts them |
| JobStore.JobStore.SeeCancel | janus-runner/src/jobs/execution.rs:148-176 | Marks the record Canceling where it can and moves the task to termination |
| JobStore.JobStore.FinishRun | janus-runner/src/jobs/execution.rs:102-383 | Registers outputs for scripts that exited well only; the record, if it can be stored, is TimedOut iff the deadline passed, Success iff the script exited well and its outputs registered, Canceled iff the cancel was observed, Failed otherwise, each with its reason, category and exit code; the run leaves memory |
| JobStore.JobStore.RecoverInterruptedJobs | janus-runner/src/jobs/store.rs:323-422 | The loop leaves the recovered disk, and counts exactly the directories it changed or removed |
| JobStore.ShutDownAdvances | janus-runner/src/jobs/store.rs:427-439 | One turn of the shutdown loop advances the partly shut down state by one run |
| JobStore.RecoveryAdvances | janus-runner/src/jobs/store.rs:330-419 | One turn of the recovery loop advances the partly recovered disk and the count by one directory |
| Workflows.ValidateWorkflowRunners | janus-server/src/web/routes.rs:1571-1734 | The save-time check succeeds if and only if the workflow is well typed, and then returns the advertised schemas job by job |
| Workflows.ValidateJob | janus-server/src/web/routes.rs:1595-1726 | One job passes exactly when all its inputs and required inputs do |
| Workflows.ValidateInput | janus-server/src/web/routes.rs:1602-1725 | One binding passes exactly when its name, kind, references, promotion source and limits do, and the error names the check that failed |
| Workflows.InputOkExactlyWhen | janus-server/src/web/routes.rs:1602-1725 | The check of one input by what it is bound to: commit and branch to strings, source and promoted artifacts to artifacts, literals of the kind within the limits, outputs an earlier job declares with the kind |
| Workflows.RequiredInputsBoundExactlyWhen | janus-server/src/web/routes.rs:1736-1763 | Required inputs pass unless a binding is missing, null, blank or an output without a name |
| Workflows.ValidateRequiredInputs | janus-server/src/web/routes.rs:1736-1763 | Passes exactly when every required input has a binding that is not empty |
| Workflows.FindJob | janus-server/src/web/routes.rs:1582-1596 | The first job of that name, and none exactly when no job has it |
| Workflows.TypedImpliesKindsOk | janus-server/src/web/routes.rs:1571-1734 | A well-typed workflow passes the kind, reference and required-input checks on its saved schemas |
| SchemaDiff.DiffInputs | janus-server/src/schema_diff.rs:166-247 | Lists every input difference of two schemas once, each graded, and nothing else |
| SchemaDiff.DiffOutputs | janus-server/src/schema_diff.rs:249-322 | Lists every output difference of two schemas once, each graded, and nothing else |
| SchemaDiff.DiffJobSchema | janus-server/src/schema_diff.rs:156-325 | Lists every difference of two schemas once, each graded, and nothing else |
| SchemaDiff.WorkflowSchemaReport | janus-server/src/schema_diff.rs:69-154 | Lists every difference of the workflow once, missing and left-over jobs included, and grades the whole |
| SchemaEvolution.JobFitsExactlyWhen | janus-server/src/schema_diff.rs:156-325 | No difference of a job is incompatible if and only if bound and required inputs and referenced and promised outputs keep their kinds, nothing more is required and no promise is withdrawn |
| SchemaEvolution.JobExtendsExactlyWhen | janus-server/src/schema_diff.rs:327-335 | No difference is incompatible or stale if and only if the saved fields are all there unchanged and new inputs are optional |
| SchemaEvolution.JobUnchangedExactlyWhen | janus-server/src/schema_diff.rs:156-325 | There is no difference if and only if names, kinds and requiredness all agree |
| SchemaEvolution.ReportGrades | janus-server/src/schema_diff.rs:69-154 | When a report is Incompatible, when Current and when empty, in terms of the schemas alone, each as an if-and-only-if |
| SchemaEvolution.AcceptedChangesKeepTyping | janus-server/src/schema_diff.rs:69-154 | The kind, reference and required-input checks passed on the saved schemas hold on the current ones whenever the report is Current or Stale |
| SchemaEvolution.AcceptedRevalidatesExactlyWhen | janus-server/src/web/routes.rs:1571-1734 | An accepted workflow would pass the whole save-time check again if and only if its promotion sources and literal limits still hold, the two things the report does not look at |
| JobInputs.ValidateInputs | janus-runner/src/jobs/store.rs:551-662 | Accepts exactly when no complaint applies; an error is the first complaint in the order the maps are visited, missing before unknown before values; exactly the artifact inputs are resolved, to their blobs |
| JobInputs.AcceptedExactlyWithoutComplaint | janus-runner/src/jobs/store.rs:551-662 | Acceptance of every value and the absence of any complaint are the same |
| JobInputs.AcceptedInputsFit | janus-runner/src/jobs/store.rs:551-662 | Nothing is complained of if and only if required inputs are there, names are declared or reserved, and every value is of its kind and within the length, pattern, size and artifact conditions of its spec |
| JobInputs.ReadsExactlyWhen | janus-runner/src/jobs/execution.rs:423-534 | An output is read as what its file holds under its kind, or is unreadable |
| JobInputs.RegisterOutputs | janus-runner/src/jobs/execution.rs:423-534 | Succeeds exactly when every declared output is readable as its kind or optional and absent; registers exactly the present ones; what is registered conforms even when it breaks off |
| Payload.ResolveJobInputs | janus-server/src/scheduler.rs:672-802 | Builds the payload if and only if every binding resolves: every input with the value its source holds, and the run id; otherwise names a binding that does not |
| Payload.ResolvesExactlyWhen | janus-server/src/scheduler.rs:672-802 | A binding resolves to a value if and only if its own source holds that value: commit, branch, source artifact, promotion, literal, or the output of the right kind of the upstream job |
| Payload.PersistJobOutputs | janus-server/src/scheduler.rs:924-1005 | Keeps every output under its kind with its artifact or value, or none when some artifact cannot be fetched and stored |
| TypeSafety.PersistedIsTyped | janus-server/src/scheduler.rs:924-1005 | A kept output has the kind it was registered with and a value of that kind |
| TypeSafety.KeptOutputsAreTyped | janus-server/src/scheduler.rs:439-506 | In every reachable state every output kept with a row has a value of its kind |
| TypeSafety.ResolvedValueIsTyped | janus-server/src/scheduler.rs:672-802 | A binding that passed the save-time check resolves, if at all, to a value of its kind |
| TypeSafety.PayloadTypeChecks | janus-runner/src/jobs/store.rs:551-662 | The payload of a job typed on saved and current schemas draws no complaint about names or types |
| TypeSafety.DispatchedInputsTypeCheck | janus-runner/src/jobs/store.rs:551-662 | Type safety under schema drift: save-time check, schema report, resolution and any history of runs together rule out MissingInput, UnknownInput and InvalidInputType at the runner |
| TypeSafety.KindMismatchIsUpstream | janus-server/src/scheduler.rs:755-766 | The kind check repeated at dispatch fails only for an output whose upstream run did not register it as declared |
| NonceReplay.AuthStore.VerifyNonce | janus-runner/src/auth.rs:161-178 | Prunes exactly what is older than the retention, then refuses or remembers the nonce |
| NonceReplay.AuthStore.VerifyRequest | janus-runner/src/auth.rs:126-159 | Accepts exactly a request with a trusted key, a timestamp within the radius, a proper nonce not used under that key within the retention, matching content and a valid signature; each refusal names its cause; the nonce is spent before content and signature are checked |
| NonceReplay.AcceptsExactlyWhen | janus-runner/src/auth.rs:126-178 | Acceptance in every history is exactly that |
| NonceReplay.ToleranceIsRadius | janus-runner/src/auth.rs:543-553 | Truncating ages to whole seconds accepts timestamps up to one tick less than a second beyond the tolerance, both ways |
| NonceReplay.NonceStaysRemembered | janus-runner/src/auth.rs:161-178 | A remembered nonce stays in memory with its time until the retention has passed, whatever is called meanwhile |
| NonceReplay.ReplaySafeExactlyWhen | janus-runner/src/auth.rs:126-178 | No key, nonce and timestamp is accepted twice in any history if and only if twice the accepted radius plus the time between the two clock readings fits the retention |
| NonceReplay.LessRetentionIsNot | janus-runner/src/auth.rs:126-178 | With less retention a two-call history accepts a request twice |
| NonceReplay.WholeSecondsAreSafe | janus-runner/src/auth.rs:29-30 | With 300 s of tolerance and 600 s of retention this holds on whole-second clocks read once a call, and on no other |
| NonceReplay.ReplayHasCause | janus-runner/src/auth.rs:161-178 | A request is refused as a replay only if the same key and nonce came through within the retention, given key ids without a colon |
| RateLimit.RateLimiter.PruneExpiredWindows | janus-runner/src/rate_limit.rs:79-85 | Drops exactly the windows that have reached the stale age |
| RateLimit.RateLimiter.Check | janus-runner/src/rate_limit.rs:31-62 | Prunes, opens or resets the window, counts and decides |
| RateLimit.LoginLimiter.AllowLoginAttempt | janus-server/src/app.rs:344-363 | The same decision and counting without pruning |
| RateLimit.PruningIsInvisible | janus-runner/src/rate_limit.rs:41-51 | In any history over one window length the pruning limiter decides every call as the one that never prunes, also when doubling the window overflows |
| RateLimit.SlidingWindowBound | janus-runner/src/rate_limit.rs:31-62 | Any half-open interval one window long lets through at most 2 * limit - 1 calls of a key, none if the limit is 0 |
| RateLimit.SlidingWindowBoundIsMet | janus-runner/src/rate_limit.rs:31-62 | Some history lets through exactly 2 * limit - 1 |
| RateLimit.PeriodBound | janus-runner/src/rate_limit.rs:31-62 | Every period lets through at most the limit, and the running one exactly what it counts |
| RateLimit.AllowedExactlyWhen | janus-runner/src/rate_limit.rs:31-62 | A call is let through if and only if the period it falls in has let through fewer than the limit |
| RateLimit.RefusedOnlyWhenFull | janus-runner/src/rate_limit.rs:31-62 | A call is refused only if the limit was let through within the last window length |
| Artifacts.ArtifactStore.StoreBytes | janus-runner/src/artifacts.rs:70-129 | Stores if and only if checksum policy, size and digest pass and every write goes through; the files left at each point of failure; the error names its cause |
| Artifacts.ArtifactStore.RecoverIncompleteArtifacts | janus-runner/src/artifacts.rs:173-200 | Removes exactly the directories without matching id, size and digest, and counts them |
| Artifacts.ArtifactStore.CleanupExpired | janus-runner/src/artifacts.rs:202-235 | Removes only expired artifacts, all of them unless it meets metadata it cannot read, and counts them |
| Artifacts.EventKeepsSound | janus-runner/src/artifacts.rs:70-279 | Every step of an upload, every sweep and every crash with recovery keeps the archive consistent and acknowledged artifacts as they were |
| Artifacts.LoadsExactlyWhen | janus-runner/src/artifacts.rs:141-164 | An artifact loads if and only if its id is proper, its metadata is there and parses, its expiry lies ahead and its blob is there; it loads as what is there; the errors exactly when |
| Artifacts.LoadsMatch | janus-runner/src/artifacts.rs:141-154 | After any history from any disk, what loads has the recorded size and digest |
| Artifacts.CompletedArtifactsSurvive | janus-runner/src/artifacts.rs:70-154 | An acknowledged artifact loads with the bytes stored, after any later history, until it expires |
| Artifacts.StoringIsUploading | janus-runner/src/artifacts.rs:70-129 | What StoreBytes leaves at each point of failure is what the matching events of the history leave |
| Artifacts.CleaningIsSweeping | janus-runner/src/artifacts.rs:202-235 | Every outcome CleanupExpired allows is that of a sweep of the history |
| Artifacts.RecoveryResumes | janus-runner/src/artifacts.rs:173-200 | Recovery is a projection, and one cut short is completed by the next |
| LogCapture.CaptureOutput | janus-runner/src/jobs/execution.rs:554-605 | The log is the first min(length, limit) bytes of the stream and the limit is signaled exactly when the stream is longer; a failed read or write counts only until then |
| LogCapture.CuttingIsImmaterial | janus-runner/src/jobs/execution.rs:554-605 | However a stream is cut into reads, it reads back as the same stream |

## Left out

- HTTP, TLS, SQL text, TOML and JSON parsing, logging, the web interface, sessions, CSRF, command lines and runner URL policy: rows and files are records in maps and sequences.
- Cryptography, UUIDs and dispatch-key text: arbitrary functions and fresh values. In the transition system every key is well formed; `JobStore.JobStore.CreateJob` refuses those that are not.
- Process control, environments, PATH and git: a supervised script ends in one of the outcomes of `RunnerJobs.Outcome`. A task that dies without finishing its run appears only as the listener missing in `JobStore.JobStore.CancelJob`.
- Push-event processing and branch patterns: glob semantics live in a library that is not part of this model.
- Progress: a re-dispatch uploads artifacts again, so its body may differ and be refused as an idempotency conflict, and an unresolvable input ends the whole pass. Safety and bounded writes are proved, not eventual completion.
- Interleavings inside a step: a cancel call that overtakes the end of its run between reading and writing the status file, or a pass working from a listing that another writer has changed since, is not modelled.
- Durations, log texts, stored input payloads, server-side artifact ids and the texts and order of schema differences: they influence nothing that is modelled.
- Database failures: each statement, or transaction of statements, is carried out unless the server stops before it. A server that stops while enqueueing, between creating a row and linking it to the one before, is not modelled.
- Paths of other operating systems: output and script paths are read as Unix paths.
- Server-side checks on promoted artifacts at enqueue time and their one-run selection: an artifact that cannot be found is an absent entry of `Payload.Sources`.
- Times in the protocol are ticks of one clock: `num_seconds` truncation in the watchdog is left out because its threshold is whole seconds. `NonceReplay` models the truncation.
- Loops over ordered maps visit entries in an arbitrary order, so where several errors are possible the model allows any of them; `JobInputs.ValidateInputs` takes the order as given and reports the first.
