/** The runner's half of the protocol: run directories on disk, runs in memory, and what every
    operation does to them. */
module RunnerJobs {
  import opened Wire
  import opened Manifests

  // ---------------------------------------------------------------------------------------------
  // State

  /** The contents of a run's metadata file. */
  datatype RunRecord = RunRecord(
    jobId: RunId,
    name: string,
    key: Key,
    requestHash: string,
    status: RunStatus,
    startedAt: Time,
    finishedAt: Option<Time>,
    exitCode: Option<int>,
    reason: Option<TerminalReason>,
    category: Option<FailureCategory>,
    outputs: map<string, RegisteredOutput>)

  /** A run directory: without metadata, with metadata that does not parse, or complete. */
  datatype RunDir = Bare | Unreadable | Recorded(record: RunRecord)

  type Disk = map<RunId, RunDir>

  /** How far the task behind a run has come: the script not yet spawned, spawned, or being
      terminated after the cancel signal was seen. */
  datatype TaskPhase = Starting | Executing | Terminating

  /** An entry of `running_jobs`; `execution` is the metadata the task holds. */
  datatype RunningJob = RunningJob(
    name: string, concurrency: Concurrency, cancelSignaled: bool, phase: TaskPhase, execution: RunRecord)

  type RunningJobs = map<RunId, RunningJob>

  datatype RunnerState = RunnerState(
    manifests: map<string, JobSchema>, disk: Disk, running: RunningJobs, shuttingDown: bool)

  datatype RunnerError =
    | ShuttingDown | UnknownJob | InvalidInputs | IdempotencyConflict | ConcurrencyConflict
    | StorageFailure | JobNotFound | JobNotRunning | InvalidLogLimit | InvalidIdempotencyKey | InvalidJobId

  function HttpStatus(e: RunnerError): nat {
    match e
    case ShuttingDown => 503
    case UnknownJob => 404
    case InvalidInputs => 400
    case IdempotencyConflict => 409
    case ConcurrencyConflict => 409
    case StorageFailure => 500
    case JobNotFound => 404
    case JobNotRunning => 409
    case InvalidLogLimit => 400
    case InvalidIdempotencyKey => 400
    case InvalidJobId => 400
  }

  // ---------------------------------------------------------------------------------------------
  // Admission

  /** What checking the inputs, and the log limit after them, comes to; an artifact's metadata may be there
      but not parse. */
  datatype InputCheck = InputsAccepted | InputsRejected | ArtifactUnreadable | LogLimitTooLarge

  datatype CreateRequest = CreateRequest(name: string, key: Key, requestHash: string, inputCheck: InputCheck)

  /** How preparing the run directory ends; the metadata file is written last and atomically. */
  datatype Setup = Complete | NothingMade | BareDirMade

  datatype CreatedRun = CreatedRun(runId: RunId, status: RunStatus, startedAt: Time)

  predicate ConcurrencyAllows(m: JobSchema, running: RunningJobs) {
    match m.concurrency
    case Parallel => forall j :: j in running ==> running[j].concurrency != GlobalExclusive
    case JobExclusive => forall j :: j in running ==> running[j].concurrency != GlobalExclusive && running[j].name != m.name
    case GlobalExclusive => running == map[]
  }

  function NewRecord(runId: RunId, m: JobSchema, req: CreateRequest, now: Time): RunRecord {
    RunRecord(runId, m.name, req.key, req.requestHash, RunStatus.Running, now, None, None, None, None, map[])
  }

  function ExistingRun(dir: RunDir, runId: RunId, req: CreateRequest): Result<CreatedRun, RunnerError> {
    if !dir.Recorded? then Err(StorageFailure)
    else if dir.record.jobId != runId || dir.record.name != req.name || dir.record.key != req.key
            || dir.record.requestHash != req.requestHash
    then Err(IdempotencyConflict)
    else Ok(CreatedRun(dir.record.jobId, dir.record.status, dir.record.startedAt))
  }

  function Create(r: RunnerState, runId: RunId, req: CreateRequest, setup: Setup, now: Time)
    : (RunnerState, Result<CreatedRun, RunnerError>)
  {
    if r.shuttingDown then (r, Err(ShuttingDown))
    else if req.name !in r.manifests then (r, Err(UnknownJob))
    else if req.inputCheck == InputsRejected then (r, Err(InvalidInputs))
    else if req.inputCheck == ArtifactUnreadable then (r, Err(StorageFailure))
    else if req.inputCheck == LogLimitTooLarge then (r, Err(InvalidLogLimit))
    else if runId in r.disk then (r, ExistingRun(r.disk[runId], runId, req))
    else if !ConcurrencyAllows(r.manifests[req.name], r.running) then (r, Err(ConcurrencyConflict))
    else
      match setup
      case NothingMade => (r.(running := r.running - {runId}), Err(StorageFailure))
      case BareDirMade => (r.(disk := r.disk[runId := Bare], running := r.running - {runId}), Err(StorageFailure))
      case Complete =>
        var m := r.manifests[req.name];
        var record := NewRecord(runId, m, req, now);
        (r.(disk := r.disk[runId := Recorded(record)],
            running := r.running[runId := RunningJob(m.name, m.concurrency, false, Starting, record)]),
         Ok(CreatedRun(runId, RunStatus.Running, now)))
  }

  // ---------------------------------------------------------------------------------------------
  // Status transitions while a run is alive

  /** The disk after `transition_metadata_status`; nothing changes unless the record is there, is not
      terminal, and matches `expected`. */
  function Transitioned(disk: Disk, runId: RunId, expected: Option<RunStatus>, next: RunStatus): Disk {
    if runId in disk && disk[runId].Recorded? && !disk[runId].record.status.IsTerminal()
       && (expected == None || disk[runId].record.status == expected.value)
    then disk[runId := Recorded(disk[runId].record.(status := next))]
    else disk
  }

  /** `stored` is whether the metadata write, if one is due, goes through. */
  function Cancel(r: RunnerState, runId: RunId, stored: bool): (RunnerState, Result<(), RunnerError>) {
    if runId in r.running then
      if runId !in r.disk || !r.disk[runId].Recorded? then (r, Err(StorageFailure))
      else if !stored && r.disk[runId].record.status == RunStatus.Running then (r, Err(StorageFailure))
      else
        (r.(disk := Transitioned(r.disk, runId, Some(RunStatus.Running), RunStatus.CancelRequested),
            running := r.running[runId := r.running[runId].(cancelSignaled := true)]),
         Ok(()))
    else if runId !in r.disk || r.disk[runId].Bare? then (r, Err(JobNotFound))
    else if r.disk[runId].Unreadable? then (r, Err(StorageFailure))
    else
      var s := r.disk[runId].record.status;
      if s == RunStatus.CancelRequested || s == RunStatus.Canceling || s == RunStatus.Canceled then (r, Ok(()))
      else (r, Err(JobNotRunning))
  }

  /** Every run in memory is signaled and, where its metadata could be written, marked. */
  function ShutDown(r: RunnerState, unstored: set<RunId>): RunnerState {
    RunnerState(
      r.manifests,
      map j | j in r.disk ::
        if j in r.running && j !in unstored
        then Transitioned(r.disk, j, Some(RunStatus.Running), RunStatus.CancelRequested)[j] else r.disk[j],
      map j | j in r.running :: r.running[j].(cancelSignaled := true),
      true)
  }

  function Spawn(r: RunnerState, runId: RunId): RunnerState
    requires runId in r.running
  {
    r.(running := r.running[runId := r.running[runId].(phase := Executing)])
  }

  function ObserveCancel(r: RunnerState, runId: RunId, stored: bool): RunnerState
    requires runId in r.running
  {
    r.(disk := if stored then Transitioned(r.disk, runId, None, RunStatus.Canceling) else r.disk,
       running := r.running[runId := r.running[runId].(phase := Terminating)])
  }

  // ---------------------------------------------------------------------------------------------
  // The end of a run

  /** How supervising the script ends. */
  datatype Outcome =
    | SpawnFailed | WaitFailed | CaptureFailed
    | Exited(success: bool, code: Option<int>) | RanOutOfTime | LogLimitHit | CancelObserved

  predicate OutcomePossible(job: RunningJob, o: Outcome) {
    match job.phase
    case Starting => o.SpawnFailed?
    case Executing => !o.CancelObserved?
    case Terminating => o.CancelObserved?
  }

  /** What supervision hands to `finish_job`: a conclusion, or the error it broke off with. */
  datatype Supervision =
    | Concluded(status: RunStatus, exitCode: Option<int>, reason: TerminalReason, category: Option<FailureCategory>)
    | BrokeOff(reason: TerminalReason)

  function Supervised(o: Outcome): Supervision {
    match o
    case SpawnFailed => BrokeOff(TerminalReason.SpawnError)
    case WaitFailed => BrokeOff(TerminalReason.WaitError)
    case CaptureFailed => BrokeOff(TerminalReason.CaptureError)
    case Exited(success, code) =>
      if success then Concluded(RunStatus.Success, code, TerminalReason.Success, None)
      else Concluded(RunStatus.Failed, code, TerminalReason.ExitCode, Some(FailureCategory.Job))
    case RanOutOfTime => Concluded(RunStatus.TimedOut, None, TerminalReason.Timeout, Some(FailureCategory.Timeout))
    case LogLimitHit => Concluded(RunStatus.Failed, None, TerminalReason.LogLimitExceeded, Some(FailureCategory.Infra))
    case CancelObserved => Concluded(RunStatus.Canceled, None, TerminalReason.Canceled, Some(FailureCategory.Canceled))
  }

  /** What `register_outputs` filled in before it ended, and the error it ended with. */
  datatype Registration = Registration(outputs: map<string, RegisteredOutput>, error: Option<OutputError>)

  function ClassifyTerminalReason(reason: TerminalReason, final: RunStatus): TerminalReason {
    match final
    case Success => TerminalReason.Success
    case TimedOut => TerminalReason.Timeout
    case Canceled => TerminalReason.Canceled
    case Rejected => TerminalReason.OutputRegistrationFailed
    case _ => reason
  }

  function ClassifyFailureCategory(category: Option<FailureCategory>, final: RunStatus): Option<FailureCategory> {
    match final
    case Success => None
    case TimedOut => Some(FailureCategory.Timeout)
    case Canceled => Some(FailureCategory.Canceled)
    case Failed => if category.Some? then category else Some(FailureCategory.Infra)
    case Rejected => if category.Some? then category else Some(FailureCategory.Infra)
    case _ => category
  }

  /** The record `finish_job` writes over the one the task was started with. */
  function FinishedRecord(start: RunRecord, s: Supervision, reg: Registration, now: Time): RunRecord {
    match s
    case BrokeOff(reason) =>
      start.(status := RunStatus.Failed, exitCode := None, finishedAt := Some(now),
             reason := Some(reason), category := Some(FailureCategory.Infra))
    case Concluded(status, exitCode, reason, category) =>
      var registers := status == RunStatus.Success;
      var failed := registers && reg.error.Some?;
      var final := if failed then RunStatus.Failed else status;
      var why := if !failed then reason
                 else if reg.error.value.OutputMissing? then TerminalReason.MissingRequiredOutput
                 else TerminalReason.OutputRegistrationFailed;
      var category' := if failed then Some(FailureCategory.Infra) else category;
      start.(status := final, exitCode := exitCode, finishedAt := Some(now),
             reason := Some(if final == RunStatus.Success then TerminalReason.Success
                            else ClassifyTerminalReason(why, final)),
             category := ClassifyFailureCategory(category', final),
             outputs := if registers then reg.outputs else start.outputs)
  }

  /** The run leaves memory whether or not its final record could be stored. */
  function FinishJob(r: RunnerState, runId: RunId, o: Outcome, reg: Registration, stored: bool, now: Time): RunnerState
    requires runId in r.running
  {
    r.(disk := if stored
               then r.disk[runId := Recorded(FinishedRecord(r.running[runId].execution, Supervised(o), reg, now))]
               else r.disk,
       running := r.running - {runId})
  }

  // ---------------------------------------------------------------------------------------------
  // Restart

  function RecoveredRecord(m: RunRecord, now: Time): RunRecord {
    match m.status
    case Running =>
      m.(status := RunStatus.Failed, finishedAt := Some(now), exitCode := None,
         reason := Some(TerminalReason.Shutdown), category := Some(FailureCategory.Infra))
    case CancelRequested =>
      m.(status := RunStatus.Canceled, finishedAt := Some(now), exitCode := None,
         reason := Some(TerminalReason.Shutdown), category := Some(FailureCategory.Canceled))
    case Canceling =>
      m.(status := RunStatus.Canceled, finishedAt := Some(now), exitCode := None,
         reason := Some(TerminalReason.Shutdown), category := Some(FailureCategory.Canceled))
    case _ => m
  }

  /** The disk after `recover_interrupted_jobs`. */
  function RecoveredDisk(disk: Disk, now: Time): Disk {
    map j | j in disk && disk[j].Recorded? :: Recorded(RecoveredRecord(disk[j].record, now))
  }

  /** A crash at any moment followed by a start with the given manifests. */
  function Restart(r: RunnerState, manifests: map<string, JobSchema>, now: Time): RunnerState {
    RunnerState(manifests, RecoveredDisk(r.disk, now), map[], false)
  }

  // ---------------------------------------------------------------------------------------------
  // Steps

  /** Everything that can happen to a runner other than this server's create calls. */
  datatype RunnerAct =
    | ForeignCreate(tag: nat, name: string, requestHash: string, inputCheck: InputCheck, setup: Setup, now: Time)
    | SpawnScript(runId: RunId)
    | CancelRun(runId: RunId, stored: bool)
    | SeeCancel(runId: RunId, stored: bool)
    | FinishRun(runId: RunId, outcome: Outcome, registration: Registration, stored: bool, now: Time)
    | BeginShutdown(unstored: set<RunId>)
    | CrashAndRestart(manifests: map<string, JobSchema>, now: Time)

  /** The directory name the runner derives from a key: a truncated digest, so not assumed injective. */
  type Naming = Key -> RunId

  /** An act that is not possible in the state it meets changes nothing. */
  function RunnerStep(idOf: Naming, r: RunnerState, act: RunnerAct): RunnerState {
    match act
    case ForeignCreate(tag, name, requestHash, inputCheck, setup, now) =>
      Create(r, idOf(Foreign(tag)), CreateRequest(name, Foreign(tag), requestHash, inputCheck), setup, now).0
    case SpawnScript(j) => if j in r.running && r.running[j].phase == Starting then Spawn(r, j) else r
    case CancelRun(j, stored) => Cancel(r, j, stored).0
    case SeeCancel(j, stored) =>
      if j in r.running && r.running[j].phase == Executing && r.running[j].cancelSignaled
      then ObserveCancel(r, j, stored) else r
    case FinishRun(j, outcome, registration, stored, now) =>
      if j in r.running && OutcomePossible(r.running[j], outcome)
      then FinishJob(r, j, outcome, registration, stored, now) else r
    case BeginShutdown(unstored) => ShutDown(r, unstored)
    case CrashAndRestart(manifests, now) => if WellFiled(manifests) then Restart(r, manifests, now) else r
  }

  /** The key whose script an act spawns. */
  function SpawnedBy(r: RunnerState, act: RunnerAct): Option<Key> {
    if act.SpawnScript? && act.runId in r.running && r.running[act.runId].phase == Starting
    then Some(r.running[act.runId].execution.key) else None
  }

  // ---------------------------------------------------------------------------------------------
  // Invariants

  predicate SameRun(a: RunRecord, b: RunRecord) {
    && a.jobId == b.jobId && a.name == b.name && a.key == b.key
    && a.requestHash == b.requestHash && a.startedAt == b.startedAt
  }

  /** A record as this code writes it, in directory `j`. */
  predicate RecordSound(idOf: Naming, j: RunId, m: RunRecord) {
    && m.jobId == j && j == idOf(m.key)
    && m.status != RunStatus.Rejected
    && (m.finishedAt.Some? <==> m.status.IsTerminal())
    && (m.reason.Some? <==> m.status.IsTerminal())
    && (!m.status.IsTerminal() ==> m.category == None && m.outputs == map[])
    && (m.status == RunStatus.Success <==> m.reason == Some(TerminalReason.Success))
    && (m.status == RunStatus.TimedOut <==> m.reason == Some(TerminalReason.Timeout))
    && (m.category == Some(FailureCategory.Job) <==> m.reason == Some(TerminalReason.ExitCode))
    && (m.category == Some(FailureCategory.Infra) ==> m.status == RunStatus.Failed)
    && (m.status == RunStatus.TimedOut || m.status == RunStatus.Canceled ==> m.outputs == map[])
    && (m.category == Some(FailureCategory.Job) ==> m.outputs == map[])
    && (m.reason == Some(TerminalReason.ExitCode) ==> m.status == RunStatus.Failed)
    && (m.status == RunStatus.TimedOut ==> m.category == Some(FailureCategory.Timeout))
  }

  /** A run in memory has a live record of its own on disk, and the concurrency of its manifest. */
  predicate EntrySound(manifests: map<string, JobSchema>, job: RunningJob, dir: RunDir) {
    && dir.Recorded?
    && SameRun(job.execution, dir.record)
    && !dir.record.status.IsTerminal()
    && job.execution == NewestOf(job.execution)
    && job.name in manifests && job.concurrency == manifests[job.name].concurrency
    && job.name == job.execution.name
    && (dir.record.status == RunStatus.Canceling ==> job.phase == Terminating)
  }

  /** A record as `create_job` first writes it. */
  function NewestOf(m: RunRecord): RunRecord {
    RunRecord(m.jobId, m.name, m.key, m.requestHash, RunStatus.Running, m.startedAt, None, None, None, None, map[])
  }

  /** Mutual exclusion: a global-exclusive run is alone, a job-exclusive one alone under its name. */
  predicate Exclusive(running: RunningJobs) {
    forall j, k :: j in running && k in running && j != k ==>
      && running[j].concurrency != GlobalExclusive
      && (running[j].concurrency == JobExclusive ==> running[k].name != running[j].name)
  }

  predicate DirSound(idOf: Naming, j: RunId, dir: RunDir) {
    dir.Recorded? ==> RecordSound(idOf, j, dir.record)
  }

  predicate DiskSound(idOf: Naming, disk: Disk) {
    forall j :: j in disk ==> DirSound(idOf, j, disk[j])
  }

  predicate MemorySound(r: RunnerState) {
    forall j :: j in r.running ==> j in r.disk && EntrySound(r.manifests, r.running[j], r.disk[j])
  }

  predicate RunnerSound(idOf: Naming, r: RunnerState) {
    && WellFiled(r.manifests)
    && Exclusive(r.running)
    && MemorySound(r)
    && DiskSound(idOf, r.disk)
  }

  // ---------------------------------------------------------------------------------------------
  // How a disk may evolve

  predicate RecordAdvances(a: RunRecord, b: RunRecord) {
    && SameRun(a, b)
    && a.status.Phase() <= b.status.Phase()
    && (a.status == RunStatus.Canceling ==> b.status == RunStatus.Canceling || b.status == RunStatus.Canceled)
    && (a.status.IsTerminal() ==> b == a)
  }

  /** Records are never lost, never change identity and never step back. */
  predicate DiskAdvances(d: Disk, d': Disk) {
    forall j :: j in d && d[j].Recorded? ==> j in d' && d'[j].Recorded? && RecordAdvances(d[j].record, d'[j].record)
  }

  /** Any record not there before was made for `key`. */
  predicate NewRecordsAreFor(d: Disk, d': Disk, key: Key) {
    forall j :: j in d' && d'[j].Recorded? ==>
      (j in d && d[j].Recorded? && SameRun(d[j].record, d'[j].record)) || d'[j].record.key == key
  }

  lemma AdmissionKeepsExclusion(manifests: map<string, JobSchema>, running: RunningJobs, j: RunId, job: RunningJob)
    requires WellFiled(manifests) && Exclusive(running) && j !in running
    requires forall k :: k in running ==>
               running[k].name in manifests && running[k].concurrency == manifests[running[k].name].concurrency
    requires job.name in manifests && job.concurrency == manifests[job.name].concurrency
    requires ConcurrencyAllows(manifests[job.name], running)
    ensures Exclusive(running[j := job])
  {
    var after := running[j := job];
    forall k, l | k in after && l in after && k != l
      ensures && after[k].concurrency != GlobalExclusive
              && (after[k].concurrency == JobExclusive ==> after[l].name != after[k].name)
    {
      assert k == j || k in running;
      assert l == j || l in running;
    }
  }

  lemma AdmissionKeepsSound(idOf: Naming, r: RunnerState, j: RunId, m: JobSchema, req: CreateRequest, now: Time)
    requires RunnerSound(idOf, r) && j == idOf(req.key) && j !in r.disk
    requires req.name in r.manifests && m == r.manifests[req.name] && ConcurrencyAllows(m, r.running)
    ensures
      var record := NewRecord(j, m, req, now);
      RunnerSound(idOf, r.(disk := r.disk[j := Recorded(record)],
                           running := r.running[j := RunningJob(m.name, m.concurrency, false, Starting, record)]))
  {
    var record := NewRecord(j, m, req, now);
    var job := RunningJob(m.name, m.concurrency, false, Starting, record);
    assert EntrySound(r.manifests, job, Recorded(record));
    assert DirSound(idOf, j, Recorded(record));
    AdmissionKeepsExclusion(r.manifests, r.running, j, job);
  }

  lemma CreateKeepsSound(idOf: Naming, r: RunnerState, req: CreateRequest, setup: Setup, now: Time)
    requires RunnerSound(idOf, r)
    ensures
      var (r', reply) := Create(r, idOf(req.key), req, setup, now);
      && RunnerSound(idOf, r')
      && DiskAdvances(r.disk, r'.disk)
      && NewRecordsAreFor(r.disk, r'.disk, req.key)
  {
    hide RecordSound, EntrySound, Exclusive;
    var j := idOf(req.key);
    var r' := Create(r, j, req, setup, now).0;
    if r' != r {
      assert r.running - {j} == r.running;
      if setup == Complete {
        AdmissionKeepsSound(idOf, r, j, r.manifests[req.name], req, now);
      }
    }
  }

  /** A create call answered with a run has left that run's record, under its own key, on disk. */
  lemma CreatedRunIsRecorded(idOf: Naming, r: RunnerState, req: CreateRequest, setup: Setup, now: Time)
    requires RunnerSound(idOf, r)
    ensures
      var j := idOf(req.key);
      var (r', reply) := Create(r, j, req, setup, now);
      reply.Ok? ==> && reply.value.runId == j
                    && j in r'.disk && r'.disk[j].Recorded?
                    && r'.disk[j].record.key == req.key && r'.disk[j].record.name == req.name
  {
  }

  lemma FinishedRecordSound(idOf: Naming, j: RunId, job: RunningJob, o: Outcome, reg: Registration, now: Time)
    requires job.execution == NewestOf(job.execution)
    requires job.execution.jobId == j && j == idOf(job.execution.key)
    ensures
      var m := FinishedRecord(job.execution, Supervised(o), reg, now);
      RecordSound(idOf, j, m) && SameRun(job.execution, m) && m.status.IsTerminal()
  {
  }

  /** A run whose record reads Canceling can only be finished as Canceled. */
  lemma CancelingEndsCanceled(manifests: map<string, JobSchema>, job: RunningJob, dir: RunDir, o: Outcome, reg: Registration, now: Time)
    requires EntrySound(manifests, job, dir) && OutcomePossible(job, o)
    ensures dir.Recorded? && dir.record.status == RunStatus.Canceling ==>
              FinishedRecord(job.execution, Supervised(o), reg, now).status == RunStatus.Canceled
  {
  }

  /** A directory left alone, or a live record marked further along. */
  predicate Marked(a: RunDir, b: RunDir) {
    || a == b
    || (&& a.Recorded? && b.Recorded? && b.record == a.record.(status := b.record.status)
        && a.record.status.Phase() <= b.record.status.Phase() <= 2)
  }

  /** A run in memory whose signal or phase changed. */
  predicate Signaled(a: RunningJob, b: RunningJob) {
    && b.name == a.name && b.concurrency == a.concurrency && b.execution == a.execution
    && (a.phase == Terminating ==> b.phase == Terminating)
  }

  /** A record is marked Canceling only along with its task moving to termination. */
  predicate MarkedInStep(dir: RunDir, dir': RunDir, b: RunningJob) {
    dir'.Recorded? && dir'.record.status == RunStatus.Canceling ==> dir' == dir || b.phase == Terminating
  }

  lemma MarkingKeepsExclusion(running: RunningJobs, running': RunningJobs)
    requires Exclusive(running) && running'.Keys == running.Keys
    requires forall j :: j in running ==> Signaled(running[j], running'[j])
    ensures Exclusive(running')
  {
    forall j, k | j in running' && k in running' && j != k
      ensures && running'[j].concurrency != GlobalExclusive
              && (running'[j].concurrency == JobExclusive ==> running'[k].name != running'[j].name)
    {
      assert j in running && k in running;
    }
  }

  lemma MarkedDirSound(idOf: Naming, j: RunId, a: RunDir, b: RunDir)
    requires DirSound(idOf, j, a) && Marked(a, b)
    ensures DirSound(idOf, j, b)
    ensures a.Recorded? ==> b.Recorded? && RecordAdvances(a.record, b.record)
  {
  }

  /** Signaling and marking runs, whatever the number. */
  lemma MarkingKeepsSound(idOf: Naming, r: RunnerState, r': RunnerState)
    requires RunnerSound(idOf, r)
    requires r'.manifests == r.manifests
    requires r'.running.Keys == r.running.Keys && r'.disk.Keys == r.disk.Keys
    requires forall j :: j in r.running ==> Signaled(r.running[j], r'.running[j])
    requires forall j :: j in r.disk ==> Marked(r.disk[j], r'.disk[j])
    requires forall j :: j in r.running && j in r.disk ==> MarkedInStep(r.disk[j], r'.disk[j], r'.running[j])
    ensures RunnerSound(idOf, r') && DiskAdvances(r.disk, r'.disk)
  {
    hide RecordSound, EntrySound, Exclusive, Marked, Signaled, MarkedInStep, RecordAdvances;
    MarkingKeepsExclusion(r.running, r'.running);
    forall j | j in r'.running ensures j in r'.disk && EntrySound(r'.manifests, r'.running[j], r'.disk[j]) {
      MarkedEntrySound(r.manifests, r.running[j], r'.running[j], r.disk[j], r'.disk[j]);
    }
    forall j | j in r'.disk ensures DirSound(idOf, j, r'.disk[j]) {
      MarkedDirSound(idOf, j, r.disk[j], r'.disk[j]);
    }
    forall j | j in r.disk && r.disk[j].Recorded?
      ensures r'.disk[j].Recorded? && RecordAdvances(r.disk[j].record, r'.disk[j].record)
    {
      MarkedDirSound(idOf, j, r.disk[j], r'.disk[j]);
    }
  }

  lemma MarkedEntrySound(manifests: map<string, JobSchema>, a: RunningJob, b: RunningJob, dir: RunDir, dir': RunDir)
    requires EntrySound(manifests, a, dir) && Signaled(a, b) && Marked(dir, dir') && MarkedInStep(dir, dir', b)
    ensures EntrySound(manifests, b, dir')
  {
  }

  lemma TransitionMarks(disk: Disk, j: RunId, expected: Option<RunStatus>, next: RunStatus)
    requires next.Phase() <= 2
    requires if expected.Some? then expected.value.Phase() <= next.Phase() else next == RunStatus.Canceling
    ensures Transitioned(disk, j, expected, next).Keys == disk.Keys
    ensures forall k :: k in disk ==> Marked(disk[k], Transitioned(disk, j, expected, next)[k])
  {
  }

  lemma CancelKeepsSound(idOf: Naming, r: RunnerState, j: RunId, stored: bool)
    requires RunnerSound(idOf, r)
    ensures
      var r' := Cancel(r, j, stored).0;
      RunnerSound(idOf, r') && DiskAdvances(r.disk, r'.disk) && r'.disk.Keys == r.disk.Keys
  {
    hide RecordSound, EntrySound, Exclusive;
    var r' := Cancel(r, j, stored).0;
    if r' != r {
      var d := Transitioned(r.disk, j, Some(RunStatus.Running), RunStatus.CancelRequested);
      TransitionMarks(r.disk, j, Some(RunStatus.Running), RunStatus.CancelRequested);
      assert r' == r.(disk := d, running := r.running[j := r.running[j].(cancelSignaled := true)]);
      MarkingKeepsSound(idOf, r, r');
    }
  }

  lemma ShutDownKeepsSound(idOf: Naming, r: RunnerState, unstored: set<RunId>)
    requires RunnerSound(idOf, r)
    ensures
      var r' := ShutDown(r, unstored);
      RunnerSound(idOf, r') && DiskAdvances(r.disk, r'.disk) && r'.disk.Keys == r.disk.Keys
  {
    hide RecordSound, EntrySound, Exclusive;
    var r' := ShutDown(r, unstored);
    forall j | j in r.disk ensures Marked(r.disk[j], r'.disk[j]) {
      TransitionMarks(r.disk, j, Some(RunStatus.Running), RunStatus.CancelRequested);
    }
    MarkingKeepsSound(idOf, r, r');
  }

  lemma SpawnKeepsSound(idOf: Naming, r: RunnerState, j: RunId)
    requires RunnerSound(idOf, r) && j in r.running && r.running[j].phase == Starting
    ensures RunnerSound(idOf, Spawn(r, j))
  {
    hide RecordSound, EntrySound, Exclusive;
    MarkingKeepsSound(idOf, r, Spawn(r, j));
  }

  lemma SeeCancelKeepsSound(idOf: Naming, r: RunnerState, j: RunId, stored: bool)
    requires RunnerSound(idOf, r) && j in r.running
    ensures
      var r' := ObserveCancel(r, j, stored);
      RunnerSound(idOf, r') && DiskAdvances(r.disk, r'.disk) && r'.disk.Keys == r.disk.Keys
  {
    hide RecordSound, EntrySound, Exclusive;
    TransitionMarks(r.disk, j, None, RunStatus.Canceling);
    MarkingKeepsSound(idOf, r, ObserveCancel(r, j, stored));
  }

  /** What the task behind a run in memory can rely on. */
  lemma LiveRun(idOf: Naming, r: RunnerState, j: RunId)
    requires RunnerSound(idOf, r) && j in r.running
    ensures
      && j in r.disk && r.disk[j].Recorded? && !r.disk[j].record.status.IsTerminal()
      && SameRun(r.running[j].execution, r.disk[j].record)
      && r.running[j].execution == NewestOf(r.running[j].execution)
      && r.running[j].execution.jobId == j && j == idOf(r.running[j].execution.key)
  {
    assert EntrySound(r.manifests, r.running[j], r.disk[j]);
    assert DirSound(idOf, j, r.disk[j]);
  }

  lemma FinishKeepsSound(idOf: Naming, r: RunnerState, j: RunId, o: Outcome, reg: Registration, stored: bool, now: Time)
    requires RunnerSound(idOf, r) && j in r.running && OutcomePossible(r.running[j], o)
    ensures
      var r' := FinishJob(r, j, o, reg, stored, now);
      RunnerSound(idOf, r') && DiskAdvances(r.disk, r'.disk) && r'.disk.Keys == r.disk.Keys
  {
    hide RecordSound, FinishedRecord, EntrySound;
    var r' := FinishJob(r, j, o, reg, stored, now);
    LiveRun(idOf, r, j);
    FinishedRecordSound(idOf, j, r.running[j], o, reg, now);
    CancelingEndsCanceled(r.manifests, r.running[j], r.disk[j], o, reg, now);
    assert Exclusive(r'.running) by {
      assert forall k :: k in r'.running ==> k in r.running && r'.running[k] == r.running[k];
    }
  }

  lemma RecoveredRecordSound(idOf: Naming, j: RunId, m: RunRecord, now: Time)
    requires RecordSound(idOf, j, m)
    ensures RecordSound(idOf, j, RecoveredRecord(m, now)) && RecordAdvances(m, RecoveredRecord(m, now))
  {
  }

  lemma RestartKeepsSound(idOf: Naming, r: RunnerState, manifests: map<string, JobSchema>, now: Time)
    requires RunnerSound(idOf, r) && WellFiled(manifests)
    ensures
      var r' := Restart(r, manifests, now);
      RunnerSound(idOf, r') && DiskAdvances(r.disk, r'.disk) && r'.disk.Keys <= r.disk.Keys
  {
    hide RecordSound, RecoveredRecord;
    var r' := Restart(r, manifests, now);
    forall j | j in r.disk && r.disk[j].Recorded?
      ensures RecordSound(idOf, j, RecoveredRecord(r.disk[j].record, now))
      ensures RecordAdvances(r.disk[j].record, RecoveredRecord(r.disk[j].record, now))
    {
      assert DirSound(idOf, j, r.disk[j]);
      RecoveredRecordSound(idOf, j, r.disk[j].record, now);
    }
  }

  /** No act of the runner breaks its invariant, loses or rewinds a record, or brings in a record
      under one of the server's keys. */
  lemma RunnerStepKeepsSound(idOf: Naming, r: RunnerState, act: RunnerAct)
    requires RunnerSound(idOf, r)
    ensures
      var r' := RunnerStep(idOf, r, act);
      && RunnerSound(idOf, r')
      && DiskAdvances(r.disk, r'.disk)
      && (act.ForeignCreate? || r'.disk.Keys <= r.disk.Keys)
      && (act.ForeignCreate? ==> NewRecordsAreFor(r.disk, r'.disk, Foreign(act.tag)))
  {
    hide RecordSound, FinishedRecord, RecoveredRecord, EntrySound, Exclusive;
    var r' := RunnerStep(idOf, r, act);
    match act
    case ForeignCreate(tag, name, requestHash, inputCheck, setup, now) =>
      CreateKeepsSound(idOf, r, CreateRequest(name, Foreign(tag), requestHash, inputCheck), setup, now);
    case FinishRun(j, outcome, registration, stored, now) =>
      if j in r.running && OutcomePossible(r.running[j], outcome) {
        FinishKeepsSound(idOf, r, j, outcome, registration, stored, now);
      }
    case CrashAndRestart(manifests, now) =>
      if WellFiled(manifests) {
        RestartKeepsSound(idOf, r, manifests, now);
      }
    case CancelRun(j, stored) =>
      CancelKeepsSound(idOf, r, j, stored);
    case BeginShutdown(unstored) =>
      ShutDownKeepsSound(idOf, r, unstored);
    case SpawnScript(j) =>
      if j in r.running && r.running[j].phase == Starting { SpawnKeepsSound(idOf, r, j); }
    case SeeCancel(j, stored) =>
      if j in r.running { SeeCancelKeepsSound(idOf, r, j, stored); }
  }

  // ---------------------------------------------------------------------------------------------
  // Recovery

  /** Recovery is a projection onto disks whose every directory holds a terminal record: it leaves
      terminal records alone, ends the others as the code prescribes, and has nothing to do twice. */
  lemma RecoveryIsProjection(disk: Disk, now: Time, later: Time)
    ensures
      var d := RecoveredDisk(disk, now);
      && (forall j :: j in d <==> j in disk && disk[j].Recorded?)
      && (forall j :: j in d ==> d[j].Recorded? && d[j].record.status.IsTerminal() && RecordAdvances(disk[j].record, d[j].record))
      && (forall j :: j in d && disk[j].record.status == RunStatus.Running ==>
            d[j].record.status == RunStatus.Failed && d[j].record.category == Some(FailureCategory.Infra))
      && (forall j :: j in d && !disk[j].record.status.IsTerminal() && disk[j].record.status != RunStatus.Running ==>
            d[j].record.status == RunStatus.Canceled && d[j].record.category == Some(FailureCategory.Canceled))
      && (forall j :: j in d && !disk[j].record.status.IsTerminal() ==>
            && d[j].record.reason == Some(TerminalReason.Shutdown) && d[j].record.finishedAt == Some(now)
            && d[j].record.exitCode == None && d[j].record.outputs == disk[j].record.outputs)
      && RecoveredDisk(d, later) == d
  {
  }

  /** The directories recovery changes or removes. */
  function NeedsRecovery(disk: Disk): set<RunId> {
    set j | j in disk && (!disk[j].Recorded? || !disk[j].record.status.IsTerminal())
  }

  /** Two records that differ in nothing but when they finished. */
  predicate SameButTime(a: RunRecord, b: RunRecord) {
    a.(finishedAt := None) == b.(finishedAt := None) && (a.finishedAt.Some? <==> b.finishedAt.Some?)
  }

  /** Recovery cut short after any of the directories, and started over at a later time, ends where one
      pass would: it leaves what the first start finished, and differs from one pass only in the finishing
      times of those. */
  lemma InterruptedRecovery(disk: Disk, first: set<RunId>, earlier: Time, now: Time)
    ensures
      var half := map j | j in disk && (j in first ==> disk[j].Recorded?) ::
                    if j in first then Recorded(RecoveredRecord(disk[j].record, earlier)) else disk[j];
      var resumed, whole := RecoveredDisk(half, now), RecoveredDisk(disk, now);
      && resumed.Keys == whole.Keys
      && (forall j :: j in resumed ==> SameButTime(resumed[j].record, whole[j].record))
      && (forall j :: j in resumed ==>
            resumed[j] == if j in first then Recorded(RecoveredRecord(disk[j].record, earlier)) else whole[j])
  {
  }
}
