/** What the runner answers to a call and what it leaves behind, told case by case from its records, its
    runs in memory and what happened to the script. */
module RunnerOutcomes {
  import opened Wire
  import opened Manifests
  import opened RunnerJobs

  // ---------------------------------------------------------------------------------------------
  // Create calls

  /** The directory holds a run asked for in the same words: the same job, key and body. */
  predicate AskedAlike(dir: RunDir, runId: RunId, req: CreateRequest) {
    && dir.Recorded? && dir.record.jobId == runId && dir.record.name == req.name
    && dir.record.key == req.key && dir.record.requestHash == req.requestHash
  }

  /** The runner is open, offers the job and has nothing against the inputs. */
  predicate Entertains(r: RunnerState, req: CreateRequest) {
    !r.shuttingDown && req.name in r.manifests && req.inputCheck == InputsAccepted
  }

  /** A key seen before is answered with its run exactly when it is asked for in the same words; asked for
      in others it is a conflict. Either way nothing changes. */
  lemma RepeatedKey(r: RunnerState, runId: RunId, req: CreateRequest, setup: Setup, now: Time)
    requires Entertains(r, req) && runId in r.disk
    ensures
      var (r', reply) := Create(r, runId, req, setup, now);
      && r' == r
      && (reply.Ok? <==> AskedAlike(r.disk[runId], runId, req))
      && (reply.Ok? ==> reply.value == CreatedRun(runId, r.disk[runId].record.status, r.disk[runId].record.startedAt))
      && (reply == Err(IdempotencyConflict) <==> r.disk[runId].Recorded? && !AskedAlike(r.disk[runId], runId, req))
      && (reply == Err(StorageFailure) <==> !r.disk[runId].Recorded?)
  {
  }

  /** The record and the run in memory of a job just admitted. */
  predicate Admitted(r: RunnerState, runId: RunId, req: CreateRequest, now: Time, r': RunnerState)
    requires req.name in r.manifests
  {
    && r'.manifests == r.manifests && r'.shuttingDown == r.shuttingDown
    && r'.disk.Keys == r.disk.Keys + {runId} && r'.running.Keys == r.running.Keys + {runId}
    && (forall j :: j in r.disk && j != runId ==> r'.disk[j] == r.disk[j])
    && (forall j :: j in r.running && j != runId ==> r'.running[j] == r.running[j])
    && var dir, job := r'.disk[runId], r'.running[runId];
       && dir.Recorded? && dir.record == job.execution
       && dir.record.jobId == runId && dir.record.name == r.manifests[req.name].name && dir.record.key == req.key
       && dir.record.requestHash == req.requestHash
       && dir.record.status == RunStatus.Running && dir.record.startedAt == now
       && dir.record.finishedAt == None && dir.record.exitCode == None && dir.record.reason == None
       && dir.record.category == None && dir.record.outputs == map[]
       && job.name == r.manifests[req.name].name && job.concurrency == r.manifests[req.name].concurrency
       && !job.cancelSignaled && job.phase == Starting
  }

  /** A new key is admitted exactly when the concurrency guard lets it and its directory is prepared. */
  lemma NewKey(r: RunnerState, runId: RunId, req: CreateRequest, setup: Setup, now: Time)
    requires Entertains(r, req) && runId !in r.disk && runId !in r.running
    ensures
      var (r', reply) := Create(r, runId, req, setup, now);
      var free := ConcurrencyAllows(r.manifests[req.name], r.running);
      && (reply.Ok? <==> free && setup == Complete)
      && (reply == Err(ConcurrencyConflict) <==> !free)
      && (reply == Err(StorageFailure) <==> free && setup != Complete)
      && (reply.Ok? ==> reply.value == CreatedRun(runId, RunStatus.Running, now) && Admitted(r, runId, req, now, r'))
      && (reply.Err? ==> r' == if free && setup == BareDirMade then r.(disk := r.disk[runId := Bare]) else r)
  {
    assert r.running - {runId} == r.running;
  }

  /** Every other call is refused for the first of these reasons that applies, and changes nothing. */
  lemma NotEntertained(r: RunnerState, runId: RunId, req: CreateRequest, setup: Setup, now: Time)
    requires !Entertains(r, req)
    ensures
      var (r', reply) := Create(r, runId, req, setup, now);
      && r' == r && reply.Err?
      && (reply.error == ShuttingDown <==> r.shuttingDown)
      && (reply.error == UnknownJob <==> !r.shuttingDown && req.name !in r.manifests)
      && (reply.error == InvalidInputs <==>
            !r.shuttingDown && req.name in r.manifests && req.inputCheck == InputsRejected)
      && (reply.error == StorageFailure <==>
            !r.shuttingDown && req.name in r.manifests && req.inputCheck == ArtifactUnreadable)
      && (reply.error == InvalidLogLimit <==>
            !r.shuttingDown && req.name in r.manifests && req.inputCheck == LogLimitTooLarge)
  {
  }

  /** The concurrency guard refuses nothing it need not: it lets a job in exactly when mutual exclusion
      survives it. */
  lemma GuardIsExclusion(manifests: map<string, JobSchema>, running: RunningJobs, j: RunId, job: RunningJob)
    requires WellFiled(manifests) && Exclusive(running) && j !in running
    requires forall k :: k in running ==>
               running[k].name in manifests && running[k].concurrency == manifests[running[k].name].concurrency
    requires job.name in manifests && job.concurrency == manifests[job.name].concurrency
    ensures ConcurrencyAllows(manifests[job.name], running) <==> Exclusive(running[j := job])
  {
    var after := running[j := job];
    if ConcurrencyAllows(manifests[job.name], running) {
      AdmissionKeepsExclusion(manifests, running, j, job);
    } else if k :| k in running && (|| running[k].concurrency == GlobalExclusive || job.concurrency == GlobalExclusive
                                    || (job.concurrency == JobExclusive && running[k].name == job.name)) {
      assert k in after && j in after && k != j && after[k] == running[k] && after[j] == job;
    }
  }

  // ---------------------------------------------------------------------------------------------
  // Cancel calls and shutdown

  predicate InCancellation(s: RunStatus) {
    s == RunStatus.CancelRequested || s == RunStatus.Canceling || s == RunStatus.Canceled
  }

  /** The run's record can be read, and either the run is in memory and its mark can be stored, or it is
      being canceled, or was, already. */
  predicate TakesCancel(r: RunnerState, runId: RunId, stored: bool) {
    && runId in r.disk && r.disk[runId].Recorded?
    && if runId in r.running then stored || r.disk[runId].record.status != RunStatus.Running
       else InCancellation(r.disk[runId].record.status)
  }

  /** The run is told, and its record, if it read Running, reads CancelRequested; nothing else changes. */
  predicate Told(r: RunnerState, runId: RunId, r': RunnerState)
    requires runId in r.running && runId in r.disk && r.disk[runId].Recorded?
  {
    && r'.manifests == r.manifests && r'.shuttingDown == r.shuttingDown
    && r'.disk.Keys == r.disk.Keys && r'.running.Keys == r.running.Keys
    && (forall j :: j in r.disk && j != runId ==> r'.disk[j] == r.disk[j])
    && (forall j :: j in r.running && j != runId ==> r'.running[j] == r.running[j])
    && r'.running[runId] == r.running[runId].(cancelSignaled := true)
    && r'.disk[runId] == if r.disk[runId].record.status == RunStatus.Running
                         then Recorded(r.disk[runId].record.(status := RunStatus.CancelRequested)) else r.disk[runId]
  }

  lemma CancelAnswers(r: RunnerState, runId: RunId, stored: bool)
    ensures
      var (r', reply) := Cancel(r, runId, stored);
      && (reply.Ok? <==> TakesCancel(r, runId, stored))
      && (if reply.Ok? && runId in r.running then Told(r, runId, r') else r' == r)
      && (reply == Err(JobNotFound) <==> runId !in r.running && (runId !in r.disk || r.disk[runId].Bare?))
      && (reply == Err(JobNotRunning) <==>
            && runId !in r.running && runId in r.disk && r.disk[runId].Recorded?
            && !InCancellation(r.disk[runId].record.status))
      && (reply.Err? ==> reply.error == JobNotFound || reply.error == JobNotRunning || reply.error == StorageFailure)
  {
  }

  /** Shutting down closes the door, tells every run in memory, and marks those whose mark can be stored. */
  lemma ShutDownTellsAll(r: RunnerState, unstored: set<RunId>)
    ensures
      var r' := ShutDown(r, unstored);
      && r'.shuttingDown && r'.manifests == r.manifests
      && r'.disk.Keys == r.disk.Keys && r'.running.Keys == r.running.Keys
      && (forall j :: j in r.running ==> r'.running[j] == r.running[j].(cancelSignaled := true))
      && (forall j :: j in r.disk ==>
            r'.disk[j] == if j in r.running && j !in unstored
                             && r.disk[j].Recorded? && r.disk[j].record.status == RunStatus.Running
                          then Recorded(r.disk[j].record.(status := RunStatus.CancelRequested)) else r.disk[j])
  {
  }

  /** A task that sees its signal is on its way to termination, and says so if it can. */
  lemma SeeingCancel(r: RunnerState, runId: RunId, stored: bool)
    requires runId in r.running && runId in r.disk && r.disk[runId].Recorded? && !r.disk[runId].record.status.IsTerminal()
    ensures
      var r' := ObserveCancel(r, runId, stored);
      && r'.running == r.running[runId := r.running[runId].(phase := Terminating)]
      && r'.disk == (if stored then r.disk[runId := Recorded(r.disk[runId].record.(status := RunStatus.Canceling))] else r.disk)
      && r'.manifests == r.manifests && r'.shuttingDown == r.shuttingDown
  {
  }

  /** A start, after whatever stop, opens the door again, with nothing in memory and the disk recovered. */
  lemma RestartOpens(r: RunnerState, manifests: map<string, JobSchema>, now: Time)
    ensures
      var r' := Restart(r, manifests, now);
      && !r'.shuttingDown && r'.running == map[] && r'.manifests == manifests
      && r'.disk.Keys == (set j | j in r.disk && r.disk[j].Recorded?)
  {
  }

  // ---------------------------------------------------------------------------------------------
  // The end of a run

  predicate ExitedWell(o: Outcome) {
    o.Exited? && o.success
  }

  /** The record of a run that has ended so: each status, reason and category exactly when. Only a script
      that exited well has its outputs registered, and it has succeeded only if all of them were. */
  predicate EndedAs(start: RunRecord, o: Outcome, reg: Registration, now: Time, m: RunRecord) {
    var missing := ExitedWell(o) && reg.error.Some? && reg.error.value.OutputMissing?;
    var unreadable := ExitedWell(o) && reg.error.Some? && !reg.error.value.OutputMissing?;
    && SameRun(start, m) && m.finishedAt == Some(now)
    && (m.status == RunStatus.Success <==> ExitedWell(o) && reg.error == None)
    && (m.status == RunStatus.TimedOut <==> o.RanOutOfTime?)
    && (m.status == RunStatus.Canceled <==> o.CancelObserved?)
    && (m.status == RunStatus.Failed <==>
          || o.SpawnFailed? || o.WaitFailed? || o.CaptureFailed? || o.LogLimitHit? || missing || unreadable
          || (o.Exited? && !o.success))
    && m.exitCode == (if o.Exited? then o.code else None)
    && (m.reason == Some(TerminalReason.Success) <==> m.status == RunStatus.Success)
    && (m.reason == Some(TerminalReason.ExitCode) <==> o.Exited? && !o.success)
    && (m.reason == Some(TerminalReason.Timeout) <==> o.RanOutOfTime?)
    && (m.reason == Some(TerminalReason.Canceled) <==> o.CancelObserved?)
    && (m.reason == Some(TerminalReason.SpawnError) <==> o.SpawnFailed?)
    && (m.reason == Some(TerminalReason.WaitError) <==> o.WaitFailed?)
    && (m.reason == Some(TerminalReason.CaptureError) <==> o.CaptureFailed?)
    && (m.reason == Some(TerminalReason.LogLimitExceeded) <==> o.LogLimitHit?)
    && (m.reason == Some(TerminalReason.MissingRequiredOutput) <==> missing)
    && (m.reason == Some(TerminalReason.OutputRegistrationFailed) <==> unreadable)
    && (m.category == None <==> m.status == RunStatus.Success)
    && (m.category == Some(FailureCategory.Job) <==> o.Exited? && !o.success)
    && (m.category == Some(FailureCategory.Timeout) <==> o.RanOutOfTime?)
    && (m.category == Some(FailureCategory.Canceled) <==> o.CancelObserved?)
    && m.outputs == (if ExitedWell(o) then reg.outputs else start.outputs)
  }

  lemma FinishedAs(start: RunRecord, o: Outcome, reg: Registration, now: Time)
    ensures EndedAs(start, o, reg, now, FinishedRecord(start, Supervised(o), reg, now))
  {
  }

  /** However a run ends, its record says so, if it can be stored, and the run leaves memory. */
  lemma FinishOutcome(r: RunnerState, runId: RunId, o: Outcome, reg: Registration, stored: bool, now: Time)
    requires runId in r.running
    ensures
      var r' := FinishJob(r, runId, o, reg, stored, now);
      && r'.running == r.running - {runId} && r'.manifests == r.manifests && r'.shuttingDown == r.shuttingDown
      && (!stored ==> r'.disk == r.disk)
      && (stored ==>
            && r'.disk.Keys == r.disk.Keys + {runId} && (forall j :: j in r.disk && j != runId ==> r'.disk[j] == r.disk[j])
            && r'.disk[runId].Recorded? && EndedAs(r.running[runId].execution, o, reg, now, r'.disk[runId].record))
  {
    FinishedAs(r.running[runId].execution, o, reg, now);
    hide EndedAs, FinishedRecord, Supervised;
  }
}
