/** The runner's job store as it is written, step by step: each method changes the fields in place and
    is proved to do what the transition system of `RunnerJobs` says. */
module JobStore {
  import opened Wire
  import opened Manifests
  import opened JobInputs
  import opened RunnerJobs
  import opened RunnerOutcomes

  const MAX_IDEMPOTENCY_KEY: nat := 128
  const BYTES_PER_MB: nat := 1024 * 1024
  const MAX_U64: nat := 0xFFFF_FFFF_FFFF_FFFF

  predicate ValidIdempotencyKey(text: string) {
    && text != "" && |text| <= MAX_IDEMPOTENCY_KEY
    && forall i :: 0 <= i < |text| ==>
         IsAsciiLetter(text[i]) || '0' <= text[i] <= '9' || text[i] == '-' || text[i] == '_'
  }

  /** The limit in bytes fits the width it is kept in. */
  predicate LogLimitFits(megabytes: nat) {
    megabytes * BYTES_PER_MB <= MAX_U64
  }

  predicate ValidJobId(id: RunId) {
    IsPrefixedHexId(id, "job_")
  }

  class JobStore {
    const manifests: map<string, JobSchema>
    var disk: Disk
    var running: RunningJobs
    var shuttingDown: bool

    function State(): RunnerState
      reads this
    {
      RunnerState(manifests, disk, running, shuttingDown)
    }

    /** A process starting on whatever disk the last one left. */
    constructor (manifests: map<string, JobSchema>, disk: Disk)
      ensures State() == RunnerState(manifests, disk, map[], false)
    {
      this.manifests, this.disk, this.running, this.shuttingDown := manifests, disk, map[], false;
    }

    // -------------------------------------------------------------------------------------------
    // Creating

    method EnforceConcurrency(m: JobSchema) returns (allowed: bool)
      ensures allowed <==> ConcurrencyAllows(m, running)
    {
      if m.concurrency == GlobalExclusive {
        return running == map[];
      }
      var ids := running.Keys;
      while ids != {}
        invariant ids <= running.Keys
        invariant forall j :: j in running && j !in ids ==>
                    && running[j].concurrency != GlobalExclusive
                    && (m.concurrency == JobExclusive ==> running[j].name != m.name)
        decreases |ids|
      {
        var j :| j in ids;
        if running[j].concurrency == GlobalExclusive || (m.concurrency == JobExclusive && running[j].name == m.name) {
          return false;
        }
        ids := ids - {j};
      }
      allowed := true;
    }

    /** `key` is the request's idempotency key and `keyText` how it is written, `runId` the name derived
        from it; `declared` and `given` are the orders the manifest's and the request's inputs are visited
        in; `setup` says how far preparing the directory gets. `check` is what the checks before the
        directory is looked at came to. */
    method CreateJob(env: Env, runId: RunId, name: string, key: Key, keyText: string, requestHash: string,
                     inputs: map<string, JsonValue>, declared: seq<string>, given: seq<string>, logLimitMb: nat,
                     setup: Setup, now: Time)
      returns (r: Result<CreatedRun, RunnerError>, check: InputCheck)
      requires name in manifests ==> Visits(declared, manifests[name].inputs.Keys)
      requires Visits(given, inputs.Keys)
      modifies this
      ensures (State(), r) ==
                if !old(shuttingDown) && !ValidIdempotencyKey(keyText) then (old(State()), Err(InvalidIdempotencyKey))
                else Create(old(State()), runId, CreateRequest(name, key, requestHash, check), setup, now)
      ensures name in manifests && !old(shuttingDown) && ValidIdempotencyKey(keyText) ==>
                && ((check == InputsAccepted || check == LogLimitTooLarge)
                    <==> forall e :: !Complaint(env, manifests[name], inputs, e))
                && (check == LogLimitTooLarge ==> !LogLimitFits(logLimitMb))
                && (check == InputsAccepted ==> LogLimitFits(logLimitMb))
                && (check == ArtifactUnreadable ==> exists input :: Complaint(env, manifests[name], inputs, ArtifactCorrupt(input)))
                && (check == InputsRejected ==> exists e :: Complaint(env, manifests[name], inputs, e) && !e.ArtifactCorrupt?)
    {
      hide Complaint, ConcurrencyAllows, ValidIdempotencyKey, Visits, FirstMissing, FirstUnknown, FirstRefused;
      check := InputsAccepted;
      if shuttingDown {
        return Err(ShuttingDown), check;
      }
      if !ValidIdempotencyKey(keyText) {
        return Err(InvalidIdempotencyKey), check;
      }
      if name !in manifests {
        return Err(UnknownJob), check;
      }
      var resolved := ValidateInputs(env, manifests[name], inputs, declared, given);
      if resolved.Err? {
        if resolved.error.ArtifactCorrupt? {
          return Err(StorageFailure), ArtifactUnreadable;
        }
        return Err(InvalidInputs), InputsRejected;
      }
      if !LogLimitFits(logLimitMb) {
        return Err(InvalidLogLimit), LogLimitTooLarge;
      }
      var m, req := manifests[name], CreateRequest(name, key, requestHash, check);
      if runId in disk {
        return ExistingRun(disk[runId], runId, req), check;
      }
      var record := NewRecord(runId, m, req, now);
      var allowed := EnforceConcurrency(m);
      if !allowed {
        return Err(ConcurrencyConflict), check;
      }
      running := running[runId := RunningJob(m.name, m.concurrency, false, Starting, record)];
      match setup
      case Complete =>
        disk := disk[runId := Recorded(record)];
        r := Ok(CreatedRun(runId, RunStatus.Running, now));
      case BareDirMade =>
        disk := disk[runId := Bare];
        running := running - {runId};
        assert running == old(running) - {runId};
        r := Err(StorageFailure);
      case NothingMade =>
        running := running - {runId};
        assert running == old(running) - {runId};
        r := Err(StorageFailure);
    }

    // -------------------------------------------------------------------------------------------
    // Canceling

    /** Read, check, write back; `stored` is whether the write goes through. */
    method TransitionMetadataStatus(runId: RunId, expected: Option<RunStatus>, next: RunStatus, stored: bool)
      returns (ok: bool)
      modifies `disk
      ensures disk == if stored then Transitioned(old(disk), runId, expected, next) else old(disk)
      ensures ok <==> runId in old(disk) && old(disk)[runId].Recorded?
                      && (stored || Transitioned(old(disk), runId, expected, next) == old(disk))
    {
      if runId !in disk || !disk[runId].Recorded? {
        return false;
      }
      var record := disk[runId].record;
      if record.status.IsTerminal() {
        return true;
      }
      if expected.Some? && record.status != expected.value {
        return true;
      }
      if record.status == next {
        assert disk[runId := Recorded(record.(status := next))] == disk;
        return true;
      }
      ghost var after := Transitioned(disk, runId, expected, next);
      assert after[runId].record.status != disk[runId].record.status;
      if stored {
        disk := disk[runId := Recorded(record.(status := next))];
      }
      ok := stored;
    }

    /** `listening` is whether the run's task still holds its end of the signal. When it does not, the
        record is marked all the same, and the caller is told the run is not running. */
    method CancelJob(runId: RunId, stored: bool, listening: bool) returns (r: Result<(), RunnerError>)
      modifies this
      ensures
        var (after, reply) := Cancel(old(State()), runId, stored);
        if !ValidJobId(runId) then State() == old(State()) && r == Err(InvalidJobId)
        else if runId in old(running) && reply.Ok? && !listening then
          State() == old(State()).(disk := after.disk) && r == Err(JobNotRunning)
        else (State(), r) == (after, reply)
    {
      hide ValidJobId;
      if !ValidJobId(runId) {
        return Err(InvalidJobId);
      }
      if runId !in running {
        if runId !in disk || disk[runId].Bare? {
          return Err(JobNotFound);
        }
        if disk[runId].Unreadable? {
          return Err(StorageFailure);
        }
        var s := disk[runId].record.status;
        return if s == RunStatus.CancelRequested || s == RunStatus.Canceling || s == RunStatus.Canceled
               then Ok(()) else Err(JobNotRunning);
      }
      var ok := TransitionMetadataStatus(runId, Some(RunStatus.Running), RunStatus.CancelRequested, stored);
      if !ok {
        return Err(StorageFailure);
      }
      if !listening {
        return Err(JobNotRunning);
      }
      running := running[runId := running[runId].(cancelSignaled := true)];
      r := Ok(());
    }

    /** Closes the door, then marks and signals every run; a mark that cannot be stored is skipped. */
    method BeginShutdown(unstored: set<RunId>) returns (count: nat)
      modifies this
      ensures State() == ShutDown(old(State()), unstored)
      ensures count == |old(running)|
    {
      hide Transitioned, ShutDownExcept, ShutDown;
      ghost var before := State();
      shuttingDown := true;
      var ids := running.Keys;
      count := |ids|;
      ShutDownBegins(before, unstored);
      while ids != {}
        invariant ids <= before.running.Keys
        invariant State() == ShutDownExcept(before, unstored, ids)
        decreases |ids|
      {
        var j :| j in ids;
        ShutDownAdvances(before, unstored, ids, j);
        var ok := TransitionMetadataStatus(j, Some(RunStatus.Running), RunStatus.CancelRequested, j !in unstored);
        running := running[j := running[j].(cancelSignaled := true)];
        ids := ids - {j};
      }
      ShutDownEnds(before, unstored);
    }

    // -------------------------------------------------------------------------------------------
    // Running

    method SpawnScript(runId: RunId)
      requires runId in running
      modifies `running
      ensures State() == Spawn(old(State()), runId)
    {
      running := running[runId := running[runId].(phase := Executing)];
    }

    /** The task sees its cancel signal; marking the metadata may fail and is not retried. */
    method SeeCancel(runId: RunId, stored: bool)
      requires runId in running
      modifies this
      ensures State() == ObserveCancel(old(State()), runId, stored)
    {
      var ok := TransitionMetadataStatus(runId, None, RunStatus.Canceling, stored);
      running := running[runId := running[runId].(phase := Terminating)];
    }

    /** A script that succeeded has its outputs registered; whatever the outcome, the run's record is
        written if it can be and the run leaves memory. */
    method FinishRun(runId: RunId, outcome: Outcome, specs: map<string, OutputSpec>, files: map<string, OutputFile>,
                     stored: bool, now: Time)
      returns (registration: Registration)
      requires runId in running && files.Keys == specs.Keys
      modifies this
      ensures State() == FinishJob(old(State()), runId, outcome, registration, stored, now)
      ensures stored ==> runId in disk && disk[runId].Recorded? &&
                         EndedAs(old(running)[runId].execution, outcome, registration, now, disk[runId].record)
      ensures outcome.Exited? && outcome.success ==>
                && Conforms(specs, files, registration.outputs)
                && (registration.error == None <==> forall name :: name in specs ==> Readable(name, specs[name], files[name]))
                && (registration.error == None ==> registration.outputs.Keys == set name | name in specs && !files[name].Absent?)
    {
      hide Conforms, Readable, ClassifyTerminalReason, ClassifyFailureCategory, EndedAs;
      var start := running[runId].execution;
      var s := Supervised(outcome);
      registration := Registration(map[], None);
      var record: RunRecord;
      match s {
        case BrokeOff(reason) =>
          record := start.(status := RunStatus.Failed, exitCode := None, finishedAt := Some(now),
                           reason := Some(reason), category := Some(FailureCategory.Infra));
        case Concluded(status, exitCode, reason, category) =>
          var final, why, blame := status, reason, category;
          if status == RunStatus.Success {
            var outputs, error := RegisterOutputs(specs, files);
            registration := Registration(outputs, error);
            start := start.(outputs := outputs);
            if error.Some? {
              final, blame := RunStatus.Failed, Some(FailureCategory.Infra);
              why := if error.value.OutputMissing? then TerminalReason.MissingRequiredOutput
                     else TerminalReason.OutputRegistrationFailed;
            }
          }
          record := start.(status := final, exitCode := exitCode, finishedAt := Some(now),
                           reason := Some(if final == RunStatus.Success then TerminalReason.Success
                                          else ClassifyTerminalReason(why, final)),
                           category := ClassifyFailureCategory(blame, final));
      }
      FinishedAs(old(running)[runId].execution, outcome, registration, now);
      if stored {
        disk := disk[runId := Recorded(record)];
      }
      running := running - {runId};
    }

    // -------------------------------------------------------------------------------------------
    // Starting up again

    /** Removes directories without a readable record, ends interrupted runs, and counts both. */
    method RecoverInterruptedJobs(now: Time) returns (recovered: nat)
      modifies `disk
      ensures disk == RecoveredDisk(old(disk), now)
      ensures recovered == |NeedsRecovery(old(disk))|
    {
      hide RecoveredRecord, RecoveredExcept, RecoveredDisk;
      ghost var before := disk;
      recovered := 0;
      var ids := disk.Keys;
      RecoveryBegins(before, now);
      while ids != {}
        invariant ids <= before.Keys
        invariant disk == RecoveredExcept(before, ids, now)
        invariant recovered + |NeedsRecovery(before) * ids| == |NeedsRecovery(before)|
        decreases |ids|
      {
        var j :| j in ids;
        RecoveryAdvances(before, ids, j, now);
        ids := ids - {j};
        if !disk[j].Recorded? {
          disk, recovered := disk - {j}, recovered + 1;
        } else if !disk[j].record.status.IsTerminal() {
          disk, recovered := disk[j := Recorded(RecoveredRecord(disk[j].record, now))], recovered + 1;
        }
      }
      RecoveryEnds(before, now);
    }
  }

  // ---------------------------------------------------------------------------------------------
  // Loops over the runs, halfway through

  /** `ShutDown` with the runs in `ids` still to do. */
  ghost function ShutDownExcept(r: RunnerState, unstored: set<RunId>, ids: set<RunId>): RunnerState {
    RunnerState(
      r.manifests,
      map j | j in r.disk ::
        if j in r.running && j !in ids && j !in unstored
        then Transitioned(r.disk, j, Some(RunStatus.Running), RunStatus.CancelRequested)[j] else r.disk[j],
      map j | j in r.running :: if j in ids then r.running[j] else r.running[j].(cancelSignaled := true),
      true)
  }

  lemma ShutDownBegins(r: RunnerState, unstored: set<RunId>)
    ensures ShutDownExcept(r, unstored, r.running.Keys) == r.(shuttingDown := true)
  {
    hide Transitioned;
    assert ShutDownExcept(r, unstored, r.running.Keys).disk == r.disk;
    assert ShutDownExcept(r, unstored, r.running.Keys).running == r.running;
  }

  lemma ShutDownAdvances(r: RunnerState, unstored: set<RunId>, ids: set<RunId>, j: RunId)
    requires j in ids && ids <= r.running.Keys
    ensures
      var half := ShutDownExcept(r, unstored, ids);
      && j in half.running
      && ShutDownExcept(r, unstored, ids - {j}) ==
           half.(disk := if j in unstored then half.disk
                         else Transitioned(half.disk, j, Some(RunStatus.Running), RunStatus.CancelRequested),
                 running := half.running[j := half.running[j].(cancelSignaled := true)])
  {
    var half, next := ShutDownExcept(r, unstored, ids), ShutDownExcept(r, unstored, ids - {j});
    assert next.running == half.running[j := half.running[j].(cancelSignaled := true)];
    if j in r.disk {
      assert half.disk[j] == r.disk[j];
    }
    assert next.disk == if j in unstored then half.disk
                        else Transitioned(half.disk, j, Some(RunStatus.Running), RunStatus.CancelRequested);
  }

  lemma ShutDownEnds(r: RunnerState, unstored: set<RunId>)
    ensures ShutDownExcept(r, unstored, {}) == ShutDown(r, unstored)
  {
    hide Transitioned;
    assert ShutDownExcept(r, unstored, {}).disk == ShutDown(r, unstored).disk;
    assert ShutDownExcept(r, unstored, {}).running == ShutDown(r, unstored).running;
  }

  /** `RecoveredDisk` with the directories in `ids` still to do. */
  ghost function RecoveredExcept(disk: Disk, ids: set<RunId>, now: Time): Disk {
    map j | j in disk && (j in ids || disk[j].Recorded?) ::
      if j in ids then disk[j] else Recorded(RecoveredRecord(disk[j].record, now))
  }

  lemma RecoveryBegins(disk: Disk, now: Time)
    ensures RecoveredExcept(disk, disk.Keys, now) == disk
    ensures NeedsRecovery(disk) * disk.Keys == NeedsRecovery(disk)
  {
  }

  lemma RecoveryAdvances(disk: Disk, ids: set<RunId>, j: RunId, now: Time)
    requires j in ids && ids <= disk.Keys
    ensures
      var half := RecoveredExcept(disk, ids, now);
      && j in half && half[j] == disk[j]
      && RecoveredExcept(disk, ids - {j}, now) ==
           if !half[j].Recorded? then half - {j}
           else if !half[j].record.status.IsTerminal() then half[j := Recorded(RecoveredRecord(half[j].record, now))]
           else half
    ensures
      |NeedsRecovery(disk) * ids| ==
        |NeedsRecovery(disk) * (ids - {j})| + if disk[j].Recorded? && disk[j].record.status.IsTerminal() then 0 else 1
  {
    if disk[j].Recorded? && disk[j].record.status.IsTerminal() {
      FinishedNeedsNoRecovery(disk[j].record, now);
      assert NeedsRecovery(disk) * (ids - {j}) == NeedsRecovery(disk) * ids;
    } else {
      assert NeedsRecovery(disk) * (ids - {j}) == NeedsRecovery(disk) * ids - {j};
    }
  }

  lemma RecoveryEnds(disk: Disk, now: Time)
    ensures RecoveredExcept(disk, {}, now) == RecoveredDisk(disk, now)
    ensures NeedsRecovery(disk) * {} == {}
  {
  }

  lemma FinishedNeedsNoRecovery(m: RunRecord, now: Time)
    requires m.status.IsTerminal()
    ensures RecoveredRecord(m, now) == m
  {
  }
}
