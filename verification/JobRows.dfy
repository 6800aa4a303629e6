/** The job and pipeline rows, and every update the scheduler can make to them. */
module JobRows {
  import opened Wire
  import opened StateMachine

  /** A persisted output of a job run. */
  datatype RunOutput = RunOutput(kind: Kind, runnerArtifactId: Option<string>, value: Option<JsonValue>)

  datatype CancelReason = UserRequested | StuckRetryExhausted

  datatype JobRow = JobRow(
    runnerId: string,
    jobName: string,
    mayFail: bool,
    dispatchKey: Key,
    runId: Option<RunId>,
    status: JobStatus,
    startedAt: Option<Time>,
    finishedAt: Option<Time>,
    exitCode: Option<int>,
    terminalReason: Option<TerminalReason>,
    failureCategory: Option<FailureCategory>,
    cancelReason: Option<CancelReason>,
    cancelRequestedAt: Option<Time>,
    cancelStartedAt: Option<Time>,
    cancelRetryCount: nat,
    lastCancelRetryAt: Option<Time>,
    infraRetryCount: nat,
    lastInfraRetryAt: Option<Time>,
    outputs: map<string, RunOutput>)
  {
    function Verdict(): Verdict { (status, mayFail) }
  }

  datatype Budget = Budget(maxInfraRetries: nat, maxCancelRetries: nat)

  /** One status or retry-count statement of the job-row interface. */
  datatype Write =
    | SetStarted(runId: RunId, startedAt: Time)
    | Finish(status: JobStatus, exitCode: Option<int>, reason: Option<TerminalReason>,
             category: Option<FailureCategory>, outputs: map<string, RunOutput>)
    | SetStatus(status: JobStatus)
    | MarkCancelRequested(cancelReason: CancelReason)
    | RecordCancelRetry
    | Requeue(freshKey: Key)
    | MarkCancelRetryExhausted

  function NewRow(runnerId: string, jobName: string, mayFail: bool, key: Key): JobRow {
    JobRow(runnerId, jobName, mayFail, key, None, JobStatus.Pending, None, None, None, None, None,
           None, None, None, 0, None, 0, None, map[])
  }

  function Coalesce(t: Option<Time>, now: Time): Option<Time> {
    if t.Some? then t else Some(now)
  }

  /** The row after `set_job_run_status`. */
  function WithStatus(row: JobRow, s: JobStatus, now: Time): JobRow {
    var canceling := s == JobStatus.CancelRequested || s == JobStatus.Canceling || s == JobStatus.Canceled;
    row.(status := s,
         exitCode := None, terminalReason := None, failureCategory := None,
         cancelReason := if canceling then row.cancelReason else None,
         cancelRequestedAt :=
           if s == JobStatus.CancelRequested then Coalesce(row.cancelRequestedAt, now)
           else if canceling then row.cancelRequestedAt else None,
         cancelStartedAt :=
           if s == JobStatus.Canceling then Coalesce(row.cancelStartedAt, now)
           else if s == JobStatus.Canceled then row.cancelStartedAt else None,
         cancelRetryCount := if canceling then row.cancelRetryCount else 0,
         lastCancelRetryAt := if canceling then row.lastCancelRetryAt else None,
         finishedAt := if s.IsTerminal() then Some(now) else None)
  }

  function Apply(row: JobRow, w: Write, now: Time): JobRow {
    match w
    case SetStarted(runId, startedAt) =>
      row.(status := JobStatus.Running, runId := Some(runId), startedAt := Some(startedAt),
           cancelReason := None, cancelRequestedAt := None, cancelStartedAt := None,
           cancelRetryCount := 0, lastCancelRetryAt := None)
    case Finish(s, exitCode, reason, category, outputs) =>
      var keep := s == JobStatus.Canceled;
      row.(status := s, exitCode := exitCode, terminalReason := reason, failureCategory := category,
           finishedAt := Some(now),
           cancelRequestedAt := if keep then row.cancelRequestedAt else None,
           cancelStartedAt := if keep then row.cancelStartedAt else None,
           cancelRetryCount := if keep then row.cancelRetryCount else 0,
           lastCancelRetryAt := if keep then row.lastCancelRetryAt else None,
           outputs := outputs)
    case SetStatus(s) => WithStatus(row, s, now)
    case MarkCancelRequested(cause) =>
      row.(status := JobStatus.CancelRequested, cancelReason := Some(cause),
           cancelRequestedAt := Coalesce(row.cancelRequestedAt, now), finishedAt := None)
    case RecordCancelRetry =>
      row.(cancelRetryCount := row.cancelRetryCount + 1, lastCancelRetryAt := Some(now))
    case Requeue(freshKey) =>
      row.(status := JobStatus.Pending, dispatchKey := freshKey, runId := None, startedAt := None,
           exitCode := None, terminalReason := None, failureCategory := None,
           cancelReason := None, cancelRequestedAt := None, cancelStartedAt := None,
           cancelRetryCount := 0, lastCancelRetryAt := None,
           infraRetryCount := row.infraRetryCount + 1, lastInfraRetryAt := Some(now),
           finishedAt := None, outputs := map[])
    case MarkCancelRetryExhausted =>
      row.(status := JobStatus.Failed, cancelReason := Some(StuckRetryExhausted),
           terminalReason := Some(TerminalReason.Canceled), failureCategory := Some(FailureCategory.Infra),
           finishedAt := Some(now))
  }

  function ApplyAll(row: JobRow, ws: seq<Write>, now: Time): JobRow
    decreases |ws|
  {
    if ws == [] then row else ApplyAll(Apply(row, ws[0], now), ws[1..], now)
  }

  datatype PipelineRow = PipelineRow(
    status: PipelineStatus,
    cancelReason: Option<CancelReason>,
    cancelRequestedAt: Option<Time>,
    cancelStartedAt: Option<Time>,
    finishedAt: Option<Time>)

  predicate PipelineEnds(s: PipelineStatus) {
    s.Success? || s.Failed? || s.Canceled? || s.Blocked?
  }

  /** The row after `set_pipeline_status`. */
  function WithPipelineStatus(p: PipelineRow, s: PipelineStatus, now: Time): PipelineRow {
    var canceling := s.CancelRequested? || s.Canceling? || s.Canceled?;
    PipelineRow(s,
                if canceling then p.cancelReason else None,
                if s.CancelRequested? then Coalesce(p.cancelRequestedAt, now)
                else if canceling then p.cancelRequestedAt else None,
                if s.Canceling? then Coalesce(p.cancelStartedAt, now)
                else if s.Canceled? then p.cancelStartedAt else None,
                if PipelineEnds(s) then Some(now) else None)
  }

  function PipelineCancelRequested(p: PipelineRow, now: Time): PipelineRow {
    p.(status := PipelineStatus.CancelRequested, cancelReason := Some(UserRequested),
       cancelRequestedAt := Coalesce(p.cancelRequestedAt, now), finishedAt := None)
  }

  function Verdicts(rows: seq<JobRow>): (vs: seq<Verdict>)
    ensures |vs| == |rows| && forall i :: 0 <= i < |rows| ==> vs[i] == rows[i].Verdict()
  {
    seq(|rows|, i requires 0 <= i < |rows| => rows[i].Verdict())
  }

  /** The row after `finalize_pipeline_status`, which leaves request and start times as they are. */
  function Finalized(p: PipelineRow, rows: seq<JobRow>, now: Time): PipelineRow {
    var s := TerminalPipelineStatus(Verdicts(rows));
    var canceling := s.CancelRequested? || s.Canceling? || s.Canceled?;
    PipelineRow(s,
                if canceling then p.cancelReason else None,
                if canceling then p.cancelRequestedAt else None,
                if s.Canceling? || s.Canceled? then p.cancelStartedAt else None,
                if PipelineEnds(s) then Some(now) else None)
  }

  // ---------------------------------------------------------------------------------------------
  // What every reachable row satisfies

  predicate NoCancelFields(row: JobRow) {
    && row.cancelReason == None && row.cancelRequestedAt == None && row.cancelStartedAt == None
    && row.cancelRetryCount == 0 && row.lastCancelRetryAt == None
  }

  /** Field-by-field agreement of a row with its status. */
  predicate Coherent(b: Budget, row: JobRow) {
    && row.status != JobStatus.Skipped
    && (row.finishedAt.Some? <==> row.status.IsTerminal())
    && (row.status == JobStatus.Pending || row.status == JobStatus.Running ==> NoCancelFields(row))
    && (row.status == JobStatus.Pending ==> row.runId == None && row.startedAt == None)
    && (row.status.InFlight() ==> row.runId.Some? && row.startedAt.Some?)
    && (row.status == JobStatus.CancelRequested ==> row.cancelRequestedAt.Some?)
    && (row.status == JobStatus.Canceling ==> row.cancelStartedAt.Some?)
    && row.cancelRetryCount <= b.maxCancelRetries
    && row.infraRetryCount <= b.maxInfraRetries
    && (row.cancelRetryCount == 0 <==> row.lastCancelRetryAt == None)
    && (row.infraRetryCount == 0 <==> row.lastInfraRetryAt == None)
    && (row.cancelReason == Some(StuckRetryExhausted) ==>
          && row.status == JobStatus.Failed && row.cancelRetryCount == b.maxCancelRetries
          && row.terminalReason == Some(TerminalReason.Canceled) && row.failureCategory == Some(FailureCategory.Infra))
    && (row.status.InFlight() || row.status == JobStatus.Pending ==>
          row.terminalReason == None && row.failureCategory == None && row.outputs == map[])
  }

  /** The writes the scheduler ever issues for a row in this state. */
  predicate Permitted(b: Budget, row: JobRow, w: Write) {
    match w
    case SetStarted(_, _) => row.status == JobStatus.Pending
    case Finish(s, _, _, _, _) =>
      && (row.status == JobStatus.Pending || row.status.InFlight())
      && (s == JobStatus.Success || s == JobStatus.Failed || s == JobStatus.Canceled)
    case SetStatus(s) =>
      || (row.status == JobStatus.Pending &&
          (s == JobStatus.Blocked || s == JobStatus.Failed || s == JobStatus.Canceled))
      || (row.status == JobStatus.Running && (s == JobStatus.CancelRequested || s == JobStatus.Canceling))
      || (row.status == JobStatus.CancelRequested && s == JobStatus.Canceling)
    case MarkCancelRequested(cause) => row.status == JobStatus.Running && cause == UserRequested
    case RecordCancelRetry =>
      && (row.status == JobStatus.CancelRequested || row.status == JobStatus.Canceling)
      && row.cancelRetryCount < b.maxCancelRetries
    case Requeue(_) =>
      && (row.status == JobStatus.Pending || row.status == JobStatus.Running || row.status == JobStatus.CancelRequested)
      && row.infraRetryCount < b.maxInfraRetries
    case MarkCancelRetryExhausted =>
      && (row.status == JobStatus.CancelRequested || row.status == JobStatus.Canceling)
      && b.maxCancelRetries <= row.cancelRetryCount
  }

  predicate AllPermitted(b: Budget, row: JobRow, ws: seq<Write>, now: Time)
    decreases |ws|
  {
    ws == [] || (Permitted(b, row, ws[0]) && AllPermitted(b, Apply(row, ws[0], now), ws[1..], now))
  }

  /** How many writes a row can still undergo. */
  function Potential(b: Budget, row: JobRow): int {
    (b.maxInfraRetries - row.infraRetryCount) * (3 + b.maxCancelRetries)
    + match row.status
      case Pending => 4 + b.maxCancelRetries
      case Running => 3 + b.maxCancelRetries
      case CancelRequested => 2 + b.maxCancelRetries - row.cancelRetryCount
      case Canceling => 1 + b.maxCancelRetries - row.cancelRetryCount
      case _ => 0
  }

  function WriteBound(b: Budget): nat {
    (b.maxInfraRetries + 1) * (3 + b.maxCancelRetries) + 1
  }

  lemma WriteKeepsCoherent(b: Budget, row: JobRow, w: Write, now: Time)
    requires Coherent(b, row) && Permitted(b, row, w)
    ensures Coherent(b, Apply(row, w, now))
  {
    hide Potential;
    match w
    case SetStatus(s) => StatusKeepsCoherent(b, row, s, now);
    case _ =>
  }

  lemma StatusKeepsCoherent(b: Budget, row: JobRow, s: JobStatus, now: Time)
    requires Coherent(b, row) && Permitted(b, row, SetStatus(s))
    ensures Coherent(b, WithStatus(row, s, now))
  {
  }

  lemma PotentialIsNatural(b: Budget, row: JobRow)
    requires row.infraRetryCount <= b.maxInfraRetries && row.cancelRetryCount <= b.maxCancelRetries
    ensures 0 <= Potential(b, row)
  {
    assert 0 <= (b.maxInfraRetries - row.infraRetryCount) * (3 + b.maxCancelRetries);
  }

  lemma WriteSpendsPotential(b: Budget, row: JobRow, w: Write, now: Time)
    requires Coherent(b, row) && Permitted(b, row, w)
    ensures Potential(b, Apply(row, w, now)) < Potential(b, row)
  {
    if w.Requeue? {
      var unit, left := 3 + b.maxCancelRetries, b.maxInfraRetries - row.infraRetryCount;
      assert (left - 1) * unit == left * unit - unit;
    }
  }

  /** One permitted write keeps the row coherent and uses up potential, whatever it is. */
  lemma WriteStep(b: Budget, row: JobRow, w: Write, now: Time)
    requires Coherent(b, row) && Permitted(b, row, w)
    ensures Coherent(b, Apply(row, w, now))
    ensures 0 <= Potential(b, Apply(row, w, now)) < Potential(b, row)
  {
    hide Apply, Permitted, Potential;
    WriteKeepsCoherent(b, row, w, now);
    WriteSpendsPotential(b, row, w, now);
    PotentialIsNatural(b, Apply(row, w, now));
  }

  lemma {:induction false} WritesSpendPotential(b: Budget, row: JobRow, ws: seq<Write>, now: Time)
    requires Coherent(b, row) && AllPermitted(b, row, ws, now)
    ensures Coherent(b, ApplyAll(row, ws, now))
    ensures 0 <= Potential(b, ApplyAll(row, ws, now)) <= Potential(b, row) - |ws|
    decreases |ws|
  {
    hide Apply, Permitted, Potential;
    if ws == [] {
      PotentialIsNatural(b, row);
    } else {
      hide Coherent;
      WriteStep(b, row, ws[0], now);
      WritesSpendPotential(b, Apply(row, ws[0], now), ws[1..], now);
    }
  }

  /** Where a row stands on the way from dispatch to its end. */
  function Stage(s: JobStatus): nat {
    match s
    case Pending => 0
    case Running => 1
    case CancelRequested => 2
    case Canceling => 3
    case _ => 4
  }

  /** Every permitted write either moves the row forward, or counts a cancel retry where it stands,
      or is the requeue, which alone takes it back to `Pending` and does so under another key. */
  lemma StageAdvancesExceptOnRequeue(b: Budget, row: JobRow, w: Write, now: Time)
    requires Permitted(b, row, w)
    ensures
      var after := Apply(row, w, now);
      if w.Requeue? then
        after.status == JobStatus.Pending && after.infraRetryCount == row.infraRetryCount + 1
      else
        && after.infraRetryCount == row.infraRetryCount
        && after.dispatchKey == row.dispatchKey
        && (if w.RecordCancelRetry? then after.status == row.status
            else Stage(row.status) < Stage(after.status))
  {
  }

  /** What any statement the scheduler may run on the row does for it, whatever the budget: it keeps the
      row coherent, leaves it fewer statements to undergo, and takes it forward, but for a counted cancel
      retry, which leaves it where it is, and the requeue, which alone takes it back. */
  ghost predicate Progresses(row: JobRow, w: Write, after: JobRow) {
    forall b :: Coherent(b, row) && Permitted(b, row, w) ==>
      && Coherent(b, after)
      && 0 <= Potential(b, after) < Potential(b, row)
      && (if w.Requeue? then after.status == JobStatus.Pending && after.infraRetryCount == row.infraRetryCount + 1
          else if w.RecordCancelRetry? then after.status == row.status
          else Stage(row.status) < Stage(after.status))
  }

  lemma WriteProgresses(row: JobRow, w: Write, now: Time)
    ensures Progresses(row, w, Apply(row, w, now))
  {
    hide Apply, Coherent, Permitted, Potential;
    forall b | Coherent(b, row) && Permitted(b, row, w)
      ensures Coherent(b, Apply(row, w, now)) && 0 <= Potential(b, Apply(row, w, now)) < Potential(b, row)
    {
      WriteStep(b, row, w, now);
    }
    forall b | Coherent(b, row) && Permitted(b, row, w)
      ensures
        var after := Apply(row, w, now);
        if w.Requeue? then after.status == JobStatus.Pending && after.infraRetryCount == row.infraRetryCount + 1
        else if w.RecordCancelRetry? then after.status == row.status
        else Stage(row.status) < Stage(after.status)
    {
      StageAdvancesExceptOnRequeue(b, row, w, now);
    }
  }
}
