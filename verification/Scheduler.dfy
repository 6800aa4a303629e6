/** The server's half of the protocol: what one pass over a job row decides from the replies it sees. */
module Scheduler {
  import opened Wire
  import opened StateMachine
  import opened JobRows

  datatype Config = Config(budget: Budget, cancelStuckSeconds: int)

  // ---------------------------------------------------------------------------------------------
  // What the scheduler sees

  datatype RunnerRegistration = Unregistered | Disabled | Enabled

  datatype InputPreparation = Unresolvable | TransferFailed | Prepared

  datatype CreateReply = Created(runId: RunId, startedAt: Time) | Refused(terminal: bool) | NoReply

  datatype DispatchView = DispatchView(
    registration: RunnerRegistration, described: bool, inputs: InputPreparation, reply: CreateReply,
    freshKey: Key, now: Time)

  datatype RunReport = RunReport(
    status: RunStatus, exitCode: Option<int>, reason: Option<TerminalReason>,
    category: Option<FailureCategory>, outputs: map<string, RegisteredOutput>)

  /** `lost` names the artifact outputs that could not be fetched and stored. */
  datatype PollView = PollView(
    registered: bool, cancelAccepted: bool, report: Option<RunReport>, lost: set<string>,
    freshKey: Key, now: Time)

  /** Rows whose runner is registered, and rows whose cancel call came back accepted. `reach` is how many
      rows are handled before the process stops; past the last row it goes on to the pipeline itself. */
  datatype CancelView = CancelView(registered: set<nat>, accepted: set<nat>, reach: nat, now: Time)

  /** What one pass does: the statements on the job's row, then whether it recomputes the pipeline. */
  datatype Effect = Effect(writes: seq<Write>, finalize: bool)

  datatype ServerState = ServerState(rows: seq<JobRow>, pipeline: PipelineRow)

  const IDLE := Effect([], false)

  predicate Requeues(ws: seq<Write>) {
    exists w :: w in ws && w.Requeue?
  }

  function Carry(s: ServerState, i: nat, e: Effect, now: Time): ServerState
    requires i < |s.rows|
  {
    var rows := s.rows[i := ApplyAll(s.rows[i], e.writes, now)];
    ServerState(rows, if e.finalize then Finalized(s.pipeline, rows, now) else s.pipeline)
  }

  // ---------------------------------------------------------------------------------------------
  // Decisions

  function RetryOrFail(b: Budget, row: JobRow, reason: TerminalReason, freshKey: Key): seq<Write> {
    if row.infraRetryCount < b.maxInfraRetries then [Requeue(freshKey)]
    else [Finish(JobStatus.Failed, None, Some(reason), Some(FailureCategory.Infra), map[])]
  }

  /** The chain gives every job but the first exactly one predecessor. */
  function Predecessors(rows: seq<JobRow>, i: nat): seq<Verdict>
    requires i < |rows|
  {
    if i == 0 then [] else [rows[i - 1].Verdict()]
  }

  /** The pass gets as far as calling the runner. */
  predicate CallsRunner(rows: seq<JobRow>, i: nat, registration: RunnerRegistration, described: bool, inputs: InputPreparation)
    requires i < |rows|
  {
    && rows[i].status == JobStatus.Pending
    && NextReadyJobStatus(Predecessors(rows, i)) == Some(JobStatus.Pending)
    && registration == Enabled && described && inputs == Prepared
  }

  function DispatchEffect(b: Budget, rows: seq<JobRow>, i: nat, v: DispatchView): Effect
    requires i < |rows|
  {
    if rows[i].status != JobStatus.Pending then IDLE
    else
      match NextReadyJobStatus(Predecessors(rows, i))
      case None => IDLE
      case Some(ready) =>
        if ready == JobStatus.Blocked then Effect([SetStatus(JobStatus.Blocked)], true)
        else if v.registration == Unregistered then Effect([SetStatus(JobStatus.Failed)], false)
        else if v.registration == Disabled || !v.described || v.inputs == Unresolvable then IDLE
        else if v.inputs == TransferFailed then
          Effect(RetryOrFail(b, rows[i], TerminalReason.SpawnError, v.freshKey), true)
        else
          match v.reply
          case Created(runId, startedAt) => Effect([SetStarted(runId, startedAt)], false)
          case Refused(terminal) =>
            if terminal then
              Effect([Finish(JobStatus.Failed, None, Some(TerminalReason.SpawnError), Some(FailureCategory.Job), map[])], true)
            else IDLE
          case NoReply => IDLE
  }

  /** The time the watchdog measures a cancellation from. */
  function CancelClock(row: JobRow): Option<Time> {
    if row.cancelStartedAt.Some? then row.cancelStartedAt else row.cancelRequestedAt
  }

  predicate Stuck(cfg: Config, row: JobRow, now: Time) {
    && (row.status == JobStatus.CancelRequested || row.status == JobStatus.Canceling)
    && CancelClock(row).Some?
    && cfg.cancelStuckSeconds <= now - CancelClock(row).value
  }

  predicate ShouldRetryInfraFailure(b: Budget, row: JobRow, r: RunReport) {
    r.status == RunStatus.Failed && r.category == Some(FailureCategory.Infra) && row.infraRetryCount < b.maxInfraRetries
  }

  /** The row status that follows a report of a run still under way. */
  function NextPolled(local: JobStatus, remote: RunStatus): JobStatus {
    match remote
    case Canceling => JobStatus.Canceling
    case CancelRequested => if local == JobStatus.Canceling then JobStatus.Canceling else JobStatus.CancelRequested
    case _ => if local == JobStatus.CancelRequested || local == JobStatus.Canceling then local else JobStatus.Running
  }

  function Persisted(o: JobOutput): RunOutput {
    match o
    case ArtifactOutput(id, _, _) => RunOutput(Kind.Artifact, Some(id), None)
    case StringOutput(text) => RunOutput(Kind.String, None, Some(JString(text)))
    case IntegerOutput(n) => RunOutput(Kind.Integer, None, Some(JNumber(Some(n))))
    case BooleanOutput(flag) => RunOutput(Kind.Boolean, None, Some(JBool(flag)))
    case JsonOutput(json) => RunOutput(Kind.Json, None, Some(json))
  }

  function PersistedAll(outputs: map<string, RegisteredOutput>): map<string, RunOutput> {
    map name | name in outputs :: Persisted(outputs[name])
  }

  predicate TransferFails(outputs: map<string, RegisteredOutput>, lost: set<string>) {
    exists name :: name in outputs && outputs[name].ArtifactOutput? && name in lost
  }

  function Concluded(s: RunStatus): JobStatus {
    match s
    case Success => JobStatus.Success
    case Canceled => JobStatus.Canceled
    case _ => JobStatus.Failed
  }

  function ReportEffect(b: Budget, row: JobRow, r: RunReport, lost: set<string>, freshKey: Key): Effect {
    if !r.status.IsTerminal() then
      var next := NextPolled(row.status, r.status);
      if next == row.status then IDLE else Effect([SetStatus(next)], true)
    else if ShouldRetryInfraFailure(b, row, r) then Effect([Requeue(freshKey)], true)
    else if TransferFails(r.outputs, lost) then
      Effect(RetryOrFail(b, row, TerminalReason.OutputRegistrationFailed, freshKey), true)
    else
      Effect([Finish(Concluded(r.status), r.exitCode, r.reason, r.category, PersistedAll(r.outputs))], true)
  }

  /** The pass goes on to ask the runner for the run's status. */
  predicate AsksRunner(cfg: Config, row: JobRow, v: PollView) {
    && row.status.InFlight() && v.registered && row.runId.Some?
    && (Stuck(cfg, row, v.now) ==> row.cancelRetryCount < cfg.budget.maxCancelRetries && v.cancelAccepted)
  }

  function PollEffect(cfg: Config, row: JobRow, v: PollView): Effect {
    if !row.status.InFlight() || !v.registered || row.runId == None then IDLE
    else if Stuck(cfg, row, v.now) && cfg.budget.maxCancelRetries <= row.cancelRetryCount then
      Effect([MarkCancelRetryExhausted], true)
    else if Stuck(cfg, row, v.now) && !v.cancelAccepted then IDLE
    else
      var e := if v.report == None then IDLE
               else ReportEffect(cfg.budget, row, v.report.value, v.lost, v.freshKey);
      if Stuck(cfg, row, v.now) then Effect([RecordCancelRetry] + e.writes, e.finalize) else e
  }

  // ---------------------------------------------------------------------------------------------
  // Canceling a whole pipeline

  datatype CancelOutcome = CancelOutcome(rows: seq<JobRow>, completed: bool, requested: bool)

  predicate CancelsRemotely(row: JobRow, i: nat, v: CancelView) {
    row.status == JobStatus.Running && row.runId.Some? && i in v.registered
  }

  /** The loop over rows from `i` on; a refused cancel call, or the process stopping, ends it where it stands. */
  function CancelFrom(rows: seq<JobRow>, i: nat, v: CancelView, requested: bool): (out: CancelOutcome)
    requires i <= |rows|
    ensures |out.rows| == |rows|
    decreases |rows| - i
  {
    if v.reach <= i then CancelOutcome(rows, false, requested)
    else if i == |rows| then CancelOutcome(rows, true, requested)
    else if CancelsRemotely(rows[i], i, v) then
      if i !in v.accepted then CancelOutcome(rows, false, requested)
      else CancelFrom(rows[i := Apply(rows[i], MarkCancelRequested(UserRequested), v.now)], i + 1, v, true)
    else if rows[i].status == JobStatus.Pending then
      CancelFrom(rows[i := Apply(rows[i], SetStatus(JobStatus.Canceled), v.now)], i + 1, v, requested)
    else CancelFrom(rows, i + 1, v, requested)
  }

  function PipelineCanceled(s: ServerState, v: CancelView): ServerState {
    var out := CancelFrom(s.rows, 0, v, false);
    ServerState(out.rows,
                if !out.completed then s.pipeline
                else if out.requested then PipelineCancelRequested(s.pipeline, v.now)
                else WithPipelineStatus(s.pipeline, PipelineStatus.Canceled, v.now))
  }

  /** One pipeline's share of `recover_incomplete_pipelines`. */
  function PipelineRecovered(s: ServerState, now: Time): ServerState {
    var status := s.pipeline.status;
    if status.Running? || status.CancelRequested? || status.Canceling?
       || exists i :: 0 <= i < |s.rows| && !s.rows[i].status.IsTerminal()
    then
      s.(pipeline := WithPipelineStatus(s.pipeline,
           if status.CancelRequested? || status.Canceling? then status else PipelineStatus.Running, now))
    else s
  }

  // ---------------------------------------------------------------------------------------------
  // Every decision issues permitted writes only

  lemma DispatchIsPermitted(b: Budget, rows: seq<JobRow>, i: nat, v: DispatchView)
    requires i < |rows| && Coherent(b, rows[i])
    ensures AllPermitted(b, rows[i], DispatchEffect(b, rows, i, v).writes, v.now)
    ensures DispatchEffect(b, rows, i, v).writes != [] ==>
              rows[i].status == JobStatus.Pending && (i == 0 || rows[i - 1].status.IsTerminal())
  {
    var ws := DispatchEffect(b, rows, i, v).writes;
    if ws != [] {
      assert ws[1..] == [];
      if 0 < i {
        assert rows[i - 1].Verdict() in Predecessors(rows, i);
        if NextReadyJobStatus(Predecessors(rows, i)) == Some(JobStatus.Pending) {
          ReadyExactlyWhen(Predecessors(rows, i));
        }
      }
    }
  }

  /** A run still being canceled, or canceled, which leaves no outputs. */
  predicate OnlyCanceled(r: RunReport) {
    r.status == RunStatus.Canceling || (r.status == RunStatus.Canceled && r.outputs == map[])
  }

  /** Whatever the runner reports, and whether or not the watchdog fires first, given that a run reported
      as Canceling once can only be reported so again or as Canceled. */
  lemma PollIsPermitted(cfg: Config, row: JobRow, v: PollView)
    requires Coherent(cfg.budget, row)
    requires row.status == JobStatus.Canceling && v.report.Some? ==> OnlyCanceled(v.report.value)
    ensures AllPermitted(cfg.budget, row, PollEffect(cfg, row, v).writes, v.now)
    ensures |PollEffect(cfg, row, v).writes| <= 2
    ensures PollEffect(cfg, row, v).writes != [] ==> row.status.InFlight()
  {
    var e := PollEffect(cfg, row, v);
    if Stuck(cfg, row, v.now) && e.writes != [] && e.writes[0] == RecordCancelRetry {
      var after := Apply(row, RecordCancelRetry, v.now);
      assert e.writes[1..] == [] || e.writes[1..][1..] == [];
      assert AllPermitted(cfg.budget, after, e.writes[1..], v.now);
    } else if e.writes != [] {
      assert e.writes[1..] == [];
    }
  }

  /** Polling asks for a requeue in exactly three situations, none of them a script's own failure
      or a timeout. */
  lemma RequeueOnlyForInfrastructure(cfg: Config, row: JobRow, v: PollView)
    requires Coherent(cfg.budget, row)
    ensures Requeues(PollEffect(cfg, row, v).writes) <==>
            && AsksRunner(cfg, row, v) && v.report.Some? && v.report.value.status.IsTerminal()
            && row.infraRetryCount < cfg.budget.maxInfraRetries
            && (|| (v.report.value.status == RunStatus.Failed && v.report.value.category == Some(FailureCategory.Infra))
                || TransferFails(v.report.value.outputs, v.lost))
  {
    var ws := PollEffect(cfg, row, v).writes;
    if AsksRunner(cfg, row, v) && v.report.Some? {
      var inner := ReportEffect(cfg.budget, row, v.report.value, v.lost, v.freshKey).writes;
      assert ws == inner || ws == [RecordCancelRetry] + inner;
      if inner != [] {
        assert inner == [inner[0]];
        assert inner[0] in ws;
      }
    }
  }

  /** What no statement of a pass changes, and what a requeue does to key and count. */
  predicate Follows(row: JobRow, after: JobRow, requeued: bool, freshKey: Key) {
    && after.runnerId == row.runnerId && after.jobName == row.jobName && after.mayFail == row.mayFail
    && (if requeued then
          after.dispatchKey == freshKey && after.infraRetryCount == row.infraRetryCount + 1
        else
          after.dispatchKey == row.dispatchKey && after.infraRetryCount == row.infraRetryCount)
  }

  lemma ApplyOne(row: JobRow, w: Write, now: Time)
    ensures ApplyAll(row, [w], now) == Apply(row, w, now)
    ensures Requeues([w]) == w.Requeue?
  {
    assert w in [w];
    assert ApplyAll(Apply(row, w, now), [], now) == Apply(row, w, now);
  }

  lemma ApplyTwo(row: JobRow, w: Write, x: Write, now: Time)
    ensures ApplyAll(row, [w, x], now) == Apply(Apply(row, w, now), x, now)
    ensures Requeues([w, x]) == (w.Requeue? || x.Requeue?)
  {
    assert [w, x][1..] == [x];
    assert w in [w, x] && x in [w, x];
    ApplyOne(Apply(row, w, now), x, now);
  }

  lemma DispatchFollows(b: Budget, rows: seq<JobRow>, i: nat, v: DispatchView)
    requires i < |rows|
    ensures
      var ws := DispatchEffect(b, rows, i, v).writes;
      Follows(rows[i], ApplyAll(rows[i], ws, v.now), Requeues(ws), v.freshKey)
  {
    var ws := DispatchEffect(b, rows, i, v).writes;
    if ws != [] {
      assert ws == [ws[0]];
      ApplyOne(rows[i], ws[0], v.now);
    }
  }

  lemma WriteFollows(row: JobRow, w: Write, now: Time, freshKey: Key)
    requires w.Requeue? ==> w.freshKey == freshKey
    ensures Follows(row, Apply(row, w, now), w.Requeue?, freshKey)
  {
  }

  lemma ReportWritesOnce(b: Budget, row: JobRow, r: RunReport, lost: set<string>, freshKey: Key)
    ensures |ReportEffect(b, row, r, lost, freshKey).writes| <= 1
  {
  }

  /** A poll issues at most two statements, and two only when the watchdog's comes first. */
  lemma PollWrites(cfg: Config, row: JobRow, v: PollView)
    ensures
      var ws := PollEffect(cfg, row, v).writes;
      && |ws| <= 2
      && (|ws| == 2 ==> ws[0] == RecordCancelRetry)
      && (forall w :: w in ws && w.Requeue? ==> w.freshKey == v.freshKey)
  {
    hide Stuck, NextPolled, TransferFails, Persisted;
  }

  lemma PollFollows(cfg: Config, row: JobRow, v: PollView)
    ensures
      var ws := PollEffect(cfg, row, v).writes;
      Follows(row, ApplyAll(row, ws, v.now), Requeues(ws), v.freshKey)
  {
    hide PollEffect, Apply;
    var ws := PollEffect(cfg, row, v).writes;
    PollWrites(cfg, row, v);
    if |ws| == 1 {
      assert ws == [ws[0]] && ws[0] in ws;
      ApplyOne(row, ws[0], v.now);
      WriteFollows(row, ws[0], v.now, v.freshKey);
    } else if ws != [] {
      assert ws == [ws[0], ws[1]] && ws[0] in ws && ws[1] in ws;
      ApplyTwo(row, ws[0], ws[1], v.now);
      WriteFollows(row, ws[0], v.now, v.freshKey);
      WriteFollows(Apply(row, ws[0], v.now), ws[1], v.now, v.freshKey);
    }
  }

  /** A counted cancel retry changes nothing a report is judged by, so judging the row before or after
      it comes to the same. */
  lemma ReportAfterRetry(b: Budget, row: JobRow, r: RunReport, lost: set<string>, freshKey: Key, now: Time)
    ensures
      var e := ReportEffect(b, row, r, lost, freshKey);
      && ReportEffect(b, Apply(row, RecordCancelRetry, now), r, lost, freshKey) == e
      && ApplyAll(row, [RecordCancelRetry] + e.writes, now) == ApplyAll(Apply(row, RecordCancelRetry, now), e.writes, now)
  {
    var e := ReportEffect(b, row, r, lost, freshKey);
    assert ([RecordCancelRetry] + e.writes)[1..] == e.writes;
  }
}
