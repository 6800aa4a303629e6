/** The server's pipeline as it is written, step by step: enqueueing, and the scheduler's passes, which
    update rows in place and are proved to do what the transition system says. */
module PipelineStore {
  import opened Wire
  import opened StateMachine
  import opened JobRows
  import opened JobRunRecord
  import opened Scheduler
  import opened RowOutcomes
  import opened Manifests
  import opened Workflows
  import opened SchemaDiff
  import opened Payload

  // ---------------------------------------------------------------------------------------------
  // Enqueueing

  predicate ValidDefinition(def: Definition) {
    def != [] && forall i :: 0 <= i < |def| ==> !Blank(def[i].runnerId) && !Blank(def[i].jobName)
  }

  datatype EnqueueError = IncompatibleSchema | InvalidDefinition

  /** A new pipeline with its rows; each row names its predecessor, if it has one. */
  datatype Enqueued = Enqueued(rows: seq<JobRow>, previous: seq<Option<nat>>, pipeline: PipelineRow)

  const NEW_PIPELINE := PipelineRow(PipelineStatus.Running, None, None, None, None)

  /** The rows of a fresh pipeline, keyed from `firstKey` on. */
  predicate FreshChain(def: Definition, firstKey: nat, rows: seq<JobRow>, previous: seq<Option<nat>>) {
    && |rows| == |previous| <= |def|
    && forall i :: 0 <= i < |rows| ==>
         && rows[i] == NewRow(def[i].runnerId, def[i].jobName, def[i].mayFail, Issued(firstKey + i))
         && previous[i] == if i == 0 then None else Some(i - 1)
  }

  /** A workflow is enqueued unless its schema report is Incompatible or its definition is malformed;
      then it becomes one pending row a job, in order, each under a key of its own and chained to the
      one before it. */
  method Enqueue(catalog: Catalog, def: Definition, snapshot: seq<JobSchema>, firstKey: nat)
    returns (r: Result<Enqueued, EnqueueError>, report: Report)
    ensures forall d :: d in report.diff <==> IsReportDiff(d, catalog, def, snapshot)
    ensures report.status == StatusOf(report.diff)
    ensures r.Ok? <==> report.status != Incompatible && ValidDefinition(def)
    ensures r.Err? ==> (r.error == IncompatibleSchema <==> report.status == Incompatible)
    ensures r.Ok? ==> |r.value.rows| == |def| && FreshChain(def, firstKey, r.value.rows, r.value.previous)
                      && r.value.pipeline == NEW_PIPELINE
  {
    hide IsReportDiff, Blank;
    report := WorkflowSchemaReport(catalog, def, snapshot);
    if report.status == Incompatible {
      return Err(IncompatibleSchema), report;
    }
    if !ValidDefinition(def) {
      return Err(InvalidDefinition), report;
    }
    var rows: seq<JobRow>, links: seq<Option<nat>> := [], [];
    var previous: Option<nat> := None;
    for i := 0 to |def|
      invariant |rows| == i && FreshChain(def, firstKey, rows, links)
      invariant previous == if i == 0 then None else Some(i - 1)
    {
      rows := rows + [NewRow(def[i].runnerId, def[i].jobName, def[i].mayFail, Issued(firstKey + i))];
      links := links + [previous];
      previous := Some(i);
    }
    r := Ok(Enqueued(rows, links, NEW_PIPELINE));
  }

  // ---------------------------------------------------------------------------------------------
  // Passes

  class PipelineStore {
    const jobs: seq<JobRun>
    var pipeline: PipelineRow

    /** Each job has a row of its own. */
    predicate Valid() {
      forall i, j :: 0 <= i < j < |jobs| ==> jobs[i] != jobs[j]
    }

    function Rows(): (rows: seq<JobRow>)
      reads jobs
      ensures |rows| == |jobs| && forall k :: 0 <= k < |jobs| ==> rows[k] == jobs[k].row
    {
      seq(|jobs|, k requires 0 <= k < |jobs| reads jobs => jobs[k].row)
    }

    function State(): ServerState
      reads this, jobs
    {
      ServerState(Rows(), pipeline)
    }

    constructor (enqueued: Enqueued)
      requires forall i :: 0 <= i < |enqueued.rows| ==>
                 var row := enqueued.rows[i]; row == NewRow(row.runnerId, row.jobName, row.mayFail, row.dispatchKey)
      ensures Valid() && fresh(jobs) && State() == ServerState(enqueued.rows, enqueued.pipeline)
    {
      var created: seq<JobRun> := [];
      for i := 0 to |enqueued.rows|
        invariant |created| == i && fresh(created)
        invariant forall k :: 0 <= k < i ==> created[k].row == enqueued.rows[k]
        invariant forall k, l :: 0 <= k < l < i ==> created[k] != created[l]
      {
        var row := enqueued.rows[i];
        var job := new JobRun(row.runnerId, row.jobName, row.mayFail, row.dispatchKey);
        created := created + [job];
      }
      jobs, pipeline := created, enqueued.pipeline;
    }

    /** One statement on one row. */
    method Execute(i: nat, w: Write, now: Time)
      requires Valid() && i < |jobs|
      modifies jobs[i]
      ensures Rows() == old(Rows())[i := Apply(old(Rows())[i], w, now)]
    {
      hide Progresses, Apply;
      var job := jobs[i];
      match w
      case SetStarted(runId, startedAt) => job.SetStarted(runId, startedAt, now);
      case Finish(s, exitCode, reason, category, outputs) => job.Finish(s, exitCode, reason, category, outputs, now);
      case SetStatus(s) => job.SetStatus(s, now);
      case MarkCancelRequested(cause) => job.MarkCancelRequested(cause, now);
      case RecordCancelRetry => var count := job.RecordCancelRetry(now);
      case Requeue(freshKey) => var count := job.RequeueForInfraRetry(freshKey, now);
      case MarkCancelRetryExhausted => job.MarkCancelRetryExhausted(now);
    }

    method FinalizePipelineStatus(now: Time)
      modifies `pipeline
      ensures pipeline == Finalized(old(pipeline), Rows(), now)
      ensures Recomputed(old(pipeline), Rows(), now, pipeline)
    {
      FinalizedIsRecomputed(pipeline, Rows(), now);
      hide Judged;
      var verdicts: seq<Verdict> := [];
      for i := 0 to |jobs|
        invariant |verdicts| == i && forall k :: 0 <= k < i ==> verdicts[k] == jobs[k].row.Verdict()
      {
        verdicts := verdicts + [jobs[i].row.Verdict()];
      }
      assert verdicts == Verdicts(Rows());
      var s := TerminalPipelineStatus(verdicts);
      var canceling := s.CancelRequested? || s.Canceling? || s.Canceled?;
      if !canceling {
        pipeline := pipeline.(cancelReason := None, cancelRequestedAt := None);
      }
      if !s.Canceling? && !s.Canceled? {
        pipeline := pipeline.(cancelStartedAt := None);
      }
      pipeline := pipeline.(status := s, finishedAt := if PipelineEnds(s) then Some(now) else None);
    }

    /** Requeues the row while the budget lasts and fails it after that. */
    method RetryOrFailInfraError(b: Budget, i: nat, reason: TerminalReason, freshKey: Key, now: Time)
      requires Valid() && i < |jobs|
      modifies `pipeline, jobs
      ensures State() == Carry(old(State()), i, Effect(RetryOrFail(b, old(Rows())[i], reason, freshKey), true), now)
      ensures if old(Rows())[i].infraRetryCount < b.maxInfraRetries then BackInLine(old(Rows())[i], Rows()[i], freshKey, now)
              else EndedBy(old(Rows())[i], Rows()[i], reason, FailureCategory.Infra, now)
    {
      ghost var row := jobs[i].row;
      RetryOutcome(b, row, reason, freshKey, now);
      hide Apply, Finalized, BackInLine, EndedBy;
      if jobs[i].row.infraRetryCount < b.maxInfraRetries {
        ApplyOne(row, Requeue(freshKey), now);
        Execute(i, Requeue(freshKey), now);
      } else {
        var end := Finish(JobStatus.Failed, None, Some(reason), Some(FailureCategory.Infra), map[]);
        ApplyOne(row, end, now);
        Execute(i, end, now);
      }
      FinalizePipelineStatus(now);
    }

    /** What the dispatch pass does with one job; `RowOutcomes.DispatchCarried` says what that comes to. */
    method DispatchJob(b: Budget, i: nat, v: DispatchView)
      requires Valid() && i < |jobs|
      modifies `pipeline, jobs
      ensures State() == Carry(old(State()), i, DispatchEffect(b, old(Rows()), i, v), v.now)
    {
      hide Apply, Finalized, NextReadyJobStatus, Recomputed, BackInLine, EndedBy;
      ghost var row := jobs[i].row;
      assert Rows()[i := row] == Rows();
      if jobs[i].row.status != JobStatus.Pending {
        return;
      }
      var previous := if i == 0 then [] else [jobs[i - 1].row.Verdict()];
      var ready := NextReadyJobStatus(previous);
      if ready == Some(JobStatus.Blocked) {
        ApplyOne(row, SetStatus(JobStatus.Blocked), v.now);
        Execute(i, SetStatus(JobStatus.Blocked), v.now);
        FinalizePipelineStatus(v.now);
        return;
      }
      if ready == None {
        return;
      }
      if v.registration == Unregistered {
        ApplyOne(row, SetStatus(JobStatus.Failed), v.now);
        Execute(i, SetStatus(JobStatus.Failed), v.now);
        return;
      }
      if v.registration == Disabled || !v.described || v.inputs == Unresolvable {
        return;
      }
      if v.inputs == TransferFailed {
        RetryOrFailInfraError(b, i, TerminalReason.SpawnError, v.freshKey, v.now);
        return;
      }
      match v.reply
      case Created(runId, startedAt) =>
        ApplyOne(row, SetStarted(runId, startedAt), v.now);
        Execute(i, SetStarted(runId, startedAt), v.now);
      case Refused(terminal) =>
        if terminal {
          var end := Finish(JobStatus.Failed, None, Some(TerminalReason.SpawnError), Some(FailureCategory.Job), map[]);
          ApplyOne(row, end, v.now);
          Execute(i, end, v.now);
          FinalizePipelineStatus(v.now);
        }
      case NoReply =>
    }

    /** What the poll pass does with a report. */
    method TakeReport(b: Budget, i: nat, r: RunReport, lost: set<string>, freshKey: Key, now: Time)
      requires Valid() && i < |jobs|
      modifies `pipeline, jobs
      ensures State() == Carry(old(State()), i, ReportEffect(b, old(Rows())[i], r, lost, freshKey), now)
      ensures ReportLeaves(b, old(State()), i, r, lost, freshKey, now, State())
    {
      ReportCarried(b, State(), i, r, lost, freshKey, now);
      hide Apply, Finalized, ReportLeaves, Recomputed, BackInLine, EndedBy;
      ghost var row := jobs[i].row;
      assert Rows()[i := row] == Rows();
      if !r.status.IsTerminal() {
        var next := NextPolled(jobs[i].row.status, r.status);
        if next != jobs[i].row.status {
          ApplyOne(row, SetStatus(next), now);
          Execute(i, SetStatus(next), now);
          FinalizePipelineStatus(now);
        }
        return;
      }
      if ShouldRetryInfraFailure(b, jobs[i].row, r) {
        ApplyOne(row, Requeue(freshKey), now);
        Execute(i, Requeue(freshKey), now);
        FinalizePipelineStatus(now);
        return;
      }
      var outputs := PersistJobOutputs(r.outputs, lost);
      if outputs.Err? {
        RetryOrFailInfraError(b, i, TerminalReason.OutputRegistrationFailed, freshKey, now);
        return;
      }
      var end := Finish(Concluded(r.status), r.exitCode, r.reason, r.category, outputs.value);
      ApplyOne(row, end, now);
      Execute(i, end, now);
      FinalizePipelineStatus(now);
    }

    /** What the poll pass does with one job, the watchdog first; `RowOutcomes.PollCarried` says what that
        comes to. */
    method PollJob(cfg: Config, i: nat, v: PollView)
      requires Valid() && i < |jobs|
      modifies `pipeline, jobs
      ensures State() == Carry(old(State()), i, PollEffect(cfg, old(Rows())[i], v), v.now)
    {
      hide Apply, Finalized, ReportEffect, CancelClock, ReportLeaves, Recomputed;
      ghost var row := jobs[i].row;
      assert Rows()[i := row] == Rows();
      if !jobs[i].row.status.InFlight() || !v.registered || jobs[i].row.runId == None {
        return;
      }
      var stuck := Stuck(cfg, jobs[i].row, v.now);
      if stuck && cfg.budget.maxCancelRetries <= jobs[i].row.cancelRetryCount {
        ApplyOne(row, MarkCancelRetryExhausted, v.now);
        Execute(i, MarkCancelRetryExhausted, v.now);
        FinalizePipelineStatus(v.now);
        return;
      }
      if stuck && !v.cancelAccepted {
        return;
      }
      if stuck {
        ApplyOne(row, RecordCancelRetry, v.now);
        Execute(i, RecordCancelRetry, v.now);
        assert [RecordCancelRetry] + [] == [RecordCancelRetry];
      }
      if v.report.Some? {
        ReportAfterRetry(cfg.budget, row, v.report.value, v.lost, v.freshKey, v.now);
        TakeReport(cfg.budget, i, v.report.value, v.lost, v.freshKey, v.now);
      }
    }

    /** A pipeline that is, or whose jobs are, unfinished is put back to work, or to its cancellation. */
    method RecoverIncompletePipeline(now: Time)
      modifies `pipeline
      ensures State() == PipelineRecovered(old(State()), now)
      ensures RecoveredAs(old(State()), now, State())
    {
      RecoveryOutcome(State(), now);
      hide RecoveredAs;
      var due := pipeline.status.Running? || pipeline.status.CancelRequested? || pipeline.status.Canceling?;
      for i := 0 to |jobs|
        invariant due <==> (|| pipeline.status.Running? || pipeline.status.CancelRequested? || pipeline.status.Canceling?
                            || exists k :: 0 <= k < i && !jobs[k].row.status.IsTerminal())
      {
        if !jobs[i].row.status.IsTerminal() {
          due := true;
        }
      }
      if due {
        var canceling := pipeline.status.CancelRequested? || pipeline.status.Canceling?;
        pipeline := WithPipelineStatus(pipeline, if canceling then pipeline.status else PipelineStatus.Running, now);
      }
    }

    /** The cancel loop, one row after another, until a cancel call is not accepted or the process stops. */
    method CancelPipeline(v: CancelView) returns (ok: bool)
      requires Valid()
      modifies `pipeline, jobs
      ensures State() == PipelineCanceled(old(State()), v)
      ensures CanceledAs(old(State()), v, State())
      ensures ok <==> Completes(old(Rows()), v)
    {
      CancelOutcomeIs(State(), v);
      hide Apply, CanceledAs, Completes, WithPipelineStatus, PipelineCancelRequested, CancelFrom, CancelsRemotely,
           CanceledInTurn;
      var requested := false;
      for i := 0 to |jobs|
        invariant |jobs| == |old(Rows())| && pipeline == old(pipeline)
        invariant CancelFrom(Rows(), i, v, requested) == CancelFrom(old(Rows()), 0, v, false)
      {
        CancelTurn(Rows(), i, v, requested);
        OneTurn(jobs[i].row, i, v);
        if v.reach <= i {
          return false;
        }
        var row := jobs[i].row;
        if CancelsRemotely(row, i, v) {
          if i !in v.accepted {
            return false;
          }
          Execute(i, MarkCancelRequested(UserRequested), v.now);
          requested := true;
        }
        if row.status == JobStatus.Pending {
          Execute(i, SetStatus(JobStatus.Canceled), v.now);
        }
      }
      CancelTurn(Rows(), |jobs|, v, requested);
      if v.reach <= |jobs| {
        return false;
      }
      pipeline := if requested then PipelineCancelRequested(pipeline, v.now)
                  else WithPipelineStatus(pipeline, PipelineStatus.Canceled, v.now);
      ok := true;
    }
  }
}
