/** What a scheduler pass leaves of a job and of its pipeline, told by what the server saw: which end a
    dispatch or a poll comes to, in which of the cases, and with which columns. */
module RowOutcomes {
  import opened Wire
  import opened StateMachine
  import opened JobRows
  import opened Scheduler

  // ---------------------------------------------------------------------------------------------
  // Pipelines

  predicate SomeJob(rows: seq<JobRow>, s: JobStatus) {
    exists i :: 0 <= i < |rows| && rows[i].status == s
  }

  predicate SomeRequiredFailure(rows: seq<JobRow>) {
    exists i :: 0 <= i < |rows| && rows[i].status == JobStatus.Failed && !rows[i].mayFail
  }

  predicate AllSucceeded(rows: seq<JobRow>) {
    rows != [] && forall i :: 0 <= i < |rows| ==> rows[i].status == JobStatus.Success || rows[i].status == JobStatus.Skipped
  }

  predicate AllCanceled(rows: seq<JobRow>) {
    rows != [] && forall i :: 0 <= i < |rows| ==> rows[i].status == JobStatus.Canceled
  }

  /** The verdict on a pipeline of these jobs: each of the seven, exactly when. */
  predicate Judged(rows: seq<JobRow>, s: PipelineStatus) {
    var stopped := SomeRequiredFailure(rows) || SomeJob(rows, JobStatus.Blocked);
    && (s.Success? <==> AllSucceeded(rows))
    && (s.Failed? <==> SomeRequiredFailure(rows))
    && (s.Blocked? <==> SomeJob(rows, JobStatus.Blocked) && !SomeRequiredFailure(rows))
    && (s.Canceled? <==> AllCanceled(rows))
    && (s.Canceling? <==> SomeJob(rows, JobStatus.Canceling) && !stopped)
    && (s.CancelRequested? <==> SomeJob(rows, JobStatus.CancelRequested) && !SomeJob(rows, JobStatus.Canceling) && !stopped)
    && (s.Running? <==>
          && !stopped && !AllSucceeded(rows) && !AllCanceled(rows)
          && !SomeJob(rows, JobStatus.Canceling) && !SomeJob(rows, JobStatus.CancelRequested))
  }

  /** The pipeline row carries that verdict, is finished now or not at all, and keeps of its cancellation
      what goes with it. */
  predicate Recomputed(before: PipelineRow, rows: seq<JobRow>, now: Time, after: PipelineRow) {
    var s := after.status;
    && Judged(rows, s)
    && after.finishedAt == (if s.Success? || s.Failed? || s.Canceled? || s.Blocked? then Some(now) else None)
    && (if s.CancelRequested? || s.Canceling? || s.Canceled? then
          after.cancelReason == before.cancelReason && after.cancelRequestedAt == before.cancelRequestedAt
        else after.cancelReason == None && after.cancelRequestedAt == None)
    && after.cancelStartedAt == (if s.Canceling? || s.Canceled? then before.cancelStartedAt else None)
  }

  lemma SomeVerdict(rows: seq<JobRow>, s: JobStatus)
    ensures AnyIs(Verdicts(rows), s) <==> SomeJob(rows, s)
  {
    if SomeJob(rows, s) {
      var i :| 0 <= i < |rows| && rows[i].status == s;
      assert Verdicts(rows)[i] in Verdicts(rows);
    }
  }

  lemma RequiredFailureVerdict(rows: seq<JobRow>)
    ensures AnyRequiredFailure(Verdicts(rows)) <==> SomeRequiredFailure(rows)
  {
    if SomeRequiredFailure(rows) {
      var i :| 0 <= i < |rows| && rows[i].status == JobStatus.Failed && !rows[i].mayFail;
      assert Verdicts(rows)[i] in Verdicts(rows);
    }
  }

  lemma EveryVerdict(rows: seq<JobRow>)
    ensures AllSucceeded(rows) <==> rows != [] && forall v :: v in Verdicts(rows) ==> Succeeded(v)
    ensures AllCanceled(rows) <==> rows != [] && forall v :: v in Verdicts(rows) ==> v.0 == JobStatus.Canceled
  {
    forall i | 0 <= i < |rows| ensures Verdicts(rows)[i] == rows[i].Verdict() && rows[i].Verdict() in Verdicts(rows) {
      assert Verdicts(rows)[i] in Verdicts(rows);
    }
  }

  lemma VerdictIsJudged(rows: seq<JobRow>)
    ensures Judged(rows, TerminalPipelineStatus(Verdicts(rows)))
  {
    SomeVerdict(rows, JobStatus.Blocked);
    SomeVerdict(rows, JobStatus.Canceling);
    SomeVerdict(rows, JobStatus.CancelRequested);
    RequiredFailureVerdict(rows);
    EveryVerdict(rows);
    Exclusions(rows);
    hide SomeJob, SomeRequiredFailure, AllSucceeded, AllCanceled, AnyIs, AnyRequiredFailure, Verdicts;
  }

  /** A pipeline all of whose jobs succeeded, or were all canceled, has none in another state. */
  lemma Exclusions(rows: seq<JobRow>)
    ensures AllSucceeded(rows) ==> !SomeRequiredFailure(rows) && !AllCanceled(rows)
    ensures AllCanceled(rows) ==> !SomeRequiredFailure(rows)
    ensures AllSucceeded(rows) || AllCanceled(rows) ==>
              && !SomeJob(rows, JobStatus.Blocked) && !SomeJob(rows, JobStatus.Canceling)
              && !SomeJob(rows, JobStatus.CancelRequested)
  {
    if AllSucceeded(rows) {
      assert rows[0].status != JobStatus.Canceled;
    }
  }

  lemma FinalizedIsRecomputed(before: PipelineRow, rows: seq<JobRow>, now: Time)
    ensures Recomputed(before, rows, now, Finalized(before, rows, now))
  {
    hide Judged, TerminalPipelineStatus;
    VerdictIsJudged(rows);
  }

  // ---------------------------------------------------------------------------------------------
  // Ends of a pass, column by column

  predicate SameJob(row: JobRow, after: JobRow) {
    after.runnerId == row.runnerId && after.jobName == row.jobName && after.mayFail == row.mayFail
  }

  predicate SameDispatch(row: JobRow, after: JobRow) {
    && SameJob(row, after)
    && after.dispatchKey == row.dispatchKey && after.runId == row.runId && after.startedAt == row.startedAt
    && after.infraRetryCount == row.infraRetryCount && after.lastInfraRetryAt == row.lastInfraRetryAt
  }

  predicate SameCancellation(row: JobRow, after: JobRow) {
    && after.cancelRequestedAt == row.cancelRequestedAt && after.cancelStartedAt == row.cancelStartedAt
    && after.cancelRetryCount == row.cancelRetryCount && after.lastCancelRetryAt == row.lastCancelRetryAt
  }

  predicate NoCancellation(after: JobRow) {
    && after.cancelRequestedAt == None && after.cancelStartedAt == None
    && after.cancelRetryCount == 0 && after.lastCancelRetryAt == None
  }

  predicate ResultIs(after: JobRow, exitCode: Option<int>, reason: Option<TerminalReason>, category: Option<FailureCategory>) {
    after.exitCode == exitCode && after.terminalReason == reason && after.failureCategory == category
  }

  /** Waiting again, under a new key, as if never dispatched but for the counted retry. */
  predicate BackInLine(row: JobRow, after: JobRow, freshKey: Key, now: Time) {
    && SameJob(row, after)
    && after.status == JobStatus.Pending && after.dispatchKey == freshKey && after.runId == None && after.startedAt == None
    && after.infraRetryCount == row.infraRetryCount + 1 && after.lastInfraRetryAt == Some(now)
    && after.finishedAt == None && after.cancelReason == None && NoCancellation(after)
    && ResultIs(after, None, None, None) && after.outputs == map[]
  }

  /** Finished now. Only a job that ends canceled keeps how its cancellation went. */
  predicate Ended(row: JobRow, after: JobRow, now: Time) {
    && SameDispatch(row, after)
    && after.finishedAt == Some(now) && after.cancelReason == row.cancelReason
    && (if after.status == JobStatus.Canceled then SameCancellation(row, after) else NoCancellation(after))
  }

  predicate EndedBy(row: JobRow, after: JobRow, reason: TerminalReason, category: FailureCategory, now: Time) {
    && after.status == JobStatus.Failed && Ended(row, after, now)
    && ResultIs(after, None, Some(reason), Some(category)) && after.outputs == map[]
  }

  lemma RetryOutcome(b: Budget, row: JobRow, reason: TerminalReason, freshKey: Key, now: Time)
    ensures
      var after := ApplyAll(row, RetryOrFail(b, row, reason, freshKey), now);
      if row.infraRetryCount < b.maxInfraRetries then BackInLine(row, after, freshKey, now)
      else EndedBy(row, after, reason, FailureCategory.Infra, now)
  {
    ApplyOne(row, RetryOrFail(b, row, reason, freshKey)[0], now);
  }

  // ---------------------------------------------------------------------------------------------
  // Dispatching

  /** The job before it rules this one out: canceled, or failed without leave to. */
  predicate RuledOut(rows: seq<JobRow>, i: nat)
    requires i < |rows|
  {
    0 < i && (|| rows[i - 1].status == JobStatus.Canceled
              || (rows[i - 1].status == JobStatus.Failed && !rows[i - 1].mayFail))
  }

  /** It is this job's turn. */
  predicate InTurn(rows: seq<JobRow>, i: nat)
    requires i < |rows|
  {
    i == 0 || (rows[i - 1].status.IsTerminal() && !RuledOut(rows, i))
  }

  /** Its inputs are prepared, or preparing them fails for want of a transfer. */
  predicate Prepares(rows: seq<JobRow>, i: nat, v: DispatchView)
    requires i < |rows|
  {
    InTurn(rows, i) && v.registration == Enabled && v.described
  }

  predicate TransferDoesNotHappen(rows: seq<JobRow>, i: nat, v: DispatchView)
    requires i < |rows|
  {
    Prepares(rows, i, v) && v.inputs == TransferFailed
  }

  predicate RefusedForGood(rows: seq<JobRow>, i: nat, v: DispatchView)
    requires i < |rows|
  {
    Prepares(rows, i, v) && v.inputs == Prepared && v.reply == Refused(true)
  }

  predicate AnsweredWithRun(rows: seq<JobRow>, i: nat, v: DispatchView)
    requires i < |rows|
  {
    Prepares(rows, i, v) && v.inputs == Prepared && v.reply.Created?
  }

  /** A waiting job's turn in the dispatch pass: each end exactly when, and with which columns. Any other
      job is left alone. */
  predicate Dispatched(b: Budget, rows: seq<JobRow>, i: nat, v: DispatchView, after: JobRow)
    requires i < |rows|
  {
    var row := rows[i];
    var left := row.infraRetryCount < b.maxInfraRetries;
    if row.status != JobStatus.Pending then after == row
    else
      && (after.status == JobStatus.Blocked <==> RuledOut(rows, i))
      && (after.status == JobStatus.Running <==> AnsweredWithRun(rows, i, v))
      && (after.status == JobStatus.Failed <==>
            || (InTurn(rows, i) && v.registration == Unregistered)
            || (TransferDoesNotHappen(rows, i, v) && !left)
            || RefusedForGood(rows, i, v))
      && (after.infraRetryCount != row.infraRetryCount <==> TransferDoesNotHappen(rows, i, v) && left)
      && (TransferDoesNotHappen(rows, i, v) && left ==> BackInLine(row, after, v.freshKey, v.now))
      && (after.status == JobStatus.Pending ==> after == row || after.infraRetryCount != row.infraRetryCount)
      && (|| after.status == JobStatus.Pending || after.status == JobStatus.Running
          || after.status == JobStatus.Failed || after.status == JobStatus.Blocked)
      && (after.status == JobStatus.Running ==> StartedAs(row, after, v.reply.runId, v.reply.startedAt))
      && (after.status == JobStatus.Blocked ==> StoppedUnstarted(row, after, v.now))
      && (after.status == JobStatus.Failed ==>
            if v.registration == Unregistered then StoppedUnstarted(row, after, v.now)
            else EndedBy(row, after, TerminalReason.SpawnError,
                         if v.inputs == TransferFailed then FailureCategory.Infra else FailureCategory.Job, v.now))
  }

  predicate StartedAs(row: JobRow, after: JobRow, runId: RunId, startedAt: Time) {
    && SameJob(row, after) && after.dispatchKey == row.dispatchKey
    && after.runId == Some(runId) && after.startedAt == Some(startedAt) && after.finishedAt == row.finishedAt
    && after.infraRetryCount == row.infraRetryCount && after.lastInfraRetryAt == row.lastInfraRetryAt
    && after.cancelReason == None && NoCancellation(after)
    && ResultIs(after, row.exitCode, row.terminalReason, row.failureCategory) && after.outputs == row.outputs
  }

  /** Finished without a reason on record. */
  predicate StoppedUnstarted(row: JobRow, after: JobRow, now: Time) {
    && SameDispatch(row, after) && after.finishedAt == Some(now) && after.cancelReason == None && NoCancellation(after)
    && ResultIs(after, None, None, None) && after.outputs == row.outputs
  }

  /** The dispatch pass recomputes the pipeline unless it started the job, found no runner, or did nothing. */
  predicate DispatchRecomputes(row: JobRow, after: JobRow) {
    || (after.status == JobStatus.Blocked && row.status != JobStatus.Blocked)
    || after.infraRetryCount != row.infraRetryCount
    || (after.status == JobStatus.Failed && row.status != JobStatus.Failed && after.terminalReason.Some?)
  }

  lemma ReadyByPredecessor(rows: seq<JobRow>, i: nat)
    requires i < |rows|
    ensures NextReadyJobStatus(Predecessors(rows, i)) ==
              if RuledOut(rows, i) then Some(JobStatus.Blocked)
              else if InTurn(rows, i) then Some(JobStatus.Pending) else None
  {
    if 0 < i {
      assert rows[i - 1].Verdict() in Predecessors(rows, i);
    }
  }

  lemma DispatchOutcome(b: Budget, rows: seq<JobRow>, i: nat, v: DispatchView)
    requires i < |rows|
    ensures
      var e := DispatchEffect(b, rows, i, v);
      var after := ApplyAll(rows[i], e.writes, v.now);
      Dispatched(b, rows, i, v, after) && (e.finalize <==> DispatchRecomputes(rows[i], after))
  {
    hide NextReadyJobStatus, InTurn, RuledOut;
    ReadyByPredecessor(rows, i);
    TurnOrRuledOut(rows, i);
    var e := DispatchEffect(b, rows, i, v);
    if e.writes != [] {
      assert e.writes == [e.writes[0]];
      ApplyOne(rows[i], e.writes[0], v.now);
    }
  }

  lemma TurnOrRuledOut(rows: seq<JobRow>, i: nat)
    requires i < |rows|
    ensures !(InTurn(rows, i) && RuledOut(rows, i))
  {
  }

  /** The pipeline was recomputed, or left alone. */
  predicate PipelineAfter(recomputed: bool, s: ServerState, now: Time, after: ServerState) {
    if recomputed then Recomputed(s.pipeline, after.rows, now, after.pipeline) else after.pipeline == s.pipeline
  }

  predicate OnlyRow(s: ServerState, i: nat, after: ServerState) {
    |after.rows| == |s.rows| && forall k :: 0 <= k < |s.rows| && k != i ==> after.rows[k] == s.rows[k]
  }

  /** A whole turn of the dispatch pass; the server may stop before it gets to the pipeline. */
  predicate DispatchLeaves(b: Budget, s: ServerState, i: nat, v: DispatchView, finalized: bool, after: ServerState) {
    && i < |s.rows| && OnlyRow(s, i, after) && Dispatched(b, s.rows, i, v, after.rows[i])
    && PipelineAfter(finalized && DispatchRecomputes(s.rows[i], after.rows[i]), s, v.now, after)
  }

  lemma CarryLeaves(s: ServerState, i: nat, e: Effect, now: Time)
    requires i < |s.rows|
    ensures
      var after := Carry(s, i, e, now);
      && OnlyRow(s, i, after) && after.rows[i] == ApplyAll(s.rows[i], e.writes, now)
      && PipelineAfter(e.finalize, s, now, after)
  {
    hide Recomputed, Finalized, ApplyAll;
    FinalizedIsRecomputed(s.pipeline, Carry(s, i, e, now).rows, now);
  }

  lemma DispatchCarried(b: Budget, s: ServerState, i: nat, v: DispatchView, finalized: bool)
    requires i < |s.rows|
    ensures
      var e := DispatchEffect(b, s.rows, i, v);
      DispatchLeaves(b, s, i, v, finalized, Carry(s, i, Effect(e.writes, e.finalize && finalized), v.now))
  {
    hide Carry, Recomputed, Dispatched, DispatchRecomputes, DispatchEffect;
    var e := DispatchEffect(b, s.rows, i, v);
    DispatchOutcome(b, s.rows, i, v);
    CarryLeaves(s, i, Effect(e.writes, e.finalize && finalized), v.now);
  }

  // ---------------------------------------------------------------------------------------------
  // Polling

  /** The cancellation has gone on for the timeout, counted from when it was seen to start, or else from
      when it was asked for. */
  predicate Overdue(cfg: Config, row: JobRow, now: Time) {
    && (row.status == JobStatus.CancelRequested || row.status == JobStatus.Canceling)
    && (if row.cancelStartedAt.Some? then cfg.cancelStuckSeconds <= now - row.cancelStartedAt.value
        else row.cancelRequestedAt.Some? && cfg.cancelStuckSeconds <= now - row.cancelRequestedAt.value)
  }

  /** A kept output: its kind, and either its artifact or its value. */
  predicate KeptAs(o: JobOutput, kept: RunOutput) {
    match o
    case ArtifactOutput(id, _, _) => kept.kind == Kind.Artifact && kept.runnerArtifactId == Some(id) && kept.value == None
    case StringOutput(text) => kept.kind == Kind.String && kept.runnerArtifactId == None && kept.value == Some(JString(text))
    case IntegerOutput(n) =>
      kept.kind == Kind.Integer && kept.runnerArtifactId == None && kept.value == Some(JNumber(Some(n)))
    case BooleanOutput(flag) => kept.kind == Kind.Boolean && kept.runnerArtifactId == None && kept.value == Some(JBool(flag))
    case JsonOutput(json) => kept.kind == Kind.Json && kept.runnerArtifactId == None && kept.value == Some(json)
  }

  predicate AllKept(outputs: map<string, RegisteredOutput>, kept: map<string, RunOutput>) {
    kept.Keys == outputs.Keys && forall name :: name in outputs ==> KeptAs(outputs[name], kept[name])
  }

  predicate SomeArtifactLost(outputs: map<string, RegisteredOutput>, lost: set<string>) {
    exists name :: name in outputs && outputs[name].ArtifactOutput? && name in lost
  }

  predicate InfraFailure(r: RunReport) {
    r.status == RunStatus.Failed && r.category == Some(FailureCategory.Infra)
  }

  /** A job whose run is reported ended: each end exactly when, and with which columns. */
  predicate Settled(b: Budget, row: JobRow, r: RunReport, lost: set<string>, freshKey: Key, now: Time, after: JobRow) {
    var left, broken := row.infraRetryCount < b.maxInfraRetries, SomeArtifactLost(r.outputs, lost);
    && (after.status == JobStatus.Pending <==> left && (InfraFailure(r) || broken))
    && (after.status == JobStatus.Success <==> r.status == RunStatus.Success && !broken)
    && (after.status == JobStatus.Canceled <==> r.status == RunStatus.Canceled && !broken)
    && (after.status == JobStatus.Failed <==>
          || (broken && !left)
          || (!broken && r.status != RunStatus.Success && r.status != RunStatus.Canceled && !(left && InfraFailure(r))))
    && (if after.status == JobStatus.Pending then BackInLine(row, after, freshKey, now)
        else if broken then EndedBy(row, after, TerminalReason.OutputRegistrationFailed, FailureCategory.Infra, now)
        else
          && Ended(row, after, now) && ResultIs(after, r.exitCode, r.reason, r.category)
          && AllKept(r.outputs, after.outputs))
  }

  /** A job whose run is reported under way: the row takes the further of its own status and the run's. */
  predicate Followed(row: JobRow, s: RunStatus, now: Time, after: JobRow) {
    && (after.status == JobStatus.Canceling <==> s == RunStatus.Canceling || row.status == JobStatus.Canceling)
    && (after.status == JobStatus.Running <==> s == RunStatus.Running && row.status == JobStatus.Running)
    && (after.status == JobStatus.CancelRequested <==>
          || (s == RunStatus.CancelRequested && row.status != JobStatus.Canceling)
          || (s == RunStatus.Running && row.status == JobStatus.CancelRequested))
    && (after.status == row.status ==> after == row)
    && (after.status != row.status ==>
          && SameDispatch(row, after) && after.finishedAt == None && after.cancelReason == row.cancelReason
          && ResultIs(after, None, None, None) && after.outputs == row.outputs
          && after.cancelRetryCount == row.cancelRetryCount && after.lastCancelRetryAt == row.lastCancelRetryAt
          && (after.status == JobStatus.CancelRequested ==>
                && after.cancelRequestedAt == (if row.cancelRequestedAt.Some? then row.cancelRequestedAt else Some(now))
                && after.cancelStartedAt == None)
          && (after.status == JobStatus.Canceling ==>
                && after.cancelRequestedAt == row.cancelRequestedAt
                && after.cancelStartedAt == (if row.cancelStartedAt.Some? then row.cancelStartedAt else Some(now))))
  }

  predicate Answers(b: Budget, row: JobRow, r: Option<RunReport>, lost: set<string>, freshKey: Key, now: Time, after: JobRow) {
    if r == None then after == row
    else if r.value.status.IsTerminal() then Settled(b, row, r.value, lost, freshKey, now, after)
    else Followed(row, r.value.status, now, after)
  }

  /** Given up on after the last cancel retry. */
  predicate GivenUp(row: JobRow, after: JobRow, now: Time) {
    && after.status == JobStatus.Failed && after.cancelReason == Some(StuckRetryExhausted)
    && ResultIs(after, row.exitCode, Some(TerminalReason.Canceled), Some(FailureCategory.Infra))
    && after.finishedAt == Some(now)
    && SameDispatch(row, after) && SameCancellation(row, after) && after.outputs == row.outputs
  }

  /** A job's turn in the poll pass, the watchdog first. */
  predicate Polled(cfg: Config, row: JobRow, v: PollView, after: JobRow) {
    if !row.status.InFlight() || !v.registered || row.runId == None then after == row
    else if !Overdue(cfg, row, v.now) then Answers(cfg.budget, row, v.report, v.lost, v.freshKey, v.now, after)
    else if cfg.budget.maxCancelRetries <= row.cancelRetryCount then GivenUp(row, after, v.now)
    else if !v.cancelAccepted then after == row
    else
      Answers(cfg.budget, row.(cancelRetryCount := row.cancelRetryCount + 1, lastCancelRetryAt := Some(v.now)),
              v.report, v.lost, v.freshKey, v.now, after)
  }

  lemma PersistedIsKept(outputs: map<string, RegisteredOutput>)
    ensures AllKept(outputs, PersistedAll(outputs))
  {
  }

  lemma ReportSettles(b: Budget, row: JobRow, r: RunReport, lost: set<string>, freshKey: Key, now: Time)
    requires r.status.IsTerminal()
    ensures
      var e := ReportEffect(b, row, r, lost, freshKey);
      |e.writes| == 1 && e.finalize && Settled(b, row, r, lost, freshKey, now, Apply(row, e.writes[0], now))
  {
    hide AllKept, PersistedAll;
    PersistedIsKept(r.outputs);
    assert TransferFails(r.outputs, lost) == SomeArtifactLost(r.outputs, lost);
  }

  lemma ReportIsFollowed(b: Budget, row: JobRow, r: RunReport, lost: set<string>, freshKey: Key, now: Time)
    requires !r.status.IsTerminal() && row.status.InFlight()
    ensures
      var e := ReportEffect(b, row, r, lost, freshKey);
      var after := if e.writes == [] then row else Apply(row, e.writes[0], now);
      |e.writes| <= 1 && (e.finalize <==> after.status != row.status) && Followed(row, r.status, now, after)
  {
  }

  lemma ReportAnswers(b: Budget, row: JobRow, r: RunReport, lost: set<string>, freshKey: Key, now: Time)
    requires row.status.InFlight()
    ensures
      var e := ReportEffect(b, row, r, lost, freshKey);
      var after := ApplyAll(row, e.writes, now);
      Answers(b, row, Some(r), lost, freshKey, now, after) && (e.finalize <==> after.status != row.status)
  {
    hide Settled, Followed, ReportEffect, Apply;
    var e := ReportEffect(b, row, r, lost, freshKey);
    if r.status.IsTerminal() {
      ReportSettles(b, row, r, lost, freshKey, now);
      SettledMoves(b, row, r, lost, freshKey, now, Apply(row, e.writes[0], now));
    } else {
      ReportIsFollowed(b, row, r, lost, freshKey, now);
    }
    if e.writes != [] {
      assert e.writes == [e.writes[0]];
      ApplyOne(row, e.writes[0], now);
    }
  }

  lemma SettledMoves(b: Budget, row: JobRow, r: RunReport, lost: set<string>, freshKey: Key, now: Time, after: JobRow)
    requires row.status.InFlight() && Settled(b, row, r, lost, freshKey, now, after)
    ensures after.status != row.status
  {
  }

  lemma OverdueIsStuck(cfg: Config, row: JobRow, now: Time)
    ensures Overdue(cfg, row, now) == Stuck(cfg, row, now)
  {
  }

  lemma PollOutcome(cfg: Config, row: JobRow, v: PollView)
    ensures
      var e := PollEffect(cfg, row, v);
      var after := ApplyAll(row, e.writes, v.now);
      Polled(cfg, row, v, after) && (e.finalize <==> after.status != row.status)
  {
    hide Answers, ReportEffect, Stuck, Overdue;
    OverdueIsStuck(cfg, row, v.now);
    if v.report.Some? && row.status.InFlight() {
      var counted := Apply(row, RecordCancelRetry, v.now);
      ReportAnswers(cfg.budget, row, v.report.value, v.lost, v.freshKey, v.now);
      ReportAnswers(cfg.budget, counted, v.report.value, v.lost, v.freshKey, v.now);
      ReportAfterRetry(cfg.budget, row, v.report.value, v.lost, v.freshKey, v.now);
    }
    if v.report == None {
      NoAnswer(cfg, row, v);
    }
    ApplyOne(row, MarkCancelRetryExhausted, v.now);
  }

  lemma NoAnswer(cfg: Config, row: JobRow, v: PollView)
    requires v.report == None
    ensures Answers(cfg.budget, row, None, v.lost, v.freshKey, v.now, row)
    ensures
      var counted := row.(cancelRetryCount := row.cancelRetryCount + 1, lastCancelRetryAt := Some(v.now));
      && Answers(cfg.budget, counted, None, v.lost, v.freshKey, v.now, counted)
      && ApplyAll(row, [RecordCancelRetry] + [], v.now) == counted
  {
    assert [RecordCancelRetry] + [] == [RecordCancelRetry];
    ApplyOne(row, RecordCancelRetry, v.now);
  }

  /** A whole turn of the poll pass; the pipeline follows whenever the job's status changes. */
  predicate PollLeaves(cfg: Config, s: ServerState, i: nat, v: PollView, finalized: bool, after: ServerState) {
    && i < |s.rows| && OnlyRow(s, i, after) && Polled(cfg, s.rows[i], v, after.rows[i])
    && PipelineAfter(finalized && after.rows[i].status != s.rows[i].status, s, v.now, after)
  }

  lemma PollCarried(cfg: Config, s: ServerState, i: nat, v: PollView, finalized: bool)
    requires i < |s.rows|
    ensures
      var e := PollEffect(cfg, s.rows[i], v);
      PollLeaves(cfg, s, i, v, finalized, Carry(s, i, Effect(e.writes, e.finalize && finalized), v.now))
  {
    hide Carry, Recomputed, Polled, PollEffect;
    var e := PollEffect(cfg, s.rows[i], v);
    PollOutcome(cfg, s.rows[i], v);
    CarryLeaves(s, i, Effect(e.writes, e.finalize && finalized), v.now);
  }

  /** The part of a poll that handles one report. */
  predicate ReportLeaves(b: Budget, s: ServerState, i: nat, r: RunReport, lost: set<string>, freshKey: Key, now: Time,
                         after: ServerState)
  {
    && i < |s.rows| && OnlyRow(s, i, after)
    && (s.rows[i].status.InFlight() ==>
          && Answers(b, s.rows[i], Some(r), lost, freshKey, now, after.rows[i])
          && PipelineAfter(after.rows[i].status != s.rows[i].status, s, now, after))
  }

  lemma ReportCarried(b: Budget, s: ServerState, i: nat, r: RunReport, lost: set<string>, freshKey: Key, now: Time)
    requires i < |s.rows|
    ensures ReportLeaves(b, s, i, r, lost, freshKey, now, Carry(s, i, ReportEffect(b, s.rows[i], r, lost, freshKey), now))
  {
    hide Carry, Recomputed, Answers, ReportEffect;
    if s.rows[i].status.InFlight() {
      ReportAnswers(b, s.rows[i], r, lost, freshKey, now);
    }
    CarryLeaves(s, i, ReportEffect(b, s.rows[i], r, lost, freshKey), now);
  }

  // ---------------------------------------------------------------------------------------------
  // Canceling and recovering a pipeline

  /** The job's runner has to be told: the job runs there, and the runner is known. */
  predicate ToBeTold(row: JobRow, i: nat, v: CancelView) {
    row.status == JobStatus.Running && row.runId.Some? && i in v.registered
  }

  /** The loop gets to row `i` and past it. */
  predicate Passed(rows: seq<JobRow>, v: CancelView, i: nat)
    requires i < |rows|
  {
    i < v.reach && forall k :: 0 <= k <= i && ToBeTold(rows[k], k, v) ==> k in v.accepted
  }

  predicate Completes(rows: seq<JobRow>, v: CancelView) {
    |rows| < v.reach && forall k :: 0 <= k < |rows| && ToBeTold(rows[k], k, v) ==> k in v.accepted
  }

  predicate SomeToBeTold(rows: seq<JobRow>, v: CancelView) {
    exists k :: 0 <= k < |rows| && ToBeTold(rows[k], k, v)
  }

  /** What the loop makes of a row it passes. */
  predicate CanceledInTurn(row: JobRow, i: nat, v: CancelView, after: JobRow) {
    if ToBeTold(row, i, v) then
      && after.status == JobStatus.CancelRequested && after.cancelReason == Some(UserRequested)
      && after.cancelRequestedAt == (if row.cancelRequestedAt.Some? then row.cancelRequestedAt else Some(v.now))
      && after.finishedAt == None && SameDispatch(row, after)
      && after.cancelStartedAt == row.cancelStartedAt && after.cancelRetryCount == row.cancelRetryCount
      && after.lastCancelRetryAt == row.lastCancelRetryAt
      && ResultIs(after, row.exitCode, row.terminalReason, row.failureCategory) && after.outputs == row.outputs
    else if row.status == JobStatus.Pending then
      && after.status == JobStatus.Canceled && after.finishedAt == Some(v.now)
      && SameDispatch(row, after) && after.cancelReason == row.cancelReason && SameCancellation(row, after)
      && ResultIs(after, None, None, None) && after.outputs == row.outputs
    else after == row
  }

  /** Canceling a pipeline of any jobs, wherever it stops. Only a loop that completes touches the pipeline
      itself: it waits for the runners that were told, if any was, and is canceled otherwise. */
  predicate CanceledAs(s: ServerState, v: CancelView, after: ServerState) {
    && |after.rows| == |s.rows|
    && (forall i :: 0 <= i < |s.rows| ==>
          if Passed(s.rows, v, i) then CanceledInTurn(s.rows[i], i, v, after.rows[i]) else after.rows[i] == s.rows[i])
    && (!Completes(s.rows, v) ==> after.pipeline == s.pipeline)
    && (Completes(s.rows, v) ==>
          && (after.pipeline.status == PipelineStatus.CancelRequested <==> SomeToBeTold(s.rows, v))
          && (after.pipeline.status == PipelineStatus.Canceled <==> !SomeToBeTold(s.rows, v))
          && after.pipeline.cancelStartedAt == s.pipeline.cancelStartedAt
          && (if SomeToBeTold(s.rows, v) then
                && after.pipeline.cancelReason == Some(UserRequested) && after.pipeline.finishedAt == None
                && after.pipeline.cancelRequestedAt ==
                     (if s.pipeline.cancelRequestedAt.Some? then s.pipeline.cancelRequestedAt else Some(v.now))
              else
                && after.pipeline.finishedAt == Some(v.now) && after.pipeline.cancelReason == s.pipeline.cancelReason
                && after.pipeline.cancelRequestedAt == s.pipeline.cancelRequestedAt))
  }

  lemma OneTurn(row: JobRow, i: nat, v: CancelView)
    ensures CancelsRemotely(row, i, v) == ToBeTold(row, i, v)
    ensures ToBeTold(row, i, v) ==> CanceledInTurn(row, i, v, Apply(row, MarkCancelRequested(UserRequested), v.now))
    ensures row.status == JobStatus.Pending ==> CanceledInTurn(row, i, v, Apply(row, SetStatus(JobStatus.Canceled), v.now))
    ensures !ToBeTold(row, i, v) && row.status != JobStatus.Pending ==> CanceledInTurn(row, i, v, row)
  {
  }

  /** The rows after the loop's turn at row `i`. */
  function AfterTurn(rows: seq<JobRow>, i: nat, v: CancelView): seq<JobRow>
    requires i < |rows|
  {
    if CancelsRemotely(rows[i], i, v) then rows[i := Apply(rows[i], MarkCancelRequested(UserRequested), v.now)]
    else if rows[i].status == JobStatus.Pending then rows[i := Apply(rows[i], SetStatus(JobStatus.Canceled), v.now)]
    else rows
  }

  lemma TurnChangesItsRow(rows: seq<JobRow>, i: nat, v: CancelView)
    requires i < |rows|
    ensures |AfterTurn(rows, i, v)| == |rows| && AfterTurn(rows, i, v)[i + 1..] == rows[i + 1..]
    ensures forall k :: 0 <= k < |rows| && k != i ==> AfterTurn(rows, i, v)[k] == rows[k]
    ensures CanceledInTurn(rows[i], i, v, AfterTurn(rows, i, v)[i])
  {
    OneTurn(rows[i], i, v);
    hide Apply, CanceledInTurn, ToBeTold, CancelsRemotely;
  }

  /** One turn of the loop: it stops, or goes on from the next row. */
  lemma CancelTurn(rows: seq<JobRow>, i: nat, v: CancelView, requested: bool)
    requires i <= |rows|
    ensures CancelFrom(rows, i, v, requested) ==
              if v.reach <= i then CancelOutcome(rows, false, requested)
              else if i == |rows| then CancelOutcome(rows, true, requested)
              else if CancelsRemotely(rows[i], i, v) && i !in v.accepted then CancelOutcome(rows, false, requested)
              else CancelFrom(AfterTurn(rows, i, v), i + 1, v, requested || CancelsRemotely(rows[i], i, v))
  {
    hide Apply;
  }

  /** The loop, started at row `i`, gets past row `k`. */
  predicate PassedFrom(rows: seq<JobRow>, v: CancelView, i: nat, k: nat)
    requires k < |rows|
  {
    k < v.reach && forall l :: i <= l <= k && ToBeTold(rows[l], l, v) ==> l in v.accepted
  }

  lemma NextTurn(rows: seq<JobRow>, rows': seq<JobRow>, v: CancelView, i: nat, k: nat)
    requires i < k < |rows| == |rows'| && rows'[i + 1..] == rows[i + 1..]
    ensures PassedFrom(rows, v, i, k) <==> (ToBeTold(rows[i], i, v) ==> i in v.accepted) && PassedFrom(rows', v, i + 1, k)
  {
    hide ToBeTold;
    assert forall l :: i + 1 <= l < |rows| ==> rows'[l] == rows'[i + 1..][l - i - 1] == rows[i + 1..][l - i - 1] == rows[l];
  }

  /** The loop from row `i` on, the rows before it being done with: what it makes of each row. */
  lemma {:induction false} CancelLoopRows(rows: seq<JobRow>, i: nat, v: CancelView, requested: bool)
    requires i <= |rows|
    ensures
      var out := CancelFrom(rows, i, v, requested);
      && (forall k :: 0 <= k < i ==> out.rows[k] == rows[k])
      && (forall k :: i <= k < |rows| ==>
            if PassedFrom(rows, v, i, k) then CanceledInTurn(rows[k], k, v, out.rows[k]) else out.rows[k] == rows[k])
    decreases |rows| - i
  {
    hide Apply, ToBeTold, CanceledInTurn, CancelsRemotely, CancelFrom, AfterTurn, PassedFrom;
    CancelTurn(rows, i, v, requested);
    if i < |rows| {
      OneTurn(rows[i], i, v);
      if i < v.reach && (CancelsRemotely(rows[i], i, v) ==> i in v.accepted) {
        var rows' := AfterTurn(rows, i, v);
        TurnChangesItsRow(rows, i, v);
        CancelLoopRows(rows', i + 1, v, requested || CancelsRemotely(rows[i], i, v));
        forall k | i < k < |rows| ensures PassedFrom(rows, v, i, k) <==> PassedFrom(rows', v, i + 1, k) {
          NextTurn(rows, rows', v, i, k);
        }
        PassesItself(rows, v, i);
      } else {
        forall k | i <= k < |rows| ensures !PassedFrom(rows, v, i, k) {
          StopsAt(rows, v, i, k);
        }
      }
    }
  }

  lemma PassesItself(rows: seq<JobRow>, v: CancelView, i: nat)
    requires i < |rows| && i < v.reach && (ToBeTold(rows[i], i, v) ==> i in v.accepted)
    ensures PassedFrom(rows, v, i, i)
  {
  }

  lemma StopsAt(rows: seq<JobRow>, v: CancelView, i: nat, k: nat)
    requires i <= k < |rows| && (v.reach <= i || (ToBeTold(rows[i], i, v) && i !in v.accepted))
    ensures !PassedFrom(rows, v, i, k)
  {
  }

  /** Whether it completes, and whether it then has had a runner told. */
  lemma {:induction false} CancelLoopEnd(rows: seq<JobRow>, i: nat, v: CancelView, requested: bool)
    requires i <= |rows|
    ensures
      var out := CancelFrom(rows, i, v, requested);
      && (out.completed <==>
            |rows| < v.reach && forall l :: i <= l < |rows| && ToBeTold(rows[l], l, v) ==> l in v.accepted)
      && (out.completed ==> (out.requested <==> requested || exists l :: i <= l < |rows| && ToBeTold(rows[l], l, v)))
    decreases |rows| - i
  {
    hide Apply, ToBeTold, CancelsRemotely;
    if i < |rows| && i < v.reach {
      OneTurn(rows[i], i, v);
      if CancelsRemotely(rows[i], i, v) {
        if i in v.accepted {
          CancelLoopEnd(rows[i := Apply(rows[i], MarkCancelRequested(UserRequested), v.now)], i + 1, v, true);
        }
      } else if rows[i].status == JobStatus.Pending {
        CancelLoopEnd(rows[i := Apply(rows[i], SetStatus(JobStatus.Canceled), v.now)], i + 1, v, requested);
      } else {
        CancelLoopEnd(rows, i + 1, v, requested);
      }
    }
  }

  lemma CancelOutcomeIs(s: ServerState, v: CancelView)
    ensures CanceledAs(s, v, PipelineCanceled(s, v))
    ensures CancelFrom(s.rows, 0, v, false).completed <==> Completes(s.rows, v)
  {
    hide CancelFrom, CanceledInTurn, ToBeTold;
    CancelLoopRows(s.rows, 0, v, false);
    CancelLoopEnd(s.rows, 0, v, false);
  }

  /** At a start of the server a pipeline is put back to work, or to its cancellation, exactly when it, or
      one of its jobs, is unfinished. */
  predicate RecoveredAs(s: ServerState, now: Time, after: ServerState) {
    var before := s.pipeline;
    var canceling := before.status == PipelineStatus.CancelRequested || before.status == PipelineStatus.Canceling;
    && after.rows == s.rows
    && (if canceling || before.status == PipelineStatus.Running
           || exists i :: 0 <= i < |s.rows| && !s.rows[i].status.IsTerminal()
        then
          && after.pipeline.status == (if canceling then before.status else PipelineStatus.Running)
          && after.pipeline.finishedAt == None
          && after.pipeline.cancelReason == (if canceling then before.cancelReason else None)
          && after.pipeline.cancelRequestedAt ==
               (if before.status == PipelineStatus.CancelRequested && before.cancelRequestedAt == None then Some(now)
                else if canceling then before.cancelRequestedAt else None)
          && after.pipeline.cancelStartedAt ==
               (if before.status != PipelineStatus.Canceling then None
                else if before.cancelStartedAt.Some? then before.cancelStartedAt else Some(now))
        else after.pipeline == before)
  }

  lemma RecoveryOutcome(s: ServerState, now: Time)
    ensures RecoveredAs(s, now, PipelineRecovered(s, now))
  {
  }
}
