/** What a step of the server comes to, told from what its runner answers: from the run's record for a
    poll, from the create call's reply for a dispatch. */
module StepOutcomes {
  import opened Wire
  import opened StateMachine
  import opened JobRows
  import opened Scheduler
  import opened RowOutcomes
  import opened RunnerJobs
  import opened RunnerOutcomes
  import opened Protocol
  import opened ProtocolSafety

  function ServerOf(w: World): ServerState {
    ServerState(w.rows, w.pipeline)
  }

  // ---------------------------------------------------------------------------------------------
  // Polling

  /** The poll's cancel call, if it makes one, reaches the runner, is taken, and its reply comes back. */
  predicate CancelTaken(w: World, a: Action)
    requires a.Poll? && a.i < |w.rows|
  {
    var row := w.rows[a.i];
    && a.cancelFate.Answered? && row.runId.Some? && row.runnerId in w.runners
    && TakesCancel(w.runners[row.runnerId], row.runId.value, a.stored)
  }

  /** What the poll's status call brings back: what the run's record says when the call is answered. */
  function Seen(a: Action, row: JobRow, runners: map<string, RunnerState>): Option<RunReport>
    requires a.Poll?
  {
    if a.statusSeen && row.runId.Some? && HoldsRecord(runners, row.runnerId, row.runId.value) then
      var m := runners[row.runnerId].disk[row.runId.value].record;
      Some(RunReport(m.status, m.exitCode, m.reason, m.category, m.outputs))
    else None
  }

  /** A step of the poll pass, from what the runner's record says. */
  lemma PollStepOutcome(p: Setting, w: World, a: Action)
    requires |w.rows| == |w.writes| && a.Poll? && a.i < |w.rows|
    ensures
      var w' := Step(p, w, a);
      PollLeaves(p.cfg, ServerOf(w), a.i,
                 PollView(a.registered, CancelTaken(w, a), Seen(a, w.rows[a.i], w'.runners), a.lost, Issued(|w.owner|), a.now),
                 a.finalized, ServerOf(w'))
  {
    hide PollLeaves, PollEffect, Cancel, CancelTaken, Seen, AfterCancelRetry, AfterActs, Carry;
    var w', row, v := Step(p, w, a), w.rows[a.i], PollViewOf(p, w, a);
    PollChangesServer(p, w, a);
    PollCarried(p.cfg, ServerOf(w), a.i, v, a.finalized);
    var seen := v.(cancelAccepted := CancelTaken(w, a));
    ReportIsSeen(p, w, a);
    SameCancel(p, w, a);
    SameOutcome(p.cfg, ServerOf(w), a.i, v, seen, a.finalized, ServerOf(w'));
  }

  lemma PollChangesServer(p: Setting, w: World, a: Action)
    requires |w.rows| == |w.writes| && a.Poll? && a.i < |w.rows|
    ensures
      var e := PollEffect(p.cfg, w.rows[a.i], PollViewOf(p, w, a));
      && ServerOf(Step(p, w, a)) == Carry(ServerOf(w), a.i, Effect(e.writes, e.finalize && a.finalized), a.now)
      && Step(p, w, a).runners == AfterPollCalls(p, w, a).runners
  {
    hide PollEffect, Cancel, Carry, CancelArrives, RunnerWorldStep, StatusReport;
  }

  lemma ReportIsSeen(p: Setting, w: World, a: Action)
    requires |w.rows| == |w.writes| && a.Poll? && a.i < |w.rows|
    ensures PollViewOf(p, w, a).report == Seen(a, w.rows[a.i], AfterPollCalls(p, w, a).runners)
  {
    hide AfterPollCalls, CancelAccepted;
  }

  /** Where the poll makes its cancel call, it goes as the runner takes it. */
  lemma SameCancel(p: Setting, w: World, a: Action)
    requires a.Poll? && a.i < |w.rows|
    ensures
      var row := w.rows[a.i];
      a.registered && row.runId.Some? && Overdue(p.cfg, row, a.now) && row.cancelRetryCount < p.cfg.budget.maxCancelRetries ==>
        CancelAccepted(p, w, a) == CancelTaken(w, a)
  {
    hide Cancel, Stuck, Overdue;
    var row := w.rows[a.i];
    OverdueIsStuck(p.cfg, row, a.now);
    if row.runnerId in w.runners && row.runId.Some? {
      CancelAnswers(w.runners[row.runnerId], row.runId.value, a.stored);
    }
  }

  /** Whether a cancel call was taken matters only where one is made. */
  lemma SameOutcome(cfg: Config, s: ServerState, i: nat, v: PollView, v': PollView, finalized: bool, after: ServerState)
    requires i < |s.rows| && PollLeaves(cfg, s, i, v, finalized, after)
    requires v' == v.(cancelAccepted := v'.cancelAccepted)
    requires
      (v.registered && s.rows[i].runId.Some? && Overdue(cfg, s.rows[i], v.now)
       && s.rows[i].cancelRetryCount < cfg.budget.maxCancelRetries) ==> v.cancelAccepted == v'.cancelAccepted
    ensures PollLeaves(cfg, s, i, v', finalized, after)
  {
    hide Answers, Overdue, Recomputed, GivenUp;
  }

  /** The poll gets a status answer about the job's run: the job is in flight on a known runner, the answer
      comes back, and if the watchdog is due it has a cancel retry, which the runner takes. */
  predicate GetsAnswer(p: Setting, w: World, a: Action, runners: map<string, RunnerState>)
    requires a.Poll? && a.i < |w.rows|
  {
    var row := w.rows[a.i];
    && row.status.InFlight() && a.registered && a.statusSeen && row.runId.Some?
    && HoldsRecord(runners, row.runnerId, row.runId.value)
    && (Overdue(p.cfg, row, a.now) ==> row.cancelRetryCount < p.cfg.budget.maxCancelRetries && CancelTaken(w, a))
  }

  function RecordSeen(w: World, a: Action, runners: map<string, RunnerState>): RunRecord
    requires a.Poll? && a.i < |w.rows| && w.rows[a.i].runId.Some?
    requires HoldsRecord(runners, w.rows[a.i].runnerId, w.rows[a.i].runId.value)
  {
    runners[w.rows[a.i].runnerId].disk[w.rows[a.i].runId.value].record
  }

  /** A poll that finds the run ended, brings every artifact across and is not left a retry for an
      infrastructure failure ends the job as the run ended: with its verdict, exit code, reason, category
      and outputs. */
  lemma EndedRunEndsJob(p: Setting, w: World, a: Action)
    requires |w.rows| == |w.writes| && a.Poll? && a.i < |w.rows| && GetsAnswer(p, w, a, Step(p, w, a).runners)
    requires
      var m := RecordSeen(w, a, Step(p, w, a).runners);
      && m.status.IsTerminal() && !SomeArtifactLost(m.outputs, a.lost)
      && !(m.status == RunStatus.Failed && m.category == Some(FailureCategory.Infra)
           && w.rows[a.i].infraRetryCount < p.cfg.budget.maxInfraRetries)
    ensures
      var m, after := RecordSeen(w, a, Step(p, w, a).runners), Step(p, w, a).rows[a.i];
      && (after.status == JobStatus.Success <==> m.status == RunStatus.Success)
      && (after.status == JobStatus.Canceled <==> m.status == RunStatus.Canceled)
      && (after.status == JobStatus.Failed <==> m.status != RunStatus.Success && m.status != RunStatus.Canceled)
      && after.exitCode == m.exitCode && after.terminalReason == m.reason && after.failureCategory == m.category
      && AllKept(m.outputs, after.outputs)
      && after.finishedAt == Some(a.now) && after.dispatchKey == w.rows[a.i].dispatchKey && after.runId == w.rows[a.i].runId
  {
    hide Step, AllKept, Overdue, CancelTaken, Recomputed, SomeArtifactLost;
    PollStepOutcome(p, w, a);
  }

  /** A poll that finds the run ended but cannot bring some artifact across, or finds an infrastructure
      failure with a retry left, puts the job back in line under the next key while there are retries, and
      with none left fails it for the artifact. */
  lemma EndedRunIsRetried(p: Setting, w: World, a: Action)
    requires |w.rows| == |w.writes| && a.Poll? && a.i < |w.rows| && GetsAnswer(p, w, a, Step(p, w, a).runners)
    requires
      var m := RecordSeen(w, a, Step(p, w, a).runners);
      && m.status.IsTerminal()
      && (|| SomeArtifactLost(m.outputs, a.lost)
          || (m.status == RunStatus.Failed && m.category == Some(FailureCategory.Infra)
              && w.rows[a.i].infraRetryCount < p.cfg.budget.maxInfraRetries))
    ensures
      var row, after := w.rows[a.i], Step(p, w, a).rows[a.i];
      && after.infraRetryCount <= row.infraRetryCount + 1
      && (row.infraRetryCount < p.cfg.budget.maxInfraRetries ==> BackInLine(row, after, Issued(|w.owner|), a.now))
      && (row.infraRetryCount >= p.cfg.budget.maxInfraRetries ==>
            && after.status == JobStatus.Failed && after.finishedAt == Some(a.now)
            && ResultIs(after, None, Some(TerminalReason.OutputRegistrationFailed), Some(FailureCategory.Infra))
            && after.outputs == map[] && after.dispatchKey == row.dispatchKey)
  {
    hide Step, Overdue, CancelTaken, Recomputed, SomeArtifactLost;
    PollStepOutcome(p, w, a);
  }

  /** A poll that finds the run under way takes the row to the further of its own status and the run's. */
  lemma LiveRunIsFollowed(p: Setting, w: World, a: Action)
    requires |w.rows| == |w.writes| && a.Poll? && a.i < |w.rows| && GetsAnswer(p, w, a, Step(p, w, a).runners)
    requires !RecordSeen(w, a, Step(p, w, a).runners).status.IsTerminal()
    ensures
      var s, row, after := RecordSeen(w, a, Step(p, w, a).runners).status, w.rows[a.i], Step(p, w, a).rows[a.i];
      && (after.status == JobStatus.Canceling <==> s == RunStatus.Canceling || row.status == JobStatus.Canceling)
      && (after.status == JobStatus.Running <==> s == RunStatus.Running && row.status == JobStatus.Running)
      && (after.status == JobStatus.CancelRequested <==>
            || (s == RunStatus.CancelRequested && row.status != JobStatus.Canceling)
            || (s == RunStatus.Running && row.status == JobStatus.CancelRequested))
      && SameDispatch(row, after) && after.finishedAt == (if after.status == row.status then row.finishedAt else None)
  {
    hide Step, Overdue, CancelTaken, Recomputed;
    PollStepOutcome(p, w, a);
  }

  // ---------------------------------------------------------------------------------------------
  // Dispatching

  /** What the runner answers the create call a dispatch would make. */
  function AnswerOf(p: Setting, w: World, a: Action): Result<CreatedRun, RunnerError>
    requires a.Dispatch? && a.i < |w.rows| && w.rows[a.i].runnerId in w.runners
  {
    var row := w.rows[a.i];
    Create(w.runners[row.runnerId], p.idOf(row.dispatchKey),
           CreateRequest(row.jobName, row.dispatchKey, a.requestHash, a.inputCheck), a.setup, a.now).1
  }

  /** The runner's answer comes back. */
  predicate Replies(w: World, a: Action)
    requires a.Dispatch? && a.i < |w.rows|
  {
    a.fate.Answered? && w.rows[a.i].runnerId in w.runners
  }

  /** The errors that cannot go away by asking again. */
  predicate Hopeless(e: RunnerError) {
    || e == UnknownJob || e == InvalidInputs || e == InvalidLogLimit || e == InvalidIdempotencyKey
    || e == InvalidJobId || e == JobNotFound
  }

  /** They are those whose status code counts as a rejection. */
  lemma RejectingErrors(e: RunnerError)
    ensures HttpStatus(e) in REJECTING_STATUSES <==> Hopeless(e)
  {
  }

  /** The create call is refused with a rejecting status: by something in between, or by the runner, for an
      error that cannot go away or in words that quote such a status. */
  predicate Rejected(p: Setting, w: World, a: Action)
    requires a.Dispatch? && a.i < |w.rows|
  {
    || (a.fate.Intercepted? && a.fate.rejects)
    || (&& Replies(w, a) && AnswerOf(p, w, a).Err?
        && (Hopeless(AnswerOf(p, w, a).error) || a.fate.quotesRejection))
  }

  /** A waiting job's turn in the dispatch pass, by the runner's answer: each end exactly when. Any other job
      is left alone. */
  lemma DispatchStepOutcome(p: Setting, w: World, a: Action)
    requires |w.rows| == |w.writes| && a.Dispatch? && a.i < |w.rows|
    ensures
      var row, after := w.rows[a.i], Step(p, w, a).rows[a.i];
      var prepares := InTurn(w.rows, a.i) && a.registration == Enabled && a.described;
      var calls, broken := prepares && a.inputs == Prepared, prepares && a.inputs == TransferFailed;
      var left := row.infraRetryCount < p.cfg.budget.maxInfraRetries;
      if row.status != JobStatus.Pending then after == row
      else
        && (after.status == JobStatus.Running <==> calls && Replies(w, a) && AnswerOf(p, w, a).Ok?)
        && (after.status == JobStatus.Running ==>
              var run := AnswerOf(p, w, a).value; StartedAs(row, after, run.runId, run.startedAt))
        && (after.status == JobStatus.Failed <==>
              || (InTurn(w.rows, a.i) && a.registration == Unregistered)
              || (broken && !left)
              || (calls && Rejected(p, w, a)))
        && (after.status == JobStatus.Failed ==>
              if a.registration == Unregistered then StoppedUnstarted(row, after, a.now)
              else EndedBy(row, after, TerminalReason.SpawnError,
                           if a.inputs == TransferFailed then FailureCategory.Infra else FailureCategory.Job, a.now))
        && (after.infraRetryCount != row.infraRetryCount <==> broken && left)
        && (broken && left ==> BackInLine(row, after, Issued(|w.owner|), a.now))
        && (after.status == JobStatus.Blocked <==> RuledOut(w.rows, a.i))
        && (after.status == JobStatus.Blocked ==> StoppedUnstarted(row, after, a.now))
        && (|| after == row || after.infraRetryCount != row.infraRetryCount || after.status == JobStatus.Running
            || after.status == JobStatus.Failed || after.status == JobStatus.Blocked)
  {
    hide Step, Create, InTurn, RuledOut, Recomputed, DispatchRecomputes, Replies, AnswerOf;
    var v := DispatchViewOf(p, w, a);
    DispatchChangesServer(p, w, a);
    DispatchCarried(p.cfg.budget, ServerOf(w), a.i, v, a.finalized);
    if w.rows[a.i].status == JobStatus.Pending && InTurn(w.rows, a.i) && a.registration == Enabled && a.described
       && a.inputs == Prepared
    {
      ReplyIsAnswer(p, w, a);
    }
  }

  lemma DispatchChangesServer(p: Setting, w: World, a: Action)
    requires |w.rows| == |w.writes| && a.Dispatch? && a.i < |w.rows|
    ensures
      var e := DispatchEffect(p.cfg.budget, w.rows, a.i, DispatchViewOf(p, w, a));
      ServerOf(Step(p, w, a)) == Carry(ServerOf(w), a.i, Effect(e.writes, e.finalize && a.finalized), a.now)
  {
    hide DispatchEffect, DispatchViewOf, AfterCreate, Carry;
    OnlyRunnersChange(p, w, a);
  }

  /** What the server makes of the runner's answer. */
  lemma ReplyIsAnswer(p: Setting, w: World, a: Action)
    requires a.Dispatch? && a.i < |w.rows| && w.rows[a.i].status == JobStatus.Pending
    requires InTurn(w.rows, a.i) && a.registration == Enabled && a.described && a.inputs == Prepared
    ensures
      var reply := DispatchViewOf(p, w, a).reply;
      && (reply.Created? <==> Replies(w, a) && AnswerOf(p, w, a).Ok?)
      && (reply.Created? ==>
            reply.runId == AnswerOf(p, w, a).value.runId && reply.startedAt == AnswerOf(p, w, a).value.startedAt)
      && (reply == Refused(true) <==> Rejected(p, w, a))
  {
    hide Create, NextReadyJobStatus, InTurn, HttpStatus, Hopeless;
    ReadyByPredecessor(w.rows, a.i);
    TurnOrRuledOut(w.rows, a.i);
    if Replies(w, a) && AnswerOf(p, w, a).Err? {
      RejectingErrors(AnswerOf(p, w, a).error);
    }
  }

  // ---------------------------------------------------------------------------------------------
  // What the steps do to the runners

  /** A poll calls the runner to cancel exactly when the watchdog is due and has a retry left, and that is all
      it does to the runners. */
  lemma PollCallsWhenDue(p: Setting, w: World, a: Action)
    requires |w.rows| == |w.writes| && a.Poll? && a.i < |w.rows| && a.between == []
    ensures
      var row := w.rows[a.i];
      Step(p, w, a).runners ==
        if && a.registered && row.runId.Some? && Overdue(p.cfg, row, a.now)
           && row.cancelRetryCount < p.cfg.budget.maxCancelRetries
           && (a.cancelFate.ReplyLost? || a.cancelFate.Answered?) && row.runnerId in w.runners
        then w.runners[row.runnerId := Cancel(w.runners[row.runnerId], row.runId.value, a.stored).0]
        else w.runners
  {
    hide Cancel, PollEffect, Stuck, Overdue, StatusReport, CancelAccepted;
    OverdueIsStuck(p.cfg, w.rows[a.i], a.now);
  }

  /** A dispatch calls the runner to create a run exactly when it is the job's turn, its runner is enabled and
      its inputs are prepared, and that is all it does to the runners. */
  lemma DispatchCallsInTurn(p: Setting, w: World, a: Action)
    requires |w.rows| == |w.writes| && a.Dispatch? && a.i < |w.rows|
    ensures
      var row := w.rows[a.i];
      Step(p, w, a).runners ==
        if && row.status == JobStatus.Pending && InTurn(w.rows, a.i)
           && a.registration == Enabled && a.described && a.inputs == Prepared
           && (a.fate.ReplyLost? || a.fate.Answered?) && row.runnerId in w.runners
        then
          w.runners[row.runnerId :=
            Create(w.runners[row.runnerId], p.idOf(row.dispatchKey),
                   CreateRequest(row.jobName, row.dispatchKey, a.requestHash, a.inputCheck), a.setup, a.now).0]
        else w.runners
  {
    hide Create, DispatchEffect, ReplySeen, InTurn, RuledOut, NextReadyJobStatus;
    ReadyByPredecessor(w.rows, a.i);
    TurnOrRuledOut(w.rows, a.i);
  }

  // ---------------------------------------------------------------------------------------------
  // The pipeline's verdict

  /** A step that changes a job's status and gets to the pipeline leaves it the verdict its jobs call for,
      unless it only started the job, or failed it for want of a runner. In particular a pipeline all of
      whose jobs have then succeeded is a success, and one with a required failure has failed. */
  lemma StepJudgesPipeline(p: Setting, w: World, a: Action)
    requires |w.rows| == |w.writes|
    requires (a.Poll? || a.Dispatch?) && a.i < |w.rows| && a.finalized
    requires Step(p, w, a).rows[a.i].status != w.rows[a.i].status
    requires a.Dispatch? ==> Step(p, w, a).rows[a.i].status != JobStatus.Running && a.registration != Unregistered
    ensures
      var w' := Step(p, w, a);
      && Recomputed(w.pipeline, w'.rows, a.now, w'.pipeline)
      && (w'.pipeline.status.Success? <==> AllSucceeded(w'.rows))
      && (w'.pipeline.status.Failed? <==> SomeRequiredFailure(w'.rows))
  {
    hide Step, Create, RuledOut, InTurn, Polled, AllSucceeded, SomeRequiredFailure, SomeJob, AllCanceled;
    if a.Poll? {
      PollStepOutcome(p, w, a);
    } else {
      var v := DispatchViewOf(p, w, a);
      DispatchChangesServer(p, w, a);
      DispatchCarried(p.cfg.budget, ServerOf(w), a.i, v, a.finalized);
    }
  }

  /** And any other turn leaves the pipeline alone. */
  lemma OtherStepsKeepVerdict(p: Setting, w: World, a: Action)
    requires |w.rows| == |w.writes|
    requires (a.Poll? || a.Dispatch?) && a.i < |w.rows|
    requires
      var row, after := w.rows[a.i], Step(p, w, a).rows[a.i];
      || !a.finalized
      || (a.Poll? && after.status == row.status)
      || (a.Dispatch? && (after == row || after.status == JobStatus.Running))
    ensures Step(p, w, a).pipeline == w.pipeline
  {
    hide Step, Create, RuledOut, InTurn, Polled, Recomputed;
    if a.Poll? {
      PollStepOutcome(p, w, a);
    } else {
      var v := DispatchViewOf(p, w, a);
      DispatchChangesServer(p, w, a);
      DispatchCarried(p.cfg.budget, ServerOf(w), a.i, v, a.finalized);
    }
  }

  // ---------------------------------------------------------------------------------------------
  // Canceling the pipeline

  /** The rows whose runners, asked to cancel as they stand before the step, would say yes. */
  function Willing(w: World, a: Action): set<nat>
    requires a.CancelPipeline?
  {
    set k | 0 <= k < |w.rows| && WillingAt(w.rows, w.runners, k, a)
  }

  predicate WillingAt(rows: seq<JobRow>, runners: map<string, RunnerState>, k: nat, a: Action)
    requires a.CancelPipeline? && k < |rows|
  {
    && rows[k].runId.Some? && rows[k].runnerId in runners && k in a.arriving && k in a.answered
    && TakesCancel(runners[rows[k].runnerId], rows[k].runId.value, a.stored)
  }

  /** A cancel call that was taken leaves every other as willing as before, or as unwilling. */
  lemma CallsAreIndependent(rows: seq<JobRow>, runners: map<string, RunnerState>, i: nat, k: nat, a: Action)
    requires a.CancelPipeline? && i < |rows| && k < |rows| && rows[i].runId.Some? && rows[i].runnerId in runners
    requires Cancel(runners[rows[i].runnerId], rows[i].runId.value, a.stored).1.Ok?
    ensures
      var runners' := runners[rows[i].runnerId := Cancel(runners[rows[i].runnerId], rows[i].runId.value, a.stored).0];
      WillingAt(rows, runners', k, a) == WillingAt(rows, runners, k, a)
  {
    hide Cancel;
    CancelAnswers(runners[rows[i].runnerId], rows[i].runId.value, a.stored);
  }

  /** The loop, from row `i` on, gets to row `k` and its runner says yes. */
  predicate GetsThrough(rows: seq<JobRow>, runners: map<string, RunnerState>, i: nat, k: nat, a: Action)
    requires a.CancelPipeline?
  {
    && i <= k < |rows| && k < a.reach && ToBeTold(rows[k], k, CancelViewOf(a, {}))
    && forall l :: i <= l <= k && ToBeTold(rows[l], l, CancelViewOf(a, {})) ==> WillingAt(rows, runners, l, a)
  }

  lemma NextCall(rows: seq<JobRow>, runners: map<string, RunnerState>, runners': map<string, RunnerState>, i: nat, k: nat,
                 a: Action)
    requires a.CancelPipeline? && i < |rows| && i < a.reach
    requires forall l :: 0 <= l < |rows| ==> WillingAt(rows, runners', l, a) == WillingAt(rows, runners, l, a)
    ensures !ToBeTold(rows[i], i, CancelViewOf(a, {})) ==>
              (GetsThrough(rows, runners, i, k, a) <==> GetsThrough(rows, runners, i + 1, k, a))
    ensures ToBeTold(rows[i], i, CancelViewOf(a, {})) ==>
              (GetsThrough(rows, runners, i, k, a) <==>
                 WillingAt(rows, runners, i, a) && (k == i || GetsThrough(rows, runners', i + 1, k, a)))
  {
    hide ToBeTold, WillingAt;
  }

  /** The calls the loop sees accepted are those it gets through to. */
  lemma {:induction false} CallsAccepted(rows: seq<JobRow>, runners: map<string, RunnerState>, i: nat, a: Action)
    requires a.CancelPipeline? && i <= |rows|
    ensures forall k: nat :: k in CancelCalls(rows, runners, i, a).1 <==> GetsThrough(rows, runners, i, k, a)
    decreases |rows| - i
  {
    hide Cancel, TakesCancel, ToBeTold, CancelsRemotely, WillingAt;
    if i < |rows| && i < a.reach {
      OneTurn(rows[i], i, CancelViewOf(a, {}));
      if !CancelsRemotely(rows[i], i, CancelViewOf(a, {})) {
        CallsAccepted(rows, runners, i + 1, a);
        forall k: nat ensures GetsThrough(rows, runners, i, k, a) <==> GetsThrough(rows, runners, i + 1, k, a) {
          NextCall(rows, runners, runners, i, k, a);
        }
      } else {
        CallAccepted(rows, runners, i, a);
      }
    }
  }

  lemma {:induction false} CallAccepted(rows: seq<JobRow>, runners: map<string, RunnerState>, i: nat, a: Action)
    requires a.CancelPipeline? && i < |rows| && i < a.reach && CancelsRemotely(rows[i], i, CancelViewOf(a, {}))
    ensures forall k: nat :: k in CancelCalls(rows, runners, i, a).1 <==> GetsThrough(rows, runners, i, k, a)
    decreases |rows| - i, 0
  {
    hide Cancel, TakesCancel, ToBeTold, GetsThrough;
    OneTurn(rows[i], i, CancelViewOf(a, {}));
    if rows[i].runnerId in runners && i in a.arriving {
      CancelAnswers(runners[rows[i].runnerId], rows[i].runId.value, a.stored);
    }
    if WillingAt(rows, runners, i, a) {
      var runners' := runners[rows[i].runnerId := Cancel(runners[rows[i].runnerId], rows[i].runId.value, a.stored).0];
      CallsAccepted(rows, runners', i + 1, a);
      AllIndependent(rows, runners, i, a);
      forall k: nat ensures GetsThrough(rows, runners, i, k, a) <==> k == i || GetsThrough(rows, runners', i + 1, k, a) {
        NextCall(rows, runners, runners', i, k, a);
      }
    } else {
      forall k: nat ensures !GetsThrough(rows, runners, i, k, a) {
        NextCall(rows, runners, runners, i, k, a);
      }
    }
  }

  lemma AllIndependent(rows: seq<JobRow>, runners: map<string, RunnerState>, i: nat, a: Action)
    requires a.CancelPipeline? && i < |rows| && WillingAt(rows, runners, i, a)
    ensures
      var runners' := runners[rows[i].runnerId := Cancel(runners[rows[i].runnerId], rows[i].runId.value, a.stored).0];
      forall l :: 0 <= l < |rows| ==> WillingAt(rows, runners', l, a) == WillingAt(rows, runners, l, a)
  {
    hide Cancel, TakesCancel;
    CancelAnswers(runners[rows[i].runnerId], rows[i].runId.value, a.stored);
    forall l | 0 <= l < |rows|
      ensures
        var runners' := runners[rows[i].runnerId := Cancel(runners[rows[i].runnerId], rows[i].runId.value, a.stored).0];
        WillingAt(rows, runners', l, a) == WillingAt(rows, runners, l, a)
    {
      CallsAreIndependent(rows, runners, i, l, a);
    }
  }

  /** A pipeline cancellation, from how the runners stand: every row, the pipeline, and whether the loop gets
      to the end. */
  lemma CancelStepOutcome(p: Setting, w: World, a: Action)
    requires |w.rows| == |w.writes| && a.CancelPipeline?
    ensures CanceledAs(ServerOf(w), CancelView(a.known, Willing(w, a), a.reach, a.now), ServerOf(Step(p, w, a)))
  {
    hide CancelCalls, PipelineCanceled, CanceledAs, Willing;
    var accepted := CancelCalls(w.rows, w.runners, 0, a).1;
    CallsAccepted(w.rows, w.runners, 0, a);
    CancelOutcomeIs(ServerOf(w), CancelViewOf(a, accepted));
    WillingIsEnough(w, a, accepted);
    SameCanceledAs(ServerOf(w), CancelViewOf(a, accepted), CancelView(a.known, Willing(w, a), a.reach, a.now),
                   ServerOf(Step(p, w, a)));
  }

  lemma SameCanceledAs(s: ServerState, v: CancelView, v': CancelView, after: ServerState)
    requires v' == v.(accepted := v'.accepted) && CanceledAs(s, v, after)
    requires forall k :: 0 <= k < |s.rows| ==> Passed(s.rows, v, k) == Passed(s.rows, v', k)
    requires Completes(s.rows, v) == Completes(s.rows, v')
    ensures CanceledAs(s, v', after)
  {
    hide Passed, Completes;
    forall k | 0 <= k < |s.rows|
      ensures CanceledInTurn(s.rows[k], k, v, after.rows[k]) == CanceledInTurn(s.rows[k], k, v', after.rows[k])
    {
    }
    assert SomeToBeTold(s.rows, v) == SomeToBeTold(s.rows, v') by {
      assert forall k :: 0 <= k < |s.rows| ==> ToBeTold(s.rows[k], k, v) == ToBeTold(s.rows[k], k, v');
    }
  }

  /** For how far the loop gets it does not matter that later runners would be willing. */
  lemma WillingIsEnough(w: World, a: Action, accepted: set<nat>)
    requires a.CancelPipeline? && forall k: nat :: k in accepted <==> GetsThrough(w.rows, w.runners, 0, k, a)
    ensures
      var v, v' := CancelViewOf(a, accepted), CancelView(a.known, Willing(w, a), a.reach, a.now);
      && (forall k :: 0 <= k < |w.rows| ==> Passed(w.rows, v, k) == Passed(w.rows, v', k))
      && Completes(w.rows, v) == Completes(w.rows, v')
  {
    hide WillingAt;
  }

  /** The runner has been told to cancel the job's run. */
  predicate Informed(runners: map<string, RunnerState>, row: JobRow) {
    && row.runId.Some? && row.runnerId in runners
    && var r, j := runners[row.runnerId], row.runId.value;
       && j in r.disk && r.disk[j].Recorded? && r.disk[j].record.status != RunStatus.Running
       && (j in r.running ==> r.running[j].cancelSignaled)
  }

  lemma OneCallInforms(runners: map<string, RunnerState>, told: JobRow, other: JobRow, stored: bool)
    requires told.runId.Some? && told.runnerId in runners
    ensures
      var runners' := runners[told.runnerId := Cancel(runners[told.runnerId], told.runId.value, stored).0];
      && (Cancel(runners[told.runnerId], told.runId.value, stored).1.Ok? ==> Informed(runners', told))
      && (Informed(runners, other) ==> Informed(runners', other))
  {
    hide Cancel;
    CancelAnswers(runners[told.runnerId], told.runId.value, stored);
  }

  lemma {:induction false} CallsInform(rows: seq<JobRow>, runners: map<string, RunnerState>, i: nat, a: Action, k: nat)
    requires a.CancelPipeline? && i <= |rows| && k < |rows|
    ensures
      var (runners', accepted) := CancelCalls(rows, runners, i, a);
      k in accepted || Informed(runners, rows[k]) ==> Informed(runners', rows[k])
    decreases |rows| - i
  {
    hide Cancel, Informed;
    if i == |rows| || a.reach <= i {
    } else if !CancelsRemotely(rows[i], i, CancelViewOf(a, {})) {
      CallsInform(rows, runners, i + 1, a, k);
    } else if rows[i].runnerId in runners && i in a.arriving {
      var runners' := runners[rows[i].runnerId := Cancel(runners[rows[i].runnerId], rows[i].runId.value, a.stored).0];
      OneCallInforms(runners, rows[i], rows[k], a.stored);
      CallsInform(rows, runners', i + 1, a, k);
    }
  }

  /** A running job the cancel loop marks is one whose runner has been told. */
  lemma MarkedJobsAreInformed(p: Setting, w: World, a: Action, i: nat)
    requires |w.rows| == |w.writes| && a.CancelPipeline? && i < |w.rows|
    requires w.rows[i].status == JobStatus.Running && Step(p, w, a).rows[i].status != JobStatus.Running
    ensures Step(p, w, a).rows[i].status == JobStatus.CancelRequested && Informed(Step(p, w, a).runners, w.rows[i])
  {
    hide CancelCalls, PipelineCanceled, Informed, Completes, SomeToBeTold;
    var accepted := CancelCalls(w.rows, w.runners, 0, a).1;
    CancelOutcomeIs(ServerOf(w), CancelViewOf(a, accepted));
    CallsInform(w.rows, w.runners, 0, a, i);
  }
}
