/** What a finished job says, it says of its run: over every run of the system the two verdicts agree, but
    for jobs given up on and jobs whose outputs could not be brought across. */
module FinishedJobs {
  import opened Wire
  import opened StateMachine
  import opened JobRows
  import opened Scheduler
  import opened RowOutcomes
  import opened RunnerJobs
  import opened Protocol
  import opened ProtocolSafety
  import opened ProtocolTheorems
  import opened StepOutcomes

  /** Verdict, exit code, reason, category and outputs are those of the run. */
  predicate SaysAsRun(row: JobRow, m: RunRecord) {
    && m.status.IsTerminal()
    && (row.status == JobStatus.Success <==> m.status == RunStatus.Success)
    && (row.status == JobStatus.Canceled <==> m.status == RunStatus.Canceled)
    && (row.status == JobStatus.Failed <==> m.status != RunStatus.Success && m.status != RunStatus.Canceled)
    && row.exitCode == m.exitCode && row.terminalReason == m.reason && row.failureCategory == m.category
    && AllKept(m.outputs, row.outputs)
  }

  /** The job failed because an artifact of its run could not be brought across. */
  predicate LostOutput(row: JobRow, m: RunRecord) {
    && row.status == JobStatus.Failed && m.status.IsTerminal()
    && ResultIs(row, None, Some(TerminalReason.OutputRegistrationFailed), Some(FailureCategory.Infra))
    && exists name :: name in m.outputs && m.outputs[name].ArtifactOutput?
  }

  predicate Honest(runners: map<string, RunnerState>, row: JobRow) {
    row.status.IsTerminal() && row.runId.Some? && row.cancelReason != Some(StuckRetryExhausted) ==>
      && HoldsRecord(runners, row.runnerId, row.runId.value)
      && var m := runners[row.runnerId].disk[row.runId.value].record;
         SaysAsRun(row, m) || LostOutput(row, m)
  }

  /** A finished job and the record it speaks of stay as they are. */
  lemma FinishedStaysHonest(p: Setting, w: World, a: Action, i: nat)
    requires Sound(p, w) && i < |w.rows| && w.rows[i].status.IsTerminal() && Honest(w.runners, w.rows[i])
    ensures Honest(Step(p, w, a).runners, Step(p, w, a).rows[i])
  {
    hide RowsSound, RunnersSound, LogSound, PipelineSound, Step, SaysAsRun, LostOutput;
    StepForward(p, w, a);
    var row := w.rows[i];
    assert RowForward(row, Step(p, w, a).rows[i]);
    if row.runId.Some? && row.cancelReason != Some(StuckRetryExhausted) {
      var disk, disk' := w.runners[row.runnerId].disk, Step(p, w, a).runners[row.runnerId].disk;
      assert DiskAdvances(disk, disk');
      RecordIsOver(row, disk[row.runId.value].record);
    }
  }

  lemma RecordIsOver(row: JobRow, m: RunRecord)
    requires SaysAsRun(row, m) || LostOutput(row, m)
    ensures m.status.IsTerminal()
  {
  }

  /** A poll that ends a job ends it as its run ended, or says why not. */
  lemma SettledIsHonest(b: Budget, row: JobRow, m: RunRecord, lost: set<string>, freshKey: Key, now: Time, after: JobRow)
    requires m.status.IsTerminal()
    requires Settled(b, row, RunReport(m.status, m.exitCode, m.reason, m.category, m.outputs), lost, freshKey, now, after)
    requires after.status.IsTerminal()
    ensures SameDispatch(row, after) && (SaysAsRun(after, m) || LostOutput(after, m))
  {
    hide AllKept;
    if SomeArtifactLost(m.outputs, lost) {
      var name :| name in m.outputs && m.outputs[name].ArtifactOutput? && name in lost;
    }
  }

  lemma PolledIsHonest(cfg: Config, row: JobRow, v: PollView, m: RunRecord, after: JobRow)
    requires Polled(cfg, row, v, after) && !row.status.IsTerminal() && after.status.IsTerminal()
    requires v.report.Some? ==> v.report.value == RunReport(m.status, m.exitCode, m.reason, m.category, m.outputs)
    ensures SameDispatch(row, after)
    ensures after.cancelReason != Some(StuckRetryExhausted) ==>
              v.report.Some? && (SaysAsRun(after, m) || LostOutput(after, m))
  {
    hide Settled, SaysAsRun, LostOutput, Overdue;
    var counted := row.(cancelRetryCount := row.cancelRetryCount + 1, lastCancelRetryAt := Some(v.now));
    if v.report.Some? && m.status.IsTerminal() {
      if Settled(cfg.budget, row, v.report.value, v.lost, v.freshKey, v.now, after) {
        SettledIsHonest(cfg.budget, row, m, v.lost, v.freshKey, v.now, after);
      } else if Settled(cfg.budget, counted, v.report.value, v.lost, v.freshKey, v.now, after) {
        SettledIsHonest(cfg.budget, counted, m, v.lost, v.freshKey, v.now, after);
      }
    }
  }

  lemma PollEndsHonestly(p: Setting, w: World, a: Action)
    requires |w.rows| == |w.writes| && a.Poll? && a.i < |w.rows| && !w.rows[a.i].status.IsTerminal()
    ensures Honest(Step(p, w, a).runners, Step(p, w, a).rows[a.i])
  {
    hide Step, CancelTaken, SaysAsRun, LostOutput, Polled, Recomputed;
    var w', row := Step(p, w, a), w.rows[a.i];
    var seen := Seen(a, row, w'.runners);
    var v := PollView(a.registered, CancelTaken(w, a), seen, a.lost, Issued(|w.owner|), a.now);
    PollStepOutcome(p, w, a);
    if w'.rows[a.i].status.IsTerminal() {
      if seen.Some? {
        PolledIsHonest(p.cfg, row, v, w'.runners[row.runnerId].disk[row.runId.value].record, w'.rows[a.i]);
      } else {
        PolledUnseen(p.cfg, row, v, w'.rows[a.i]);
      }
    }
  }

  lemma PolledUnseen(cfg: Config, row: JobRow, v: PollView, after: JobRow)
    requires Polled(cfg, row, v, after) && !row.status.IsTerminal() && after.status.IsTerminal() && v.report == None
    ensures after.cancelReason == Some(StuckRetryExhausted)
  {
    hide Overdue;
  }

  /** The other steps of the server finish only jobs that have no run. */
  lemma OthersEndNoRun(p: Setting, w: World, a: Action, i: nat)
    requires Sound(p, w) && i < |w.rows| && !w.rows[i].status.IsTerminal() && !(a.Poll? && a.i == i)
    ensures Step(p, w, a).rows[i].status.IsTerminal() ==> Step(p, w, a).rows[i].runId == None
  {
    hide RunSound, RunnersSound, LogSound, PipelineSound, Recomputed, Create, RunnerStep, PollEffect, StatusReport,
         CancelArrives, AnswerOf, Replies, InTurn, RuledOut, CancelCalls, PipelineCanceled, Willing;
    assert RowSound(p.cfg.budget, w.owner, w.rows[i], w.writes[i], i);
    match a
    case Dispatch(k, _, _, _, _, _, _, _, _, _) =>
      if k < |w.rows| {
        if k == i {
          DispatchStepOutcome(p, w, a);
        } else {
          OnlyRunnersChange(p, w, a);
        }
      }
    case Poll(k, _, _, _, _, _, _, _, _) =>
    case CancelPipeline(_, _, _, _, _, _) => CancelStepOutcome(p, w, a);
    case RecoverPipelines(_) =>
    case AtRunner(_, _) =>
  }

  lemma StepStaysHonest(p: Setting, w: World, a: Action, i: nat)
    requires Sound(p, w) && i < |w.rows| && Honest(w.runners, w.rows[i])
    ensures Honest(Step(p, w, a).runners, Step(p, w, a).rows[i])
  {
    hide RowsSound, RunnersSound, LogSound, PipelineSound, Step, SaysAsRun, LostOutput;
    if w.rows[i].status.IsTerminal() {
      FinishedStaysHonest(p, w, a, i);
    } else if a.Poll? && a.i == i {
      PollEndsHonestly(p, w, a);
    } else {
      OthersEndNoRun(p, w, a, i);
    }
  }

  lemma {:induction false} RunStaysHonest(p: Setting, w: World, actions: seq<Action>, i: nat)
    requires Sound(p, w) && i < |w.rows| && Honest(w.runners, w.rows[i])
    ensures Honest(Run(p, w, actions).runners, Run(p, w, actions).rows[i])
    decreases |actions|
  {
    hide Step, Honest, RowsSound, RunnersSound, LogSound, PipelineSound;
    if actions != [] {
      StepStaysHonest(p, w, actions[0], i);
      StepSound(p, w, actions[0]);
      RunStaysHonest(p, Step(p, w, actions[0]), actions[1..], i);
    }
  }

  /** Over every run, a finished job that has a run and was not given up on says what that run's record says,
      or failed for an artifact of it that could not be brought across. */
  lemma FinishedJobsSayWhatTheirRunsDid(p: Setting, w0: World, actions: seq<Action>, i: nat)
    requires Initial(p, w0) && i < |w0.rows|
    requires
      var row := Run(p, w0, actions).rows[i];
      row.status.IsTerminal() && row.runId.Some? && row.cancelReason != Some(StuckRetryExhausted)
    ensures
      var w := Run(p, w0, actions);
      && HoldsRecord(w.runners, w.rows[i].runnerId, w.rows[i].runId.value)
      && (SaysAsRun(w.rows[i], RecordBehind(w, i)) || LostOutput(w.rows[i], RecordBehind(w, i)))
  {
    hide Step, Sound, SaysAsRun, LostOutput;
    InitialIsSound(p, w0);
    assert !w0.rows[i].status.IsTerminal();
    RunStaysHonest(p, w0, actions, i);
  }
}
