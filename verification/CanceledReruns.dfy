/** A job the user has canceled can still be dispatched and run again: when, exactly. */
module CanceledReruns {
  import opened Wire
  import opened StateMachine
  import opened JobRows
  import opened Scheduler
  import opened PipelineShape
  import opened Manifests
  import opened RunnerJobs
  import opened Protocol
  import opened ProtocolSafety
  import opened ProtocolTheorems
  import opened Chronology
  import opened BoundsMet

  predicate InCancellation(row: JobRow) {
    row.status == JobStatus.CancelRequested || row.status == JobStatus.Canceling
  }

  // ---------------------------------------------------------------------------------------------
  // One poll

  /** A poll requeues a job in cancellation exactly when it gets past the watchdog to the status call and
      the record it then reads has ended on an infrastructure failure, or has an artifact that does not
      come across, with a retry left, and the row has not followed its record into Canceling. */
  lemma CanceledRowIsRequeuedExactlyWhen(p: Setting, w: World, a: Action)
    requires Sound(p, w) && a.Poll? && a.i < |w.rows| && InCancellation(w.rows[a.i])
    ensures
      var row, w' := w.rows[a.i], Step(p, w, a);
      w'.rows[a.i].infraRetryCount != row.infraRetryCount <==>
        && row.status == JobStatus.CancelRequested && row.infraRetryCount < p.cfg.budget.maxInfraRetries
        && a.registered && a.statusSeen
        && (Stuck(p.cfg, row, a.now) ==>
              row.cancelRetryCount < p.cfg.budget.maxCancelRetries && CancelAccepted(p, w, a))
        && row.runId.Some? && HoldsRecord(w'.runners, row.runnerId, row.runId.value)
        && var m := w'.runners[row.runnerId].disk[row.runId.value].record;
           && m.status.IsTerminal()
           && (|| (m.status == RunStatus.Failed && m.category == Some(FailureCategory.Infra))
               || TransferFails(m.outputs, a.lost))
  {
    hide LogSound, PipelineSound, EntrySound, Exclusive, Stuck, PollEffect, CancelAccepted, AfterCancelRetry, AfterActs,
         TransferFails;
    var row, mid, v := w.rows[a.i], AfterPollCalls(p, w, a), PollViewOf(p, w, a);
    PollChangesRow(p, w, a);
    AfterPollCallsSound(p, w, a);
    assert RowSound(p.cfg.budget, w.owner, row, w.writes[a.i], a.i) && RunSound(mid.runners, mid.rows[a.i]);
    if row.status == JobStatus.Canceling {
      CancelingIsReportedSo(p, mid, a.i);
    }
    RequeuedWhen(p.cfg, row, v);
  }

  lemma PollChangesRow(p: Setting, w: World, a: Action)
    requires |w.rows| == |w.writes| && a.Poll? && a.i < |w.rows|
    ensures AfterPollCalls(p, w, a).rows == w.rows
    ensures Step(p, w, a).rows[a.i] == ApplyAll(w.rows[a.i], PollEffect(p.cfg, w.rows[a.i], PollViewOf(p, w, a)).writes, a.now)
    ensures Step(p, w, a).runners == AfterPollCalls(p, w, a).runners
  {
    hide PollEffect, StatusReport, CancelArrives, RunnerWorldStep;
  }

  lemma RequeuedWhen(cfg: Config, row: JobRow, v: PollView)
    requires Coherent(cfg.budget, row) && InCancellation(row)
    requires row.status == JobStatus.Canceling && v.report.Some? ==> OnlyCanceled(v.report.value)
    ensures
      ApplyAll(row, PollEffect(cfg, row, v).writes, v.now).infraRetryCount != row.infraRetryCount <==>
        && row.status == JobStatus.CancelRequested && AsksRunner(cfg, row, v)
        && v.report.Some? && v.report.value.status.IsTerminal()
        && row.infraRetryCount < cfg.budget.maxInfraRetries
        && (|| (v.report.value.status == RunStatus.Failed && v.report.value.category == Some(FailureCategory.Infra))
            || TransferFails(v.report.value.outputs, v.lost))
  {
    PollFollows(cfg, row, v);
    RequeueOnlyForInfrastructure(cfg, row, v);
  }

  // ---------------------------------------------------------------------------------------------
  // Whole runs

  /** Between two moments, a job in cancellation has been given a new key and a script has been started
      under it. */
  predicate RunsAgain(w: World, w': World, i: nat)
    requires i < |w.rows| == |w'.rows|
  {
    && InCancellation(w.rows[i])
    && w'.rows[i].dispatchKey != w.rows[i].dispatchKey && w'.spawned[w'.rows[i].dispatchKey] == 1
  }

  ghost predicate CanRunAgain(p: Setting) {
    exists w0: World, actions: seq<Action>, later: seq<Action>, t: Time, i: nat ::
      && Initial(p, w0) && i < |w0.rows| && Chronological(actions + later, t)
      && RunsAgain(Run(p, w0, actions), Run(p, Run(p, w0, actions), later), i)
  }

  function Again(p: Setting): seq<Action> {
    var now := Fire(p, 0);
    [Catch(Overflow(p, 0, now), now)] + ([DispatchAt(now)] + [Start(p, 1)])
  }

  lemma AgainIsOrdered(p: Setting)
    ensures Within(Fire(p, 0), Again(p), Fire(p, 0))
  {
    hide Within;
    var now := Fire(p, 0);
    CatchIsOrdered(Overflow(p, 0, now), now);
    WithinOne(now, DispatchAt(now), now);
    WithinOne(now, Start(p, 1), now);
    WithinAppend(now, [DispatchAt(now)], now, [Start(p, 1)], now);
    WithinAppend(now, [Catch(Overflow(p, 0, now), now)], now, [DispatchAt(now)] + [Start(p, 1)], now);
  }

  lemma UserCanceled(p: Setting, w: World, before: RunnerState, k: nat, n: nat, since: Time, spent: nat)
    requires BoundsMet.Canceling(p, w, before, k, n, since, spent)
    ensures |w.rows| == |w.writes| == 1 && w.rows[0].status == JobStatus.CancelRequested
    ensures w.rows[0].cancelReason == Some(UserRequested) && w.rows[0].dispatchKey == Issued(k)
  {
  }

  lemma RunningNow(p: Setting, w: World, before: RunnerState, k: nat, spent: nat)
    requires BoundsMet.Running(p, w, before, k, Executing, spent) && Ran(w.spawned, k + 1)
    ensures |w.rows| == |w.writes| == 1 && w.rows[0].status == JobStatus.Running
    ensures w.rows[0].dispatchKey == Issued(k) && w.spawned[Issued(k)] == 1
  {
  }

  /** A job is canceled by the user while its script runs. The script overruns its logs just after the
      server has repeated the cancel call, and the server, asking for the status, requeues the job and runs
      it once more. */
  lemma CanceledJobRunsAgain(p: Setting, m: JobSchema) returns (actions: seq<Action>, later: seq<Action>)
    requires 0 < p.cfg.cancelStuckSeconds || 0 < p.cfg.budget.maxCancelRetries
    requires 0 < p.cfg.budget.maxInfraRetries
    requires NoCollisions(p.idOf) && ValidManifest(m) && m.name == JOB
    ensures Initial(p, Lonely(m)) && Chronological(actions + later, 0)
    ensures
      var w := Run(p, Lonely(m), actions);
      var w' := Run(p, w, later);
      && w.rows[0].status == JobStatus.CancelRequested && w.rows[0].cancelReason == Some(UserRequested)
      && w'.rows[0].status == JobStatus.Running && RunsAgain(w, w', 0)
  {
    hide Step, Opening, NoCollisions, ValidManifest, Ready, BoundsMet.Canceling, BoundsMet.Running, Ran, Idle, Initial, Within;
    var now := Fire(p, 0);
    var catch := Catch(Overflow(p, 0, now), now);
    LonelyIsInitial(p, m);
    LonelyIsReady(p, m);
    actions, later := Opening(p, 0, 0), Again(p);
    OpeningRuns(p, Lonely(m), 0, 0, 0);
    var before, w := Lonely(m).runners[RUNNER], Run(p, Lonely(m), actions);
    UserCanceled(p, w, before, 0, ButLast(p), 0, 0);
    CatchOverflow(p, w, before, 0, 0, 0);
    var w1 := Step(p, w, catch);
    ReadyStarts(p, w1, 1, 3 + p.cfg.budget.maxCancelRetries, now);
    RunOne(p, w, catch, [DispatchAt(now)] + [Start(p, 1)]);
    RunOne(p, w1, DispatchAt(now), [Start(p, 1)]);
    RunLast(p, Step(p, w1, DispatchAt(now)), Start(p, 1));
    RunningNow(p, Run(p, w, later), w1.runners[RUNNER], 1, 3 + p.cfg.budget.maxCancelRetries);
    OpeningIsOrdered(p, 0, 0);
    AgainIsOrdered(p);
    WithinAppend(0, actions, now, later, now);
    WithinIsOrdered(0, actions + later, now);
  }

  lemma WithinIsOrdered(t: Time, actions: seq<Action>, u: Time)
    requires Within(t, actions, u)
    ensures Chronological(actions, t)
  {
  }

  // ---------------------------------------------------------------------------------------------
  // When it cannot happen

  /** The row will not be dispatched again: it keeps its key and has only its end before it. */
  predicate Doomed(row: JobRow, key: Key) {
    row.dispatchKey == key && (InCancellation(row) || row.status.IsTerminal())
  }

  lemma DoomedPoll(p: Setting, w: World, a: Action, t: Time, key: Key)
    requires FiresAtOnce(p.cfg) && Sound(p, w) && a.Poll? && a.i < |w.rows| && LeanRows(p, w, t) && ActionOrdered(a, t)
    requires Doomed(w.rows[a.i], key)
    ensures Doomed(PollStep(p, w, a).rows[a.i], key)
  {
    hide RunSound, RunnersSound, LogSound, PipelineSound, PollEffect, StatusReport, CancelArrives, RunnerWorldStep;
    var row, v := w.rows[a.i], PollViewOf(p, w, a);
    assert RowSound(p.cfg.budget, w.owner, row, w.writes[a.i], a.i);
    assert LeanRow(p.cfg.budget, row, w.writes[a.i], t);
    if InCancellation(row) {
      PollGivesUp(p.cfg, row, v);
      ApplyOne(row, MarkCancelRetryExhausted, a.now);
    } else {
      PollIsPermitted(p.cfg, row, v);
    }
  }

  lemma DoomedStep(p: Setting, w: World, a: Action, t: Time, i: nat, key: Key)
    requires FiresAtOnce(p.cfg) && Sound(p, w) && i < |w.rows| && LeanRows(p, w, t) && ActionOrdered(a, t)
    requires Doomed(w.rows[i], key)
    ensures Doomed(Step(p, w, a).rows[i], key)
  {
    hide RowsSound, RunnersSound, LogSound, PipelineSound, PollStep, CancelFrom, CancelCalls, AfterCreate, ReplySeen;
    match a
    case Dispatch(k, _, _, _, _, _, _, _, _, _) => if k < |w.rows| { OnlyRunnersChange(p, w, a); }
    case Poll(k, _, _, _, _, _, _, _, _) =>
      if k == i {
        DoomedPoll(p, w, a, t, key);
      } else {
        OtherRowsStay(p, w, a, i);
      }
    case CancelPipeline(_, _, _, _, _, _) =>
      CancelWritesOnce(w.rows, 0, CancelViewOf(a, CancelCalls(w.rows, w.runners, 0, a).1), false);
    case RecoverPipelines(now) =>
    case AtRunner(runnerId, _) =>
  }

  lemma OtherRowsStay(p: Setting, w: World, a: Action, i: nat)
    requires |w.rows| == |w.writes| && a.Poll? && i < |w.rows| && i != a.i
    ensures Step(p, w, a).rows[i] == w.rows[i]
  {
    hide PollEffect, StatusReport, CancelArrives, RunnerWorldStep;
  }

  lemma {:induction false} DoomedRun(p: Setting, w: World, actions: seq<Action>, t: Time, i: nat, key: Key)
    requires FiresAtOnce(p.cfg) && Sound(p, w) && i < |w.rows| && LeanRows(p, w, t) && Chronological(actions, t)
    requires Doomed(w.rows[i], key)
    ensures Doomed(Run(p, w, actions).rows[i], key)
    decreases |actions|
  {
    hide Step, LeanRow, RowsSound, RunnersSound, LogSound, PipelineSound, ActionOrdered, ActionEnd, Doomed;
    if actions != [] {
      LeanStep(p, w, actions[0], t);
      DoomedStep(p, w, actions[0], t, i, key);
      StepSound(p, w, actions[0]);
      DoomedRun(p, Step(p, w, actions[0]), actions[1..], ActionEnd(actions[0], t), i, key);
    }
  }

  lemma {:induction false} OrderedSplits(actions: seq<Action>, later: seq<Action>, t: Time)
    requires Chronological(actions + later, t)
    ensures Chronological(actions, t) && Chronological(later, EndTime(actions, t))
    decreases |actions|
  {
    hide ActionOrdered, ActionEnd;
    if actions == [] {
      assert actions + later == later;
    } else {
      assert (actions + later)[1..] == actions[1..] + later;
      OrderedSplits(actions[1..], later, ActionEnd(actions[0], t));
    }
  }

  /** A watchdog that fires at once, with no retry to spend, leaves a canceled job no second dispatch. */
  lemma GivenUpForGood(p: Setting, w0: World, actions: seq<Action>, later: seq<Action>, t: Time, i: nat)
    requires FiresAtOnce(p.cfg) && Initial(p, w0) && i < |w0.rows| && Chronological(actions + later, t)
    requires InCancellation(Run(p, w0, actions).rows[i])
    ensures Run(p, Run(p, w0, actions), later).rows[i].dispatchKey == Run(p, w0, actions).rows[i].dispatchKey
  {
    hide Step, LeanRow, Sound, Chronological;
    OrderedSplits(actions, later, t);
    InitialIsSound(p, w0);
    InitialIsLean(p, w0, t);
    LeanRun(p, w0, actions, t);
    ReachableIsSound(p, w0, actions);
    DoomedRun(p, Run(p, w0, actions), later, EndTime(actions, t), i, Run(p, w0, actions).rows[i].dispatchKey);
  }

  /** Nor does a budget without retries. */
  lemma NoRetryNoNewKey(p: Setting, w0: World, actions: seq<Action>, later: seq<Action>, i: nat)
    requires p.cfg.budget.maxInfraRetries == 0 && Initial(p, w0) && i < |w0.rows|
    ensures Run(p, Run(p, w0, actions), later).rows[i].dispatchKey == Run(p, w0, actions).rows[i].dispatchKey
  {
    hide Step, Sound;
    RunSplits(p, w0, actions, later);
    RowsGoForward(p, w0, actions, later, i);
    RowsAreCoherent(p, w0, actions, i, 0);
    RowsAreCoherent(p, w0, actions + later, i, 0);
  }

  /** In time-ordered runs a job in cancellation can be dispatched and run again exactly when there is an
      infrastructure retry for it and a cancellation is given some time or some retry. */
  lemma CanceledJobRunsAgainExactlyWhen(p: Setting, m: JobSchema)
    requires NoCollisions(p.idOf) && ValidManifest(m) && m.name == JOB
    ensures CanRunAgain(p) <==>
              && 0 < p.cfg.budget.maxInfraRetries
              && (0 < p.cfg.cancelStuckSeconds || 0 < p.cfg.budget.maxCancelRetries)
  {
    hide Step, NoCollisions, ValidManifest, RowsSound, RunnersSound, LogSound, Chronological;
    if 0 < p.cfg.budget.maxInfraRetries && !FiresAtOnce(p.cfg) {
      var actions, later := CanceledJobRunsAgain(p, m);
      assert Chronological(actions + later, 0);
    } else {
      forall w0: World, actions: seq<Action>, later: seq<Action>, t: Time, i: nat
        | Initial(p, w0) && i < |w0.rows| && Chronological(actions + later, t)
        ensures !RunsAgain(Run(p, w0, actions), Run(p, Run(p, w0, actions), later), i)
      {
        if FiresAtOnce(p.cfg) && InCancellation(Run(p, w0, actions).rows[i]) {
          GivenUpForGood(p, w0, actions, later, t, i);
        } else if p.cfg.budget.maxInfraRetries == 0 {
          NoRetryNoNewKey(p, w0, actions, later, i);
        }
      }
    }
  }
}
