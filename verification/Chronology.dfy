/** Runs on a clock that never goes back, and what such a clock rules out. */
module Chronology {
  import opened Wire
  import opened StateMachine
  import opened JobRows
  import opened Scheduler
  import opened PipelineShape
  import opened RunnerJobs
  import opened Protocol
  import opened ProtocolSafety
  import opened ProtocolTheorems

  // ---------------------------------------------------------------------------------------------
  // Time-ordered runs

  /** When an act takes place that begins no earlier than `t`; acts that read no clock take no time. */
  function ActTime(act: RunnerAct, t: Time): Time {
    match act
    case ForeignCreate(_, _, _, _, _, now) => now
    case FinishRun(_, _, _, _, now) => now
    case CrashAndRestart(_, now) => now
    case _ => t
  }

  function ActsEnd(acts: seq<RunnerAct>, t: Time): Time {
    if acts == [] then t else ActsEnd(acts[1..], ActTime(acts[0], t))
  }

  predicate ActsOrdered(acts: seq<RunnerAct>, t: Time) {
    acts == [] || (t <= ActTime(acts[0], t) && ActsOrdered(acts[1..], ActTime(acts[0], t)))
  }

  function ActionEnd(a: Action, t: Time): Time {
    match a
    case Dispatch(_, _, _, _, _, _, _, _, _, now) => now
    case Poll(_, _, _, _, between, _, _, _, now) => ActsEnd(between, now)
    case CancelPipeline(_, _, _, _, _, now) => now
    case RecoverPipelines(now) => now
    case AtRunner(_, act) => ActTime(act, t)
  }

  predicate ActionOrdered(a: Action, t: Time) {
    match a
    case Dispatch(_, _, _, _, _, _, _, _, _, now) => t <= now
    case Poll(_, _, _, _, between, _, _, _, now) => t <= now && ActsOrdered(between, now)
    case CancelPipeline(_, _, _, _, _, now) => t <= now
    case RecoverPipelines(now) => t <= now
    case AtRunner(_, act) => t <= ActTime(act, t)
  }

  function EndTime(actions: seq<Action>, t: Time): Time {
    if actions == [] then t else EndTime(actions[1..], ActionEnd(actions[0], t))
  }

  /** No clock reading of the run, on the server or a runner, lies before an earlier one or before `t`. */
  predicate Chronological(actions: seq<Action>, t: Time) {
    actions == [] || (ActionOrdered(actions[0], t) && Chronological(actions[1..], ActionEnd(actions[0], t)))
  }

  /** A time-ordered run from `t` that is over by `u`. */
  predicate Within(t: Time, actions: seq<Action>, u: Time) {
    Chronological(actions, t) && EndTime(actions, t) <= u
  }

  lemma {:induction false} ActsStartEarlier(acts: seq<RunnerAct>, earlier: Time, t: Time)
    requires earlier <= t && ActsOrdered(acts, t)
    ensures ActsOrdered(acts, earlier) && ActsEnd(acts, earlier) <= ActsEnd(acts, t)
    ensures t <= ActsEnd(acts, t)
  {
    if acts != [] {
      ActsStartEarlier(acts[1..], ActTime(acts[0], earlier), ActTime(acts[0], t));
    }
  }

  lemma ActionStartsEarlier(a: Action, earlier: Time, t: Time)
    requires earlier <= t && ActionOrdered(a, t)
    ensures ActionOrdered(a, earlier) && ActionEnd(a, earlier) <= ActionEnd(a, t)
    ensures t <= ActionEnd(a, t)
  {
    if a.Poll? {
      ActsStartEarlier(a.between, a.now, a.now);
    }
  }

  lemma {:induction false} StartsEarlier(actions: seq<Action>, earlier: Time, t: Time)
    requires earlier <= t && Chronological(actions, t)
    ensures Chronological(actions, earlier) && EndTime(actions, earlier) <= EndTime(actions, t)
    ensures t <= EndTime(actions, t)
  {
    hide ActionOrdered, ActionEnd;
    if actions != [] {
      ActionStartsEarlier(actions[0], earlier, t);
      StartsEarlier(actions[1..], ActionEnd(actions[0], earlier), ActionEnd(actions[0], t));
    }
  }

  lemma {:induction false} WithinAppend(t: Time, first: seq<Action>, u: Time, rest: seq<Action>, v: Time)
    requires Within(t, first, u) && Within(u, rest, v)
    ensures Within(t, first + rest, v)
    decreases |first|
  {
    hide ActionOrdered, ActionEnd;
    if first == [] {
      assert first + rest == rest;
      StartsEarlier(rest, t, u);
    } else {
      assert (first + rest)[1..] == first[1..] + rest;
      WithinAppend(ActionEnd(first[0], t), first[1..], u, rest, v);
    }
  }

  lemma WithinOne(t: Time, a: Action, u: Time)
    requires ActionOrdered(a, t) && ActionEnd(a, t) <= u
    ensures Within(t, [a], u)
  {
    hide ActionOrdered, ActionEnd;
    assert [a][1..] == [];
    assert Chronological([], ActionEnd(a, t)) && EndTime([], ActionEnd(a, t)) == ActionEnd(a, t);
  }

  // ---------------------------------------------------------------------------------------------
  // A watchdog that fires at once and has no retry to spend

  predicate FiresAtOnce(cfg: Config) {
    cfg.cancelStuckSeconds <= 0 && cfg.budget.maxCancelRetries == 0
  }

  /** The row's cancellation began no later than `t`. */
  predicate BegunBy(row: JobRow, t: Time) {
    && (row.cancelRequestedAt.Some? ==> row.cancelRequestedAt.value <= t)
    && (row.cancelStartedAt.Some? ==> row.cancelStartedAt.value <= t)
  }

  lemma WriteBegunBy(row: JobRow, w: Write, now: Time)
    requires BegunBy(row, now)
    ensures BegunBy(Apply(row, w, now), now)
  {
  }

  /** How many statements a row can still undergo under such a watchdog: a cancellation ends with the
      first statement after it. */
  function Lean(b: Budget, row: JobRow): int {
    (b.maxInfraRetries - row.infraRetryCount) * 2
    + match row.status
      case Pending => 3
      case Running => 2
      case CancelRequested => 1
      case Canceling => 1
      case _ => 0
  }

  /** Every poll of a job in cancellation gives it up, or does nothing. */
  lemma PollGivesUp(cfg: Config, row: JobRow, v: PollView)
    requires FiresAtOnce(cfg) && Coherent(cfg.budget, row) && BegunBy(row, v.now)
    requires row.status == JobStatus.CancelRequested || row.status == JobStatus.Canceling
    ensures PollEffect(cfg, row, v).writes == [] || PollEffect(cfg, row, v).writes == [MarkCancelRetryExhausted]
  {
    assert Stuck(cfg, row, v.now);
  }

  lemma LeanPoll(cfg: Config, row: JobRow, v: PollView)
    requires FiresAtOnce(cfg) && Coherent(cfg.budget, row) && BegunBy(row, v.now)
    ensures
      var ws := PollEffect(cfg, row, v).writes;
      |ws| + Lean(cfg.budget, ApplyAll(row, ws, v.now)) <= Lean(cfg.budget, row) && BegunBy(ApplyAll(row, ws, v.now), v.now)
  {
    hide BegunBy, WithStatus;
    var ws := PollEffect(cfg, row, v).writes;
    if row.status == JobStatus.CancelRequested || row.status == JobStatus.Canceling {
      PollGivesUp(cfg, row, v);
    } else if row.status == JobStatus.Running {
      RunningPollsOnce(cfg, row, v);
    }
    if ws != [] {
      assert ws == [ws[0]];
      ApplyOne(row, ws[0], v.now);
      WriteBegunBy(row, ws[0], v.now);
      LeanWrite(cfg.budget, row, ws[0], v.now);
    }
  }

  lemma RunningPollsOnce(cfg: Config, row: JobRow, v: PollView)
    requires row.status == JobStatus.Running && Coherent(cfg.budget, row)
    ensures
      var ws := PollEffect(cfg, row, v).writes;
      ws == [] || (|ws| == 1 && Permitted(cfg.budget, row, ws[0]))
  {
    PollIsPermitted(cfg, row, v);
    if v.report.Some? {
      ReportWritesOnce(cfg.budget, row, v.report.value, v.lost, v.freshKey);
    }
  }

  lemma LeanWrite(b: Budget, row: JobRow, w: Write, now: Time)
    requires Coherent(b, row) && !w.RecordCancelRetry?
    requires w.MarkCancelRetryExhausted? ||
             (Permitted(b, row, w) && (row.status == JobStatus.Pending || row.status == JobStatus.Running))
    requires w.MarkCancelRetryExhausted? ==> row.status.InFlight()
    ensures 1 + Lean(b, Apply(row, w, now)) <= Lean(b, row)
  {
  }

  lemma LeanDispatch(b: Budget, rows: seq<JobRow>, i: nat, v: DispatchView)
    requires i < |rows| && Coherent(b, rows[i]) && BegunBy(rows[i], v.now)
    ensures
      var ws := DispatchEffect(b, rows, i, v).writes;
      && |ws| + Lean(b, ApplyAll(rows[i], ws, v.now)) <= Lean(b, rows[i])
      && BegunBy(ApplyAll(rows[i], ws, v.now), v.now)
  {
    hide BegunBy, NextReadyJobStatus;
    var ws := DispatchEffect(b, rows, i, v).writes;
    DispatchIsPermitted(b, rows, i, v);
    if ws != [] {
      assert ws == [ws[0]];
      ApplyOne(rows[i], ws[0], v.now);
      WriteBegunBy(rows[i], ws[0], v.now);
      LeanWrite(b, rows[i], ws[0], v.now);
    }
  }

  /** No row has spent more than it may, and no cancellation began in the future. */
  predicate LeanRows(p: Setting, w: World, t: Time)
    requires |w.rows| == |w.writes|
  {
    forall i :: 0 <= i < |w.rows| ==> LeanRow(p.cfg.budget, w.rows[i], w.writes[i], t)
  }

  predicate LeanRow(b: Budget, row: JobRow, count: nat, t: Time) {
    BegunBy(row, t) && count + Lean(b, row) <= LeanBound(b)
  }

  function LeanBound(b: Budget): nat {
    2 * b.maxInfraRetries + 3
  }

  lemma LeanRowLater(b: Budget, row: JobRow, count: nat, t: Time, later: Time)
    requires LeanRow(b, row, count, t) && t <= later
    ensures LeanRow(b, row, count, later)
  {
  }

  lemma LeanServerWrites(p: Setting, w: World, i: nat, e: Effect, t: Time, now: Time, end: Time)
    requires |w.rows| == |w.writes| && i < |w.rows| && LeanRows(p, w, t) && t <= now <= end
    requires LeanRow(p.cfg.budget, ApplyAll(w.rows[i], e.writes, now), w.writes[i] + |e.writes|, now)
    ensures LeanRows(p, ServerWrites(w, i, e, now), end)
  {
    hide LeanRow;
    var w' := ServerWrites(w, i, e, now);
    forall k | 0 <= k < |w.rows| ensures LeanRow(p.cfg.budget, w'.rows[k], w'.writes[k], end) {
      if k == i {
        LeanRowLater(p.cfg.budget, w'.rows[k], w'.writes[k], now, end);
      } else {
        LeanRowLater(p.cfg.budget, w.rows[k], w.writes[k], t, end);
      }
    }
  }

  lemma LeanDispatchStep(p: Setting, w: World, a: Action, t: Time)
    requires Sound(p, w) && a.Dispatch? && a.i < |w.rows| && LeanRows(p, w, t) && t <= a.now
    ensures LeanRows(p, DispatchStep(p, w, a), a.now)
  {
    hide RunSound, RunnersSound, LogSound, PipelineSound, AfterCreate, ReplySeen, DispatchEffect;
    var v := DispatchViewOf(p, w, a);
    assert RowSound(p.cfg.budget, w.owner, w.rows[a.i], w.writes[a.i], a.i);
    assert LeanRow(p.cfg.budget, w.rows[a.i], w.writes[a.i], t);
    LeanDispatch(p.cfg.budget, w.rows, a.i, v);
    OnlyRunnersChange(p, w, a);
    var e := UpTo(DispatchEffect(p.cfg.budget, w.rows, a.i, v), a.finalized);
    LeanServerWrites(p, AfterCreate(p, w, a), a.i, e, t, a.now, a.now);
  }

  lemma LeanPollStep(p: Setting, w: World, a: Action, t: Time)
    requires FiresAtOnce(p.cfg) && Sound(p, w) && a.Poll? && a.i < |w.rows| && LeanRows(p, w, t) && ActionOrdered(a, t)
    ensures LeanRows(p, PollStep(p, w, a), ActionEnd(a, t))
  {
    hide RunSound, RunnersSound, LogSound, PipelineSound, PollEffect, AfterActs, StatusReport;
    var v := PollViewOf(p, w, a);
    assert RowSound(p.cfg.budget, w.owner, w.rows[a.i], w.writes[a.i], a.i);
    assert LeanRow(p.cfg.budget, w.rows[a.i], w.writes[a.i], t);
    LeanPoll(p.cfg, w.rows[a.i], v);
    ActsStartEarlier(a.between, a.now, a.now);
    var e := UpTo(PollEffect(p.cfg, w.rows[a.i], v), a.finalized);
    LeanServerWrites(p, AfterPollCalls(p, w, a), a.i, e, t, a.now, ActionEnd(a, t));
  }

  lemma LeanCancelStep(p: Setting, w: World, a: Action, t: Time)
    requires Sound(p, w) && a.CancelPipeline? && LeanRows(p, w, t) && t <= a.now
    ensures LeanRows(p, CancelStep(w, a), a.now)
  {
    hide RunSound, RunnersSound, LogSound, PipelineSound, CancelFrom, CancelCalls, Apply, LeanRow;
    var w' := CancelStep(w, a);
    CancelWritesOnce(w.rows, 0, CancelViewOf(a, CancelCalls(w.rows, w.runners, 0, a).1), false);
    forall k | 0 <= k < |w.rows| ensures LeanRow(p.cfg.budget, w'.rows[k], w'.writes[k], a.now) {
      assert RowSound(p.cfg.budget, w.owner, w.rows[k], w.writes[k], k);
      LeanRowLater(p.cfg.budget, w.rows[k], w.writes[k], t, a.now);
      if w'.rows[k] != w.rows[k] {
        LeanCanceled(p.cfg.budget, w.rows[k], w.writes[k], a.now);
      }
    }
  }

  lemma LeanCanceled(b: Budget, row: JobRow, count: nat, now: Time)
    requires Coherent(b, row) && LeanRow(b, row, count, now)
    requires row.status == JobStatus.Pending || row.status == JobStatus.Running
    ensures LeanRow(b, Apply(row, CancelWrite(row), now), count + 1, now)
  {
    LeanWrite(b, row, CancelWrite(row), now);
    WriteBegunBy(row, CancelWrite(row), now);
  }

  lemma LeanStep(p: Setting, w: World, a: Action, t: Time)
    requires FiresAtOnce(p.cfg) && Sound(p, w) && LeanRows(p, w, t) && ActionOrdered(a, t)
    ensures LeanRows(p, Step(p, w, a), ActionEnd(a, t))
  {
    hide RowsSound, RunnersSound, LogSound, PipelineSound, LeanRow, CancelCalls;
    ActionStartsEarlier(a, t, t);
    forall k | 0 <= k < |w.rows| ensures LeanRow(p.cfg.budget, w.rows[k], w.writes[k], ActionEnd(a, t)) {
      LeanRowLater(p.cfg.budget, w.rows[k], w.writes[k], t, ActionEnd(a, t));
    }
    match a
    case Dispatch(i, _, _, _, _, _, _, _, _, _) => if i < |w.rows| { LeanDispatchStep(p, w, a, t); }
    case Poll(i, _, _, _, _, _, _, _, _) => if i < |w.rows| { LeanPollStep(p, w, a, t); }
    case CancelPipeline(_, _, _, _, _, _) => LeanCancelStep(p, w, a, t);
    case RecoverPipelines(now) =>
    case AtRunner(runnerId, _) =>
  }

  lemma {:induction false} LeanRun(p: Setting, w: World, actions: seq<Action>, t: Time)
    requires FiresAtOnce(p.cfg) && Sound(p, w) && LeanRows(p, w, t) && Chronological(actions, t)
    ensures LeanRows(p, Run(p, w, actions), EndTime(actions, t))
    decreases |actions|
  {
    hide Step, LeanRow, RowsSound, RunnersSound, LogSound, PipelineSound, ActionOrdered, ActionEnd;
    if actions != [] {
      LeanStep(p, w, actions[0], t);
      StepSound(p, w, actions[0]);
      LeanRun(p, Step(p, w, actions[0]), actions[1..], ActionEnd(actions[0], t));
    }
  }

  lemma InitialIsLean(p: Setting, w0: World, t: Time)
    requires Initial(p, w0)
    ensures LeanRows(p, w0, t)
  {
    forall i | 0 <= i < |w0.rows| ensures LeanRow(p.cfg.budget, w0.rows[i], w0.writes[i], t) {
      assert w0.rows[i].status == JobStatus.Pending;
    }
  }

  /** With no time to wait and no retry to spend, a time-ordered run executes fewer of the counted
      statements on a row. */
  lemma LeanWritesAreBounded(p: Setting, w0: World, actions: seq<Action>, t: Time, i: nat)
    requires FiresAtOnce(p.cfg) && Initial(p, w0) && i < |w0.rows| && Chronological(actions, t)
    ensures Run(p, w0, actions).writes[i] <= 2 * p.cfg.budget.maxInfraRetries + 3
  {
    hide Sound, Step, Chronological;
    InitialIsSound(p, w0);
    InitialIsLean(p, w0, t);
    var w := Run(p, w0, actions);
    LeanRun(p, w0, actions, t);
    ReachableIsSound(p, w0, actions);
    assert LeanRow(p.cfg.budget, w.rows[i], w.writes[i], EndTime(actions, t));
    LeanIsNatural(p, w, i);
  }

  lemma LeanIsNatural(p: Setting, w: World, i: nat)
    requires Sound(p, w) && i < |w.rows|
    ensures 0 <= Lean(p.cfg.budget, w.rows[i])
  {
    hide RunnersSound, LogSound, PipelineSound, RunSound;
    assert RowSound(p.cfg.budget, w.owner, w.rows[i], w.writes[i], i);
  }
}
