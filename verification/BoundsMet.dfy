/** Runs that reach the bounds, on a clock that never goes back: one job, dispatched again and again on a
    runner of its own. */
module BoundsMet {
  import opened Wire
  import opened StateMachine
  import opened JobRows
  import opened Scheduler
  import opened Manifests
  import opened RunnerJobs
  import opened Protocol
  import opened ProtocolSafety
  import opened Chronology

  const RUNNER := "runner"
  const JOB := "job"

  /** A pipeline of one job on a runner of its own. */
  function Lonely(m: JobSchema): World {
    World([NewRow(RUNNER, JOB, false, Issued(0))], PipelineRow(PipelineStatus.Running, None, None, None, None),
          map[RUNNER := RunnerState(map[JOB := m], map[], map[], false)], [0], multiset{}, [0])
  }

  /** No two of the keys issued for a job share a run directory. */
  ghost predicate NoCollisions(idOf: Naming) {
    forall m: nat, n: nat :: m != n ==> idOf(Issued(m)) != idOf(Issued(n))
  }

  // ---------------------------------------------------------------------------------------------
  // The actions of a round, at given times

  function DispatchAt(now: Time): Action {
    Dispatch(0, Enabled, true, Prepared, "", InputsAccepted, Complete, Answered(false), true, now)
  }

  function Start(p: Setting, k: nat): Action {
    AtRunner(RUNNER, SpawnScript(p.idOf(Issued(k))))
  }

  function CancelAt(now: Time): Action {
    CancelPipeline({0}, {0}, {0}, true, 2, now)
  }

  /** The script has written more than its logs may hold. */
  function Overflow(p: Setting, k: nat, now: Time): RunnerAct {
    FinishRun(p.idOf(Issued(k)), LogLimitHit, Registration(map[], None), true, now)
  }

  /** A poll whose status call is lost. */
  function Nudge(now: Time): Action {
    Poll(0, true, Answered(false), true, [], false, {}, true, now)
  }

  function Nudges(now: Time, n: nat): seq<Action> {
    if n == 0 then [] else Nudges(now, n - 1) + [Nudge(now)]
  }

  /** A poll between whose two calls the runner acts. */
  function Catch(act: RunnerAct, now: Time): Action {
    Poll(0, true, Answered(false), true, [act], true, {}, true, now)
  }

  function Look(now: Time): Action {
    Poll(0, true, RequestLost, true, [], true, {}, true, now)
  }

  // ---------------------------------------------------------------------------------------------
  // What a round passes through

  predicate Names(row: JobRow, k: nat) {
    row.dispatchKey == Issued(k) && row.infraRetryCount == k && row.runnerId == RUNNER && row.jobName == JOB
  }

  /** Exactly the scripts of the first `k` keys have been started, once each. */
  ghost predicate Ran(spawned: multiset<Key>, k: nat) {
    forall j: nat :: spawned[Issued(j)] == if j < k then 1 else 0
  }

  ghost predicate Idle(p: Setting, r: RunnerState, k: nat) {
    && JOB in r.manifests && r.manifests[JOB].name == JOB && !r.shuttingDown && r.running == map[]
    && forall j: nat :: k <= j ==> p.idOf(Issued(j)) !in r.disk
  }

  /** The `k`-th retry is about to be dispatched, `spent` statements having been executed: every key before
      it has run, none from it on has. */
  ghost predicate Ready(p: Setting, w: World, k: nat, spent: nat) {
    && |w.rows| == |w.writes| == 1 && |w.owner| == k + 1
    && (forall j :: 0 <= j <= k ==> w.owner[j] == 0)
    && w.rows[0].status == JobStatus.Pending && Names(w.rows[0], k) && w.writes[0] == spent
    && RUNNER in w.runners && Idle(p, w.runners[RUNNER], k)
    && Ran(w.spawned, k)
  }

  /** The `k`-th run is recorded. `before` is the runner as the round found it. */
  ghost predicate Under(p: Setting, w: World, before: RunnerState, k: nat) {
    && |w.rows| == |w.writes| == 1 && |w.owner| == k + 1
    && (forall j :: 0 <= j <= k ==> w.owner[j] == 0)
    && Names(w.rows[0], k) && w.rows[0].runId == Some(p.idOf(Issued(k)))
    && RUNNER in w.runners && Keeps(w.runners[RUNNER], before, p.idOf(Issued(k)))
  }

  predicate Keeps(r: RunnerState, before: RunnerState, id: RunId) {
    && r.manifests == before.manifests && !r.shuttingDown
    && r.disk.Keys == before.disk.Keys + {id} && r.disk[id].Recorded?
  }

  /** The run is the only one in memory, its record as given. */
  predicate Holds(r: RunnerState, id: RunId, k: nat, phase: TaskPhase, status: RunStatus) {
    && r.running.Keys == {id} && r.running[id].phase == phase
    && r.running[id].execution == NewestOf(r.running[id].execution) && r.running[id].execution.key == Issued(k)
    && id in r.disk && r.disk[id].Recorded? && r.disk[id].record.status == status
  }

  ghost predicate Running(p: Setting, w: World, before: RunnerState, k: nat, phase: TaskPhase, spent: nat) {
    && Under(p, w, before, k) && Holds(w.runners[RUNNER], p.idOf(Issued(k)), k, phase, RunStatus.Running)
    && w.rows[0].status == JobStatus.Running && NoCancelFields(w.rows[0]) && w.writes[0] == spent + 1
  }

  /** The user had the row canceled at `since` and the watchdog has fired `n` times. */
  predicate Waits(row: JobRow, n: nat, since: Time) {
    && row.status == JobStatus.CancelRequested && row.cancelReason == Some(UserRequested)
    && row.cancelRequestedAt == Some(since) && row.cancelStartedAt == None && row.cancelRetryCount == n
  }

  ghost predicate Canceling(p: Setting, w: World, before: RunnerState, k: nat, n: nat, since: Time, spent: nat) {
    && Under(p, w, before, k) && Holds(w.runners[RUNNER], p.idOf(Issued(k)), k, Executing, RunStatus.CancelRequested)
    && w.runners[RUNNER].running[p.idOf(Issued(k))].cancelSignaled
    && Waits(w.rows[0], n, since) && w.writes[0] == spent + 2 + n
  }

  /** The run has ended on an infrastructure failure and left memory. */
  predicate Failed(r: RunnerState, id: RunId) {
    && r.running == map[] && id in r.disk && r.disk[id].Recorded?
    && r.disk[id].record.status == RunStatus.Failed && r.disk[id].record.category == Some(FailureCategory.Infra)
  }

  // ---------------------------------------------------------------------------------------------
  // The runner's part

  lemma CreateFresh(p: Setting, r: RunnerState, k: nat, row: JobRow, now: Time)
    requires Idle(p, r, k) && Names(row, k)
    ensures
      var id := p.idOf(Issued(k));
      var (r', reply) := Create(r, id, RequestOf(row, "", InputsAccepted), Complete, now);
      reply == Ok(CreatedRun(id, RunStatus.Running, now)) && Keeps(r', r, id) && Holds(r', id, k, Starting, RunStatus.Running)
  {
    assert p.idOf(Issued(k)) !in r.disk;
    assert ConcurrencyAllows(r.manifests[JOB], map[]);
  }

  lemma OverflowFails(p: Setting, r: RunnerState, before: RunnerState, k: nat, status: RunStatus, now: Time)
    requires var id := p.idOf(Issued(k)); Keeps(r, before, id) && Holds(r, id, k, Executing, status)
    ensures
      var id, r' := p.idOf(Issued(k)), RunnerStep(p.idOf, r, Overflow(p, k, now));
      Keeps(r', before, id) && Failed(r', id)
  {
    var r' := RunnerStep(p.idOf, r, Overflow(p, k, now));
    assert r'.running.Keys == {};
    assert r'.running == map[];
  }

  lemma CancelFirst(r: RunnerState, id: RunId)
    requires id in r.running && id in r.disk && r.disk[id].Recorded? && r.disk[id].record.status == RunStatus.Running
    ensures
      var r' := r.(disk := r.disk[id := Recorded(r.disk[id].record.(status := RunStatus.CancelRequested))],
                   running := r.running[id := r.running[id].(cancelSignaled := true)]);
      Cancel(r, id, true) == (r', Ok(()))
  {
  }

  /** Canceling a run once more changes nothing at the runner. */
  lemma CancelAgain(r: RunnerState, id: RunId)
    requires id in r.running && r.running[id].cancelSignaled
    requires id in r.disk && r.disk[id].Recorded? && r.disk[id].record.status == RunStatus.CancelRequested
    ensures Cancel(r, id, true) == (r, Ok(()))
  {
    assert r.running[id := r.running[id].(cancelSignaled := true)] == r.running;
  }

  lemma IdleAgain(p: Setting, before: RunnerState, r: RunnerState, k: nat)
    requires NoCollisions(p.idOf) && Idle(p, before, k) && Keeps(r, before, p.idOf(Issued(k))) && r.running == map[]
    ensures Idle(p, r, k + 1)
  {
    forall j: nat | k + 1 <= j ensures p.idOf(Issued(j)) !in r.disk {
      assert p.idOf(Issued(j)) != p.idOf(Issued(k));
    }
  }

  // ---------------------------------------------------------------------------------------------
  // Dispatch and start

  lemma DispatchReady(p: Setting, w: World, k: nat, spent: nat, now: Time)
    requires Ready(p, w, k, spent)
    ensures Running(p, Step(p, w, DispatchAt(now)), w.runners[RUNNER], k, Starting, spent)
    ensures Step(p, w, DispatchAt(now)).spawned == w.spawned
  {
    hide Create, Idle, Ran, Finalized, Keeps, Holds;
    var id, a := p.idOf(Issued(k)), DispatchAt(now);
    CreateFresh(p, w.runners[RUNNER], k, w.rows[0], now);
    var v := DispatchViewOf(p, w, a);
    assert CreateArrives(w, a);
    assert v.reply == Created(id, now);
    assert DispatchEffect(p.cfg.budget, w.rows, 0, v) == Effect([SetStarted(id, now)], false);
    ApplyOne(w.rows[0], SetStarted(id, now), now);
  }

  lemma StartHeld(p: Setting, w: World, before: RunnerState, k: nat, spent: nat)
    requires Running(p, w, before, k, Starting, spent)
    ensures Running(p, Step(p, w, Start(p, k)), before, k, Executing, spent)
    ensures Step(p, w, Start(p, k)).spawned == w.spawned + multiset{Issued(k)}
  {
  }

  lemma ReadyIsIdle(p: Setting, w: World, k: nat, spent: nat)
    requires Ready(p, w, k, spent)
    ensures RUNNER in w.runners && Idle(p, w.runners[RUNNER], k) && |w.rows| == |w.writes| && Ran(w.spawned, k)
  {
  }

  lemma RanOneMore(spawned: multiset<Key>, k: nat)
    requires Ran(spawned, k)
    ensures Ran(spawned + multiset{Issued(k)}, k + 1)
  {
  }

  lemma ReadyStarts(p: Setting, w: World, k: nat, spent: nat, now: Time)
    requires Ready(p, w, k, spent)
    ensures
      var w2 := Step(p, Step(p, w, DispatchAt(now)), Start(p, k));
      RUNNER in w.runners && Running(p, w2, w.runners[RUNNER], k, Executing, spent) && Ran(w2.spawned, k + 1)
  {
    hide Ready, Running, Idle, Ran, Step;
    ReadyIsIdle(p, w, k, spent);
    DispatchReady(p, w, k, spent, now);
    StartHeld(p, Step(p, w, DispatchAt(now)), w.runners[RUNNER], k, spent);
    RanOneMore(w.spawned, k);
  }

  // ---------------------------------------------------------------------------------------------
  // A round without cancellation

  ghost predicate Overflowed(p: Setting, w: World, before: RunnerState, k: nat, spent: nat) {
    && Under(p, w, before, k) && Failed(w.runners[RUNNER], p.idOf(Issued(k)))
    && w.rows[0].status == JobStatus.Running && w.writes[0] == spent + 1
  }

  lemma OverflowRunning(p: Setting, w: World, before: RunnerState, k: nat, spent: nat, now: Time)
    requires Running(p, w, before, k, Executing, spent)
    ensures
      var w' := Step(p, w, AtRunner(RUNNER, Overflow(p, k, now)));
      Overflowed(p, w', before, k, spent) && w'.spawned == w.spawned
  {
    hide Keeps, Holds, Failed, RunnerStep;
    OverflowFails(p, w.runners[RUNNER], before, k, RunStatus.Running, now);
  }

  lemma LookOverflowed(p: Setting, w: World, before: RunnerState, k: nat, spent: nat, now: Time)
    requires NoCollisions(p.idOf) && Overflowed(p, w, before, k, spent) && Idle(p, before, k)
    requires k < p.cfg.budget.maxInfraRetries && Ran(w.spawned, k + 1)
    ensures Ready(p, Step(p, w, Look(now)), k + 1, spent + 2)
  {
    hide Finalized, Ran, Idle, NoCollisions, RunnerWorldStep;
    var row, v := w.rows[0], PollViewOf(p, w, Look(now));
    assert AfterPollCalls(p, w, Look(now)) == w;
    assert v.report == StatusReport(w.runners, row);
    assert PollEffect(p.cfg, row, v) == Effect([Requeue(Issued(k + 1))], true);
    ApplyOne(row, Requeue(Issued(k + 1)), now);
    IdleAgain(p, before, w.runners[RUNNER], k);
  }

  function PlainRound(p: Setting, k: nat): seq<Action> {
    [DispatchAt(0)] + ([Start(p, k)] + ([AtRunner(RUNNER, Overflow(p, k, 0))] + ([Look(0)] + [])))
  }

  lemma PlainRoundRuns(p: Setting, w: World, k: nat, spent: nat)
    requires NoCollisions(p.idOf) && Ready(p, w, k, spent) && k < p.cfg.budget.maxInfraRetries
    ensures Ready(p, Run(p, w, PlainRound(p, k)), k + 1, spent + 2)
  {
    hide Ready, Running, Overflowed, Ran, Idle, Step, NoCollisions;
    ReadyIsIdle(p, w, k, spent);
    ReadyStarts(p, w, k, spent, 0);
    var before, finish := w.runners[RUNNER], AtRunner(RUNNER, Overflow(p, k, 0));
    var w1 := Step(p, w, DispatchAt(0));
    var w2 := Step(p, w1, Start(p, k));
    var w3 := Step(p, w2, finish);
    OverflowRunning(p, w2, before, k, spent, 0);
    LookOverflowed(p, w3, before, k, spent, 0);
    RunOne(p, w, DispatchAt(0), [Start(p, k)] + ([finish] + ([Look(0)] + [])));
    RunOne(p, w1, Start(p, k), [finish] + ([Look(0)] + []));
    RunOne(p, w2, finish, [Look(0)] + []);
    RunOne(p, w3, Look(0), []);
  }

  lemma PlainRoundIsOrdered(p: Setting, k: nat)
    ensures Within(0, PlainRound(p, k), 0)
  {
    var finish := AtRunner(RUNNER, Overflow(p, k, 0));
    WithinOne(0, DispatchAt(0), 0);
    WithinOne(0, Start(p, k), 0);
    WithinOne(0, finish, 0);
    WithinOne(0, Look(0), 0);
    hide Within;
    assert [Look(0)] + [] == [Look(0)];
    WithinAppend(0, [finish], 0, [Look(0)] + [], 0);
    WithinAppend(0, [Start(p, k)], 0, [finish] + ([Look(0)] + []), 0);
    WithinAppend(0, [DispatchAt(0)], 0, [Start(p, k)] + ([finish] + ([Look(0)] + [])), 0);
  }

  function PlainRounds(p: Setting, n: nat): seq<Action> {
    if n == 0 then [] else PlainRounds(p, n - 1) + PlainRound(p, n - 1)
  }

  lemma {:induction false} PlainRoundsRun(p: Setting, m: JobSchema, n: nat)
    requires NoCollisions(p.idOf) && m.name == JOB && n <= p.cfg.budget.maxInfraRetries
    ensures Ready(p, Run(p, Lonely(m), PlainRounds(p, n)), n, 2 * n)
    ensures Within(0, PlainRounds(p, n), 0)
  {
    hide Step, PlainRound, NoCollisions, Ready, Within;
    if n == 0 {
      LonelyIsReady(p, m);
      WithinNothing(0);
    } else {
      PlainRoundsRun(p, m, n - 1);
      RunSplits(p, Lonely(m), PlainRounds(p, n - 1), PlainRound(p, n - 1));
      PlainRoundRuns(p, Run(p, Lonely(m), PlainRounds(p, n - 1)), n - 1, 2 * (n - 1));
      PlainRoundIsOrdered(p, n - 1);
      WithinAppend(0, PlainRounds(p, n - 1), 0, PlainRound(p, n - 1), 0);
    }
  }

  lemma WithinNothing(t: Time)
    ensures Within(t, [], t)
  {
  }

  lemma LonelyIsReady(p: Setting, m: JobSchema)
    requires m.name == JOB
    ensures Ready(p, Lonely(m), 0, 0)
  {
  }

  lemma LonelyIsInitial(p: Setting, m: JobSchema)
    requires ValidManifest(m) && m.name == JOB
    ensures Initial(p, Lonely(m))
  {
    hide ValidManifest;
    assert WellFiled(map[JOB := m]);
  }

  lemma {:induction false} EveryKeyRan(owner: seq<nat>, spawned: multiset<Key>)
    requires forall j :: 0 <= j < |owner| ==> owner[j] == 0 && spawned[Issued(j)] == 1
    ensures Executions(owner, spawned, 0) == |owner|
  {
    if owner != [] {
      EveryKeyRan(owner[..|owner| - 1], spawned);
    }
  }

  lemma RunningRan(p: Setting, w: World, before: RunnerState, k: nat, spent: nat)
    requires Running(p, w, before, k, Executing, spent) && Ran(w.spawned, k + 1)
    ensures Executions(w.owner, w.spawned, 0) == k + 1
  {
    EveryKeyRan(w.owner, w.spawned);
  }

  /** In every setting some time-ordered run starts a script once more than the budget allows retries, so no
      smaller bound on executions holds. */
  lemma ExecutionBoundIsMet(p: Setting, m: JobSchema) returns (actions: seq<Action>)
    requires NoCollisions(p.idOf) && ValidManifest(m) && m.name == JOB
    ensures Initial(p, Lonely(m)) && Chronological(actions, 0)
    ensures
      var w := Run(p, Lonely(m), actions);
      Executions(w.owner, w.spawned, 0) == 1 + p.cfg.budget.maxInfraRetries
  {
    hide Step, PlainRounds, NoCollisions, ValidManifest, Ready, Running, Ran, Initial;
    var n := p.cfg.budget.maxInfraRetries;
    LonelyIsInitial(p, m);
    PlainRoundsRun(p, m, n);
    var w := Run(p, Lonely(m), PlainRounds(p, n));
    ReadyIsIdle(p, w, n, 2 * n);
    ReadyStarts(p, w, n, 2 * n, 0);
    var last := [DispatchAt(0)] + ([Start(p, n)] + []);
    actions := PlainRounds(p, n) + last;
    RunSplits(p, Lonely(m), PlainRounds(p, n), last);
    RunOne(p, w, DispatchAt(0), [Start(p, n)] + []);
    RunOne(p, Step(p, w, DispatchAt(0)), Start(p, n), []);
    RunningRan(p, Run(p, w, last), w.runners[RUNNER], n, 2 * n);
    WithinOne(0, DispatchAt(0), 0);
    WithinOne(0, Start(p, n), 0);
    assert [Start(p, n)] + [] == [Start(p, n)];
    WithinAppend(0, [DispatchAt(0)], 0, [Start(p, n)] + [], 0);
    WithinAppend(0, PlainRounds(p, n), 0, last, 0);
  }

  // ---------------------------------------------------------------------------------------------
  // A round with cancellation

  function AtLeastZero(n: int): nat {
    if n < 0 then 0 else n
  }

  /** When the watchdog is let fire at a cancellation begun at `t`; with no retry to spend, it is not. */
  function Fire(p: Setting, t: Time): Time {
    if 0 < p.cfg.budget.maxCancelRetries then t + AtLeastZero(p.cfg.cancelStuckSeconds) else t
  }

  /** All cancel retries but the last. */
  function ButLast(p: Setting): nat {
    AtLeastZero(p.cfg.budget.maxCancelRetries - 1)
  }

  lemma OneCancelCall(w: World, id: RunId, now: Time)
    requires |w.rows| == 1 && w.rows[0].status == JobStatus.Running && w.rows[0].runId == Some(id)
    requires w.rows[0].runnerId == RUNNER && RUNNER in w.runners && Cancel(w.runners[RUNNER], id, true).1.Ok?
    ensures CancelCalls(w.rows, w.runners, 0, CancelAt(now)) ==
              (w.runners[RUNNER := Cancel(w.runners[RUNNER], id, true).0], {0})
  {
    hide Cancel;
    var runners' := w.runners[RUNNER := Cancel(w.runners[RUNNER], id, true).0];
    assert CancelCalls(w.rows, runners', 1, CancelAt(now)) == (runners', {});
    assert {} + {0} == {0};
  }

  lemma OneCanceledRow(row: JobRow, now: Time)
    requires row.status == JobStatus.Running && row.runId.Some?
    ensures CancelFrom([row], 0, CancelViewOf(CancelAt(now), {0}), false) ==
              CancelOutcome([Apply(row, MarkCancelRequested(UserRequested), now)], true, true)
  {
    hide Apply;
    var v, after := CancelViewOf(CancelAt(now), {0}), Apply(row, MarkCancelRequested(UserRequested), now);
    assert [row][0 := after] == [after];
    assert CancelFrom([after], 1, v, true) == CancelOutcome([after], true, true);
  }

  lemma CancelRunning(p: Setting, w: World, before: RunnerState, k: nat, spent: nat, now: Time)
    requires Running(p, w, before, k, Executing, spent)
    ensures Canceling(p, Step(p, w, CancelAt(now)), before, k, 0, now, spent)
    ensures Step(p, w, CancelAt(now)).spawned == w.spawned
  {
    hide CancelCalls, CancelFrom, Cancel, Ran;
    CancelFirst(w.runners[RUNNER], p.idOf(Issued(k)));
    OneCancelCall(w, p.idOf(Issued(k)), now);
    assert w.rows == [w.rows[0]];
    OneCanceledRow(w.rows[0], now);
  }

  /** Whether or not a poll repeats the cancel call, the runner is as it was when the call has been made. */
  lemma RetryChangesNothing(p: Setting, w: World, before: RunnerState, k: nat, n: nat, since: Time, spent: nat, a: Action)
    requires Canceling(p, w, before, k, n, since, spent)
    requires a.Poll? && a.i == 0 && a.registered && a.cancelFate == Answered(false) && a.stored
    ensures AfterCancelRetry(p, w, a) == w
    ensures n < p.cfg.budget.maxCancelRetries && Stuck(p.cfg, w.rows[0], a.now) ==> CancelAccepted(p, w, a)
  {
    hide Cancel;
    CancelAgain(w.runners[RUNNER], p.idOf(Issued(k)));
    assert w.runners[RUNNER := w.runners[RUNNER]] == w.runners;
  }

  lemma NudgeCanceling(p: Setting, w: World, before: RunnerState, k: nat, n: nat, since: Time, spent: nat, now: Time)
    requires Canceling(p, w, before, k, n, since, spent) && n < p.cfg.budget.maxCancelRetries
    requires p.cfg.cancelStuckSeconds <= now - since
    ensures Canceling(p, Step(p, w, Nudge(now)), before, k, n + 1, since, spent)
    ensures Step(p, w, Nudge(now)).spawned == w.spawned
  {
    hide Finalized, ReportEffect, CancelArrives, AfterCancelRetry, Keeps, Holds;
    RetryChangesNothing(p, w, before, k, n, since, spent, Nudge(now));
    var v := PollViewOf(p, w, Nudge(now));
    assert v.cancelAccepted && v.report == None;
    assert [RecordCancelRetry] + [] == [RecordCancelRetry];
    assert PollEffect(p.cfg, w.rows[0], v) == Effect([RecordCancelRetry], false);
    ApplyOne(w.rows[0], RecordCancelRetry, now);
  }

  lemma CancelingIsOneRow(p: Setting, w: World, before: RunnerState, k: nat, n: nat, since: Time, spent: nat)
    requires Canceling(p, w, before, k, n, since, spent)
    ensures |w.rows| == |w.writes| == 1
  {
  }

  lemma {:induction false} NudgesCanceling(
      p: Setting, w: World, before: RunnerState, k: nat, n: nat, since: Time, spent: nat, now: Time)
    requires Canceling(p, w, before, k, 0, since, spent) && n <= p.cfg.budget.maxCancelRetries
    requires n == 0 || p.cfg.cancelStuckSeconds <= now - since
    ensures |w.rows| == |w.writes| && Canceling(p, Run(p, w, Nudges(now, n)), before, k, n, since, spent)
    ensures Run(p, w, Nudges(now, n)).spawned == w.spawned
  {
    hide Canceling, Step, Nudge;
    CancelingIsOneRow(p, w, before, k, 0, since, spent);
    if 0 < n {
      NudgesCanceling(p, w, before, k, n - 1, since, spent, now);
      RunSplits(p, w, Nudges(now, n - 1), [Nudge(now)]);
      var w' := Run(p, w, Nudges(now, n - 1));
      RunOne(p, w', Nudge(now), []);
      assert [Nudge(now)] + [] == [Nudge(now)];
      NudgeCanceling(p, w', before, k, n - 1, since, spent, now);
    }
  }

  lemma {:induction false} NudgesAreOrdered(t: Time, now: Time, n: nat)
    requires t <= now
    ensures Within(t, Nudges(now, n), now)
  {
    hide Within;
    if n == 0 {
      EndsLater(t, now);
    } else {
      NudgesAreOrdered(t, now, n - 1);
      WithinOne(now, Nudge(now), now);
      WithinAppend(t, Nudges(now, n - 1), now, [Nudge(now)], now);
    }
  }

  lemma EndsLater(t: Time, u: Time)
    requires t <= u
    ensures Within(t, [], u)
  {
  }

  /** Dispatched, started, canceled by the user, and the cancellation retried as often as it may be but
      once. */
  function Opening(p: Setting, k: nat, t: Time): seq<Action> {
    [DispatchAt(t)] + ([Start(p, k)] + ([CancelAt(t)] + Nudges(Fire(p, t), ButLast(p))))
  }

  lemma OpeningRuns(p: Setting, w: World, k: nat, spent: nat, t: Time)
    requires Ready(p, w, k, spent)
    ensures |w.rows| == |w.writes| && RUNNER in w.runners && Idle(p, w.runners[RUNNER], k)
    ensures
      var w' := Run(p, w, Opening(p, k, t));
      Canceling(p, w', w.runners[RUNNER], k, ButLast(p), t, spent) && Ran(w'.spawned, k + 1)
  {
    hide Ready, Running, Canceling, Ran, Idle, Step, Nudges;
    ReadyIsIdle(p, w, k, spent);
    ReadyStarts(p, w, k, spent, t);
    var before, nudges := w.runners[RUNNER], Nudges(Fire(p, t), ButLast(p));
    var w1 := Step(p, w, DispatchAt(t));
    var w2 := Step(p, w1, Start(p, k));
    CancelRunning(p, w2, before, k, spent, t);
    NudgesCanceling(p, Step(p, w2, CancelAt(t)), before, k, ButLast(p), t, spent, Fire(p, t));
    RunOne(p, w, DispatchAt(t), [Start(p, k)] + ([CancelAt(t)] + nudges));
    RunOne(p, w1, Start(p, k), [CancelAt(t)] + nudges);
    RunOne(p, w2, CancelAt(t), nudges);
  }

  lemma OpeningIsOrdered(p: Setting, k: nat, t: Time)
    ensures Within(t, Opening(p, k, t), Fire(p, t))
  {
    var nudges := Nudges(Fire(p, t), ButLast(p));
    WithinOne(t, DispatchAt(t), t);
    WithinOne(t, Start(p, k), t);
    WithinOne(t, CancelAt(t), t);
    NudgesAreOrdered(t, Fire(p, t), ButLast(p));
    hide Within;
    WithinAppend(t, [CancelAt(t)], t, nudges, Fire(p, t));
    WithinAppend(t, [Start(p, k)], t, [CancelAt(t)] + nudges, Fire(p, t));
    WithinAppend(t, [DispatchAt(t)], t, [Start(p, k)] + ([CancelAt(t)] + nudges), Fire(p, t));
  }

  /** The last cancel retry there is precedes the status call of the same poll. */
  lemma CatchAsks(p: Setting, w: World, before: RunnerState, k: nat, since: Time, spent: nat, act: RunnerAct)
    requires !FiresAtOnce(p.cfg) && Canceling(p, w, before, k, ButLast(p), since, spent)
    ensures
      var a := Catch(act, Fire(p, since));
      var v := PollViewOf(p, w, a);
      && AfterPollCalls(p, w, a) == RunnerWorldStep(p, w, AtRunner(RUNNER, act))
      && v.report == StatusReport(AfterPollCalls(p, w, a).runners, w.rows[0])
      && (v.report.Some? ==>
            var e := ReportEffect(p.cfg.budget, w.rows[0], v.report.value, {}, Issued(|w.owner|));
            PollEffect(p.cfg, w.rows[0], v) ==
              if 0 < p.cfg.budget.maxCancelRetries then Effect([RecordCancelRetry] + e.writes, e.finalize) else e)
  {
    hide RunnerWorldStep, CancelArrives, AfterCancelRetry, Keeps, Holds, StatusReport, ReportEffect;
    var a := Catch(act, Fire(p, since));
    RetryChangesNothing(p, w, before, k, ButLast(p), since, spent, a);
    OneAct(p, w, act);
  }

  lemma OneAct(p: Setting, w: World, act: RunnerAct)
    requires RUNNER in w.runners
    ensures AfterActs(p, w, RUNNER, [act]) == RunnerWorldStep(p, w, AtRunner(RUNNER, act))
  {
    hide RunnerWorldStep;
    assert [act][1..] == [];
  }

  /** A statement, after the counting of the last cancel retry if there was one. */
  lemma RetriedThen(p: Setting, row: JobRow, x: Write, now: Time)
    ensures
      var counts := 0 < p.cfg.budget.maxCancelRetries;
      var ws := if counts then [RecordCancelRetry] + [x] else [x];
      && ApplyAll(row, ws, now) == Apply(if counts then Apply(row, RecordCancelRetry, now) else row, x, now)
      && Requeues(ws) == x.Requeue? && |ws| == if counts then 2 else 1
  {
    hide Apply;
    assert [RecordCancelRetry] + [x] == [RecordCancelRetry, x];
    ApplyOne(row, x, now);
    ApplyTwo(row, RecordCancelRetry, x, now);
  }

  /** The last cancel retry there is goes to a run that overruns its logs before it is asked for its status:
      the job is requeued. */
  lemma CatchOverflow(p: Setting, w: World, before: RunnerState, k: nat, since: Time, spent: nat)
    requires !FiresAtOnce(p.cfg) && NoCollisions(p.idOf) && k < p.cfg.budget.maxInfraRetries
    requires Canceling(p, w, before, k, ButLast(p), since, spent) && Idle(p, before, k) && Ran(w.spawned, k + 1)
    ensures
      var now := Fire(p, since);
      Ready(p, Step(p, w, Catch(Overflow(p, k, now), now)), k + 1, spent + 3 + p.cfg.budget.maxCancelRetries)
  {
    hide Finalized, Ran, Idle, NoCollisions, RunnerStep, Keeps, Holds, AfterPollCalls, PollEffect;
    var now := Fire(p, since);
    var act := Overflow(p, k, now);
    var row, v := w.rows[0], PollViewOf(p, w, Catch(act, now));
    CatchAsks(p, w, before, k, since, spent, act);
    OverflowFails(p, w.runners[RUNNER], before, k, RunStatus.CancelRequested, now);
    IdleAgain(p, before, RunnerStep(p.idOf, w.runners[RUNNER], act), k);
    assert ReportEffect(p.cfg.budget, row, v.report.value, {}, Issued(k + 1)) == Effect([Requeue(Issued(k + 1))], true);
    RetriedThen(p, row, Requeue(Issued(k + 1)), now);
  }

  function Round(p: Setting, k: nat, t: Time): seq<Action> {
    Opening(p, k, t) + [Catch(Overflow(p, k, Fire(p, t)), Fire(p, t))]
  }

  lemma RoundRuns(p: Setting, w: World, k: nat, spent: nat, t: Time)
    requires !FiresAtOnce(p.cfg) && NoCollisions(p.idOf) && Ready(p, w, k, spent) && k < p.cfg.budget.maxInfraRetries
    ensures |w.rows| == |w.writes| && Ready(p, Run(p, w, Round(p, k, t)), k + 1, spent + 3 + p.cfg.budget.maxCancelRetries)
    ensures Within(t, Round(p, k, t), Fire(p, t))
  {
    hide Ready, Canceling, Ran, Idle, Step, NoCollisions, Opening, Within, FiresAtOnce;
    var now := Fire(p, t);
    var catch := Catch(Overflow(p, k, now), now);
    OpeningRuns(p, w, k, spent, t);
    CatchOverflow(p, Run(p, w, Opening(p, k, t)), w.runners[RUNNER], k, t, spent);
    RunSplits(p, w, Opening(p, k, t), [catch]);
    RunLast(p, Run(p, w, Opening(p, k, t)), catch);
    OpeningIsOrdered(p, k, t);
    CatchIsOrdered(Overflow(p, k, now), now);
    WithinAppend(t, Opening(p, k, t), now, [catch], now);
  }

  lemma RunLast(p: Setting, w: World, a: Action)
    requires |w.rows| == |w.writes|
    ensures Run(p, w, [a]) == Step(p, w, a)
  {
    hide Step;
    assert [a] + [] == [a];
    RunOne(p, w, a, []);
  }

  lemma CatchIsOrdered(act: RunnerAct, now: Time)
    requires ActTime(act, now) == now
    ensures Within(now, [Catch(act, now)], now)
  {
    assert [act][1..] == [];
    assert ActsOrdered([], now) && ActsEnd([], now) == now;
    WithinOne(now, Catch(act, now), now);
  }

  /** When the `n`-th round ends. */
  function Clock(p: Setting, n: nat): Time {
    if n == 0 then 0 else Fire(p, Clock(p, n - 1))
  }

  function Rounds(p: Setting, n: nat): seq<Action> {
    if n == 0 then [] else Rounds(p, n - 1) + Round(p, n - 1, Clock(p, n - 1))
  }

  /** The statements of `k` dispatches that each end in a requeue. */
  function Spent(p: Setting, k: nat): nat {
    k * (3 + p.cfg.budget.maxCancelRetries)
  }

  lemma SpentGrows(p: Setting, k: nat)
    ensures Spent(p, k + 1) == Spent(p, k) + 3 + p.cfg.budget.maxCancelRetries
  {
    var unit := 3 + p.cfg.budget.maxCancelRetries;
    assert (k + 1) * unit == k * unit + unit;
  }

  lemma {:induction false} RoundsRun(p: Setting, m: JobSchema, n: nat)
    requires !FiresAtOnce(p.cfg) && NoCollisions(p.idOf) && m.name == JOB && n <= p.cfg.budget.maxInfraRetries
    ensures Ready(p, Run(p, Lonely(m), Rounds(p, n)), n, Spent(p, n))
    ensures Within(0, Rounds(p, n), Clock(p, n))
  {
    hide Step, Round, NoCollisions, Ready, Within, FiresAtOnce;
    if n == 0 {
      LonelyIsReady(p, m);
      WithinNothing(0);
    } else {
      var w, t := Run(p, Lonely(m), Rounds(p, n - 1)), Clock(p, n - 1);
      RoundsRun(p, m, n - 1);
      RunSplits(p, Lonely(m), Rounds(p, n - 1), Round(p, n - 1, t));
      RoundRuns(p, w, n - 1, Spent(p, n - 1), t);
      SpentGrows(p, n - 1);
      WithinAppend(0, Rounds(p, n - 1), t, Round(p, n - 1, t), Fire(p, t));
    }
  }

  // ---------------------------------------------------------------------------------------------
  // The last round, which the watchdog ends

  /** The row has followed its record into Canceling. */
  predicate Followed(p: Setting, w: World, id: RunId, since: Time, writes: nat) {
    && |w.rows| == |w.writes| == 1
    && w.rows[0].status == JobStatus.Canceling && w.rows[0].runId == Some(id)
    && w.rows[0].cancelStartedAt == Some(since)
    && w.rows[0].cancelRetryCount == p.cfg.budget.maxCancelRetries
    && w.writes[0] == writes
  }

  /** The run sees that it is to be canceled. */
  function See(p: Setting, k: nat): RunnerAct {
    SeeCancel(p.idOf(Issued(k)), true)
  }

  lemma CancelSeen(p: Setting, r: RunnerState, before: RunnerState, k: nat)
    requires
      var id := p.idOf(Issued(k));
      Keeps(r, before, id) && Holds(r, id, k, Executing, RunStatus.CancelRequested) && r.running[id].cancelSignaled
    ensures
      var id, r' := p.idOf(Issued(k)), RunnerStep(p.idOf, r, See(p, k));
      id in r'.disk && r'.disk[id].Recorded? && r'.disk[id].record.status == RunStatus.Canceling
  {
  }

  lemma CatchCanceling(p: Setting, w: World, before: RunnerState, k: nat, since: Time, spent: nat)
    requires !FiresAtOnce(p.cfg) && Canceling(p, w, before, k, ButLast(p), since, spent)
    ensures
      var now := Fire(p, since);
      Followed(p, Step(p, w, Catch(See(p, k), now)), p.idOf(Issued(k)), now, spent + 3 + p.cfg.budget.maxCancelRetries)
  {
    hide Finalized, RunnerStep, Keeps, Holds, AfterPollCalls, PollEffect;
    var now, row := Fire(p, since), w.rows[0];
    var v := PollViewOf(p, w, Catch(See(p, k), now));
    CatchAsks(p, w, before, k, since, spent, See(p, k));
    CancelSeen(p, w.runners[RUNNER], before, k);
    assert ReportEffect(p.cfg.budget, row, v.report.value, {}, Issued(k + 1)) == Effect([SetStatus(JobStatus.Canceling)], true);
    RetriedThen(p, row, SetStatus(JobStatus.Canceling), now);
  }

  lemma LookExhausted(p: Setting, w: World, id: RunId, since: Time, writes: nat)
    requires Followed(p, w, id, since, writes)
    ensures Step(p, w, Look(since + AtLeastZero(p.cfg.cancelStuckSeconds))).writes == [writes + 1]
  {
    hide Finalized, Apply;
    var a := Look(since + AtLeastZero(p.cfg.cancelStuckSeconds));
    assert PollEffect(p.cfg, w.rows[0], PollViewOf(p, w, a)) == Effect([MarkCancelRetryExhausted], true);
  }

  /** The run follows the cancel call but does not end, and the watchdog gives it up. */
  function LastRound(p: Setting, k: nat, t: Time): seq<Action> {
    Opening(p, k, t) + ([Catch(See(p, k), Fire(p, t))] + [Look(Fire(p, t) + AtLeastZero(p.cfg.cancelStuckSeconds))])
  }

  lemma LastRoundRuns(p: Setting, w: World, k: nat, spent: nat, t: Time)
    requires !FiresAtOnce(p.cfg) && Ready(p, w, k, spent)
    ensures |w.rows| == |w.writes| && Run(p, w, LastRound(p, k, t)).writes == [spent + 4 + p.cfg.budget.maxCancelRetries]
  {
    hide Ready, Canceling, Ran, Idle, Step, Opening, Followed, FiresAtOnce;
    OpeningRuns(p, w, k, spent, t);
    var now, w1 := Fire(p, t), Run(p, w, Opening(p, k, t));
    var catch, look := Catch(See(p, k), now), Look(now + AtLeastZero(p.cfg.cancelStuckSeconds));
    var w2 := Step(p, w1, catch);
    CatchCanceling(p, w1, w.runners[RUNNER], k, t, spent);
    LookExhausted(p, w2, p.idOf(Issued(k)), now, spent + 3 + p.cfg.budget.maxCancelRetries);
    RunSplits(p, w, Opening(p, k, t), [catch] + [look]);
    RunOne(p, w1, catch, [look]);
    RunLast(p, w2, look);
  }

  lemma LastRoundIsOrdered(p: Setting, k: nat, t: Time)
    ensures Within(t, LastRound(p, k, t), Fire(p, t) + AtLeastZero(p.cfg.cancelStuckSeconds))
  {
    hide Within, Opening;
    var now, end := Fire(p, t), Fire(p, t) + AtLeastZero(p.cfg.cancelStuckSeconds);
    OpeningIsOrdered(p, k, t);
    CatchIsOrdered(See(p, k), now);
    WithinOne(now, Look(end), end);
    WithinAppend(now, [Catch(See(p, k), now)], now, [Look(end)], end);
    WithinAppend(t, Opening(p, k, t), now, [Catch(See(p, k), now)] + [Look(end)], end);
  }

  // ---------------------------------------------------------------------------------------------
  // The bound on statements

  /** Some time-ordered run executes on a row as many of the counted statements as the bound allows. */
  ghost predicate WriteBoundIsReached(p: Setting) {
    exists w0: World, actions: seq<Action>, t: Time, i: nat ::
      && Initial(p, w0) && i < |w0.rows| && Chronological(actions, t)
      && Run(p, w0, actions).writes[i] == WriteBound(p.cfg.budget)
  }

  /** If a poll of a job in cancellation can still ask its runner, some time-ordered run executes as many
      of the counted statements on a row as the bound allows. */
  lemma WriteBoundIsMet(p: Setting, m: JobSchema) returns (actions: seq<Action>)
    requires 0 < p.cfg.cancelStuckSeconds || 0 < p.cfg.budget.maxCancelRetries
    requires NoCollisions(p.idOf) && ValidManifest(m) && m.name == JOB
    ensures Initial(p, Lonely(m)) && Chronological(actions, 0)
    ensures Run(p, Lonely(m), actions).writes[0] ==
              (p.cfg.budget.maxInfraRetries + 1) * (3 + p.cfg.budget.maxCancelRetries) + 1
  {
    hide Step, Rounds, LastRound, NoCollisions, ValidManifest, Ready, Initial;
    var n := p.cfg.budget.maxInfraRetries;
    var t := Clock(p, n);
    LonelyIsInitial(p, m);
    RoundsRun(p, m, n);
    LastRoundRuns(p, Run(p, Lonely(m), Rounds(p, n)), n, Spent(p, n), t);
    actions := Rounds(p, n) + LastRound(p, n, t);
    RunSplits(p, Lonely(m), Rounds(p, n), LastRound(p, n, t));
    SpentGrows(p, n);
    LastRoundIsOrdered(p, n, t);
    WithinAppend(0, Rounds(p, n), t, LastRound(p, n, t), Fire(p, t) + AtLeastZero(p.cfg.cancelStuckSeconds));
  }

  /** The bound on statements is exact just when a cancellation is given some time or some retry; otherwise
      the smaller bound of `LeanWritesAreBounded` holds. */
  lemma WriteBoundIsMetExactlyWhen(p: Setting, m: JobSchema)
    requires NoCollisions(p.idOf) && ValidManifest(m) && m.name == JOB
    ensures WriteBoundIsReached(p) <==> 0 < p.cfg.cancelStuckSeconds || 0 < p.cfg.budget.maxCancelRetries
  {
    hide Step, NoCollisions, ValidManifest, RowsSound, RunnersSound, LogSound, Chronological;
    if 0 < p.cfg.cancelStuckSeconds || 0 < p.cfg.budget.maxCancelRetries {
      var actions := WriteBoundIsMet(p, m);
      assert Chronological(actions, 0);
    } else {
      forall w0: World, actions: seq<Action>, t: Time, i: nat | Initial(p, w0) && i < |w0.rows| && Chronological(actions, t)
        ensures Run(p, w0, actions).writes[i] < WriteBound(p.cfg.budget)
      {
        LeanWritesAreBounded(p, w0, actions, t, i);
      }
    }
  }

  lemma LookCanceled(p: Setting, w: World, before: RunnerState, k: nat, spent: nat)
    requires FiresAtOnce(p.cfg) && Canceling(p, w, before, k, 0, 0, spent)
    ensures Step(p, w, Look(0)).writes == [spent + 3]
  {
    hide Finalized, Apply, Keeps, Holds;
    assert PollEffect(p.cfg, w.rows[0], PollViewOf(p, w, Look(0))) == Effect([MarkCancelRetryExhausted], true);
  }

  /** Nor can the smaller bound be improved: some time-ordered run meets it. */
  lemma LeanBoundIsMet(p: Setting, m: JobSchema) returns (actions: seq<Action>)
    requires FiresAtOnce(p.cfg) && NoCollisions(p.idOf) && ValidManifest(m) && m.name == JOB
    ensures Initial(p, Lonely(m)) && Chronological(actions, 0)
    ensures Run(p, Lonely(m), actions).writes[0] == 2 * p.cfg.budget.maxInfraRetries + 3
  {
    hide Step, PlainRounds, NoCollisions, ValidManifest, Ready, Canceling, Ran, Initial, Opening;
    var n := p.cfg.budget.maxInfraRetries;
    LonelyIsInitial(p, m);
    PlainRoundsRun(p, m, n);
    var w := Run(p, Lonely(m), PlainRounds(p, n));
    OpeningRuns(p, w, n, 2 * n, 0);
    LookCanceled(p, Run(p, w, Opening(p, n, 0)), w.runners[RUNNER], n, 2 * n);
    var last := Opening(p, n, 0) + [Look(0)];
    actions := PlainRounds(p, n) + last;
    RunSplits(p, Lonely(m), PlainRounds(p, n), last);
    RunSplits(p, w, Opening(p, n, 0), [Look(0)]);
    RunLast(p, Run(p, w, Opening(p, n, 0)), Look(0));
    OpeningIsOrdered(p, n, 0);
    WithinOne(0, Look(0), 0);
    WithinAppend(0, Opening(p, n, 0), 0, [Look(0)], 0);
    WithinAppend(0, PlainRounds(p, n), 0, last, 0);
  }
}
