/** What holds of every run of the system, whatever is lost, refused or crashes on the way. */
module ProtocolTheorems {
  import opened Wire
  import opened StateMachine
  import opened JobRows
  import opened Scheduler
  import opened PipelineShape
  import opened Manifests
  import opened RunnerJobs
  import opened Protocol
  import opened ProtocolSafety

  lemma ReachableIsSound(p: Setting, w0: World, actions: seq<Action>)
    requires Initial(p, w0)
    ensures Sound(p, Run(p, w0, actions))
  {
    InitialIsSound(p, w0);
    RunSoundThroughout(p, w0, actions);
  }

  // ---------------------------------------------------------------------------------------------
  // Bounds

  lemma {:induction false} ExecutionsWithinKeys(owner: seq<nat>, spawned: multiset<Key>, i: nat)
    requires forall n: nat :: spawned[Issued(n)] <= 1
    ensures Executions(owner, spawned, i) <= Owned(owner, i)
  {
    if owner != [] {
      ExecutionsWithinKeys(owner[..|owner| - 1], spawned, i);
    }
  }

  /** However often requests and replies are lost and runners crash, under each of the server's keys a
      script is started at most once. */
  lemma OneScriptPerKey(p: Setting, w0: World, actions: seq<Action>, n: nat)
    requires Initial(p, w0)
    ensures Run(p, w0, actions).spawned[Issued(n)] <= 1
  {
    hide RunSound, RunnersSound, RowsSound, PipelineSound;
    var w := Run(p, w0, actions);
    ReachableIsSound(p, w0, actions);
    assert Logged(p.idOf, w.rows, w.owner, w.runners, w.spawned, n);
  }

  /** The scripts ever started for one job run, under whichever keys, number at most one more than the
      infrastructure retries it has had, and so at most one more than those allowed. */
  lemma ExecutionBound(p: Setting, w0: World, actions: seq<Action>, i: nat)
    requires Initial(p, w0) && i < |w0.rows|
    ensures
      var w := Run(p, w0, actions);
      Executions(w.owner, w.spawned, i) <= 1 + w.rows[i].infraRetryCount <= 1 + p.cfg.budget.maxInfraRetries
  {
    hide RunSound, RunnersSound, PipelineSound;
    var w := Run(p, w0, actions);
    ReachableIsSound(p, w0, actions);
    assert RowSound(p.cfg.budget, w.owner, w.rows[i], w.writes[i], i);
    forall n: nat ensures w.spawned[Issued(n)] <= 1 {
      OneScriptPerKey(p, w0, actions, n);
    }
    ExecutionsWithinKeys(w.owner, w.spawned, i);
  }

  /** Over any run, however long, the scheduler executes a bounded number of status and retry-count
      statements on a job row: for every retry its dispatch, its way into cancellation, the cancel retries
      and the requeue, and for the last dispatch one more. The statement that stores a job's input payload,
      which every dispatch attempt repeats, is not among them. */
  lemma WritesAreBounded(p: Setting, w0: World, actions: seq<Action>, i: nat)
    requires Initial(p, w0) && i < |w0.rows|
    ensures Run(p, w0, actions).writes[i] <= (p.cfg.budget.maxInfraRetries + 1) * (3 + p.cfg.budget.maxCancelRetries) + 1
  {
    var w := Run(p, w0, actions);
    ReachableIsSound(p, w0, actions);
    assert RowSound(p.cfg.budget, w.owner, w.rows[i], w.writes[i], i);
    WritesSpendPotential(p.cfg.budget, w.rows[i], [], 0);
  }

  // ---------------------------------------------------------------------------------------------
  // Order and coherence

  /** The server stops in the middle of canceling the jobs that wait behind one in flight. */
  predicate TearsChain(w: World, a: Action) {
    a.CancelPipeline? && Tears(w.rows, CancelViewOf(a, CancelCalls(w.rows, w.runners, 0, a).1))
  }

  /** No action of the run tears the chain. */
  predicate NeverTorn(p: Setting, w: World, actions: seq<Action>)
    requires |w.rows| == |w.writes|
    decreases |actions|
  {
    actions == [] || (!TearsChain(w, actions[0]) && NeverTorn(p, Step(p, w, actions[0]), actions[1..]))
  }

  lemma DispatchKeepsShape(p: Setting, w: World, a: Action)
    requires |w.writes| == |w.rows| && RowsSound(p, w) && Shaped(w.rows) && a.Dispatch? && a.i < |w.rows|
    ensures Shaped(DispatchStep(p, w, a).rows)
  {
    hide RunSound, Shaped, AfterCreate, ReplySeen, DispatchEffect;
    var v := DispatchViewOf(p, w, a);
    var ws := DispatchEffect(p.cfg.budget, w.rows, a.i, v).writes;
    assert RowSound(p.cfg.budget, w.owner, w.rows[a.i], w.writes[a.i], a.i);
    DispatchIsPermitted(p.cfg.budget, w.rows, a.i, v);
    assert DispatchStep(p, w, a).rows == w.rows[a.i := ApplyAll(w.rows[a.i], ws, a.now)] by { OnlyRunnersChange(p, w, a); }
    if ws == [] {
      assert w.rows[a.i := w.rows[a.i]] == w.rows;
    } else {
      FrontWriteKeepsShape(w.rows, a.i, ApplyAll(w.rows[a.i], ws, a.now));
    }
  }

  lemma PollKeepsShape(p: Setting, w: World, a: Action)
    requires |w.writes| == |w.rows| && Shaped(w.rows) && a.Poll? && a.i < |w.rows|
    ensures Shaped(PollStep(p, w, a).rows)
  {
    hide Shaped, Stuck, ReportEffect, StatusReport;
    var ws := PollEffect(p.cfg, w.rows[a.i], PollViewOf(p, w, a)).writes;
    assert PollStep(p, w, a).rows == w.rows[a.i := ApplyAll(w.rows[a.i], ws, a.now)];
    if ws == [] {
      assert w.rows[a.i := w.rows[a.i]] == w.rows;
    } else {
      FrontWriteKeepsShape(w.rows, a.i, ApplyAll(w.rows[a.i], ws, a.now));
    }
  }

  /** A step keeps the shape of the chain exactly when it does not tear it. */
  lemma StepKeepsShapeExactlyWhen(p: Setting, w: World, a: Action)
    requires Sound(p, w) && Shaped(w.rows)
    ensures Shaped(Step(p, w, a).rows) <==> !TearsChain(w, a)
  {
    hide RowsSound, RunnersSound, LogSound, Shaped, PipelineSound, CancelCalls, CancelFrom, Tears;
    match a
    case Dispatch(i, _, _, _, _, _, _, _, _, _) => if i < |w.rows| { DispatchKeepsShape(p, w, a); }
    case Poll(i, _, _, _, _, _, _, _, _) => if i < |w.rows| { PollKeepsShape(p, w, a); }
    case CancelPipeline(_, _, _, _, _, _) =>
      CancelKeepsShapeExactlyWhen(w.rows, CancelViewOf(a, CancelCalls(w.rows, w.runners, 0, a).1));
    case RecoverPipelines(now) =>
    case AtRunner(runnerId, _) =>
  }

  lemma {:induction false} UntornRunsKeepShape(p: Setting, w: World, actions: seq<Action>)
    requires Sound(p, w) && Shaped(w.rows) && NeverTorn(p, w, actions)
    ensures Shaped(Run(p, w, actions).rows)
    decreases |actions|
  {
    hide Shaped, Step, TearsChain, RowsSound, RunnersSound, LogSound, PipelineSound;
    if actions != [] {
      StepKeepsShapeExactlyWhen(p, w, actions[0]);
      StepSound(p, w, actions[0]);
      UntornRunsKeepShape(p, Step(p, w, actions[0]), actions[1..]);
    }
  }

  /** Unless the server stops halfway through canceling the jobs behind one in flight, at every moment at
      most one job of the pipeline is in flight; the jobs before it have finished and none after it has
      started, and the chain as a whole reads finished, then at most one unfinished, then all waiting or
      all canceled. */
  lemma JobsRunInOrder(p: Setting, w0: World, actions: seq<Action>)
    requires Initial(p, w0) && NeverTorn(p, w0, actions)
    ensures
      var w := Run(p, w0, actions);
      && Shaped(w.rows)
      && (forall i :: 0 <= i < |w.rows| && w.rows[i].status.InFlight() ==>
            && (forall j :: 0 <= j < i ==> w.rows[j].status.IsTerminal())
            && (forall j :: i < j < |w.rows| ==>
                  w.rows[j].status == JobStatus.Pending || w.rows[j].status == JobStatus.Canceled))
  {
    hide Sound, NeverTorn;
    var w := Run(p, w0, actions);
    InitialIsSound(p, w0);
    assert ShapedAt(w0.rows, 0);
    UntornRunsKeepShape(p, w0, actions);
    forall i | 0 <= i < |w.rows| && w.rows[i].status.InFlight()
      ensures forall j :: 0 <= j < i ==> w.rows[j].status.IsTerminal()
      ensures forall j :: i < j < |w.rows| ==> w.rows[j].status == JobStatus.Pending || w.rows[j].status == JobStatus.Canceled
    {
      InFlightIsAlone(w.rows, i);
    }
  }

  /** Every row's fields agree with its status, the retry counters stay within budget and are dated,
      only an exhausted budget fails a canceled job as stuck, and a row in
      cancellation has the time the watchdog needs, so the watchdog fires once that is long enough ago. */
  lemma RowsAreCoherent(p: Setting, w0: World, actions: seq<Action>, i: nat, now: Time)
    requires Initial(p, w0) && i < |w0.rows|
    ensures
      var row := Run(p, w0, actions).rows[i];
      && (row.finishedAt.Some? <==> row.status.IsTerminal())
      && (row.status == JobStatus.Pending || row.status == JobStatus.Running ==> NoCancelFields(row))
      && row.cancelRetryCount <= p.cfg.budget.maxCancelRetries
      && row.infraRetryCount <= p.cfg.budget.maxInfraRetries
      && (row.cancelRetryCount == 0 <==> row.lastCancelRetryAt == None)
      && (row.infraRetryCount == 0 <==> row.lastInfraRetryAt == None)
      && (row.cancelReason == Some(StuckRetryExhausted) ==>
            && row.status == JobStatus.Failed && row.cancelRetryCount == p.cfg.budget.maxCancelRetries
            && row.terminalReason == Some(TerminalReason.Canceled) && row.failureCategory == Some(FailureCategory.Infra))
      && (row.status == JobStatus.CancelRequested || row.status == JobStatus.Canceling ==>
            && CancelClock(row).Some?
            && (Stuck(p.cfg, row, now) <==> p.cfg.cancelStuckSeconds <= now - CancelClock(row).value))
  {
    var w := Run(p, w0, actions);
    ReachableIsSound(p, w0, actions);
    assert RowSound(p.cfg.budget, w.owner, w.rows[i], w.writes[i], i);
  }

  /** On every runner a global-exclusive run is the only one in memory, and a job-exclusive run is the
      only one under its name. */
  lemma RunnersExclude(p: Setting, w0: World, actions: seq<Action>, id: string, j: RunId)
    requires Initial(p, w0)
    requires id in Run(p, w0, actions).runners && j in Run(p, w0, actions).runners[id].running
    ensures
      var running := Run(p, w0, actions).runners[id].running;
      && (running[j].concurrency == GlobalExclusive ==> running.Keys == {j})
      && (running[j].concurrency == JobExclusive ==>
            forall k :: k in running && running[k].name == running[j].name ==> k == j)
  {
    hide RecordSound, EntrySound;
    ReachableIsSound(p, w0, actions);
    var running := Run(p, w0, actions).runners[id].running;
    RunnerIsSound(p, Run(p, w0, actions), id);
    if running[j].concurrency == GlobalExclusive {
      forall k | k in running ensures k == j {
      }
    }
  }

  // ---------------------------------------------------------------------------------------------
  // Direction

  /** Between two moments of a run: a finished row is untouched, and any other has moved forward
      under the same key and run unless it was requeued in between. */
  predicate RowForward(a: JobRow, b: JobRow) {
    && a.infraRetryCount <= b.infraRetryCount
    && (a.infraRetryCount == b.infraRetryCount ==>
          && Stage(a.status) <= Stage(b.status) && a.dispatchKey == b.dispatchKey
          && (a.runId.Some? ==> b.runId == a.runId))
    && (a.status.IsTerminal() ==> b == a)
  }

  ghost predicate WorldForward(w: World, w': World) {
    && |w'.rows| == |w.rows|
    && (forall i :: 0 <= i < |w.rows| ==> RowForward(w.rows[i], w'.rows[i]))
    && (forall id :: id in w.runners ==> id in w'.runners && DiskAdvances(w.runners[id].disk, w'.runners[id].disk))
  }

  lemma {:induction false} PermittedWritesGoForward(b: Budget, row: JobRow, ws: seq<Write>, now: Time)
    requires Coherent(b, row) && AllPermitted(b, row, ws, now)
    ensures RowForward(row, ApplyAll(row, ws, now))
    decreases |ws|
  {
    if ws != [] {
      WriteStep(b, row, ws[0], now);
      StageAdvancesExceptOnRequeue(b, row, ws[0], now);
      PermittedWritesGoForward(b, Apply(row, ws[0], now), ws[1..], now);
    }
  }

  lemma ForwardTrans(a: World, b: World, c: World)
    requires WorldForward(a, b) && WorldForward(b, c)
    ensures WorldForward(a, c)
  {
    forall i | 0 <= i < |a.rows| ensures RowForward(a.rows[i], c.rows[i]) {
      assert RowForward(a.rows[i], b.rows[i]) && RowForward(b.rows[i], c.rows[i]);
    }
    forall id | id in a.runners ensures id in c.runners && DiskAdvances(a.runners[id].disk, c.runners[id].disk) {
      DiskAdvancesTrans(a.runners[id].disk, b.runners[id].disk, c.runners[id].disk);
    }
  }

  lemma DiskAdvancesTrans(d: Disk, d': Disk, d'': Disk)
    requires DiskAdvances(d, d') && DiskAdvances(d', d'')
    ensures DiskAdvances(d, d'')
  {
    forall j | j in d && d[j].Recorded? ensures j in d'' && d''[j].Recorded? && RecordAdvances(d[j].record, d''[j].record) {
      assert RecordAdvances(d[j].record, d'[j].record) && RecordAdvances(d'[j].record, d''[j].record);
    }
  }

  lemma OneRunnerForward(w: World, id: string, r': RunnerState)
    requires id in w.runners && DiskAdvances(w.runners[id].disk, r'.disk)
    ensures WorldForward(w, w.(runners := w.runners[id := r']))
  {
    hide DiskAdvances;
    forall o | o in w.runners && o != id ensures DiskAdvances(w.runners[o].disk, w.runners[o].disk) {
      DiskAdvancesRefl(w.runners[o].disk);
    }
  }

  lemma DiskAdvancesRefl(d: Disk)
    ensures DiskAdvances(d, d)
  {
  }

  lemma RunnersUnchangedForward(w: World, w': World)
    requires |w'.rows| == |w.rows| && w'.runners == w.runners
    requires forall i :: 0 <= i < |w.rows| ==> RowForward(w.rows[i], w'.rows[i])
    ensures WorldForward(w, w')
  {
    forall o | o in w.runners ensures DiskAdvances(w.runners[o].disk, w.runners[o].disk) {
      DiskAdvancesRefl(w.runners[o].disk);
    }
  }

  lemma CreateForward(p: Setting, w: World, a: Action)
    requires Sound(p, w) && a.Dispatch? && a.i < |w.rows|
    ensures WorldForward(w, AfterCreate(p, w, a))
  {
    hide RunSound, RowSound, RecordSound, EntrySound, Exclusive, DiskAdvances, WorldForward;
    if CreateArrives(w, a) {
      var row := w.rows[a.i];
      RunnerIsSound(p, w, row.runnerId);
      CreateKeepsSound(p.idOf, w.runners[row.runnerId], RequestOf(row, a.requestHash, a.inputCheck), a.setup, a.now);
      OneRunnerForward(w, row.runnerId, CreateAtRunner(p, w, a).0);
    } else {
      RunnersUnchangedForward(w, w);
    }
  }

  lemma CancelCallForward(p: Setting, w: World, id: string, j: RunId, stored: bool)
    requires Sound(p, w) && id in w.runners
    ensures WorldForward(w, w.(runners := w.runners[id := Cancel(w.runners[id], j, stored).0]))
  {
    hide RunSound, RowSound, RecordSound, EntrySound, Exclusive, DiskAdvances, WorldForward;
    RunnerIsSound(p, w, id);
    CancelKeepsSound(p.idOf, w.runners[id], j, stored);
    OneRunnerForward(w, id, Cancel(w.runners[id], j, stored).0);
  }

  lemma {:induction false} CancelCallsForward(p: Setting, w: World, i: nat, a: Action)
    requires Sound(p, w) && a.CancelPipeline? && i <= |w.rows|
    ensures WorldForward(w, w.(runners := CancelCalls(w.rows, w.runners, i, a).0))
    decreases |w.rows| - i
  {
    hide Sound, WorldForward;
    if i == |w.rows| || a.reach <= i {
      RunnersUnchangedForward(w, w);
    } else if !CancelsRemotely(w.rows[i], i, CancelViewOf(a, {})) {
      CancelCallsForward(p, w, i + 1, a);
    } else if w.rows[i].runnerId in w.runners && i in a.arriving {
      var r' := Cancel(w.runners[w.rows[i].runnerId], w.rows[i].runId.value, a.stored).0;
      var mid := w.(runners := w.runners[w.rows[i].runnerId := r']);
      CancelCallForward(p, w, w.rows[i].runnerId, w.rows[i].runId.value, a.stored);
      CancelCallSound(p, w, w.rows[i].runnerId, w.rows[i].runId.value, a.stored);
      CancelCallsForward(p, mid, i + 1, a);
      ForwardTrans(w, mid, mid.(runners := CancelCalls(mid.rows, mid.runners, i + 1, a).0));
    } else {
      RunnersUnchangedForward(w, w);
    }
  }

  /** The server's part of a step on one row. */
  lemma ServerWritesForward(p: Setting, w: World, i: nat, e: Effect, now: Time)
    requires |w.writes| == |w.rows| && i < |w.rows|
    requires Coherent(p.cfg.budget, w.rows[i]) && AllPermitted(p.cfg.budget, w.rows[i], e.writes, now)
    ensures WorldForward(w, ServerWrites(w, i, e, now))
  {
    PermittedWritesGoForward(p.cfg.budget, w.rows[i], e.writes, now);
    RunnersUnchangedForward(w, ServerWrites(w, i, e, now));
  }

  lemma CancelRowsForward(p: Setting, w: World, v: CancelView)
    requires Sound(p, w)
    ensures
      var rows' := CancelFrom(w.rows, 0, v, false).rows;
      forall i :: 0 <= i < |w.rows| ==> RowForward(w.rows[i], rows'[i])
  {
    hide RunSound, RunnersSound, LogSound, CancelFrom, Potential, Apply, RowForward;
    CancelWritesOnce(w.rows, 0, v, false);
    forall i | 0 <= i < |w.rows| ensures RowForward(w.rows[i], CancelFrom(w.rows, 0, v, false).rows[i]) {
      assert RowSound(p.cfg.budget, w.owner, w.rows[i], w.writes[i], i);
      CancelWriteForward(w.rows[i], v.now);
    }
  }

  lemma CancelWriteForward(row: JobRow, now: Time)
    ensures RowForward(row, row)
    ensures row.status == JobStatus.Pending || row.status == JobStatus.Running ==>
              RowForward(row, Apply(row, CancelWrite(row), now))
  {
  }

  lemma DispatchForward(p: Setting, w: World, a: Action)
    requires Sound(p, w) && a.Dispatch? && a.i < |w.rows|
    ensures WorldForward(w, DispatchStep(p, w, a))
  {
    hide RunSound, RunnersSound, LogSound, WorldForward, PipelineSound;
    var v, mid := DispatchViewOf(p, w, a), AfterCreate(p, w, a);
    assert RowSound(p.cfg.budget, w.owner, w.rows[a.i], w.writes[a.i], a.i);
    CreateForward(p, w, a);
    DispatchIsPermitted(p.cfg.budget, w.rows, a.i, v);
    ServerWritesForward(p, mid, a.i, UpTo(DispatchEffect(p.cfg.budget, w.rows, a.i, v), a.finalized), a.now);
    ForwardTrans(w, mid, DispatchStep(p, w, a));
  }

  lemma {:induction false} ActsForward(p: Setting, w: World, id: string, acts: seq<RunnerAct>)
    requires Sound(p, w)
    ensures WorldForward(w, AfterActs(p, w, id, acts))
    decreases |acts|
  {
    hide Sound, WorldForward, RunnerWorldStep;
    if acts != [] && id in w.runners {
      var a := AtRunner(id, acts[0]);
      RunnerForward(p, w, a);
      RunnerWorldStepSound(p, w, a);
      ActsForward(p, RunnerWorldStep(p, w, a), id, acts[1..]);
      ForwardTrans(w, RunnerWorldStep(p, w, a), AfterActs(p, w, id, acts));
    } else {
      RunnersUnchangedForward(w, w);
    }
  }

  lemma PollCallsForward(p: Setting, w: World, a: Action)
    requires Sound(p, w) && a.Poll? && a.i < |w.rows|
    ensures WorldForward(w, AfterPollCalls(p, w, a))
  {
    hide Sound, WorldForward;
    var row, mid := w.rows[a.i], AfterCancelRetry(p, w, a);
    if CancelArrives(p, w, a) {
      CancelCallForward(p, w, row.runnerId, row.runId.value, a.stored);
    } else {
      RunnersUnchangedForward(w, w);
    }
    AfterCancelRetrySound(p, w, a);
    ActsForward(p, mid, row.runnerId, a.between);
    ForwardTrans(w, mid, AfterPollCalls(p, w, a));
  }

  lemma PollForward(p: Setting, w: World, a: Action)
    requires Sound(p, w) && a.Poll? && a.i < |w.rows|
    ensures WorldForward(w, PollStep(p, w, a))
  {
    hide RunSound, RunnersSound, LogSound, WorldForward, PipelineSound;
    var v, mid := PollViewOf(p, w, a), AfterPollCalls(p, w, a);
    assert RowSound(p.cfg.budget, w.owner, w.rows[a.i], w.writes[a.i], a.i);
    PollCallsForward(p, w, a);
    AfterPollCallsSound(p, w, a);
    assert RunSound(mid.runners, mid.rows[a.i]);
    CancelingIsReportedSo(p, mid, a.i);
    PollIsPermitted(p.cfg, w.rows[a.i], v);
    ServerWritesForward(p, mid, a.i, UpTo(PollEffect(p.cfg, w.rows[a.i], v), a.finalized), a.now);
    ForwardTrans(w, mid, PollStep(p, w, a));
  }

  lemma CancelForward(p: Setting, w: World, a: Action)
    requires Sound(p, w) && a.CancelPipeline?
    ensures WorldForward(w, CancelStep(w, a))
  {
    hide RowsSound, RunnersSound, LogSound, PipelineSound, WorldForward;
    var (runners', accepted) := CancelCalls(w.rows, w.runners, 0, a);
    CancelCallsForward(p, w, 0, a);
    CancelRowsForward(p, w, CancelViewOf(a, accepted));
    RunnersUnchangedForward(w.(runners := runners'), CancelStep(w, a));
    ForwardTrans(w, w.(runners := runners'), CancelStep(w, a));
  }

  lemma RunnerForward(p: Setting, w: World, a: Action)
    requires Sound(p, w) && a.AtRunner? && a.runnerId in w.runners
    ensures WorldForward(w, RunnerWorldStep(p, w, a))
  {
    hide RunSound, RowSound, RecordSound, EntrySound, Exclusive, DiskAdvances, WorldForward;
    RunnerIsSound(p, w, a.runnerId);
    RunnerStepKeepsSound(p.idOf, w.runners[a.runnerId], a.act);
    var mid := w.(runners := w.runners[a.runnerId := RunnerStep(p.idOf, w.runners[a.runnerId], a.act)]);
    OneRunnerForward(w, a.runnerId, RunnerStep(p.idOf, w.runners[a.runnerId], a.act));
    RunnersUnchangedForward(mid, RunnerWorldStep(p, w, a));
    ForwardTrans(w, mid, RunnerWorldStep(p, w, a));
  }

  /** No step takes a record or a row backwards. */
  lemma StepForward(p: Setting, w: World, a: Action)
    requires Sound(p, w)
    ensures WorldForward(w, Step(p, w, a))
  {
    hide RowsSound, RunnersSound, LogSound, WorldForward, PipelineSound;
    RunnersUnchangedForward(w, w);
    match a
    case Dispatch(i, _, _, _, _, _, _, _, _, _) => if i < |w.rows| { DispatchForward(p, w, a); }
    case Poll(i, _, _, _, _, _, _, _, _) => if i < |w.rows| { PollForward(p, w, a); }
    case CancelPipeline(_, _, _, _, _, _) => CancelForward(p, w, a);
    case RecoverPipelines(now) => RunnersUnchangedForward(w, Step(p, w, a));
    case AtRunner(runnerId, _) => if runnerId in w.runners { RunnerForward(p, w, a); }
  }

  /** Between any two moments of any run, records on every runner only advance and finished ones stay
      as they are, finished rows stay as they are, and a row steps back only by being requeued under
      another key. */
  lemma {:induction false} RunsGoForward(p: Setting, w: World, actions: seq<Action>)
    requires Sound(p, w)
    ensures WorldForward(w, Run(p, w, actions))
    decreases |actions|
  {
    hide RowsSound, RunnersSound, LogSound, WorldForward, PipelineSound;
    if actions == [] {
      RunnersUnchangedForward(w, w);
    } else {
      var next := Step(p, w, actions[0]);
      StepForward(p, w, actions[0]);
      StepSound(p, w, actions[0]);
      RunsGoForward(p, next, actions[1..]);
      ForwardTrans(w, next, Run(p, w, actions));
    }
  }

  /** In particular, between any two moments of a run of the system a row moves forward, or is requeued
      under another key, and stays as it is once finished. */
  lemma RowsGoForward(p: Setting, w0: World, actions: seq<Action>, later: seq<Action>, i: nat)
    requires Initial(p, w0) && i < |w0.rows|
    ensures RowForward(Run(p, w0, actions).rows[i], Run(p, w0, actions + later).rows[i])
  {
    hide Sound, RowForward, Step;
    ReachableIsSound(p, w0, actions);
    RunsGoForward(p, Run(p, w0, actions), later);
    RunSplits(p, w0, actions, later);
  }

  /** And a record, once there, is never lost, never rewound, and stays as it is once finished. */
  lemma RecordsGoForward(p: Setting, w0: World, actions: seq<Action>, later: seq<Action>, id: string, j: RunId)
    requires Initial(p, w0) && HoldsRecord(Run(p, w0, actions).runners, id, j)
    ensures
      && HoldsRecord(Run(p, w0, actions + later).runners, id, j)
      && RecordAdvances(Run(p, w0, actions).runners[id].disk[j].record, Run(p, w0, actions + later).runners[id].disk[j].record)
  {
    hide Sound, RowForward, RecordAdvances, Step;
    ReachableIsSound(p, w0, actions);
    RunsGoForward(p, Run(p, w0, actions), later);
    RunSplits(p, w0, actions, later);
  }

  // ---------------------------------------------------------------------------------------------
  // Verdicts

  /** The record behind a row that names a run. */
  ghost function RecordBehind(w: World, i: nat): RunRecord
    requires i < |w.rows| && w.rows[i].runId.Some? && HoldsRecord(w.runners, w.rows[i].runnerId, w.rows[i].runId.value)
  {
    w.runners[w.rows[i].runnerId].disk[w.rows[i].runId.value].record
  }

  /** A row that names a run names the one created for the key it is currently dispatched under. */
  lemma RunIsForCurrentKey(p: Setting, w0: World, actions: seq<Action>, i: nat)
    requires Initial(p, w0) && i < |w0.rows| && Run(p, w0, actions).rows[i].runId.Some?
    ensures
      var w := Run(p, w0, actions);
      && HoldsRecord(w.runners, w.rows[i].runnerId, w.rows[i].runId.value)
      && RecordBehind(w, i).key == w.rows[i].dispatchKey && RecordBehind(w, i).name == w.rows[i].jobName
      && w.rows[i].runId.value == p.idOf(w.rows[i].dispatchKey)
  {
    hide RowSound, LogSound, PipelineSound, EntrySound, Exclusive;
    var w := Run(p, w0, actions);
    ReachableIsSound(p, w0, actions);
    assert RunSound(w.runners, w.rows[i]);
    RunnerIsSound(p, w, w.rows[i].runnerId);
    assert DirSound(p.idOf, w.rows[i].runId.value, w.runners[w.rows[i].runnerId].disk[w.rows[i].runId.value]);
  }

  /** What must hold for action `a` to requeue row `i` of `w`, `after` being the world after it. If the row
      had a run, its record has ended, neither by the script's own exit code nor by a timeout, and either
      is classed as an infrastructure failure or has an artifact to transfer; if it had none, preparing its
      inputs failed. */
  ghost predicate RequeueHasCause(w: World, after: World, a: Action, i: nat)
    requires i < |w.rows|
  {
    var row := w.rows[i];
    if row.runId.Some? then
      && HoldsRecord(after.runners, row.runnerId, row.runId.value)
      && var m := after.runners[row.runnerId].disk[row.runId.value].record;
         && m.key == row.dispatchKey && m.status.IsTerminal()
         && m.reason != Some(TerminalReason.ExitCode) && m.reason != Some(TerminalReason.Timeout)
         && (m.category == Some(FailureCategory.Infra) || exists name :: name in m.outputs && m.outputs[name].ArtifactOutput?)
    else
      a.Dispatch? && a.i == i && a.inputs == TransferFailed
  }

  lemma RequeueOnlyWithCause(p: Setting, w: World, a: Action, i: nat)
    requires Sound(p, w) && i < |w.rows|
    requires Step(p, w, a).rows[i].infraRetryCount != w.rows[i].infraRetryCount
    ensures RequeueHasCause(w, Step(p, w, a), a, i)
  {
    hide RunnersSound, LogSound, PipelineSound, RecordSound;
    assert RowSound(p.cfg.budget, w.owner, w.rows[i], w.writes[i], i) && RunSound(w.runners, w.rows[i]);
    match a
    case Dispatch(k, _, _, _, _, _, _, _, _, _) =>
      assert k == i;
      DispatchRequeue(p, w, a);
    case Poll(k, _, _, _, _, _, _, _, _) =>
      assert k == i;
      PollRequeue(p, w, a);
    case CancelPipeline(_, _, _, _, _, _) =>
      CancelNeverRequeues(p, w, a, i);
      assert false;
    case RecoverPipelines(_) =>
    case AtRunner(_, _) =>
  }

  /** The retry budget is spent only on infrastructure: a script's own failures and timeouts are final. */
  lemma ScriptFailuresAreFinal(p: Setting, w0: World, actions: seq<Action>, a: Action, i: nat)
    requires Initial(p, w0) && i < |w0.rows|
    requires Run(p, w0, actions + [a]).rows[i].infraRetryCount != Run(p, w0, actions).rows[i].infraRetryCount
    ensures RequeueHasCause(Run(p, w0, actions), Run(p, w0, actions + [a]), a, i)
  {
    hide Step, RequeueHasCause, Sound;
    ReachableIsSound(p, w0, actions);
    RunSplits(p, w0, actions, [a]);
    assert Run(p, Run(p, w0, actions), [a]) == Step(p, Run(p, w0, actions), a);
    RequeueOnlyWithCause(p, Run(p, w0, actions), a, i);
  }

  lemma DispatchRequeue(p: Setting, w: World, a: Action)
    requires |w.rows| == |w.writes| && a.Dispatch? && a.i < |w.rows| && Coherent(p.cfg.budget, w.rows[a.i])
    requires DispatchStep(p, w, a).rows[a.i].infraRetryCount != w.rows[a.i].infraRetryCount
    ensures w.rows[a.i].runId == None && a.inputs == TransferFailed
  {
    var v := DispatchViewOf(p, w, a);
    DispatchFollows(p.cfg.budget, w.rows, a.i, v);
  }

  lemma PollRequeue(p: Setting, w: World, a: Action)
    requires Sound(p, w) && a.Poll? && a.i < |w.rows|
    requires PollStep(p, w, a).rows[a.i].infraRetryCount != w.rows[a.i].infraRetryCount
    ensures w.rows[a.i].runId.Some? && RequeueHasCause(w, PollStep(p, w, a), a, a.i)
  {
    hide LogSound, PipelineSound, EntrySound, Exclusive;
    var row := w.rows[a.i];
    var v, mid := PollViewOf(p, w, a), AfterPollCalls(p, w, a);
    AfterPollCallsSound(p, w, a);
    assert RowSound(p.cfg.budget, w.owner, row, w.writes[a.i], a.i) && RunSound(mid.runners, mid.rows[a.i]);
    PollFollows(p.cfg, row, v);
    RequeueOnlyForInfrastructure(p.cfg, row, v);
    RunnerIsSound(p, mid, row.runnerId);
    assert DirSound(p.idOf, row.runId.value, mid.runners[row.runnerId].disk[row.runId.value]);
    assert PollStep(p, w, a).runners == mid.runners;
  }

  lemma CancelNeverRequeues(p: Setting, w: World, a: Action, i: nat)
    requires Sound(p, w) && a.CancelPipeline? && i < |w.rows|
    ensures CancelStep(w, a).rows[i].infraRetryCount == w.rows[i].infraRetryCount
  {
    hide RunnersSound, LogSound, PipelineSound, CancelFrom, CancelCalls;
    CancelWritesOnce(w.rows, 0, CancelViewOf(a, CancelCalls(w.rows, w.runners, 0, a).1), false);
  }

  /** A pipeline marked successful is not empty, each of its jobs is a success, and behind each stands
      a run under the job's current key whose record says success and whose script was started exactly
      once. A pipeline marked failed has a required job that failed. */
  lemma SuccessIsEarned(p: Setting, w0: World, actions: seq<Action>)
    requires Initial(p, w0)
    ensures
      var w := Run(p, w0, actions);
      && (w.pipeline.status.Success? ==>
            && w.rows != []
            && forall i :: 0 <= i < |w.rows| ==>
                 && w.rows[i].status == JobStatus.Success && w.rows[i].runId.Some?
                 && HoldsRecord(w.runners, w.rows[i].runnerId, w.rows[i].runId.value)
                 && RecordBehind(w, i).key == w.rows[i].dispatchKey
                 && RecordBehind(w, i).status == RunStatus.Success
                 && w.spawned[w.rows[i].dispatchKey] == 1)
      && (w.pipeline.status.Failed? ==>
            exists i :: 0 <= i < |w.rows| && RequiredFailure(w.rows[i].Verdict()))
  {
    hide RunnersSound, LogSound;
    var w := Run(p, w0, actions);
    ReachableIsSound(p, w0, actions);
    if w.pipeline.status.Success? {
      forall i | 0 <= i < |w.rows|
        ensures && w.rows[i].runId.Some? && HoldsRecord(w.runners, w.rows[i].runnerId, w.rows[i].runId.value)
                && RecordBehind(w, i).key == w.rows[i].dispatchKey && RecordBehind(w, i).status == RunStatus.Success
                && w.spawned[w.rows[i].dispatchKey] == 1
      {
        SuccessfulJobRan(p, w, i);
      }
    }
  }

  lemma SuccessfulJobRan(p: Setting, w: World, i: nat)
    requires Sound(p, w) && i < |w.rows| && w.rows[i].status == JobStatus.Success
    ensures w.rows[i].runId.Some? && HoldsRecord(w.runners, w.rows[i].runnerId, w.rows[i].runId.value)
    ensures RecordBehind(w, i).key == w.rows[i].dispatchKey && RecordBehind(w, i).status == RunStatus.Success
    ensures w.spawned[w.rows[i].dispatchKey] == 1
  {
    hide EntrySound, Exclusive, PipelineSound;
    var row := w.rows[i];
    assert RowSound(p.cfg.budget, w.owner, row, w.writes[i], i) && RunSound(w.runners, row);
    var dir := w.runners[row.runnerId].disk[row.runId.value];
    RunnerIsSound(p, w, row.runnerId);
    assert DirSound(p.idOf, row.runId.value, dir);
    assert DirSpawns(w.spawned, dir);
    assert Logged(p.idOf, w.rows, w.owner, w.runners, w.spawned, row.dispatchKey.serial);
  }

  /** Every record on every runner: a failure laid to the job is an exit code, with no outputs, and a
      job that ends so or times out leaves nothing that could fail to transfer. */
  lemma RecordedVerdicts(p: Setting, w0: World, actions: seq<Action>, id: string, j: RunId)
    requires Initial(p, w0)
    requires HoldsRecord(Run(p, w0, actions).runners, id, j)
    ensures
      var m := Run(p, w0, actions).runners[id].disk[j].record;
      && (m.category == Some(FailureCategory.Job) <==> m.reason == Some(TerminalReason.ExitCode))
      && (m.reason == Some(TerminalReason.ExitCode) ==> m.status == RunStatus.Failed && m.outputs == map[])
      && (m.reason == Some(TerminalReason.Timeout) ==> m.status == RunStatus.TimedOut && m.outputs == map[])
      && (m.finishedAt.Some? <==> m.status.IsTerminal())
      && m.status != RunStatus.Rejected
  {
    hide RowsSound, LogSound, PipelineSound, EntrySound, Exclusive;
    ReachableIsSound(p, w0, actions);
    var w := Run(p, w0, actions);
    RunnerIsSound(p, w, id);
    assert DirSound(p.idOf, j, w.runners[id].disk[j]);
  }
}
