/** What a server that stops halfway through canceling a pipeline can lead to: two of its jobs in flight
    at once, or not, according to how many jobs the stop leaves waiting. */
module TornChains {
  import opened Wire
  import opened StateMachine
  import opened JobRows
  import opened Scheduler
  import opened PipelineShape
  import opened Manifests
  import opened RunnerJobs
  import opened Protocol
  import opened ProtocolSafety
  import opened ProtocolTheorems
  import opened Chronology

  const JOB := "job"
  const FIRST := "first"
  const LAST := "last"

  function Offering(m: JobSchema): RunnerState {
    RunnerState(map[JOB := m], map[], map[], false)
  }

  /** Four jobs in a chain, the last on a runner of its own. */
  function FourJobs(m: JobSchema): World {
    World([NewRow(FIRST, JOB, false, Issued(0)), NewRow(FIRST, JOB, false, Issued(1)),
           NewRow(FIRST, JOB, false, Issued(2)), NewRow(LAST, JOB, false, Issued(3))],
          PipelineRow(PipelineStatus.Running, None, None, None, None),
          map[FIRST := Offering(m), LAST := Offering(m)], [0, 1, 2, 3], multiset{}, [0, 0, 0, 0])
  }

  function DispatchOf(i: nat, requestHash: string, now: Time): Action {
    Dispatch(i, Enabled, true, Prepared, requestHash, InputsAccepted, Complete, Answered(false), true, now)
  }

  /** The server cancels the first job at its runner and the second in its rows, and stops. */
  const CUT := CancelPipeline({0}, {0}, {0}, true, 2, 0)

  /** The runner would answer the job's create call with a run: it is idle, offers the job, and in the
      directory for the job's key has at most a run of this job under this key. */
  predicate Answers(p: Setting, r: RunnerState, row: JobRow, requestHash: string) {
    var id := p.idOf(row.dispatchKey);
    && row.jobName in r.manifests && !r.shuttingDown && r.running == map[]
    && (id in r.disk ==> ExistingRun(r.disk[id], id, RequestOf(row, requestHash, InputsAccepted)).Ok?)
  }

  /** The job at `i` waits, and its runner would answer. */
  predicate Dispatchable(p: Setting, w: World, i: nat, requestHash: string) {
    && i < |w.rows| == |w.writes| && w.rows[i].status == JobStatus.Pending
    && NextReadyJobStatus(Predecessors(w.rows, i)) == Some(JobStatus.Pending)
    && w.rows[i].runnerId in w.runners && Answers(p, w.runners[w.rows[i].runnerId], w.rows[i], requestHash)
  }

  lemma AnswersCreate(p: Setting, r: RunnerState, row: JobRow, requestHash: string, now: Time)
    requires Answers(p, r, row, requestHash)
    ensures
      var id := p.idOf(row.dispatchKey);
      var (r', reply) := Create(r, id, RequestOf(row, requestHash, InputsAccepted), Complete, now);
      && reply.Ok? && reply.value.runId == id
      && (id !in r.disk ==> Cancel(r', id, true).1.Ok?)
  {
    assert ConcurrencyAllows(r.manifests[row.jobName], map[]);
  }

  lemma DispatchStarts(p: Setting, w: World, i: nat, requestHash: string, now: Time)
    requires Dispatchable(p, w, i, requestHash)
    ensures
      var w', id := Step(p, w, DispatchOf(i, requestHash, now)), p.idOf(w.rows[i].dispatchKey);
      && |w'.rows| == |w.rows| && w'.rows[i].status == JobStatus.Running && w'.rows[i].runId == Some(id)
      && w'.rows[i].runnerId == w.rows[i].runnerId
      && (forall k :: 0 <= k < |w.rows| && k != i ==> w'.rows[k] == w.rows[k])
      && (forall o :: o in w.runners && o != w.rows[i].runnerId ==> o in w'.runners && w'.runners[o] == w.runners[o])
      && w.rows[i].runnerId in w'.runners
      && (id !in w.runners[w.rows[i].runnerId].disk ==> Cancel(w'.runners[w.rows[i].runnerId], id, true).1.Ok?)
  {
    hide NextReadyJobStatus, Answers, Create, Cancel, Finalized;
    var row, a := w.rows[i], DispatchOf(i, requestHash, now);
    AnswersCreate(p, w.runners[row.runnerId], row, requestHash, now);
    var v := DispatchViewOf(p, w, a);
    assert CreateArrives(w, a);
    assert v.reply.Created? && v.reply.runId == p.idOf(row.dispatchKey);
    ApplyOne(row, SetStarted(v.reply.runId, v.reply.startedAt), now);
  }

  /** The cut cancellation of a chain whose first job runs and whose others wait. */
  lemma CutCancels(w: World, id: RunId)
    requires |w.rows| == |w.writes| == 4
    requires w.rows[0].status == JobStatus.Running && w.rows[0].runId == Some(id) && w.rows[0].runnerId in w.runners
    requires Cancel(w.runners[w.rows[0].runnerId], id, true).1.Ok?
    requires forall k :: 1 <= k < 4 ==> w.rows[k].status == JobStatus.Pending
    ensures
      var w' := CancelStep(w, CUT);
      && |w'.rows| == 4
      && w'.rows[0] == Apply(w.rows[0], MarkCancelRequested(UserRequested), 0)
      && w'.rows[1] == Apply(w.rows[1], SetStatus(JobStatus.Canceled), 0)
      && w'.rows[2..] == w.rows[2..]
      && (forall o :: o in w.runners && o != w.rows[0].runnerId ==> o in w'.runners && w'.runners[o] == w.runners[o])
    ensures TearsChain(w, CUT)
  {
    hide Cancel, Apply, CancelFrom;
    var runners' := w.runners[w.rows[0].runnerId := Cancel(w.runners[w.rows[0].runnerId], id, true).0];
    assert CancelCalls(w.rows, runners', 2, CUT) == (runners', {});
    assert CancelCalls(w.rows, runners', 1, CUT) == (runners', {});
    assert {} + {0} == {0};
    assert CancelCalls(w.rows, w.runners, 0, CUT) == (runners', {0});
    assert ShapedAt(w.rows, 0);
    CancelClosedForm(w.rows, 0, CancelViewOf(CUT, {0}));
    assert TearsBehind(w.rows, 0, CancelViewOf(CUT, {0}));
  }

  lemma BlockedStep(p: Setting, w: World, i: nat, now: Time)
    requires i < |w.rows| == |w.writes| && w.rows[i].status == JobStatus.Pending
    requires NextReadyJobStatus(Predecessors(w.rows, i)) == Some(JobStatus.Blocked)
    ensures
      var w' := Step(p, w, DispatchOf(i, "", now));
      w'.rows == w.rows[i := Apply(w.rows[i], SetStatus(JobStatus.Blocked), now)] && w'.runners == w.runners
  {
    hide NextReadyJobStatus, Apply, Finalized;
    var v := DispatchViewOf(p, w, DispatchOf(i, "", now));
    assert DispatchEffect(p.cfg.budget, w.rows, i, v) == Effect([SetStatus(JobStatus.Blocked)], true);
    ApplyOne(w.rows[i], SetStatus(JobStatus.Blocked), now);
  }

  /** The last job waits on a runner that has not heard of it, and the one before it has the given status. */
  predicate LastWaits(w: World, m: JobSchema, third: JobStatus) {
    && |w.rows| == |w.writes| == 4
    && w.rows[3] == NewRow(LAST, JOB, false, Issued(3)) && w.rows[3].status == JobStatus.Pending
    && w.rows[2].status == third
    && LAST in w.runners && w.runners[LAST] == Offering(m)
  }

  lemma FirstStarts(p: Setting, m: JobSchema)
    requires ValidManifest(m) && m.name == JOB
    ensures
      var w, id := Step(p, FourJobs(m), DispatchOf(0, "", 0)), p.idOf(Issued(0));
      && LastWaits(w, m, JobStatus.Pending) && w.rows[1].status == JobStatus.Pending
      && w.rows[0].status == JobStatus.Running && w.rows[0].runId == Some(id) && w.rows[0].runnerId == FIRST
      && FIRST in w.runners && Cancel(w.runners[FIRST], id, true).1.Ok?
  {
    hide Step, NextReadyJobStatus, Cancel, ValidManifest;
    ReadyExactlyWhen(Predecessors(FourJobs(m).rows, 0));
    DispatchStarts(p, FourJobs(m), 0, "", 0);
  }

  lemma CutLeaves(p: Setting, m: JobSchema, w: World)
    requires LastWaits(w, m, JobStatus.Pending) && w.rows[1].status == JobStatus.Pending
    requires w.rows[0].status == JobStatus.Running && w.rows[0].runId.Some? && w.rows[0].runnerId == FIRST && FIRST in w.runners
    requires Cancel(w.runners[FIRST], w.rows[0].runId.value, true).1.Ok?
    ensures
      var w' := Step(p, w, CUT);
      && LastWaits(w', m, JobStatus.Pending)
      && w'.rows[0].status == JobStatus.CancelRequested && w'.rows[1].status == JobStatus.Canceled
    ensures TearsChain(w, CUT)
  {
    hide Cancel, NewRow, TearsChain, CancelStep;
    CutCancels(w, w.rows[0].runId.value);
    var w' := CancelStep(w, CUT);
    assert Step(p, w, CUT) == w' by { StepIsCancel(p, w); }
    assert forall k :: 2 <= k < 4 ==> w'.rows[k] == w'.rows[2..][k - 2] == w.rows[2..][k - 2] == w.rows[k];
  }

  lemma ThirdBlocks(p: Setting, m: JobSchema, w: World)
    requires LastWaits(w, m, JobStatus.Pending) && w.rows[1].status == JobStatus.Canceled
    ensures
      var w' := Step(p, w, DispatchOf(2, "", 0));
      LastWaits(w', m, JobStatus.Blocked) && w'.rows[0] == w.rows[0]
  {
    hide Step, NextReadyJobStatus, NewRow;
    CanceledBlocks(w.rows[1].Verdict());
    BlockedStep(p, w, 2, 0);
  }

  lemma LastStarts(p: Setting, m: JobSchema, w: World)
    requires LastWaits(w, m, JobStatus.Blocked) && m.name == JOB
    ensures
      var w' := Step(p, w, DispatchOf(3, "", 0));
      |w'.rows| == 4 && w'.rows[0] == w.rows[0] && w'.rows[3].status == JobStatus.Running
  {
    hide Step, NextReadyJobStatus;
    ReadyExactlyWhen(Predecessors(w.rows, 3));
    DispatchStarts(p, w, 3, "", 0);
  }

  /** The first job is dispatched; the user cancels; the server stops after the second row. Once back, it
      blocks the third job behind the canceled second, and dispatches the fourth behind the blocked third,
      while the first is still being canceled. */
  lemma TornChainOverlaps(p: Setting, m: JobSchema)
    requires ValidManifest(m) && m.name == JOB
    ensures Initial(p, FourJobs(m))
    ensures
      var w := Run(p, FourJobs(m), [DispatchOf(0, "", 0), CUT, DispatchOf(2, "", 0), DispatchOf(3, "", 0)]);
      w.rows[0].status == JobStatus.CancelRequested && w.rows[3].status == JobStatus.Running
    ensures Chronological([DispatchOf(0, "", 0), CUT, DispatchOf(2, "", 0), DispatchOf(3, "", 0)], 0)
    ensures TearsChain(Step(p, FourJobs(m), DispatchOf(0, "", 0)), CUT)
  {
    FourJobsAreInitial(p, m);
    hide Step, ValidManifest, TearsChain, Initial, LastWaits, Cancel;
    var w1 := Step(p, FourJobs(m), DispatchOf(0, "", 0));
    var w2 := Step(p, w1, CUT);
    var w3 := Step(p, w2, DispatchOf(2, "", 0));
    FirstStarts(p, m);
    assert |w1.rows| == 4 && |w2.rows| == 4;
    CutLeaves(p, m, w1);
    ThirdBlocks(p, m, w2);
    LastStarts(p, m, w3);
    FourSteps(p, FourJobs(m), DispatchOf(0, "", 0), CUT, DispatchOf(2, "", 0), DispatchOf(3, "", 0));
    FourOrdered(DispatchOf(0, "", 0), CUT, DispatchOf(2, "", 0), DispatchOf(3, "", 0));
  }

  lemma FourOrdered(a: Action, b: Action, c: Action, d: Action)
    requires a.Dispatch? && b.CancelPipeline? && c.Dispatch? && d.Dispatch? && a.now == b.now == c.now == d.now
    ensures Chronological([a, b, c, d], a.now)
  {
    var t := a.now;
    assert [a, b, c, d][1..] == [b, c, d] && [b, c, d][1..] == [c, d] && [c, d][1..] == [d] && [d][1..] == [];
    assert Chronological([d], t);
    assert Chronological([c, d], t);
    assert Chronological([b, c, d], t);
  }

  lemma FourJobsAreInitial(p: Setting, m: JobSchema)
    requires ValidManifest(m) && m.name == JOB
    ensures Initial(p, FourJobs(m))
  {
    hide ValidManifest;
    assert WellFiled(map[JOB := m]);
  }

  lemma StepIsCancel(p: Setting, w: World)
    requires |w.rows| == |w.writes|
    ensures Step(p, w, CUT) == CancelStep(w, CUT)
  {
  }

  lemma CanceledBlocks(v: Verdict)
    requires v.0 == JobStatus.Canceled
    ensures NextReadyJobStatus([v]) == Some(JobStatus.Blocked)
  {
    assert v in [v];
  }

  lemma FourSteps(p: Setting, w: World, a: Action, b: Action, c: Action, d: Action)
    requires |w.rows| == |w.writes|
    ensures Run(p, w, [a, b, c, d]) == Step(p, Step(p, Step(p, Step(p, w, a), b), c), d)
  {
    hide Step;
    assert [a, b, c, d] == [a] + ([b] + ([c] + ([d] + [])));
    RunOne(p, w, a, [b] + ([c] + ([d] + [])));
    RunOne(p, Step(p, w, a), b, [c] + ([d] + []));
    RunOne(p, Step(p, Step(p, w, a), b), c, [d] + []);
    RunOne(p, Step(p, Step(p, Step(p, w, a), b), c), d, []);
  }

  // ---------------------------------------------------------------------------------------------
  // Every such stop

  predicate TwoInFlight(rows: seq<JobRow>) {
    exists i, j :: 0 <= i < j < |rows| && rows[i].status.InFlight() && rows[j].status.InFlight()
  }

  /** From here, two jobs of the pipeline may come to be in flight at once. */
  ghost predicate CanOverlap(p: Setting, w: World)
    requires |w.rows| == |w.writes|
  {
    exists actions: seq<Action> :: TwoInFlight(Run(p, w, actions).rows)
  }

  /** What the stop leaves: job `f` in flight with finished jobs before it, canceled jobs behind it up to
      `reach`, and waiting ones from there on. */
  predicate TornAt(rows: seq<JobRow>, f: nat, reach: nat) {
    && f + 1 < reach < |rows|
    && (forall k :: 0 <= k < f ==> rows[k].status.IsTerminal())
    && rows[f].status.InFlight()
    && (forall k :: f < k < reach ==> rows[k].status == JobStatus.Canceled)
    && (forall k :: reach <= k < |rows| ==> rows[k].status == JobStatus.Pending)
  }

  lemma FrontStaysInFlight(row: JobRow, i: nat, v: CancelView)
    requires row.status.InFlight()
    ensures CanceledFront(row, i, v).status.InFlight()
  {
  }

  lemma PendingIsDropped(row: JobRow, now: Time)
    requires row.status == JobStatus.Pending
    ensures Dropped(row, now).status == JobStatus.Canceled
  {
  }

  lemma TearIsAtFront(rows: seq<JobRow>, v: CancelView) returns (f: nat)
    requires Shaped(rows) && Tears(rows, v)
    ensures ShapedAt(rows, f) && f + 1 < v.reach < |rows| && rows[f].status.InFlight()
    ensures !RefusedAt(rows, f, v) && forall k :: f < k < |rows| ==> rows[k].status == JobStatus.Pending
  {
    f :| ShapedAt(rows, f);
    var i :| 0 <= i < |rows| && rows[i].status.InFlight() && TearsBehind(rows, i, v);
    assert i == f;
  }

  lemma TornRows(rows: seq<JobRow>, v: CancelView) returns (f: nat)
    requires Shaped(rows) && Tears(rows, v)
    ensures TornAt(CancelFrom(rows, 0, v, false).rows, f, v.reach)
    ensures forall k :: v.reach <= k < |rows| ==> CancelFrom(rows, 0, v, false).rows[k] == rows[k]
  {
    hide CancelFrom, Dropped, CanceledFront, RefusedAt, Tears, Shaped;
    f := TearIsAtFront(rows, v);
    CancelClosedForm(rows, f, v);
    FrontStaysInFlight(rows[f], f, v);
    forall k | f < k < v.reach ensures CancelFrom(rows, 0, v, false).rows[k].status == JobStatus.Canceled {
      PendingIsDropped(rows[k], v.now);
    }
  }

  lemma TearLeaves(p: Setting, w: World, a: Action) returns (f: nat)
    requires |w.rows| == |w.writes| && Shaped(w.rows) && TearsChain(w, a)
    ensures TornAt(Step(p, w, a).rows, f, a.reach)
    ensures forall k :: a.reach <= k < |w.rows| ==> Step(p, w, a).rows[k] == w.rows[k]
  {
    hide CancelCalls, CancelFrom, Shaped, Tears, TornAt;
    f := TornRows(w.rows, CancelViewOf(a, CancelCalls(w.rows, w.runners, 0, a).1));
  }

  // Two waiting jobs or more: the first is blocked behind the canceled one, the second is not.

  /** The job's runner is there, with no directory for the job's key but a run of this job under it. */
  predicate Callable(p: Setting, runners: map<string, RunnerState>, row: JobRow) {
    && row.runnerId in runners
    && var id, disk := p.idOf(row.dispatchKey), runners[row.runnerId].disk;
       (id in disk && disk[id].Recorded? ==>
          disk[id].record.jobId == id && disk[id].record.key == row.dispatchKey && disk[id].record.name == row.jobName)
  }

  function RestartOf(row: JobRow, m: JobSchema, now: Time): Action {
    AtRunner(row.runnerId, CrashAndRestart(map[m.name := m], now))
  }

  /** The body a run in the directory for the job's key was asked for with. */
  function HashAt(p: Setting, w: World, row: JobRow): string
    requires row.runnerId in w.runners
  {
    var id, disk := p.idOf(row.dispatchKey), w.runners[row.runnerId].disk;
    if id in disk && disk[id].Recorded? then disk[id].record.requestHash else ""
  }

  /** A runner restarted with the job's manifest would answer. */
  lemma RestartAnswers(p: Setting, w: World, row: JobRow, m: JobSchema, now: Time)
    requires |w.rows| == |w.writes| && Callable(p, w.runners, row) && ValidManifest(m) && m.name == row.jobName
    ensures
      var w' := Step(p, w, RestartOf(row, m, now));
      && w'.rows == w.rows && row.runnerId in w'.runners
      && Answers(p, w'.runners[row.runnerId], row, HashAt(p, w, row))
  {
    hide ValidManifest;
    assert WellFiled(map[m.name := m]);
  }

  lemma {:induction false} CancelCallsKeepCallable(
      p: Setting, rows: seq<JobRow>, runners: map<string, RunnerState>, i: nat, a: Action, row: JobRow)
    requires a.CancelPipeline? && i <= |rows| && Callable(p, runners, row)
    ensures Callable(p, CancelCalls(rows, runners, i, a).0, row)
    decreases |rows| - i
  {
    hide Callable, Cancel;
    if i == |rows| || a.reach <= i {
    } else if !CancelsRemotely(rows[i], i, CancelViewOf(a, {})) {
      CancelCallsKeepCallable(p, rows, runners, i + 1, a, row);
    } else if rows[i].runnerId in runners && i in a.arriving {
      var id := rows[i].runnerId;
      CancelKeepsCallable(p, runners, id, rows[i].runId.value, a.stored, row);
      CancelCallsKeepCallable(p, rows, runners[id := Cancel(runners[id], rows[i].runId.value, a.stored).0], i + 1, a, row);
    }
  }

  lemma CancelKeepsCallable(p: Setting, runners: map<string, RunnerState>, id: string, j: RunId, stored: bool, row: JobRow)
    requires id in runners && Callable(p, runners, row)
    ensures Callable(p, runners[id := Cancel(runners[id], j, stored).0], row)
  {
  }

  lemma ThreeOrdered(a: Action, b: Action, c: Action, now: Time)
    requires a.Dispatch? && b.AtRunner? && b.act.CrashAndRestart? && c.Dispatch?
    requires a.now == b.act.now == c.now == now
    ensures Within(now, [a] + ([b] + ([c] + [])), now)
  {
    WithinOne(now, a, now);
    WithinOne(now, b, now);
    WithinOne(now, c, now);
    hide Within;
    assert [c] + [] == [c];
    WithinAppend(now, [b], now, [c] + [], now);
    WithinAppend(now, [a], now, [b] + ([c] + []), now);
  }

  /** The first waiting job is blocked, the next one's runner restarts, and that job is dispatched. */
  lemma TearOverlaps(p: Setting, w: World, f: nat, reach: nat, m: JobSchema, now: Time) returns (actions: seq<Action>)
    requires |w.rows| == |w.writes| && TornAt(w.rows, f, reach) && reach + 1 < |w.rows|
    requires Callable(p, w.runners, w.rows[reach + 1]) && ValidManifest(m) && m.name == w.rows[reach + 1].jobName
    ensures Chronological(actions, now) && TwoInFlight(Run(p, w, actions).rows)
  {
    hide Step, NextReadyJobStatus, ValidManifest, Answers, Apply;
    var next := w.rows[reach + 1];
    var block, restart := DispatchOf(reach, "", now), RestartOf(next, m, now);
    CanceledBlocks(w.rows[reach - 1].Verdict());
    BlockedStep(p, w, reach, now);
    BlockedIsBlocked(w.rows[reach], now);
    var w1 := Step(p, w, block);
    RestartAnswers(p, w1, next, m, now);
    var w2, go := Step(p, w1, restart), DispatchOf(reach + 1, HashAt(p, w1, next), now);
    ReadyExactlyWhen(Predecessors(w2.rows, reach + 1));
    DispatchStarts(p, w2, reach + 1, HashAt(p, w1, next), now);
    actions := [block] + ([restart] + ([go] + []));
    RunOne(p, w, block, [restart] + ([go] + []));
    RunOne(p, w1, restart, [go] + []);
    RunOne(p, w2, go, []);
    var rows := Run(p, w, actions).rows;
    assert rows[f].status.InFlight() && rows[reach + 1].status.InFlight();
    ThreeOrdered(block, restart, go, now);
  }

  lemma BlockedIsBlocked(row: JobRow, now: Time)
    ensures Apply(row, SetStatus(JobStatus.Blocked), now).Verdict() == (JobStatus.Blocked, row.mayFail)
  {
  }

  // One waiting job: it is blocked or canceled, but never dispatched.

  /** Only job `f` and the last are unfinished, and the last waits behind a canceled one. */
  predicate Sealed(rows: seq<JobRow>, f: nat) {
    && f + 2 < |rows|
    && (forall k :: 0 <= k < |rows| - 1 && k != f ==> rows[k].status.IsTerminal())
    && rows[|rows| - 2].status == JobStatus.Canceled
    && (rows[|rows| - 1].status == JobStatus.Pending || rows[|rows| - 1].status.IsTerminal())
  }

  /** Dispatching the job that waits behind a canceled one blocks it. */
  lemma LastIsBlocked(b: Budget, rows: seq<JobRow>, v: DispatchView)
    requires 2 <= |rows| && rows[|rows| - 2].status == JobStatus.Canceled
    requires rows[|rows| - 1].status == JobStatus.Pending
    ensures DispatchEffect(b, rows, |rows| - 1, v) == Effect([SetStatus(JobStatus.Blocked)], true)
    ensures ApplyAll(rows[|rows| - 1], [SetStatus(JobStatus.Blocked)], v.now).status == JobStatus.Blocked
  {
    hide NextReadyJobStatus;
    CanceledBlocks(rows[|rows| - 2].Verdict());
    ApplyOne(rows[|rows| - 1], SetStatus(JobStatus.Blocked), v.now);
  }

  lemma LastUnderDispatch(p: Setting, w: World, a: Action, f: nat)
    requires |w.rows| == |w.writes| && Sealed(w.rows, f) && a.Dispatch? && a.i == |w.rows| - 1
    ensures
      var row := DispatchStep(p, w, a).rows[a.i];
      row.status == JobStatus.Pending || row.status.IsTerminal()
  {
    hide AfterCreate, ReplySeen, NextReadyJobStatus, Finalized, Apply;
    OnlyRunnersChange(p, w, a);
    if w.rows[a.i].status == JobStatus.Pending {
      LastIsBlocked(p.cfg.budget, w.rows, DispatchViewOf(p, w, a));
    }
  }

  lemma LastUnderPoll(p: Setting, w: World, a: Action, f: nat)
    requires |w.rows| == |w.writes| && Sealed(w.rows, f) && a.Poll? && a.i == |w.rows| - 1
    ensures PollStep(p, w, a).rows[a.i] == w.rows[a.i]
  {
    hide CancelArrives, RunnerWorldStep, StatusReport, Stuck, ReportEffect, Finalized;
  }

  lemma LastUnderCancel(w: World, a: Action, f: nat)
    requires |w.rows| == |w.writes| && Sealed(w.rows, f) && a.CancelPipeline?
    ensures
      var row := CancelStep(w, a).rows[|w.rows| - 1];
      row.status == JobStatus.Pending || row.status.IsTerminal()
  {
    hide CancelCalls, CancelFrom;
    CancelWritesOnce(w.rows, 0, CancelViewOf(a, CancelCalls(w.rows, w.runners, 0, a).1), false);
  }

  /** No step sets it going. */
  lemma LastNeverStarts(p: Setting, w: World, a: Action, f: nat)
    requires |w.rows| == |w.writes| && Sealed(w.rows, f)
    ensures
      var row := Step(p, w, a).rows[|w.rows| - 1];
      row.status == JobStatus.Pending || row.status.IsTerminal()
  {
    hide CancelStep, AfterCreate, ReplySeen, CancelArrives, DispatchEffect, PollEffect, StatusReport, RunnerStep, SpawnedBy,
         Finalized;
    match a
    case Dispatch(i, _, _, _, _, _, _, _, _, _) =>
      if i < |w.rows| {
        OnlyRunnersChange(p, w, a);
        if i == |w.rows| - 1 {
          LastUnderDispatch(p, w, a, f);
        }
      }
    case Poll(i, _, _, _, _, _, _, _, _) =>
      if i == |w.rows| - 1 {
        LastUnderPoll(p, w, a, f);
      }
    case CancelPipeline(_, _, _, _, _, _) => LastUnderCancel(w, a, f);
    case RecoverPipelines(_) =>
    case AtRunner(_, _) =>
  }

  lemma SealedStep(p: Setting, w: World, a: Action, f: nat)
    requires Sound(p, w) && Sealed(w.rows, f)
    ensures Sealed(Step(p, w, a).rows, f)
  {
    hide RowsSound, RunnersSound, LogSound, PipelineSound, Step, DiskAdvances;
    LastNeverStarts(p, w, a, f);
    StepForward(p, w, a);
    forall k | 0 <= k < |w.rows| - 1 && k != f ensures Step(p, w, a).rows[k] == w.rows[k] {
      assert RowForward(w.rows[k], Step(p, w, a).rows[k]);
    }
  }

  lemma {:induction false} SealedRun(p: Setting, w: World, actions: seq<Action>, f: nat)
    requires Sound(p, w) && Sealed(w.rows, f)
    ensures Sealed(Run(p, w, actions).rows, f)
    decreases |actions|
  {
    hide Step, Sealed, RowsSound, RunnersSound, LogSound, PipelineSound;
    if actions != [] {
      SealedStep(p, w, actions[0], f);
      StepSound(p, w, actions[0]);
      SealedRun(p, Step(p, w, actions[0]), actions[1..], f);
    }
  }

  lemma TearRunners(p: Setting, w: World, a: Action)
    requires |w.rows| == |w.writes| && a.CancelPipeline?
    ensures Step(p, w, a).runners == CancelCalls(w.rows, w.runners, 0, a).0
  {
    hide CancelCalls, CancelFrom;
  }

  /** After a stop that tears the chain two jobs can come to be in flight at once exactly when it leaves at
      least two jobs waiting, given that the runner of the second of them can be called and some manifest
      offers its job. */
  lemma TearOverlapsExactlyWhen(p: Setting, w: World, a: Action, m: JobSchema)
    requires Sound(p, w) && Shaped(w.rows) && TearsChain(w, a)
    requires a.reach + 1 < |w.rows| ==>
               && Callable(p, w.runners, w.rows[a.reach + 1])
               && ValidManifest(m) && m.name == w.rows[a.reach + 1].jobName
    ensures CanOverlap(p, Step(p, w, a)) <==> a.reach + 1 < |w.rows|
  {
    hide Step, RowsSound, RunnersSound, LogSound, PipelineSound, Tears, CancelCalls, Shaped, Callable, ValidManifest;
    var w' := Step(p, w, a);
    var f := TearLeaves(p, w, a);
    if a.reach + 1 < |w.rows| {
      CancelCallsKeepCallable(p, w.rows, w.runners, 0, a, w.rows[a.reach + 1]);
      TearRunners(p, w, a);
      var actions := TearOverlaps(p, w', f, a.reach, m, a.now);
    } else {
      StepSound(p, w, a);
      forall actions: seq<Action> ensures !TwoInFlight(Run(p, w', actions).rows) {
        SealedRun(p, w', actions, f);
      }
    }
  }

  /** Every stop of the run that tears the chain leaves only its last job waiting. */
  predicate TornBeforeLast(p: Setting, w: World, actions: seq<Action>)
    requires |w.rows| == |w.writes|
    decreases |actions|
  {
    actions == [] ||
    (&& (TearsChain(w, actions[0]) ==> actions[0].reach + 1 == |w.rows|)
     && TornBeforeLast(p, Step(p, w, actions[0]), actions[1..]))
  }

  lemma {:induction false} ShapedOrSealedRun(p: Setting, w: World, actions: seq<Action>)
    requires Sound(p, w) && Shaped(w.rows) && TornBeforeLast(p, w, actions)
    ensures !TwoInFlight(Run(p, w, actions).rows)
    decreases |actions|
  {
    hide Step, Tears, CancelCalls, RowsSound, RunnersSound, LogSound, PipelineSound;
    if actions == [] {
      forall i | 0 <= i < |w.rows| && w.rows[i].status.InFlight()
        ensures forall j :: i < j < |w.rows| ==> !w.rows[j].status.InFlight()
      {
        InFlightIsAlone(w.rows, i);
      }
    } else {
      StepSound(p, w, actions[0]);
      StepKeepsShapeExactlyWhen(p, w, actions[0]);
      if TearsChain(w, actions[0]) {
        var f := TearLeaves(p, w, actions[0]);
        SealedRun(p, Step(p, w, actions[0]), actions[1..], f);
      } else {
        ShapedOrSealedRun(p, Step(p, w, actions[0]), actions[1..]);
      }
    }
  }

  /** So no two jobs of a pipeline are ever in flight at once, as long as no stop leaves two jobs waiting
      behind the canceled ones. */
  lemma AtMostOneInFlight(p: Setting, w0: World, actions: seq<Action>)
    requires Initial(p, w0) && TornBeforeLast(p, w0, actions)
    ensures !TwoInFlight(Run(p, w0, actions).rows)
  {
    hide Sound, TornBeforeLast, TwoInFlight;
    InitialIsSound(p, w0);
    assert ShapedAt(w0.rows, 0);
    ShapedOrSealedRun(p, w0, actions);
  }
}
