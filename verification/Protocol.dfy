/** The whole system: one pipeline on the server, any number of runners, a network that loses
    requests and replies, and runners that crash. Every step of every component is an `Action`. */
module Protocol {
  import opened Wire
  import opened JobRows
  import opened Scheduler
  import opened RunnerJobs

  datatype Setting = Setting(cfg: Config, idOf: Naming)

  /** The last three components are history: which row each issued key was issued for, how often a
      script was started under each key, and how many status and retry-count statements were run on each
      row. */
  datatype World = World(
    rows: seq<JobRow>,
    pipeline: PipelineRow,
    runners: map<string, RunnerState>,
    owner: seq<nat>,
    spawned: multiset<Key>,
    writes: seq<nat>)

  /** What becomes of a call: it never arrives, something before the run store answers it, its reply
      is lost, or the reply comes back. A refusal's text may happen to quote a rejecting status. */
  datatype Fate = RequestLost | Intercepted(rejects: bool) | ReplyLost | Answered(quotesRejection: bool)

  /** The server may stop after any statement of a step: `finalized` says whether it gets to recompute the
      pipeline, `reach` how far it gets through the rows of a pipeline being canceled. `between` is what the
      runner does between the two calls of a poll, the watchdog's cancel call and the status call. */
  datatype Action =
    | Dispatch(i: nat, registration: RunnerRegistration, described: bool, inputs: InputPreparation,
               requestHash: string, inputCheck: InputCheck, setup: Setup, fate: Fate, finalized: bool, now: Time)
    | Poll(i: nat, registered: bool, cancelFate: Fate, stored: bool, between: seq<RunnerAct>, statusSeen: bool,
           lost: set<string>, finalized: bool, now: Time)
    | CancelPipeline(known: set<nat>, arriving: set<nat>, answered: set<nat>, stored: bool, reach: nat, now: Time)
    | RecoverPipelines(now: Time)
    | AtRunner(runnerId: string, act: RunnerAct)

  // ---------------------------------------------------------------------------------------------
  // Steps

  const REJECTING_STATUSES: set<nat> := {400, 401, 403, 404, 422}

  predicate Arrives(f: Fate) { f.ReplyLost? || f.Answered? }

  function Reply(res: Result<CreatedRun, RunnerError>, f: Fate): CreateReply {
    match f
    case RequestLost => NoReply
    case Intercepted(rejects) => Refused(rejects)
    case ReplyLost => NoReply
    case Answered(quotes) =>
      match res
      case Ok(run) => Created(run.runId, run.startedAt)
      case Err(e) => Refused(HttpStatus(e) in REJECTING_STATUSES || quotes)
  }

  /** The server's part of a step on row `i`. */
  function ServerWrites(w: World, i: nat, e: Effect, now: Time): World
    requires i < |w.rows| == |w.writes|
  {
    var s := Carry(ServerState(w.rows, w.pipeline), i, e, now);
    w.(rows := s.rows, pipeline := s.pipeline,
       owner := if Requeues(e.writes) then w.owner + [i] else w.owner,
       writes := w.writes[i := w.writes[i] + |e.writes|])
  }

  /** An effect the server may have stopped before finalizing. */
  function UpTo(e: Effect, finalized: bool): Effect {
    Effect(e.writes, e.finalize && finalized)
  }

  function RequestOf(row: JobRow, requestHash: string, inputCheck: InputCheck): CreateRequest {
    CreateRequest(row.jobName, row.dispatchKey, requestHash, inputCheck)
  }

  /** The create call a dispatch makes reaches its runner. */
  predicate CreateArrives(w: World, a: Action)
    requires a.Dispatch? && a.i < |w.rows|
  {
    CallsRunner(w.rows, a.i, a.registration, a.described, a.inputs) && Arrives(a.fate) && w.rows[a.i].runnerId in w.runners
  }

  function CreateAtRunner(p: Setting, w: World, a: Action): (RunnerState, Result<CreatedRun, RunnerError>)
    requires a.Dispatch? && a.i < |w.rows| && CreateArrives(w, a)
  {
    var row := w.rows[a.i];
    Create(w.runners[row.runnerId], p.idOf(row.dispatchKey), RequestOf(row, a.requestHash, a.inputCheck), a.setup, a.now)
  }

  function AfterCreate(p: Setting, w: World, a: Action): World
    requires a.Dispatch? && a.i < |w.rows|
  {
    if CreateArrives(w, a) then w.(runners := w.runners[w.rows[a.i].runnerId := CreateAtRunner(p, w, a).0]) else w
  }

  function ReplySeen(p: Setting, w: World, a: Action): CreateReply
    requires a.Dispatch? && a.i < |w.rows|
  {
    if CreateArrives(w, a) then Reply(CreateAtRunner(p, w, a).1, a.fate)
    else if a.fate.Intercepted? then Refused(a.fate.rejects)
    else NoReply
  }

  function DispatchViewOf(p: Setting, w: World, a: Action): DispatchView
    requires a.Dispatch? && a.i < |w.rows|
  {
    DispatchView(a.registration, a.described, a.inputs, ReplySeen(p, w, a), Issued(|w.owner|), a.now)
  }

  function DispatchStep(p: Setting, w: World, a: Action): World
    requires a.Dispatch? && a.i < |w.rows| == |w.writes|
  {
    ServerWrites(AfterCreate(p, w, a), a.i,
                 UpTo(DispatchEffect(p.cfg.budget, w.rows, a.i, DispatchViewOf(p, w, a)), a.finalized), a.now)
  }

  /** The poll retries the cancel call, and the call arrives. */
  predicate CancelArrives(p: Setting, w: World, a: Action)
    requires a.Poll? && a.i < |w.rows|
  {
    var row := w.rows[a.i];
    && a.registered && row.runId.Some? && Stuck(p.cfg, row, a.now)
    && row.cancelRetryCount < p.cfg.budget.maxCancelRetries
    && Arrives(a.cancelFate) && row.runnerId in w.runners
  }

  function AfterCancelRetry(p: Setting, w: World, a: Action): World
    requires a.Poll? && a.i < |w.rows|
  {
    if CancelArrives(p, w, a) then
      var row := w.rows[a.i];
      w.(runners := w.runners[row.runnerId := Cancel(w.runners[row.runnerId], row.runId.value, a.stored).0])
    else w
  }

  /** What a runner does on its own, one act after another. */
  function AfterActs(p: Setting, w: World, id: string, acts: seq<RunnerAct>): (w': World)
    ensures w'.rows == w.rows && w'.pipeline == w.pipeline && w'.owner == w.owner && w'.writes == w.writes
    decreases |acts|
  {
    if acts == [] || id !in w.runners then w
    else AfterActs(p, RunnerWorldStep(p, w, AtRunner(id, acts[0])), id, acts[1..])
  }

  /** The world when the runner answers a poll's status call. */
  function AfterPollCalls(p: Setting, w: World, a: Action): World
    requires a.Poll? && a.i < |w.rows|
  {
    AfterActs(p, AfterCancelRetry(p, w, a), w.rows[a.i].runnerId, a.between)
  }

  predicate CancelAccepted(p: Setting, w: World, a: Action)
    requires a.Poll? && a.i < |w.rows|
  {
    && CancelArrives(p, w, a) && a.cancelFate.Answered?
    && Cancel(w.runners[w.rows[a.i].runnerId], w.rows[a.i].runId.value, a.stored).1.Ok?
  }

  /** What the runner answers when asked for a run's status. */
  function StatusReport(runners: map<string, RunnerState>, row: JobRow): Option<RunReport> {
    if row.runId.Some? && row.runnerId in runners && row.runId.value in runners[row.runnerId].disk
       && runners[row.runnerId].disk[row.runId.value].Recorded?
    then
      var m := runners[row.runnerId].disk[row.runId.value].record;
      Some(RunReport(m.status, m.exitCode, m.reason, m.category, m.outputs))
    else None
  }

  function PollViewOf(p: Setting, w: World, a: Action): PollView
    requires a.Poll? && a.i < |w.rows|
  {
    PollView(a.registered, CancelAccepted(p, w, a),
             if a.statusSeen then StatusReport(AfterPollCalls(p, w, a).runners, w.rows[a.i]) else None,
             a.lost, Issued(|w.owner|), a.now)
  }

  function PollStep(p: Setting, w: World, a: Action): World
    requires a.Poll? && a.i < |w.rows| == |w.writes|
  {
    ServerWrites(AfterPollCalls(p, w, a), a.i,
                 UpTo(PollEffect(p.cfg, w.rows[a.i], PollViewOf(p, w, a)), a.finalized), a.now)
  }

  function CancelViewOf(a: Action, accepted: set<nat>): CancelView
    requires a.CancelPipeline?
  {
    CancelView(a.known, accepted, a.reach, a.now)
  }

  /** The cancel calls a pipeline cancellation makes, row by row until one is not accepted. */
  function CancelCalls(rows: seq<JobRow>, runners: map<string, RunnerState>, i: nat, a: Action)
    : (map<string, RunnerState>, set<nat>)
    requires a.CancelPipeline? && i <= |rows|
    decreases |rows| - i
  {
    if i == |rows| || a.reach <= i then (runners, {})
    else if !CancelsRemotely(rows[i], i, CancelViewOf(a, {})) then CancelCalls(rows, runners, i + 1, a)
    else if rows[i].runnerId !in runners || i !in a.arriving then (runners, {})
    else
      var (r', res) := Cancel(runners[rows[i].runnerId], rows[i].runId.value, a.stored);
      var runners' := runners[rows[i].runnerId := r'];
      if res.Err? || i !in a.answered then (runners', {})
      else
        var (runners'', accepted) := CancelCalls(rows, runners', i + 1, a);
        (runners'', accepted + {i})
  }

  function CancelStep(w: World, a: Action): World
    requires a.CancelPipeline? && |w.rows| == |w.writes|
  {
    var (runners', accepted) := CancelCalls(w.rows, w.runners, 0, a);
    var s := PipelineCanceled(ServerState(w.rows, w.pipeline), CancelViewOf(a, accepted));
    w.(rows := s.rows, pipeline := s.pipeline, runners := runners',
       writes := seq(|w.writes|, k requires 0 <= k < |w.writes| =>
                     w.writes[k] + if k < |s.rows| && s.rows[k] != w.rows[k] then 1 else 0))
  }

  function RunnerWorldStep(p: Setting, w: World, a: Action): World
    requires a.AtRunner? && a.runnerId in w.runners
  {
    var r := w.runners[a.runnerId];
    w.(runners := w.runners[a.runnerId := RunnerStep(p.idOf, r, a.act)],
       spawned := match SpawnedBy(r, a.act) case Some(k) => w.spawned + multiset{k} case None => w.spawned)
  }

  /** One step; an action that names no row or runner changes nothing. */
  function Step(p: Setting, w: World, a: Action): (w': World)
    requires |w.rows| == |w.writes|
    ensures |w'.rows| == |w'.writes| == |w.rows|
  {
    match a
    case Dispatch(i, _, _, _, _, _, _, _, _, _) => if i < |w.rows| then DispatchStep(p, w, a) else w
    case Poll(i, _, _, _, _, _, _, _, _) => if i < |w.rows| then PollStep(p, w, a) else w
    case CancelPipeline(_, _, _, _, _, _) => CancelStep(w, a)
    case RecoverPipelines(now) => w.(pipeline := PipelineRecovered(ServerState(w.rows, w.pipeline), now).pipeline)
    case AtRunner(runnerId, _) => if runnerId in w.runners then RunnerWorldStep(p, w, a) else w
  }
}
