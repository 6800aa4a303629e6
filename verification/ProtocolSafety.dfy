/** The invariant of the whole system and what follows from it for every run. */
module ProtocolSafety {
  import opened Wire
  import opened StateMachine
  import opened JobRows
  import opened Scheduler
  import opened PipelineShape
  import opened RunnerJobs
  import opened Protocol

  // ---------------------------------------------------------------------------------------------
  // The invariant

  /** How many keys have been issued for row `i`. */
  function Owned(owner: seq<nat>, i: nat): nat {
    if owner == [] then 0
    else Owned(owner[..|owner| - 1], i) + if owner[|owner| - 1] == i then 1 else 0
  }

  /** How many scripts have been started for row `i`, whichever key they ran under. */
  function Executions(owner: seq<nat>, spawned: multiset<Key>, i: nat): nat {
    if owner == [] then 0
    else Executions(owner[..|owner| - 1], spawned, i)
         + if owner[|owner| - 1] == i then spawned[Issued(|owner| - 1)] else 0
  }

  /** The row's current key is its own, it has had one key more than requeues, and the statements run
      on it so far leave room for those its potential still allows. */
  predicate RowSound(b: Budget, owner: seq<nat>, row: JobRow, count: nat, i: nat) {
    && Coherent(b, row)
    && row.dispatchKey.Issued? && row.dispatchKey.serial < |owner| && owner[row.dispatchKey.serial] == i
    && Owned(owner, i) == 1 + row.infraRetryCount
    && count + Potential(b, row) <= WriteBound(b)
  }

  /** A reason only a script that ran can have. */
  predicate FromScript(reason: Option<TerminalReason>) {
    || reason == Some(TerminalReason.Success)
    || reason == Some(TerminalReason.ExitCode)
    || reason == Some(TerminalReason.Timeout)
  }

  /** The row says something only the runner can have told it. */
  predicate Reports(row: JobRow) {
    row.status == JobStatus.Success || row.status == JobStatus.Canceled || FromScript(row.terminalReason) || row.outputs != map[]
  }

  predicate BackedBy(row: JobRow, m: RunRecord) {
    && m.key == row.dispatchKey && m.name == row.jobName
    && (row.status == JobStatus.Canceling ==> m.status == RunStatus.Canceling || m.status == RunStatus.Canceled)
    && (Reports(row) ==>
          && m.status.IsTerminal()
          && (row.status == JobStatus.Success ==> m.status == RunStatus.Success)
          && (row.status == JobStatus.Canceled ==> m.status == RunStatus.Canceled)
          && (FromScript(row.terminalReason) ==> row.terminalReason == m.reason)
          && (row.outputs != map[] ==> row.outputs == PersistedAll(m.outputs)))
  }

  predicate HoldsRecord(runners: map<string, RunnerState>, runnerId: string, j: RunId) {
    runnerId in runners && j in runners[runnerId].disk && runners[runnerId].disk[j].Recorded?
  }

  /** A row that names a run names the run created for its current key, and what it reports is what
      that run's record says. */
  predicate RunSound(runners: map<string, RunnerState>, row: JobRow) {
    && (row.runId.Some? ==>
          && HoldsRecord(runners, row.runnerId, row.runId.value)
          && BackedBy(row, runners[row.runnerId].disk[row.runId.value].record))
    && (row.runId == None ==> row.status != JobStatus.Success && !FromScript(row.terminalReason) && row.outputs == map[])
  }

  /** Records under the server's keys are on the runner of the row the key was issued for. */
  predicate DirPlaced(rows: seq<JobRow>, owner: seq<nat>, runnerId: string, dir: RunDir) {
    dir.Recorded? && dir.record.key.Issued? ==>
      var n := dir.record.key.serial;
      n < |owner| && owner[n] < |rows| && rows[owner[n]].runnerId == runnerId
  }

  predicate Placed(rows: seq<JobRow>, owner: seq<nat>, runnerId: string, disk: Disk) {
    forall j :: j in disk ==> DirPlaced(rows, owner, runnerId, disk[j])
  }

  predicate JobSpawns(spawned: multiset<Key>, job: RunningJob) {
    job.execution.key.Issued? ==> (spawned[job.execution.key] == 0 <==> job.phase == Starting)
  }

  predicate DirSpawns(spawned: multiset<Key>, dir: RunDir) {
    dir.Recorded? && dir.record.key.Issued? && FromScript(dir.record.reason) ==> dir.record.key in spawned
  }

  /** Runs in memory are past their start exactly when their script was started, and a verdict that
      needs a script had one. */
  predicate SpawnsSound(spawned: multiset<Key>, r: RunnerState) {
    && (forall j :: j in r.running ==> JobSpawns(spawned, r.running[j]))
    && (forall j :: j in r.disk ==> DirSpawns(spawned, r.disk[j]))
  }

  /** Under each of the server's keys at most one script was started, and then its record is there. */
  predicate Logged(idOf: Naming, rows: seq<JobRow>, owner: seq<nat>, runners: map<string, RunnerState>,
                   spawned: multiset<Key>, n: nat)
  {
    && spawned[Issued(n)] <= 1
    && (spawned[Issued(n)] == 1 ==>
          && n < |owner| && owner[n] < |rows|
          && HoldsRecord(runners, rows[owner[n]].runnerId, idOf(Issued(n)))
          && runners[rows[owner[n]].runnerId].disk[idOf(Issued(n))].record.key == Issued(n))
  }

  predicate PipelineSound(rows: seq<JobRow>, s: PipelineStatus) {
    && (s.Success? ==> rows != [] && forall i :: 0 <= i < |rows| ==> rows[i].status == JobStatus.Success)
    && (s.Failed? ==> exists i :: 0 <= i < |rows| && RequiredFailure(rows[i].Verdict()))
    && (s.Blocked? ==> exists i :: 0 <= i < |rows| && rows[i].status == JobStatus.Blocked)
  }

  predicate RunnersSound(p: Setting, w: World) {
    forall id :: id in w.runners ==>
      && RunnerSound(p.idOf, w.runners[id])
      && Placed(w.rows, w.owner, id, w.runners[id].disk)
      && SpawnsSound(w.spawned, w.runners[id])
  }

  predicate RowsSound(p: Setting, w: World)
    requires |w.writes| == |w.rows|
  {
    forall i :: 0 <= i < |w.rows| ==>
      RowSound(p.cfg.budget, w.owner, w.rows[i], w.writes[i], i) && RunSound(w.runners, w.rows[i])
  }

  ghost predicate LogSound(p: Setting, w: World) {
    forall n: nat :: Logged(p.idOf, w.rows, w.owner, w.runners, w.spawned, n)
  }

  ghost predicate Sound(p: Setting, w: World) {
    && |w.writes| == |w.rows|
    && RowsSound(p, w)
    && RunnersSound(p, w)
    && LogSound(p, w)
    && PipelineSound(w.rows, w.pipeline.status)
  }

  // ---------------------------------------------------------------------------------------------
  // Runner changes

  lemma RunSoundSurvives(idOf: Naming, runners: map<string, RunnerState>, id: string, r': RunnerState, row: JobRow)
    requires RunSound(runners, row) && id in runners && DiskAdvances(runners[id].disk, r'.disk)
    ensures RunSound(runners[id := r'], row)
  {
  }

  lemma LoggedSurvives(idOf: Naming, w: World, id: string, r': RunnerState, n: nat)
    requires id in w.runners && DiskAdvances(w.runners[id].disk, r'.disk)
    requires Logged(idOf, w.rows, w.owner, w.runners, w.spawned, n)
    ensures Logged(idOf, w.rows, w.owner, w.runners[id := r'], w.spawned, n)
  {
  }

  /** Replacing one runner's state by a later one. */
  lemma RunnerChange(p: Setting, w: World, id: string, r': RunnerState)
    requires Sound(p, w) && id in w.runners
    requires RunnerSound(p.idOf, r') && DiskAdvances(w.runners[id].disk, r'.disk)
    requires Placed(w.rows, w.owner, id, r'.disk) && SpawnsSound(w.spawned, r')
    ensures Sound(p, w.(runners := w.runners[id := r']))
  {
    hide RunnerSound, DiskAdvances, RunSound, RowSound, Logged, Placed, SpawnsSound, PipelineSound;
    var w' := w.(runners := w.runners[id := r']);
    forall i | 0 <= i < |w.rows| ensures RunSound(w'.runners, w.rows[i]) {
      RunSoundSurvives(p.idOf, w.runners, id, r', w.rows[i]);
    }
    forall n: nat ensures Logged(p.idOf, w.rows, w.owner, w'.runners, w.spawned, n) {
      assert Logged(p.idOf, w.rows, w.owner, w.runners, w.spawned, n);
      LoggedSurvives(p.idOf, w, id, r', n);
    }
    assert RunnersSound(p, w');
    assert RowsSound(p, w');
  }

  lemma PlacedSurvives(rows: seq<JobRow>, owner: seq<nat>, id: string, d: Disk, d': Disk, key: Key)
    requires Placed(rows, owner, id, d) && NewRecordsAreFor(d, d', key)
    requires key.Issued? ==> key.serial < |owner| && owner[key.serial] < |rows| && rows[owner[key.serial]].runnerId == id
    ensures Placed(rows, owner, id, d')
  {
    forall j | j in d' ensures DirPlaced(rows, owner, id, d'[j]) {
      if d'[j].Recorded? && j in d {
        assert DirPlaced(rows, owner, id, d[j]);
      }
    }
  }

  /** Disks that only advance and gain no directory gain no record. */
  lemma AdvancingAddsNothing(r: RunnerState, act: RunnerAct, idOf: Naming)
    requires RunnerSound(idOf, r) && !act.ForeignCreate?
    ensures NewRecordsAreFor(r.disk, RunnerStep(idOf, r, act).disk, Foreign(0))
  {
    hide RecordSound, EntrySound, Exclusive;
    RunnerStepKeepsSound(idOf, r, act);
    var d' := RunnerStep(idOf, r, act).disk;
    forall j | j in d' && d'[j].Recorded? ensures j in r.disk && r.disk[j].Recorded? && SameRun(r.disk[j].record, d'[j].record) {
      assert j in r.disk;
      if !r.disk[j].Recorded? {
        BareStaysBare(idOf, r, act, j);
      }
    }
  }

  lemma BareStaysBare(idOf: Naming, r: RunnerState, act: RunnerAct, j: RunId)
    requires RunnerSound(idOf, r) && !act.ForeignCreate? && j in r.disk && !r.disk[j].Recorded?
    ensures var d' := RunnerStep(idOf, r, act).disk; j in d' ==> !d'[j].Recorded?
  {
    hide RecordSound, EntrySound, Exclusive, RecoveredRecord, FinishedRecord;
    if act.FinishRun? && act.runId in r.running {
      LiveRun(idOf, r, act.runId);
    }
  }

  lemma CreateKeepsSpawns(idOf: Naming, r: RunnerState, req: CreateRequest, setup: Setup, now: Time, spawned: multiset<Key>)
    requires SpawnsSound(spawned, r)
    requires req.key.Issued? && idOf(req.key) !in r.disk ==> req.key !in spawned
    ensures SpawnsSound(spawned, Create(r, idOf(req.key), req, setup, now).0)
  {
  }

  lemma FinishSpawns(job: RunningJob, o: Outcome, reg: Registration, now: Time)
    requires OutcomePossible(job, o) && job.execution == NewestOf(job.execution)
    ensures
      var m := FinishedRecord(job.execution, Supervised(o), reg, now);
      m.key == job.execution.key && (FromScript(m.reason) ==> job.phase == Executing)
  {
  }

  lemma RunnerStepKeepsSpawns(idOf: Naming, r: RunnerState, act: RunnerAct, spawned: multiset<Key>)
    requires RunnerSound(idOf, r) && SpawnsSound(spawned, r) && SpawnedBy(r, act) == None
    ensures SpawnsSound(spawned, RunnerStep(idOf, r, act))
  {
    hide RecordSound, EntrySound, Exclusive, FinishedRecord, DiskSound;
    var r' := RunnerStep(idOf, r, act);
    if act.ForeignCreate? {
      CreateKeepsSpawns(idOf, r, CreateRequest(act.name, Foreign(act.tag), act.requestHash, act.inputCheck), act.setup, act.now, spawned);
    } else if act.FinishRun? && act.runId in r.running && OutcomePossible(r.running[act.runId], act.outcome) {
      assert JobSpawns(spawned, r.running[act.runId]);
      LiveRun(idOf, r, act.runId);
      FinishSpawns(r.running[act.runId], act.outcome, act.registration, act.now);
    }
  }

  lemma EntrySpawns(spawned: multiset<Key>, r: RunnerState, j: RunId)
    requires SpawnsSound(spawned, r) && j in r.running
    ensures JobSpawns(spawned, r.running[j])
  {
  }

  /** Starting a script: the one step that adds to the spawn log. */
  lemma ScriptStart(p: Setting, w: World, id: string, j: RunId)
    requires Sound(p, w) && id in w.runners
    requires j in w.runners[id].running && w.runners[id].running[j].phase == Starting
    ensures Sound(p, w.(runners := w.runners[id := Spawn(w.runners[id], j)],
                        spawned := w.spawned + multiset{w.runners[id].running[j].execution.key}))
  {
    hide RecordSound, EntrySound, Exclusive, RunSound, RowSound, PipelineSound, SpawnsSound;
    var r := w.runners[id];
    var k := r.running[j].execution.key;
    var spawned' := w.spawned + multiset{k};
    var w' := w.(runners := w.runners[id := Spawn(r, j)], spawned := spawned');
    LiveRun(p.idOf, r, j);
    SpawnKeepsSound(p.idOf, r, j);
    EntrySpawns(w.spawned, r, j);
    assert DirPlaced(w.rows, w.owner, id, r.disk[j]);
    forall n: nat ensures Logged(p.idOf, w.rows, w.owner, w'.runners, spawned', n) {
      assert Logged(p.idOf, w.rows, w.owner, w.runners, w.spawned, n);
    }
    forall o | o in w'.runners ensures SpawnsSound(spawned', w'.runners[o]) {
      OthersDoNotShareKey(p, w, id, j, o);
    }
    forall i | 0 <= i < |w.rows| ensures RunSound(w'.runners, w.rows[i]) {
      RunSoundSurvives(p.idOf, w.runners, id, w'.runners[id], w.rows[i]);
    }
    assert RunnersSound(p, w');
  }

  /** No other run in memory, on this runner or another, has the key being started. */
  lemma OthersDoNotShareKey(p: Setting, w: World, id: string, j: RunId, o: string)
    requires Sound(p, w) && id in w.runners && o in w.runners
    requires j in w.runners[id].running && w.runners[id].running[j].phase == Starting
    ensures
      var k := w.runners[id].running[j].execution.key;
      var r' := if o == id then Spawn(w.runners[id], j) else w.runners[o];
      SpawnsSound(w.spawned + multiset{k}, r')
  {
    hide RecordSound, EntrySound, Exclusive, RunSound, RowSound, PipelineSound, LogSound;
    var r := w.runners[id];
    var k := r.running[j].execution.key;
    var r' := if o == id then Spawn(r, j) else w.runners[o];
    LiveRun(p.idOf, r, j);
    assert DirPlaced(w.rows, w.owner, id, r.disk[j]);
    assert JobSpawns(w.spawned, r.running[j]);
    forall l | l in r'.running ensures JobSpawns(w.spawned + multiset{k}, r'.running[l]) {
      LiveRun(p.idOf, w.runners[o], l);
      assert JobSpawns(w.spawned, w.runners[o].running[l]);
      assert DirPlaced(w.rows, w.owner, o, w.runners[o].disk[l]);
    }
    forall l | l in r'.disk ensures DirSpawns(w.spawned + multiset{k}, r'.disk[l]) {
      assert DirSpawns(w.spawned, w.runners[o].disk[l]);
    }
  }

  /** Any act at a runner. */
  lemma RunnerWorldStepSound(p: Setting, w: World, a: Action)
    requires Sound(p, w) && a.AtRunner? && a.runnerId in w.runners
    ensures Sound(p, RunnerWorldStep(p, w, a))
  {
    hide RecordSound, EntrySound, Exclusive, RunSound, RowSound, PipelineSound, LogSound, SpawnsSound, DiskAdvances, NewRecordsAreFor, Placed;
    var r := w.runners[a.runnerId];
    var r' := RunnerStep(p.idOf, r, a.act);
    RunnerStepKeepsSound(p.idOf, r, a.act);
    if SpawnedBy(r, a.act).Some? {
      ScriptStart(p, w, a.runnerId, a.act.runId);
    } else {
      RunnerStepKeepsSpawns(p.idOf, r, a.act, w.spawned);
      if a.act.ForeignCreate? {
        PlacedSurvives(w.rows, w.owner, a.runnerId, r.disk, r'.disk, Foreign(a.act.tag));
      } else {
        AdvancingAddsNothing(r, a.act, p.idOf);
        PlacedSurvives(w.rows, w.owner, a.runnerId, r.disk, r'.disk, Foreign(0));
      }
      RunnerChange(p, w, a.runnerId, r');
    }
  }

  /** A create call of the server arriving at its runner. */
  lemma AfterCreateSound(p: Setting, w: World, a: Action)
    requires Sound(p, w) && a.Dispatch? && a.i < |w.rows|
    ensures Sound(p, AfterCreate(p, w, a))
  {
    hide RecordSound, EntrySound, Exclusive, RunSound, PipelineSound, SpawnsSound, DiskAdvances, NewRecordsAreFor, Placed;
    if CreateArrives(w, a) {
      var row := w.rows[a.i];
      var r := w.runners[row.runnerId];
      var req := RequestOf(row, a.requestHash, a.inputCheck);
      var r' := CreateAtRunner(p, w, a).0;
      assert RowSound(p.cfg.budget, w.owner, row, w.writes[a.i], a.i);
      CreateKeepsSound(p.idOf, r, req, a.setup, a.now);
      PlacedSurvives(w.rows, w.owner, row.runnerId, r.disk, r'.disk, row.dispatchKey);
      assert Logged(p.idOf, w.rows, w.owner, w.runners, w.spawned, row.dispatchKey.serial);
      CreateKeepsSpawns(p.idOf, r, req, a.setup, a.now, w.spawned);
      RunnerChange(p, w, row.runnerId, r');
    }
  }

  /** A cancel call arriving at a runner. */
  lemma CancelCallSound(p: Setting, w: World, id: string, j: RunId, stored: bool)
    requires Sound(p, w) && id in w.runners
    ensures Sound(p, w.(runners := w.runners[id := Cancel(w.runners[id], j, stored).0]))
  {
    var a := AtRunner(id, CancelRun(j, stored));
    RunnerWorldStepSound(p, w, a);
    assert RunnerWorldStep(p, w, a) == w.(runners := w.runners[id := Cancel(w.runners[id], j, stored).0]);
  }

  // ---------------------------------------------------------------------------------------------
  // Server changes

  /** Rows may change as long as each job stays where it was to run. */
  predicate SameChain(rows: seq<JobRow>, rows': seq<JobRow>) {
    |rows'| == |rows| && forall i :: 0 <= i < |rows| ==> rows'[i].runnerId == rows[i].runnerId
  }

  /** Issued keys are never taken back or reassigned. */
  predicate OwnerGrows(owner: seq<nat>, owner': seq<nat>) {
    |owner| <= |owner'| && forall n :: 0 <= n < |owner| ==> owner'[n] == owner[n]
  }

  lemma RunnerPartSurvives(p: Setting, w: World, w': World)
    requires RunnersSound(p, w) && LogSound(p, w)
    requires w'.runners == w.runners && w'.spawned == w.spawned
    requires SameChain(w.rows, w'.rows) && OwnerGrows(w.owner, w'.owner)
    ensures RunnersSound(p, w') && LogSound(p, w')
  {
    hide RunnerSound, SpawnsSound;
    forall id | id in w.runners ensures Placed(w'.rows, w'.owner, id, w.runners[id].disk) {
      assert Placed(w.rows, w.owner, id, w.runners[id].disk);
      forall j | j in w.runners[id].disk ensures DirPlaced(w'.rows, w'.owner, id, w.runners[id].disk[j]) {
        assert DirPlaced(w.rows, w.owner, id, w.runners[id].disk[j]);
      }
    }
    forall n: nat ensures Logged(p.idOf, w'.rows, w'.owner, w'.runners, w'.spawned, n) {
      assert Logged(p.idOf, w.rows, w.owner, w.runners, w.spawned, n);
    }
  }

  lemma OwnedAppend(owner: seq<nat>, i: nat, j: nat)
    ensures Owned(owner + [i], j) == Owned(owner, j) + if i == j then 1 else 0
  {
    assert (owner + [i])[..|owner|] == owner;
  }

  /** The pipeline verdict says what it seems to say, of rows that are never skipped. */
  lemma FinalizedSound(p: PipelineRow, rows: seq<JobRow>, now: Time)
    requires forall i :: 0 <= i < |rows| ==> rows[i].status != JobStatus.Skipped
    ensures PipelineSound(rows, Finalized(p, rows, now).status)
  {
    var vs := Verdicts(rows);
    var s := TerminalPipelineStatus(vs);
    if s.Success? {
      forall i | 0 <= i < |rows| ensures rows[i].status == JobStatus.Success {
        assert vs[i] in vs;
        assert Succeeded(vs[i]);
      }
    } else if s.Failed? {
      var v :| v in vs && RequiredFailure(v);
      var i :| 0 <= i < |vs| && vs[i] == v;
      assert RequiredFailure(rows[i].Verdict());
    } else if s.Blocked? {
      var v :| v in vs && v.0 == JobStatus.Blocked;
      var i :| 0 <= i < |vs| && vs[i] == v;
      assert rows[i].status == JobStatus.Blocked;
    }
  }

  /** A write to an unfinished row cannot falsify a verdict that was reached. */
  lemma VerdictSurvives(rows: seq<JobRow>, i: nat, row: JobRow, s: PipelineStatus)
    requires i < |rows| && !rows[i].status.IsTerminal() && PipelineSound(rows, s)
    ensures PipelineSound(rows[i := row], s)
  {
    if s.Failed? {
      var k :| 0 <= k < |rows| && RequiredFailure(rows[k].Verdict());
      assert RequiredFailure(rows[i := row][k].Verdict());
    } else if s.Blocked? {
      var k :| 0 <= k < |rows| && rows[k].status == JobStatus.Blocked;
      assert rows[i := row][k].status == JobStatus.Blocked;
    }
  }

  lemma RowsSurvive(p: Setting, w: World, i: nat, row: JobRow, count: nat, requeued: bool)
    requires |w.writes| == |w.rows| && RowsSound(p, w) && i < |w.rows|
    requires Coherent(p.cfg.budget, row) && RunSound(w.runners, row)
    requires Follows(w.rows[i], row, requeued, Issued(|w.owner|))
    requires w.writes[i] <= count && count + Potential(p.cfg.budget, row) <= WriteBound(p.cfg.budget)
    ensures RowsSound(p, w.(rows := w.rows[i := row], writes := w.writes[i := count],
                            owner := if requeued then w.owner + [i] else w.owner))
  {
    hide Coherent, RunSound, Potential;
    var rows, writes, owner' := w.rows[i := row], w.writes[i := count], if requeued then w.owner + [i] else w.owner;
    forall k | 0 <= k < |w.rows| ensures RowSound(p.cfg.budget, owner', rows[k], writes[k], k) {
      assert RowSound(p.cfg.budget, w.owner, w.rows[k], w.writes[k], k);
      OwnedAppend(w.owner, i, k);
    }
  }

  /** The server's part of a step on one row, given what the row becomes. */
  lemma ServerWritesSound(p: Setting, w: World, i: nat, e: Effect, now: Time)
    requires Sound(p, w) && i < |w.rows|
    requires AllPermitted(p.cfg.budget, w.rows[i], e.writes, now)
    requires e.writes != [] ==> !w.rows[i].status.IsTerminal()
    requires Follows(w.rows[i], ApplyAll(w.rows[i], e.writes, now), Requeues(e.writes), Issued(|w.owner|))
    requires RunSound(w.runners, ApplyAll(w.rows[i], e.writes, now))
    ensures Sound(p, ServerWrites(w, i, e, now))
  {
    hide RunSound, RunnersSound, LogSound, Potential;
    var row := ApplyAll(w.rows[i], e.writes, now);
    var w' := ServerWrites(w, i, e, now);
    assert RowSound(p.cfg.budget, w.owner, w.rows[i], w.writes[i], i);
    WritesSpendPotential(p.cfg.budget, w.rows[i], e.writes, now);
    RowsSurvive(p, w, i, row, w.writes[i] + |e.writes|, Requeues(e.writes));
    assert RowsSound(p, w') by {
      assert w'.rows == w.rows[i := row];
    }
    RunnerPartSurvives(p, w, w');
    if e.writes == [] {
      assert w'.rows == w.rows;
    } else {
      VerdictSurvives(w.rows, i, row, w.pipeline.status);
    }
    if e.finalize {
      forall k | 0 <= k < |w'.rows| ensures w'.rows[k].status != JobStatus.Skipped {
        assert RowSound(p.cfg.budget, w'.owner, w'.rows[k], w'.writes[k], k);
      }
      FinalizedSound(w.pipeline, w'.rows, now);
    }
  }

  // ---------------------------------------------------------------------------------------------
  // Dispatch

  /** A pending row that takes on the run created for its key. */
  lemma StartBacked(b: Budget, runners: map<string, RunnerState>, row: JobRow, runId: RunId, startedAt: Time, now: Time)
    requires Coherent(b, row) && row.status == JobStatus.Pending && RunSound(runners, row)
    requires HoldsRecord(runners, row.runnerId, runId)
    requires runners[row.runnerId].disk[runId].record.key == row.dispatchKey
    requires runners[row.runnerId].disk[runId].record.name == row.jobName
    ensures RunSound(runners, Apply(row, SetStarted(runId, startedAt), now))
  {
  }

  /** A pending row that is blocked, failed or requeued. */
  lemma RefusalBacked(b: Budget, rows: seq<JobRow>, i: nat, v: DispatchView, runners: map<string, RunnerState>, w: Write)
    requires i < |rows| && Coherent(b, rows[i]) && rows[i].status == JobStatus.Pending && RunSound(runners, rows[i])
    requires DispatchEffect(b, rows, i, v).writes == [w] && !w.SetStarted?
    ensures RunSound(runners, Apply(rows[i], w, v.now))
  {
    hide NextReadyJobStatus;
  }

  /** The reply a dispatch acts on came from the runner, which holds the run's record. */
  lemma CreatedRunIsHeld(p: Setting, w: World, a: Action)
    requires RunnersSound(p, w) && a.Dispatch? && a.i < |w.rows| && ReplySeen(p, w, a).Created?
    ensures
      var row, runId, runners := w.rows[a.i], ReplySeen(p, w, a).runId, AfterCreate(p, w, a).runners;
      && HoldsRecord(runners, row.runnerId, runId)
      && runners[row.runnerId].disk[runId].record.key == row.dispatchKey
      && runners[row.runnerId].disk[runId].record.name == row.jobName
  {
    hide RecordSound, EntrySound, Exclusive, Create;
    var row := w.rows[a.i];
    CreatedRunIsRecorded(p.idOf, w.runners[row.runnerId], RequestOf(row, a.requestHash, a.inputCheck), a.setup, a.now);
  }

  lemma DispatchBacked(p: Setting, w: World, a: Action)
    requires Sound(p, w) && a.Dispatch? && a.i < |w.rows|
    ensures
      var e := DispatchEffect(p.cfg.budget, w.rows, a.i, DispatchViewOf(p, w, a));
      RunSound(AfterCreate(p, w, a).runners, ApplyAll(w.rows[a.i], e.writes, a.now))
  {
    hide RunSound, RunnersSound, LogSound, PipelineSound, AfterCreate, ReplySeen, HoldsRecord, Apply;
    var row, v := w.rows[a.i], DispatchViewOf(p, w, a);
    var ws, runners := DispatchEffect(p.cfg.budget, w.rows, a.i, v).writes, AfterCreate(p, w, a).runners;
    assert RowSound(p.cfg.budget, w.owner, row, w.writes[a.i], a.i);
    AfterCreateSound(p, w, a);
    assert RunSound(runners, row) by {
      assert AfterCreate(p, w, a).rows == w.rows by { OnlyRunnersChange(p, w, a); }
    }
    if ws != [] {
      assert ws == [ws[0]];
      ApplyOne(row, ws[0], a.now);
      if ws[0].SetStarted? {
        CreatedRunIsHeld(p, w, a);
        StartBacked(p.cfg.budget, runners, row, ws[0].runId, ws[0].startedAt, a.now);
      } else {
        RefusalBacked(p.cfg.budget, w.rows, a.i, v, runners, ws[0]);
      }
    }
  }

  lemma OnlyRunnersChange(p: Setting, w: World, a: Action)
    requires a.Dispatch? && a.i < |w.rows|
    ensures AfterCreate(p, w, a) == w.(runners := AfterCreate(p, w, a).runners)
  {
  }

  lemma RunnerIsSound(p: Setting, w: World, id: string)
    requires RunnersSound(p, w) && id in w.runners
    ensures RunnerSound(p.idOf, w.runners[id])
  {
  }

  lemma DispatchStepSound(p: Setting, w: World, a: Action)
    requires Sound(p, w) && a.Dispatch? && a.i < |w.rows|
    ensures Sound(p, DispatchStep(p, w, a))
  {
    hide RunSound, RunnersSound, LogSound, PipelineSound;
    var v := DispatchViewOf(p, w, a);
    assert RowSound(p.cfg.budget, w.owner, w.rows[a.i], w.writes[a.i], a.i);
    AfterCreateSound(p, w, a);
    DispatchIsPermitted(p.cfg.budget, w.rows, a.i, v);
    DispatchFollows(p.cfg.budget, w.rows, a.i, v);
    DispatchBacked(p, w, a);
    ServerWritesSound(p, AfterCreate(p, w, a), a.i, UpTo(DispatchEffect(p.cfg.budget, w.rows, a.i, v), a.finalized), a.now);
  }

  // ---------------------------------------------------------------------------------------------
  // Poll

  lemma AfterCancelRetrySound(p: Setting, w: World, a: Action)
    requires Sound(p, w) && a.Poll? && a.i < |w.rows|
    ensures Sound(p, AfterCancelRetry(p, w, a))
  {
    hide Sound;
    if CancelArrives(p, w, a) {
      CancelCallSound(p, w, w.rows[a.i].runnerId, w.rows[a.i].runId.value, a.stored);
    }
  }

  lemma {:induction false} ActsSound(p: Setting, w: World, id: string, acts: seq<RunnerAct>)
    requires Sound(p, w)
    ensures Sound(p, AfterActs(p, w, id, acts))
    decreases |acts|
  {
    hide Sound, RunnerWorldStep;
    if acts != [] && id in w.runners {
      RunnerWorldStepSound(p, w, AtRunner(id, acts[0]));
      ActsSound(p, RunnerWorldStep(p, w, AtRunner(id, acts[0])), id, acts[1..]);
    }
  }

  lemma AfterPollCallsSound(p: Setting, w: World, a: Action)
    requires Sound(p, w) && a.Poll? && a.i < |w.rows|
    ensures Sound(p, AfterPollCalls(p, w, a))
  {
    hide Sound;
    AfterCancelRetrySound(p, w, a);
    ActsSound(p, AfterCancelRetry(p, w, a), w.rows[a.i].runnerId, a.between);
  }

  /** A report that the run is still under way. */
  lemma ProgressBacked(runners: map<string, RunnerState>, row: JobRow, s: JobStatus, now: Time)
    requires row.status.InFlight() && RunSound(runners, row) && row.runId.Some?
    requires StatusReport(runners, row).Some? && !StatusReport(runners, row).value.status.IsTerminal()
    requires s == NextPolled(row.status, StatusReport(runners, row).value.status)
    ensures RunSound(runners, Apply(row, SetStatus(s), now))
  {
  }

  /** A report that the run has ended, taken over as it is. */
  lemma EndBacked(runners: map<string, RunnerState>, row: JobRow, now: Time)
    requires row.status.InFlight() && RunSound(runners, row) && row.runId.Some?
    requires StatusReport(runners, row).Some? && StatusReport(runners, row).value.status.IsTerminal()
    ensures
      var r := StatusReport(runners, row).value;
      RunSound(runners, Apply(row, Finish(Scheduler.Concluded(r.status), r.exitCode, r.reason, r.category, PersistedAll(r.outputs)), now))
  {
    hide PersistedAll;
  }

  /** A row requeued or failed by the scheduler on its own account. */
  lemma AccountBacked(runners: map<string, RunnerState>, row: JobRow, w: Write, now: Time)
    requires RunSound(runners, row)
    requires || w.Requeue?
             || (w.Finish? && w.status == JobStatus.Failed && !FromScript(w.reason) && w.outputs == map[])
    ensures RunSound(runners, Apply(row, w, now))
  {
  }

  /** What a row becomes when it takes over its run's report. */
  lemma ReportBacked(b: Budget, runners: map<string, RunnerState>, row: JobRow, lost: set<string>, key: Key, w: Write, now: Time)
    requires row.status.InFlight() && RunSound(runners, row)
    requires StatusReport(runners, row).Some?
    requires ReportEffect(b, row, StatusReport(runners, row).value, lost, key).writes == [w]
    ensures RunSound(runners, Apply(row, w, now))
  {
    hide RunSound, Apply, PersistedAll, TransferFails, NextPolled;
    var r := StatusReport(runners, row).value;
    if !r.status.IsTerminal() {
      ProgressBacked(runners, row, NextPolled(row.status, r.status), now);
    } else if w == Finish(Scheduler.Concluded(r.status), r.exitCode, r.reason, r.category, PersistedAll(r.outputs)) {
      EndBacked(runners, row, now);
    } else {
      AccountBacked(runners, row, w, now);
    }
  }

  lemma PollBacked(p: Setting, runners: map<string, RunnerState>, row: JobRow, v: PollView)
    requires Coherent(p.cfg.budget, row) && RunSound(runners, row)
    requires v.report.Some? ==> v.report == StatusReport(runners, row)
    ensures RunSound(runners, ApplyAll(row, PollEffect(p.cfg, row, v).writes, v.now))
  {
    hide Coherent, RunSound, ReportEffect, Apply;
    var ws := PollEffect(p.cfg, row, v).writes;
    PollWrites(p.cfg, row, v);
    if |ws| == 1 {
      assert ws == [ws[0]];
      ApplyOne(row, ws[0], v.now);
      if ws[0] != RecordCancelRetry && ws[0] != MarkCancelRetryExhausted {
        ReportBacked(p.cfg.budget, runners, row, v.lost, v.freshKey, ws[0], v.now);
      } else {
        QuietWriteBacked(p.cfg.budget, runners, row, ws[0], v.now);
      }
    } else if ws != [] {
      assert ws == [ws[0], ws[1]];
      ApplyTwo(row, ws[0], ws[1], v.now);
      ReportWritesOnce(p.cfg.budget, row, v.report.value, v.lost, v.freshKey);
      assert ReportEffect(p.cfg.budget, row, v.report.value, v.lost, v.freshKey).writes == [ws[1]];
      ReportAfterRetry(p.cfg.budget, row, v.report.value, v.lost, v.freshKey, v.now);
      QuietWriteBacked(p.cfg.budget, runners, row, RecordCancelRetry, v.now);
      RetryLeaves(runners, row, v.now);
      ReportBacked(p.cfg.budget, runners, Apply(row, RecordCancelRetry, v.now), v.lost, v.freshKey, ws[1], v.now);
    }
  }

  lemma RetryLeaves(runners: map<string, RunnerState>, row: JobRow, now: Time)
    ensures
      var after := Apply(row, RecordCancelRetry, now);
      after.status == row.status && StatusReport(runners, after) == StatusReport(runners, row)
  {
  }

  /** Writes that report nothing. */
  lemma QuietWriteBacked(b: Budget, runners: map<string, RunnerState>, row: JobRow, w: Write, now: Time)
    requires Coherent(b, row) && RunSound(runners, row) && row.status.InFlight()
    requires w == RecordCancelRetry || w == MarkCancelRetryExhausted || w.MarkCancelRequested?
    ensures RunSound(runners, Apply(row, w, now))
  {
  }

  /** A row in Canceling has a run that is being canceled or was, and will be reported so. */
  lemma CancelingIsReportedSo(p: Setting, w: World, i: nat)
    requires RunnersSound(p, w) && i < |w.rows| && RunSound(w.runners, w.rows[i])
    ensures w.rows[i].status == JobStatus.Canceling && StatusReport(w.runners, w.rows[i]).Some? ==>
              OnlyCanceled(StatusReport(w.runners, w.rows[i]).value)
  {
    hide EntrySound, Exclusive;
    var row := w.rows[i];
    if row.status == JobStatus.Canceling && StatusReport(w.runners, row).Some? {
      assert DirSound(p.idOf, row.runId.value, w.runners[row.runnerId].disk[row.runId.value]);
    }
  }

  lemma PollStepSound(p: Setting, w: World, a: Action)
    requires Sound(p, w) && a.Poll? && a.i < |w.rows|
    ensures Sound(p, PollStep(p, w, a))
  {
    hide RunSound, RunnersSound, LogSound, PipelineSound;
    var v := PollViewOf(p, w, a);
    var mid := AfterPollCalls(p, w, a);
    AfterPollCallsSound(p, w, a);
    assert RowSound(p.cfg.budget, mid.owner, mid.rows[a.i], mid.writes[a.i], a.i) && RunSound(mid.runners, mid.rows[a.i]);
    CancelingIsReportedSo(p, mid, a.i);
    PollIsPermitted(p.cfg, w.rows[a.i], v);
    PollFollows(p.cfg, w.rows[a.i], v);
    PollBacked(p, mid.runners, w.rows[a.i], v);
    ServerWritesSound(p, mid, a.i, UpTo(PollEffect(p.cfg, w.rows[a.i], v), a.finalized), a.now);
  }

  // ---------------------------------------------------------------------------------------------
  // Canceling the pipeline

  lemma {:induction false} CancelCallsSound(p: Setting, w: World, i: nat, a: Action)
    requires Sound(p, w) && a.CancelPipeline? && i <= |w.rows|
    ensures Sound(p, w.(runners := CancelCalls(w.rows, w.runners, i, a).0))
    decreases |w.rows| - i
  {
    hide Sound;
    if i < |w.rows| && i < a.reach {
      if !CancelsRemotely(w.rows[i], i, CancelViewOf(a, {})) {
        CancelCallsSound(p, w, i + 1, a);
      } else if w.rows[i].runnerId in w.runners && i in a.arriving {
        CancelCallSound(p, w, w.rows[i].runnerId, w.rows[i].runId.value, a.stored);
        var r' := Cancel(w.runners[w.rows[i].runnerId], w.rows[i].runId.value, a.stored).0;
        CancelCallsSound(p, w.(runners := w.runners[w.rows[i].runnerId := r']), i + 1, a);
      }
    }
  }

  /** The one statement the cancel loop may run on a row. */
  lemma CancelWriteSound(p: Setting, w: World, k: nat, x: Write, now: Time)
    requires |w.writes| == |w.rows| && k < |w.rows|
    requires RowSound(p.cfg.budget, w.owner, w.rows[k], w.writes[k], k) && RunSound(w.runners, w.rows[k])
    requires || (x == MarkCancelRequested(UserRequested) && w.rows[k].status == JobStatus.Running)
             || (x == SetStatus(JobStatus.Canceled) && w.rows[k].status == JobStatus.Pending)
    ensures RowSound(p.cfg.budget, w.owner, Apply(w.rows[k], x, now), w.writes[k] + 1, k)
    ensures RunSound(w.runners, Apply(w.rows[k], x, now))
    ensures Apply(w.rows[k], x, now) != w.rows[k]
  {
    hide Potential;
    WriteStep(p.cfg.budget, w.rows[k], x, now);
  }

  lemma CancelStepSound(p: Setting, w: World, a: Action)
    requires Sound(p, w) && a.CancelPipeline?
    ensures Sound(p, CancelStep(w, a))
  {
    hide RunSound, RunnersSound, LogSound, RowSound, Apply, CancelFrom, CancelCalls;
    var (runners', accepted) := CancelCalls(w.rows, w.runners, 0, a);
    var mid := w.(runners := runners');
    CancelCallsSound(p, w, 0, a);
    var v := CancelViewOf(a, accepted);
    var w' := CancelStep(w, a);
    CancelWritesOnce(w.rows, 0, v, false);
    forall k | 0 <= k < |w.rows|
      ensures RowSound(p.cfg.budget, w'.owner, w'.rows[k], w'.writes[k], k) && RunSound(w'.runners, w'.rows[k])
      ensures w'.rows[k].runnerId == w.rows[k].runnerId
    {
      assert RowSound(p.cfg.budget, mid.owner, mid.rows[k], mid.writes[k], k) && RunSound(mid.runners, mid.rows[k]);
      if w'.rows[k] != w.rows[k] {
        var x := CancelWrite(w.rows[k]);
        CancelWriteSound(p, mid, k, x, a.now);
        KeepsRunner(w.rows[k], x, a.now);
      }
    }
    assert RowsSound(p, w');
    RunnerPartSurvives(p, mid, w');
  }

  lemma KeepsRunner(row: JobRow, x: Write, now: Time)
    ensures Apply(row, x, now).runnerId == row.runnerId
  {
  }

  // ---------------------------------------------------------------------------------------------
  // Every step, every run

  lemma StepSound(p: Setting, w: World, a: Action)
    requires Sound(p, w)
    ensures Sound(p, Step(p, w, a))
  {
    hide RunSound, RunnersSound, LogSound, RowsSound;
    match a
    case Dispatch(i, _, _, _, _, _, _, _, _, _) => if i < |w.rows| { DispatchStepSound(p, w, a); }
    case Poll(i, _, _, _, _, _, _, _, _) => if i < |w.rows| { PollStepSound(p, w, a); }
    case CancelPipeline(_, _, _, _, _, _) => CancelStepSound(p, w, a);
    case RecoverPipelines(now) => RecoverStepSound(p, w, now);
    case AtRunner(runnerId, _) => if runnerId in w.runners { RunnerWorldStepSound(p, w, a); }
  }

  lemma RecoverStepSound(p: Setting, w: World, now: Time)
    requires Sound(p, w)
    ensures Sound(p, w.(pipeline := PipelineRecovered(ServerState(w.rows, w.pipeline), now).pipeline))
  {
    hide RunSound, RowSound, RunnerSound, Placed, SpawnsSound, Logged;
    var w' := w.(pipeline := PipelineRecovered(ServerState(w.rows, w.pipeline), now).pipeline);
    assert RowsSound(p, w');
    RunnerPartSurvives(p, w, w');
  }

  /** A pipeline just enqueued, on runners in any state this code can have left them in, none of which
      has seen the freshly issued keys. */
  ghost predicate Initial(p: Setting, w: World) {
    && |w.owner| == |w.rows| == |w.writes|
    && (forall i :: 0 <= i < |w.rows| ==>
          && w.rows[i] == NewRow(w.rows[i].runnerId, w.rows[i].jobName, w.rows[i].mayFail, Issued(i))
          && w.owner[i] == i && w.writes[i] == 0)
    && w.pipeline.status == PipelineStatus.Running
    && (forall id :: id in w.runners ==>
          && RunnerSound(p.idOf, w.runners[id])
          && (forall j :: j in w.runners[id].disk && w.runners[id].disk[j].Recorded? ==>
                !w.runners[id].disk[j].record.key.Issued?))
    && (forall k :: k in w.spawned ==> !k.Issued?)
  }

  function Run(p: Setting, w: World, actions: seq<Action>): (w': World)
    requires |w.rows| == |w.writes|
    ensures |w'.rows| == |w'.writes| == |w.rows|
    decreases |actions|
  {
    if actions == [] then w else Run(p, Step(p, w, actions[0]), actions[1..])
  }

  lemma RunOne(p: Setting, w: World, a: Action, rest: seq<Action>)
    requires |w.rows| == |w.writes|
    ensures Run(p, w, [a] + rest) == Run(p, Step(p, w, a), rest)
  {
    hide Step;
    assert ([a] + rest)[1..] == rest;
  }

  /** Running a sequence of actions is running its parts one after the other. */
  lemma {:induction false} RunSplits(p: Setting, w: World, first: seq<Action>, rest: seq<Action>)
    requires |w.rows| == |w.writes|
    ensures Run(p, w, first + rest) == Run(p, Run(p, w, first), rest)
    decreases |first|
  {
    hide Step;
    if first == [] {
      assert first + rest == rest;
    } else {
      assert (first + rest)[1..] == first[1..] + rest;
      RunSplits(p, Step(p, w, first[0]), first[1..], rest);
    }
  }

  lemma {:induction false} RunSoundThroughout(p: Setting, w: World, actions: seq<Action>)
    requires Sound(p, w)
    ensures Sound(p, Run(p, w, actions))
    decreases |actions|
  {
    hide RowsSound, RunnersSound, LogSound, PipelineSound;
    if actions != [] {
      StepSound(p, w, actions[0]);
      RunSoundThroughout(p, Step(p, w, actions[0]), actions[1..]);
    }
  }

  lemma {:induction false} OwnedIdentity(owner: seq<nat>, i: nat)
    requires forall k :: 0 <= k < |owner| ==> owner[k] == k
    ensures Owned(owner, i) == if i < |owner| then 1 else 0
  {
    if owner != [] {
      OwnedIdentity(owner[..|owner| - 1], i);
    }
  }

  lemma FreshRowSound(b: Budget, owner: seq<nat>, row: JobRow, i: nat)
    requires i < |owner| && forall k :: 0 <= k < |owner| ==> owner[k] == k
    requires row == NewRow(row.runnerId, row.jobName, row.mayFail, Issued(i))
    ensures RowSound(b, owner, row, 0, i)
  {
    OwnedIdentity(owner, i);
    BudgetArithmetic(b);
  }

  lemma ForeignRunnerSound(p: Setting, w: World, id: string)
    requires Initial(p, w) && id in w.runners
    ensures SpawnsSound(w.spawned, w.runners[id]) && Placed(w.rows, w.owner, id, w.runners[id].disk)
  {
    hide RecordSound, EntrySound, Exclusive;
    forall j | j in w.runners[id].running ensures JobSpawns(w.spawned, w.runners[id].running[j]) {
      LiveRun(p.idOf, w.runners[id], j);
    }
  }

  lemma InitialIsSound(p: Setting, w: World)
    requires Initial(p, w)
    ensures Sound(p, w)
  {
    hide RunnerSound, RowSound, SpawnsSound, Placed;
    forall i | 0 <= i < |w.rows| ensures RowSound(p.cfg.budget, w.owner, w.rows[i], w.writes[i], i) {
      FreshRowSound(p.cfg.budget, w.owner, w.rows[i], i);
    }
    forall id | id in w.runners ensures SpawnsSound(w.spawned, w.runners[id]) && Placed(w.rows, w.owner, id, w.runners[id].disk) {
      ForeignRunnerSound(p, w, id);
    }
    assert LogSound(p, w);
  }

  lemma BudgetArithmetic(b: Budget)
    ensures b.maxInfraRetries * (3 + b.maxCancelRetries) + 4 + b.maxCancelRetries == WriteBound(b)
  {
  }
}
