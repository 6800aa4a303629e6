/** Nothing is canceled that nobody canceled: a run is marked, terminated or recorded as canceled only if,
    at some moment before, its runner was told to cancel it or was shut down. */
module SignaledRuns {
  import opened Wire
  import opened JobRows
  import opened Scheduler
  import opened Manifests
  import opened RunnerJobs
  import opened RunnerOutcomes
  import opened Protocol
  import opened ProtocolSafety
  import opened ProtocolTheorems

  /** An act of the runner that tells run `j` to end. */
  predicate ActTells(act: RunnerAct, j: RunId) {
    (act.CancelRun? && act.runId == j) || act.BeginShutdown?
  }

  /** Action `a` has run `j` of runner `id` told: by a cancel call on behalf of one of the rows, by any other
      client's, or by shutting the runner down. */
  predicate Tells(p: Setting, w: World, a: Action, id: string, j: RunId) {
    match a
    case Dispatch(_, _, _, _, _, _, _, _, _, _) => false
    case Poll(i, _, _, _, between, _, _, _, _) =>
      && i < |w.rows| && w.rows[i].runnerId == id
      && (|| (CancelArrives(p, w, a) && w.rows[i].runId == Some(j))
          || exists k :: 0 <= k < |between| && ActTells(between[k], j))
    case CancelPipeline(known, arriving, _, _, _, _) =>
      exists k :: 0 <= k < |w.rows| && k in known && k in arriving
                  && w.rows[k].runnerId == id && w.rows[k].runId == Some(j)
    case RecoverPipelines(_) => false
    case AtRunner(o, act) => o == id && ActTells(act, j)
  }

  /** Nothing at the runner speaks of canceling run `j`. */
  predicate Unmarked(r: RunnerState, j: RunId) {
    && (j in r.disk && r.disk[j].Recorded? ==> !InCancellation(r.disk[j].record.status))
    && (j in r.running ==> !r.running[j].cancelSignaled && r.running[j].phase != Terminating)
  }

  predicate UnmarkedAt(runners: map<string, RunnerState>, id: string, j: RunId) {
    id in runners ==> Unmarked(runners[id], j)
  }

  lemma CreateMarksNothing(r: RunnerState, runId: RunId, req: CreateRequest, setup: Setup, now: Time, j: RunId)
    requires Unmarked(r, j)
    ensures Unmarked(Create(r, runId, req, setup, now).0, j)
  {
  }

  lemma CancelMarksOnlyItsOwn(r: RunnerState, runId: RunId, stored: bool, j: RunId)
    requires Unmarked(r, j) && runId != j
    ensures Unmarked(Cancel(r, runId, stored).0, j)
  {
  }

  lemma EndingMarksNothing(r: RunnerState, runId: RunId, o: Outcome, reg: Registration, stored: bool, now: Time, j: RunId)
    requires Unmarked(r, j) && runId in r.running && OutcomePossible(r.running[runId], o)
    ensures Unmarked(FinishJob(r, runId, o, reg, stored, now), j)
  {
    hide EndedAs;
    FinishOutcome(r, runId, o, reg, stored, now);
    if stored && runId == j {
      CanceledIsObserved(r.running[runId].execution, o, reg, now, FinishJob(r, runId, o, reg, stored, now).disk[runId].record);
    }
  }

  lemma CanceledIsObserved(start: RunRecord, o: Outcome, reg: Registration, now: Time, m: RunRecord)
    requires EndedAs(start, o, reg, now, m)
    ensures InCancellation(m.status) ==> o.CancelObserved?
  {
  }

  lemma ActMarksNothing(idOf: Naming, r: RunnerState, act: RunnerAct, j: RunId)
    requires Unmarked(r, j) && !ActTells(act, j)
    ensures Unmarked(RunnerStep(idOf, r, act), j)
  {
    hide Create, Cancel, FinishJob, Unmarked;
    match act
    case ForeignCreate(tag, name, requestHash, inputCheck, setup, now) =>
      CreateMarksNothing(r, idOf(Foreign(tag)), CreateRequest(name, Foreign(tag), requestHash, inputCheck), setup, now, j);
    case SpawnScript(k) => if k in r.running && r.running[k].phase == Starting { SpawnMarksNothing(r, k, j); }
    case CancelRun(k, stored) => CancelMarksOnlyItsOwn(r, k, stored, j);
    case SeeCancel(k, stored) =>
      if k in r.running && r.running[k].cancelSignaled { SeeMarksOnlyTold(r, k, stored, j); }
    case FinishRun(k, outcome, registration, stored, now) =>
      if k in r.running && OutcomePossible(r.running[k], outcome) {
        EndingMarksNothing(r, k, outcome, registration, stored, now, j);
      }
    case BeginShutdown(unstored) =>
    case CrashAndRestart(manifests, now) => RestartMarksNothing(r, manifests, now, j);
  }

  lemma SpawnMarksNothing(r: RunnerState, k: RunId, j: RunId)
    requires Unmarked(r, j) && k in r.running
    ensures Unmarked(Spawn(r, k), j)
  {
  }

  lemma SeeMarksOnlyTold(r: RunnerState, k: RunId, stored: bool, j: RunId)
    requires Unmarked(r, j) && k in r.running && r.running[k].cancelSignaled
    ensures Unmarked(ObserveCancel(r, k, stored), j)
  {
  }

  lemma RestartMarksNothing(r: RunnerState, manifests: map<string, JobSchema>, now: Time, j: RunId)
    requires Unmarked(r, j)
    ensures Unmarked(Restart(r, manifests, now), j)
  {
  }

  lemma {:induction false} ActsMarkNothing(p: Setting, w: World, id: string, acts: seq<RunnerAct>, o: string, j: RunId)
    requires UnmarkedAt(w.runners, o, j)
    requires id == o ==> forall k :: 0 <= k < |acts| ==> !ActTells(acts[k], j)
    ensures UnmarkedAt(AfterActs(p, w, id, acts).runners, o, j)
    decreases |acts|
  {
    hide Unmarked, RunnerStep, ActTells;
    if acts != [] && id in w.runners {
      if id == o {
        ActMarksNothing(p.idOf, w.runners[id], acts[0], j);
      }
      ActsMarkNothing(p, RunnerWorldStep(p, w, AtRunner(id, acts[0])), id, acts[1..], o, j);
    }
  }

  lemma {:induction false} CallsMarkOnlyTheirOwn(
      rows: seq<JobRow>, runners: map<string, RunnerState>, i: nat, a: Action, id: string, j: RunId)
    requires a.CancelPipeline? && i <= |rows| && UnmarkedAt(runners, id, j)
    requires forall k :: 0 <= k < |rows| && k in a.known && k in a.arriving ==>
               rows[k].runnerId != id || rows[k].runId != Some(j)
    ensures UnmarkedAt(CancelCalls(rows, runners, i, a).0, id, j)
    decreases |rows| - i
  {
    hide Unmarked, Cancel;
    if i == |rows| || a.reach <= i {
    } else if !CancelsRemotely(rows[i], i, CancelViewOf(a, {})) {
      CallsMarkOnlyTheirOwn(rows, runners, i + 1, a, id, j);
    } else if rows[i].runnerId in runners && i in a.arriving {
      if rows[i].runnerId == id {
        CancelMarksOnlyItsOwn(runners[id], rows[i].runId.value, a.stored, j);
      }
      var r' := Cancel(runners[rows[i].runnerId], rows[i].runId.value, a.stored).0;
      CallsMarkOnlyTheirOwn(rows, runners[rows[i].runnerId := r'], i + 1, a, id, j);
    }
  }

  lemma PollMarksOnlyItsOwn(p: Setting, w: World, a: Action, id: string, j: RunId)
    requires |w.rows| == |w.writes| && a.Poll? && a.i < |w.rows| && UnmarkedAt(w.runners, id, j) && !Tells(p, w, a, id, j)
    ensures UnmarkedAt(PollStep(p, w, a).runners, id, j)
  {
    hide Unmarked, Cancel, PollEffect, StatusReport, ActTells;
    var row, mid := w.rows[a.i], AfterCancelRetry(p, w, a);
    if CancelArrives(p, w, a) && row.runnerId == id {
      CancelMarksOnlyItsOwn(w.runners[id], row.runId.value, a.stored, j);
    }
    ActsMarkNothing(p, mid, row.runnerId, a.between, id, j);
  }

  lemma DispatchMarksNothing(p: Setting, w: World, a: Action, id: string, j: RunId)
    requires |w.rows| == |w.writes| && a.Dispatch? && a.i < |w.rows| && UnmarkedAt(w.runners, id, j)
    ensures UnmarkedAt(DispatchStep(p, w, a).runners, id, j)
  {
    hide Unmarked, Create, DispatchEffect, ReplySeen;
    if CreateArrives(w, a) && w.rows[a.i].runnerId == id {
      var row := w.rows[a.i];
      CreateMarksNothing(w.runners[id], p.idOf(row.dispatchKey), RequestOf(row, a.requestHash, a.inputCheck), a.setup, a.now, j);
    }
  }

  lemma StepMarksOnlyTold(p: Setting, w: World, a: Action, id: string, j: RunId)
    requires |w.rows| == |w.writes| && UnmarkedAt(w.runners, id, j) && !Tells(p, w, a, id, j)
    ensures UnmarkedAt(Step(p, w, a).runners, id, j)
  {
    hide Unmarked, PollStep, DispatchStep, CancelCalls, RunnerStep, CancelFrom;
    match a
    case Dispatch(i, _, _, _, _, _, _, _, _, _) => if i < |w.rows| { DispatchMarksNothing(p, w, a, id, j); }
    case Poll(i, _, _, _, _, _, _, _, _) => if i < |w.rows| { PollMarksOnlyItsOwn(p, w, a, id, j); }
    case CancelPipeline(_, _, _, _, _, _) => CallsMarkOnlyTheirOwn(w.rows, w.runners, 0, a, id, j);
    case RecoverPipelines(_) =>
    case AtRunner(o, act) => if o == id && id in w.runners { ActMarksNothing(p.idOf, w.runners[id], act, j); }
  }

  /** Some action of the run has it told. */
  ghost predicate EverTold(p: Setting, w0: World, actions: seq<Action>, id: string, j: RunId)
    requires |w0.rows| == |w0.writes|
  {
    exists n :: 0 <= n < |actions| && Tells(p, Run(p, w0, actions[..n]), actions[n], id, j)
  }

  lemma {:induction false} UntoldIsUnmarked(p: Setting, w0: World, actions: seq<Action>, id: string, j: RunId)
    requires |w0.rows| == |w0.writes| && UnmarkedAt(w0.runners, id, j) && !EverTold(p, w0, actions, id, j)
    ensures UnmarkedAt(Run(p, w0, actions).runners, id, j)
    decreases |actions|
  {
    hide Step, Tells, UnmarkedAt;
    if actions != [] {
      var n := |actions| - 1;
      var before, a := actions[..n], actions[n];
      assert actions == before + [a];
      forall k | 0 <= k < n ensures !Tells(p, Run(p, w0, before[..k]), before[k], id, j) {
        assert before[..k] == actions[..k];
      }
      UntoldIsUnmarked(p, w0, before, id, j);
      StepMarksOnlyTold(p, Run(p, w0, before), a, id, j);
      RunSplits(p, w0, before, [a]);
      assert Run(p, Run(p, w0, before), [a]) == Step(p, Run(p, w0, before), a) by {
        assert [a][1..] == [];
      }
    }
  }

  lemma IssuedIsUnmarkedAtFirst(p: Setting, w0: World, actions: seq<Action>, id: string, j: RunId)
    requires Initial(p, w0) && HoldsRecord(Run(p, w0, actions).runners, id, j)
    requires Run(p, w0, actions).runners[id].disk[j].record.key.Issued?
    ensures UnmarkedAt(w0.runners, id, j)
  {
    hide RecordSound, EntrySound, Exclusive, Step;
    assert [] + actions == actions;
    if HoldsRecord(w0.runners, id, j) {
      RecordsGoForward(p, w0, [], actions, id, j);
    } else if id in w0.runners && j in w0.runners[id].running {
      LiveRun(p.idOf, w0.runners[id], j);
    }
  }

  /** Over every run: a run under one of the server's keys whose record reads CancelRequested, Canceling or
      Canceled has been told. */
  lemma CanceledRunsWereTold(p: Setting, w0: World, actions: seq<Action>, id: string, j: RunId)
    requires Initial(p, w0) && HoldsRecord(Run(p, w0, actions).runners, id, j)
    requires
      var m := Run(p, w0, actions).runners[id].disk[j].record;
      && m.key.Issued?
      && (m.status == RunStatus.CancelRequested || m.status == RunStatus.Canceling || m.status == RunStatus.Canceled)
    ensures EverTold(p, w0, actions, id, j)
  {
    hide Step, Tells;
    IssuedIsUnmarkedAtFirst(p, w0, actions, id, j);
    if !EverTold(p, w0, actions, id, j) {
      UntoldIsUnmarked(p, w0, actions, id, j);
    }
  }
}
