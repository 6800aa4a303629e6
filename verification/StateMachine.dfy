/** The two decision functions every scheduler step consults. */
module StateMachine {
  import opened Wire

  datatype JobStatus =
    | Pending | Running | CancelRequested | Canceling
    | Success | Failed | Canceled | Blocked | Skipped
  {
    predicate IsTerminal() {
      Success? || Failed? || Canceled? || Blocked? || Skipped?
    }

    /** Dispatched and not yet finished. */
    predicate InFlight() {
      Running? || CancelRequested? || Canceling?
    }
  }

  datatype PipelineStatus = Running | CancelRequested | Canceling | Success | Failed | Canceled | Blocked

  /** A job's status with whether its policy lets it fail. */
  type Verdict = (JobStatus, bool)

  predicate RequiredFailure(v: Verdict) {
    v.0 == JobStatus.Failed && !v.1
  }

  predicate Succeeded(v: Verdict) {
    v.0 == JobStatus.Success || v.0 == JobStatus.Skipped
  }

  predicate Unfinished(v: Verdict) {
    v.0 == JobStatus.Pending || v.0.InFlight()
  }

  predicate AnyIs(vs: seq<Verdict>, s: JobStatus) {
    exists v :: v in vs && v.0 == s
  }

  predicate AnyRequiredFailure(vs: seq<Verdict>) {
    exists v :: v in vs && RequiredFailure(v)
  }

  function NextReadyJobStatus(previous: seq<Verdict>): Option<JobStatus> {
    if AnyRequiredFailure(previous) then Some(JobStatus.Blocked)
    else if exists v :: v in previous && Unfinished(v) then None
    else if AnyIs(previous, JobStatus.Canceled) then Some(JobStatus.Blocked)
    else Some(JobStatus.Pending)
  }

  function TerminalPipelineStatus(vs: seq<Verdict>): PipelineStatus {
    if vs != [] && forall v :: v in vs ==> Succeeded(v) then PipelineStatus.Success
    else if AnyRequiredFailure(vs) then PipelineStatus.Failed
    else if AnyIs(vs, JobStatus.Blocked) then PipelineStatus.Blocked
    else if vs != [] && forall v :: v in vs ==> v.0 == JobStatus.Canceled then PipelineStatus.Canceled
    else if AnyIs(vs, JobStatus.Canceling) then PipelineStatus.Canceling
    else if AnyIs(vs, JobStatus.CancelRequested) then PipelineStatus.CancelRequested
    else PipelineStatus.Running
  }

  /** A job may be dispatched exactly when every predecessor has finished, none of them as a
      required failure and none of them canceled. A `Blocked` predecessor does not hold it back. */
  lemma ReadyExactlyWhen(previous: seq<Verdict>)
    ensures NextReadyJobStatus(previous) == Some(JobStatus.Pending) <==>
            forall v :: v in previous ==>
              v.0.IsTerminal() && v.0 != JobStatus.Canceled && !RequiredFailure(v)
  {
    if NextReadyJobStatus(previous) == Some(JobStatus.Pending) {
      forall v | v in previous ensures v.0.IsTerminal() && v.0 != JobStatus.Canceled {
        assert !Unfinished(v);
      }
    }
  }

  /** The verdict reads its rows as a multiset, so an unordered query may feed it. */
  lemma VerdictIgnoresOrder(a: seq<Verdict>, b: seq<Verdict>)
    requires multiset(a) == multiset(b)
    ensures TerminalPipelineStatus(a) == TerminalPipelineStatus(b)
  {
    forall v ensures v in a <==> v in b {
      assert v in a <==> v in multiset(a);
      assert v in b <==> v in multiset(b);
    }
    assert |multiset(a)| == |multiset(b)|;
    assert a == [] <==> b == [];
  }

  /** Once every job is terminal the pipeline still reads `Running` in exactly these cases: it has
      no job, or nothing failed for good or was blocked but some job failed with leave to do so, or
      canceled jobs stand beside jobs that were not. */
  lemma FinishedJobsLeavePipelineRunning(vs: seq<Verdict>)
    requires forall v :: v in vs ==> v.0.IsTerminal()
    ensures TerminalPipelineStatus(vs) == PipelineStatus.Running <==>
            || vs == []
            || (&& !AnyRequiredFailure(vs)
                && !AnyIs(vs, JobStatus.Blocked)
                && (|| AnyIs(vs, JobStatus.Failed)
                    || (AnyIs(vs, JobStatus.Canceled) && exists v :: v in vs && v.0 != JobStatus.Canceled)))
  {
    if vs != [] {
      assert vs[0] in vs;
      if v :| v in vs && !Succeeded(v) {
        assert v.0.IsTerminal();
      }
      assert !AnyIs(vs, JobStatus.Canceling) && !AnyIs(vs, JobStatus.CancelRequested);
    }
  }
}
