/** A job row as the database holds it: a record each statement updates in place, column by column,
    some columns only for some statuses. Every method is proved to be the write of `JobRows` it
    stands for and to bring the row closer to its end; the pipeline's passes are built on them. */
module JobRunRecord {
  import opened Wire
  import opened StateMachine
  import opened JobRows

  class JobRun {
    var row: JobRow

    constructor (runnerId: string, jobName: string, mayFail: bool, key: Key)
      ensures row == NewRow(runnerId, jobName, mayFail, key)
    {
      row := NewRow(runnerId, jobName, mayFail, key);
    }

    method ClearCancelProgress()
      modifies this
      ensures row == old(row).(cancelRequestedAt := None, cancelStartedAt := None, cancelRetryCount := 0, lastCancelRetryAt := None)
    {
      row := row.(cancelRequestedAt := None, cancelStartedAt := None);
      row := row.(cancelRetryCount := 0, lastCancelRetryAt := None);
    }

    method ClearResult()
      modifies this
      ensures row == old(row).(exitCode := None, terminalReason := None, failureCategory := None)
    {
      row := row.(exitCode := None, terminalReason := None, failureCategory := None);
    }

    method SetStarted(runId: RunId, startedAt: Time, now: Time)
      modifies this
      ensures row == Apply(old(row), Write.SetStarted(runId, startedAt), now)
      ensures Progresses(old(row), Write.SetStarted(runId, startedAt), row)
    {
      WriteProgresses(row, Write.SetStarted(runId, startedAt), now);
      hide Progresses;
      row := row.(status := JobStatus.Running, runId := Some(runId), startedAt := Some(startedAt));
      row := row.(cancelReason := None);
      ClearCancelProgress();
    }

    /** Progress of a cancellation is kept only by a job that ends canceled. */
    method Finish(s: JobStatus, exitCode: Option<int>, reason: Option<TerminalReason>, category: Option<FailureCategory>,
                  outputs: map<string, RunOutput>, now: Time)
      modifies this
      ensures row == Apply(old(row), Write.Finish(s, exitCode, reason, category, outputs), now)
      ensures Progresses(old(row), Write.Finish(s, exitCode, reason, category, outputs), row)
    {
      WriteProgresses(row, Write.Finish(s, exitCode, reason, category, outputs), now);
      hide Progresses;
      row := row.(status := s, exitCode := exitCode, terminalReason := reason, failureCategory := category);
      row := row.(finishedAt := Some(now));
      if s != JobStatus.Canceled {
        ClearCancelProgress();
      }
      row := row.(outputs := outputs);
    }

    method SetStatus(s: JobStatus, now: Time)
      modifies this
      ensures row == Apply(old(row), Write.SetStatus(s), now)
      ensures Progresses(old(row), Write.SetStatus(s), row)
    {
      WriteProgresses(row, Write.SetStatus(s), now);
      hide Progresses;
      row := row.(status := s);
      ClearResult();
      if s == JobStatus.CancelRequested {
        if row.cancelRequestedAt == None {
          row := row.(cancelRequestedAt := Some(now));
        }
        row := row.(cancelStartedAt := None);
      } else if s == JobStatus.Canceling {
        if row.cancelStartedAt == None {
          row := row.(cancelStartedAt := Some(now));
        }
      } else if s != JobStatus.Canceled {
        row := row.(cancelReason := None);
        ClearCancelProgress();
      }
      row := row.(finishedAt := if s.IsTerminal() then Some(now) else None);
    }

    method MarkCancelRequested(cause: CancelReason, now: Time)
      modifies this
      ensures row == Apply(old(row), Write.MarkCancelRequested(cause), now)
      ensures Progresses(old(row), Write.MarkCancelRequested(cause), row)
    {
      WriteProgresses(row, Write.MarkCancelRequested(cause), now);
      hide Progresses;
      row := row.(status := JobStatus.CancelRequested, cancelReason := Some(cause), finishedAt := None);
      if row.cancelRequestedAt == None {
        row := row.(cancelRequestedAt := Some(now));
      }
    }

    method RecordCancelRetry(now: Time) returns (count: nat)
      modifies this
      ensures row == Apply(old(row), Write.RecordCancelRetry, now)
      ensures Progresses(old(row), Write.RecordCancelRetry, row)
      ensures count == old(row).cancelRetryCount + 1
    {
      WriteProgresses(row, Write.RecordCancelRetry, now);
      hide Progresses;
      row := row.(cancelRetryCount := row.cancelRetryCount + 1, lastCancelRetryAt := Some(now));
      count := row.cancelRetryCount;
    }

    method RequeueForInfraRetry(freshKey: Key, now: Time) returns (count: nat)
      modifies this
      ensures row == Apply(old(row), Requeue(freshKey), now)
      ensures Progresses(old(row), Requeue(freshKey), row)
      ensures count == old(row).infraRetryCount + 1
    {
      WriteProgresses(row, Requeue(freshKey), now);
      hide Progresses;
      row := row.(status := JobStatus.Pending, dispatchKey := freshKey, runId := None, startedAt := None, finishedAt := None);
      ClearResult();
      row := row.(cancelReason := None);
      ClearCancelProgress();
      row := row.(infraRetryCount := row.infraRetryCount + 1, lastInfraRetryAt := Some(now), outputs := map[]);
      count := row.infraRetryCount;
    }

    method MarkCancelRetryExhausted(now: Time)
      modifies this
      ensures row == Apply(old(row), Write.MarkCancelRetryExhausted, now)
      ensures Progresses(old(row), Write.MarkCancelRetryExhausted, row)
    {
      WriteProgresses(row, Write.MarkCancelRetryExhausted, now);
      hide Progresses;
      row := row.(status := JobStatus.Failed, cancelReason := Some(StuckRetryExhausted));
      row := row.(terminalReason := Some(TerminalReason.Canceled), failureCategory := Some(FailureCategory.Infra));
      row := row.(finishedAt := Some(now));
    }
  }
}
