/** The order a chain of jobs is worked through, and that every scheduler step respects it. */
module PipelineShape {
  import opened Wire
  import opened StateMachine
  import opened JobRows
  import opened Scheduler

  /** Jobs before `p` are finished, job `p` if there is one is not, and the jobs after it are all
      still waiting or all canceled. */
  predicate ShapedAt(rows: seq<JobRow>, p: nat) {
    && p <= |rows|
    && (forall i :: 0 <= i < p ==> rows[i].status.IsTerminal())
    && (p < |rows| ==> !rows[p].status.IsTerminal())
    && ((forall i :: p < i < |rows| ==> rows[i].status == JobStatus.Pending)
        || (forall i :: p < i < |rows| ==> rows[i].status == JobStatus.Canceled))
  }

  ghost predicate Shaped(rows: seq<JobRow>) {
    exists p :: ShapedAt(rows, p)
  }

  /** An in-flight job is the only one; every job before it has finished and none after it has started. */
  lemma InFlightIsAlone(rows: seq<JobRow>, i: nat)
    requires Shaped(rows) && i < |rows| && rows[i].status.InFlight()
    ensures forall j :: 0 <= j < i ==> rows[j].status.IsTerminal()
    ensures forall j :: i < j < |rows| ==> rows[j].status == JobStatus.Pending || rows[j].status == JobStatus.Canceled
  {
    var p: nat :| ShapedAt(rows, p);
    assert p == i;
  }

  /** The row a step may write is the one unfinished job at the front, and whatever the write makes
      of it the chain keeps its shape. */
  lemma FrontWriteKeepsShape(rows: seq<JobRow>, i: nat, row: JobRow)
    requires Shaped(rows) && i < |rows|
    requires rows[i].status.InFlight() || (rows[i].status == JobStatus.Pending && (i == 0 || rows[i - 1].status.IsTerminal()))
    ensures ShapedAt(rows, i)
    ensures Shaped(rows[i := row])
  {
    var p: nat :| ShapedAt(rows, p);
    assert p == i;
    var after := rows[i := row];
    if !row.status.IsTerminal() {
      assert ShapedAt(after, i);
    } else if forall k :: i < k < |rows| ==> rows[k].status == JobStatus.Canceled {
      assert ShapedAt(after, |rows|);
    } else {
      assert ShapedAt(after, i + 1);
    }
  }

  /** What the cancel loop makes of a row that is not running. */
  function Dropped(row: JobRow, now: Time): JobRow {
    if row.status == JobStatus.Pending then Apply(row, SetStatus(JobStatus.Canceled), now) else row
  }

  /** Past the unfinished job the cancel loop meets no running job, so nothing but the process stopping
      ends it early, and it cancels exactly what was still waiting among the rows it reaches. */
  lemma {:induction false} CancelTail(rows: seq<JobRow>, i: nat, v: CancelView, requested: bool)
    requires i <= |rows|
    requires forall k :: i <= k < |rows| ==> rows[k].status != JobStatus.Running
    ensures
      var out := CancelFrom(rows, i, v, requested);
      && out.completed == (|rows| < v.reach) && out.requested == requested && |out.rows| == |rows|
      && (forall k :: 0 <= k < |rows| ==>
            out.rows[k] == if i <= k < v.reach then Dropped(rows[k], v.now) else rows[k])
    decreases |rows| - i
  {
    hide Apply;
    if i < |rows| && i < v.reach {
      if rows[i].status == JobStatus.Pending {
        CancelTail(rows[i := Apply(rows[i], SetStatus(JobStatus.Canceled), v.now)], i + 1, v, requested);
      } else {
        CancelTail(rows, i + 1, v, requested);
      }
    }
  }

  /** Finished rows at the front are stepped over. */
  lemma {:induction false} CancelSkipsFinished(rows: seq<JobRow>, i: nat, p: nat, v: CancelView, requested: bool)
    requires i <= p <= |rows| && forall k :: i <= k < p ==> rows[k].status.IsTerminal()
    ensures CancelFrom(rows, i, v, requested) ==
              if v.reach <= p then CancelOutcome(rows, false, requested) else CancelFrom(rows, p, v, requested)
    decreases p - i
  {
    if i < p && i < v.reach {
      CancelSkipsFinished(rows, i + 1, p, v, requested);
    }
  }

  /** The row the cancel loop leaves at the front. */
  function CanceledFront(row: JobRow, i: nat, v: CancelView): JobRow {
    if CancelsRemotely(row, i, v) then Apply(row, MarkCancelRequested(UserRequested), v.now) else Dropped(row, v.now)
  }

  /** The loop stops at the unfinished job because its runner does not accept the cancel call. */
  predicate RefusedAt(rows: seq<JobRow>, p: nat, v: CancelView) {
    p < |rows| && p < v.reach && CancelsRemotely(rows[p], p, v) && p !in v.accepted
  }

  /** What canceling a well-shaped pipeline does, without the loop. */
  lemma CancelClosedForm(rows: seq<JobRow>, p: nat, v: CancelView)
    requires ShapedAt(rows, p)
    ensures
      var out := CancelFrom(rows, 0, v, false);
      && |out.rows| == |rows|
      && out.completed == (|rows| < v.reach && !RefusedAt(rows, p, v))
      && out.requested == (p < |rows| && p < v.reach && CancelsRemotely(rows[p], p, v) && p in v.accepted)
      && (forall k :: 0 <= k < |rows| ==>
            out.rows[k] == if k < p || v.reach <= k || RefusedAt(rows, p, v) then rows[k]
                           else if k == p then CanceledFront(rows[p], p, v)
                           else Dropped(rows[k], v.now))
  {
    hide Apply, CancelFrom, Dropped;
    CancelSkipsFinished(rows, 0, p, v, false);
    if p < v.reach {
      if p == |rows| {
        CancelTail(rows, p, v, false);
      } else {
        CancelAtFront(rows, p, v);
        if !RefusedAt(rows, p, v) {
          CancelTail(rows[p := CanceledFront(rows[p], p, v)], p + 1, v, CancelsRemotely(rows[p], p, v));
        }
      }
    }
  }

  /** The loop's turn at the unfinished job. */
  lemma CancelAtFront(rows: seq<JobRow>, p: nat, v: CancelView)
    requires p < |rows| && p < v.reach
    ensures CancelFrom(rows, p, v, false) ==
              if RefusedAt(rows, p, v) then CancelOutcome(rows, false, false)
              else CancelFrom(rows[p := CanceledFront(rows[p], p, v)], p + 1, v, CancelsRemotely(rows[p], p, v))
  {
    hide Apply;
    assert rows[p := rows[p]] == rows;
  }

  /** The statement the cancel loop may run on a row. */
  function CancelWrite(row: JobRow): Write {
    if row.status == JobStatus.Pending then SetStatus(JobStatus.Canceled) else MarkCancelRequested(UserRequested)
  }

  predicate WrittenAtMostOnce(row: JobRow, after: JobRow, now: Time) {
    || after == row
    || (&& (row.status == JobStatus.Pending || row.status == JobStatus.Running)
        && after == Apply(row, CancelWrite(row), now))
  }

  /** Whatever the shape, the loop runs at most one statement on each row from `i` on, and only on rows
      that are waiting or running. */
  lemma {:induction false} CancelWritesOnce(rows: seq<JobRow>, i: nat, v: CancelView, requested: bool)
    requires i <= |rows|
    ensures
      var out := CancelFrom(rows, i, v, requested);
      && |out.rows| == |rows|
      && (forall k :: 0 <= k < i ==> out.rows[k] == rows[k])
      && (forall k :: i <= k < |rows| ==> WrittenAtMostOnce(rows[k], out.rows[k], v.now))
    decreases |rows| - i
  {
    hide Apply;
    if i < |rows| && i < v.reach {
      if CancelsRemotely(rows[i], i, v) {
        if i in v.accepted {
          CancelWritesOnce(rows[i := Apply(rows[i], MarkCancelRequested(UserRequested), v.now)], i + 1, v, true);
        }
      } else if rows[i].status == JobStatus.Pending {
        CancelWritesOnce(rows[i := Apply(rows[i], SetStatus(JobStatus.Canceled), v.now)], i + 1, v, requested);
      } else {
        CancelWritesOnce(rows, i + 1, v, requested);
      }
    }
  }

  /** The loop is cut between the jobs waiting behind one in flight: some are canceled, some are not. */
  predicate Tears(rows: seq<JobRow>, v: CancelView) {
    exists i :: 0 <= i < |rows| && rows[i].status.InFlight() && TearsBehind(rows, i, v)
  }

  predicate TearsBehind(rows: seq<JobRow>, i: nat, v: CancelView)
    requires i < |rows|
  {
    && i + 1 < v.reach < |rows| && rows[i + 1].status == JobStatus.Pending
    && (CancelsRemotely(rows[i], i, v) ==> i in v.accepted)
  }

  lemma CutKeepsShape(rows: seq<JobRow>, p: nat, v: CancelView)
    requires ShapedAt(rows, p) && !(p < |rows| && rows[p].status.InFlight() && TearsBehind(rows, p, v))
    ensures Shaped(CancelFrom(rows, 0, v, false).rows)
  {
    hide CancelFrom;
    CancelClosedForm(rows, p, v);
    var after := CancelFrom(rows, 0, v, false).rows;
    if v.reach <= p || RefusedAt(rows, p, v) {
      assert after == rows;
    } else if p == |rows| {
      assert ShapedAt(after, |rows|);
    } else if after[p].status.IsTerminal() {
      if forall k :: p < k < |rows| ==> rows[k].status == JobStatus.Canceled {
        assert ShapedAt(after, |rows|);
      } else {
        assert ShapedAt(after, if v.reach < |rows| then v.reach else |rows|);
      }
    } else {
      assert rows[p].status.InFlight();
      assert ShapedAt(after, p);
    }
  }

  lemma TearBreaksShape(rows: seq<JobRow>, p: nat, v: CancelView)
    requires ShapedAt(rows, p) && p < |rows| && rows[p].status.InFlight() && TearsBehind(rows, p, v)
    ensures !Shaped(CancelFrom(rows, 0, v, false).rows)
  {
    hide CancelFrom;
    CancelClosedForm(rows, p, v);
    var after := CancelFrom(rows, 0, v, false).rows;
    assert after[p + 1].status == JobStatus.Canceled && after[v.reach].status == JobStatus.Pending;
    forall q ensures !ShapedAt(after, q) {
      if q == p {
        assert after[p + 1].status != JobStatus.Pending;
      }
    }
  }

  /** Canceling, whether or not it is cut short, keeps the shape of the chain exactly when it is not cut
      between jobs waiting behind one in flight. */
  lemma CancelKeepsShapeExactlyWhen(rows: seq<JobRow>, v: CancelView)
    requires Shaped(rows)
    ensures Shaped(CancelFrom(rows, 0, v, false).rows) <==> !Tears(rows, v)
  {
    hide CancelFrom;
    var p: nat :| ShapedAt(rows, p);
    if p < |rows| && rows[p].status.InFlight() && TearsBehind(rows, p, v) {
      TearBreaksShape(rows, p, v);
    } else {
      CutKeepsShape(rows, p, v);
      forall i | 0 <= i < |rows| && rows[i].status.InFlight() ensures !TearsBehind(rows, i, v) {
        assert i == p;
      }
    }
  }

  /** A cancellation that gets through all rows always does. */
  lemma CancelKeepsShape(rows: seq<JobRow>, v: CancelView)
    requires Shaped(rows) && |rows| <= v.reach
    ensures Shaped(CancelFrom(rows, 0, v, false).rows)
  {
    hide CancelFrom;
    CancelKeepsShapeExactlyWhen(rows, v);
  }

  /** Canceling a pipeline whose jobs have all finished leaves the jobs alone but still relabels the
      pipeline, whatever it had come to: pipeline verdicts, unlike job verdicts, are not final. */
  lemma CancelRelabelsFinished(s: ServerState, v: CancelView)
    requires forall i :: 0 <= i < |s.rows| ==> s.rows[i].status.IsTerminal()
    requires |s.rows| < v.reach
    ensures PipelineCanceled(s, v) == s.(pipeline := WithPipelineStatus(s.pipeline, PipelineStatus.Canceled, v.now))
    ensures PipelineCanceled(s, v).pipeline.status == PipelineStatus.Canceled
  {
    hide Apply;
    CancelTail(s.rows, 0, v, false);
    assert CancelFrom(s.rows, 0, v, false).rows == s.rows;
  }
}
