/** Where runs begin: an enqueued workflow is a starting point of the system. */
module EnqueuedRuns {
  import opened Wire
  import opened JobRows
  import opened Scheduler
  import opened RunnerJobs
  import opened Protocol
  import opened ProtocolSafety
  import opened Workflows
  import opened PipelineStore

  /** What the enqueue loop builds, beside runners that have not seen its keys, is an initial world. */
  lemma EnqueuedIsInitial(p: Setting, def: Definition, e: Enqueued, runners: map<string, RunnerState>, spawned: multiset<Key>)
    requires FreshChain(def, 0, e.rows, e.previous) && e.pipeline == NEW_PIPELINE
    requires forall id :: id in runners ==> RunnerSound(p.idOf, runners[id]) && SeenNoIssuedKey(runners[id])
    requires forall k :: k in spawned ==> !k.Issued?
    ensures Initial(p, World(e.rows, e.pipeline, runners, seq(|e.rows|, i => i), spawned, seq(|e.rows|, _ => 0)))
  {
    hide RunnerSound, NewRow;
    forall i | 0 <= i < |e.rows|
      ensures e.rows[i] == NewRow(e.rows[i].runnerId, e.rows[i].jobName, e.rows[i].mayFail, Issued(i))
    {
      NewRowKeeps(def[i].runnerId, def[i].jobName, def[i].mayFail, Issued(i));
    }
  }

  predicate SeenNoIssuedKey(r: RunnerState) {
    forall j :: j in r.disk && r.disk[j].Recorded? ==> !r.disk[j].record.key.Issued?
  }

  lemma NewRowKeeps(runnerId: string, jobName: string, mayFail: bool, key: Key)
    ensures
      var row := NewRow(runnerId, jobName, mayFail, key);
      row.runnerId == runnerId && row.jobName == jobName && row.mayFail == mayFail
  {
  }

  /** The links the enqueue loop leaves are the chain dispatching follows. */
  lemma LinksAreTheChain(def: Definition, e: Enqueued, i: nat)
    requires FreshChain(def, 0, e.rows, e.previous) && i < |e.rows|
    ensures e.previous[i].Some? ==> e.previous[i].value < |e.rows|
    ensures Predecessors(e.rows, i) == if e.previous[i].Some? then [e.rows[e.previous[i].value].Verdict()] else []
  {
    hide NewRow;
  }
}
