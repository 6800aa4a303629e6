/** The four checks of a job's inputs, written in four places, fit together: a workflow type-checked
    when saved, accepted by the schema report and resolved at dispatch is never refused by the runner
    for the names or types of its inputs. */
module TypeSafety {
  import opened Wire
  import opened Manifests
  import opened Workflows
  import opened SchemaDiff
  import opened SchemaEvolution
  import opened JobInputs
  import opened JobRows
  import opened Scheduler
  import opened Payload
  import opened RunnerJobs
  import opened Protocol
  import opened ProtocolSafety
  import opened ProtocolTheorems

  /** A kept output's value has the output's kind. */
  predicate OutputTyped(o: RunOutput) {
    o.value.Some? && o.kind != Kind.Artifact ==> ValueMatchesKind(o.value.value, o.kind)
  }

  predicate OutputsTyped(outputs: map<string, RunOutput>) {
    forall name :: name in outputs ==> OutputTyped(outputs[name])
  }

  /** Keeping an output loses neither its kind nor its value. */
  lemma PersistedIsTyped(o: RegisteredOutput)
    ensures OutputTyped(Persisted(o)) && Persisted(o).kind == KindOf(o)
    ensures Persisted(o).runnerArtifactId.Some? <==> o.ArtifactOutput?
    ensures Persisted(o).value.Some? <==> !o.ArtifactOutput?
  {
  }

  lemma KeptOutputsAreTyped(p: Setting, w0: World, actions: seq<Action>, i: nat)
    requires Initial(p, w0) && i < |w0.rows|
    ensures OutputsTyped(Run(p, w0, actions).rows[i].outputs)
  {
    hide RowSound, RunnersSound, LogSound, RecordSound, Persisted, OutputTyped;
    var w := Run(p, w0, actions);
    ReachableIsSound(p, w0, actions);
    var row := w.rows[i];
    assert RunSound(w.runners, row);
    if row.outputs != map[] {
      var outputs := w.runners[row.runnerId].disk[row.runId.value].record.outputs;
      forall name | name in row.outputs ensures OutputTyped(row.outputs[name]) {
        PersistedIsTyped(outputs[name]);
      }
    }
  }

  /** A binding that passed the save-time check and resolves, resolves to a value of its kind. */
  lemma ResolvedValueIsTyped(src: Sources, schemas: seq<JobSchema>, i: nat, name: string, kind: Kind, b: Binding)
    requires BindingKindOk(schemas, i, kind, b)
    requires forall j :: 0 <= j < |src.outputs| ==> OutputsTyped(src.outputs[j])
    requires ResolveBinding(src, name, Some(kind), b).Ok?
    ensures ValueMatchesKind(ResolveBinding(src, name, Some(kind), b).value, kind)
  {
    if b.JobOutputOf? {
      assert OutputTyped(src.outputs[b.jobIndex][b.outputName]);
    }
  }

  /** The runner declines inputs for their names or types. */
  predicate TypeComplaint(e: InputError) {
    e.MissingInput? || e.UnknownInput? || e.InvalidInputType?
  }

  /** One job's payload against the manifest the report compared with. */
  lemma PayloadTypeChecks(saved: seq<JobSchema>, current: seq<JobSchema>, def: Definition, i: nat, src: Sources,
                          jobRunId: string, env: Env, e: InputError)
    requires KindsOk(saved, def) && KindsOk(current, def) && i < |def|
    requires forall name :: name in def[i].inputs && name in saved[i].inputs && name in current[i].inputs ==>
               saved[i].inputs[name].kind == current[i].inputs[name].kind
    requires ValidManifest(current[i])
    requires forall j :: 0 <= j < |src.outputs| ==> OutputsTyped(src.outputs[j])
    requires Resolvable(src, saved[i], def[i])
    ensures Complaint(env, current[i], PayloadOf(src, saved[i], def[i], jobRunId), e) ==> !TypeComplaint(e)
  {
    hide BindingKindOk, ValueMatchesKind, ResolveBinding, OutputsTyped, BindingIsEmpty, ValueAllowed;
    var payload := PayloadOf(src, saved[i], def[i], jobRunId);
    assert JobKindsOk(saved, def, i) && JobKindsOk(current, def, i);
    if e.InvalidInputType? && Checked(current[i], payload, e.name) {
      assert e.name in def[i].inputs;
      ResolvedValueIsTyped(src, saved, i, e.name, saved[i].inputs[e.name].kind, def[i].inputs[e.name]);
    }
  }

  /** Type safety under schema drift. A workflow was type-checked against `snapshot`; the runners have
      since changed to `catalog`, which the report did not grade Incompatible; the pipeline has run for
      any length of time; job `i` is dispatched, its inputs resolve, and the runner has the manifest it
      advertises. Then the runner's complaint, if it has one, is about a value's length, pattern or
      artifact, never about a missing or unknown input or a wrong type. */
  lemma DispatchedInputsTypeCheck(
      catalog: Catalog, def: Definition, snapshot: seq<JobSchema>, report: Report,
      p: Setting, w0: World, actions: seq<Action>,
      i: nat, src: Sources, jobRunId: string, manifest: JobSchema, env: Env, e: InputError)
    requires KindsOk(snapshot, def) && i < |def|
    requires forall d :: d in report.diff <==> IsReportDiff(d, catalog, def, snapshot)
    requires report.status == StatusOf(report.diff) && report.status != Incompatible
    requires Advertised(catalog, def[i]) == Some(manifest) && ValidManifest(manifest)
    requires Initial(p, w0) && |src.outputs| == |w0.rows|
    requires forall j :: 0 <= j < |w0.rows| ==> src.outputs[j] == Run(p, w0, actions).rows[j].outputs
    requires Resolvable(src, snapshot[i], def[i])
    ensures Complaint(env, manifest, PayloadOf(src, snapshot[i], def[i], jobRunId), e) ==> !TypeComplaint(e)
  {
    hide IsReportDiff, StatusOf, Complaint, Initial, OutputsTyped, KindsOk, Advertised, StillFits;
    AcceptedChangesKeepTyping(catalog, def, snapshot, report);
    ReportGrades(catalog, def, snapshot, report.diff);
    var current := SchemasOf(catalog, def);
    assert current[i] == manifest;
    assert FitsAt(catalog, def, snapshot, i);
    BoundKindsAgree(snapshot[i], manifest, def, i);
    forall j | 0 <= j < |src.outputs| ensures OutputsTyped(src.outputs[j]) {
      KeptOutputsAreTyped(p, w0, actions, j);
    }
    assert |snapshot| == |def| by { assert Matched(catalog, def, snapshot); }
    PayloadTypeChecks(snapshot, current, def, i, src, jobRunId, env, e);
  }

  lemma BoundKindsAgree(saved: JobSchema, current: JobSchema, def: Definition, i: nat)
    requires i < |def| && StillFits(saved, current, BoundInputs(def, i), ReferencedOutputs(def, i))
    ensures forall name :: name in def[i].inputs && name in saved.inputs && name in current.inputs ==>
              saved.inputs[name].kind == current.inputs[name].kind
  {
  }

  /** The kind check the server repeats when it resolves a job output can only fail for an output that
      the upstream job did not register as its schema declares it. */
  lemma KindMismatchIsUpstream(src: Sources, schemas: seq<JobSchema>, i: nat, name: string, kind: Kind, b: Binding)
    requires BindingKindOk(schemas, i, kind, b)
    requires ResolveBinding(src, name, Some(kind), b) == Err(KindMismatch(name))
    ensures
      && b.JobOutputOf? && b.jobIndex < |src.outputs| && b.outputName in src.outputs[b.jobIndex]
      && var o := src.outputs[b.jobIndex][b.outputName];
         b.outputName != "" ==>
           && b.jobIndex < |schemas| && b.outputName in schemas[b.jobIndex].outputs
           && o.kind != schemas[b.jobIndex].outputs[b.outputName].kind
  {
  }
}
