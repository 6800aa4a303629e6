/** The server's side of a job's inputs and outputs: building the payload a job is created with, and
    keeping the outputs a finished run reports. */
module Payload {
  import opened Wire
  import opened Manifests
  import opened Workflows
  import opened JobRows
  import opened Scheduler
  import opened RowOutcomes

  // ---------------------------------------------------------------------------------------------
  // Resolving inputs

  /** What the bindings draw on. Absent entries are lookups or transfers that fail; `held` takes an
      artifact of an upstream run to its id on the target runner. */
  datatype Sources = Sources(
    commit: Option<string>, branch: Option<string>, sourceArtifact: Option<string>,
    promoted: map<string, string>, outputs: seq<map<string, RunOutput>>, held: map<string, string>)

  datatype ResolveError =
    | NoSourceArtifact(name: string)
    | NoPromotedArtifact(name: string)
    | NoUpstreamRun(name: string)
    | NoSuchOutput(name: string)
    | KindMismatch(name: string)
    | NoArtifactId(name: string)
    | NotTransferred(name: string)
    | NoValue(name: string)

  function OrEmpty(text: Option<string>): string {
    if text.Some? then text.value else ""
  }

  function ResolveOutput(held: map<string, string>, name: string, expected: Option<Kind>, o: RunOutput): Result<JsonValue, ResolveError> {
    if expected.Some? && o.kind != expected.value then Err(KindMismatch(name))
    else if o.kind == Kind.Artifact then
      if o.runnerArtifactId == None then Err(NoArtifactId(name))
      else if o.runnerArtifactId.value !in held then Err(NotTransferred(name))
      else Ok(JString(held[o.runnerArtifactId.value]))
    else if o.value == None then Err(NoValue(name))
    else Ok(o.value.value)
  }

  function ResolveBinding(src: Sources, name: string, expected: Option<Kind>, b: Binding): Result<JsonValue, ResolveError> {
    match b
    case Commit => Ok(JString(OrEmpty(src.commit)))
    case Branch => Ok(JString(OrEmpty(src.branch)))
    case SourceArtifact =>
      if src.sourceArtifact.Some? then Ok(JString(src.sourceArtifact.value)) else Err(NoSourceArtifact(name))
    case PromotedArtifact(_, _, _) =>
      if name in src.promoted then Ok(JString(src.promoted[name])) else Err(NoPromotedArtifact(name))
    case JobOutputOf(j, output) =>
      if |src.outputs| <= j then Err(NoUpstreamRun(name))
      else if output !in src.outputs[j] then Err(NoSuchOutput(name))
      else ResolveOutput(src.held, name, expected, src.outputs[j][output])
    case Literal(value) => Ok(value)
  }

  function ExpectedKind(schema: JobSchema, name: string): Option<Kind> {
    if name in schema.inputs then Some(schema.inputs[name].kind) else None
  }

  function ResolveInput(src: Sources, schema: JobSchema, job: WorkflowJob, name: string): Result<JsonValue, ResolveError>
    requires name in job.inputs
  {
    ResolveBinding(src, name, ExpectedKind(schema, name), job.inputs[name])
  }

  /** Where a binding's value comes from. */
  predicate DrawsOn(src: Sources, name: string, expected: Option<Kind>, b: Binding, value: JsonValue) {
    match b
    case Literal(literal) => value == literal
    case Commit => value == JString(if src.commit.Some? then src.commit.value else "")
    case Branch => value == JString(if src.branch.Some? then src.branch.value else "")
    case SourceArtifact => src.sourceArtifact.Some? && value == JString(src.sourceArtifact.value)
    case PromotedArtifact(_, _, _) => name in src.promoted && value == JString(src.promoted[name])
    case JobOutputOf(j, output) =>
      && j < |src.outputs| && output in src.outputs[j]
      && var o := src.outputs[j][output];
         && (expected.Some? ==> o.kind == expected.value)
         && (o.kind == Kind.Artifact ==>
               o.runnerArtifactId.Some? && o.runnerArtifactId.value in src.held && value == JString(src.held[o.runnerArtifactId.value]))
         && (o.kind != Kind.Artifact ==> o.value == Some(value))
  }

  /** A binding resolves to a value exactly when that is what its source holds for it. */
  lemma ResolvesExactlyWhen(src: Sources, name: string, expected: Option<Kind>, b: Binding, value: JsonValue)
    ensures ResolveBinding(src, name, expected, b) == Ok(value) <==> DrawsOn(src, name, expected, b, value)
  {
  }

  predicate Resolvable(src: Sources, schema: JobSchema, job: WorkflowJob) {
    forall name :: name in job.inputs ==> ResolveInput(src, schema, job, name).Ok?
  }

  /** The payload of a job all of whose inputs resolve. */
  function PayloadOf(src: Sources, schema: JobSchema, job: WorkflowJob, jobRunId: string): (payload: map<string, JsonValue>)
    requires Resolvable(src, schema, job)
  {
    var resolved := map name | name in job.inputs :: ResolveInput(src, schema, job, name).value;
    if JANUS_JOB_RUN_ID in resolved then resolved else resolved[JANUS_JOB_RUN_ID := JString(jobRunId)]
  }

  /** The payload is complete or not built at all. */
  method ResolveJobInputs(src: Sources, schema: JobSchema, job: WorkflowJob, jobRunId: string)
    returns (r: Result<map<string, JsonValue>, ResolveError>)
    ensures r.Ok? <==> Resolvable(src, schema, job)
    ensures r.Ok? ==> r.value == PayloadOf(src, schema, job, jobRunId)
    ensures r.Err? ==> exists name :: name in job.inputs && ResolveInput(src, schema, job, name) == Err(r.error)
    ensures r.Ok? ==>
              && r.value.Keys == job.inputs.Keys + {JANUS_JOB_RUN_ID}
              && (forall name :: name in job.inputs ==>
                    DrawsOn(src, name, ExpectedKind(schema, name), job.inputs[name], r.value[name]))
              && (JANUS_JOB_RUN_ID !in job.inputs ==> r.value[JANUS_JOB_RUN_ID] == JString(jobRunId))
  {
    hide ResolveBinding, DrawsOn;
    var resolved: map<string, JsonValue> := map[];
    var names := job.inputs.Keys;
    while names != {}
      invariant names <= job.inputs.Keys
      invariant resolved.Keys == job.inputs.Keys - names
      invariant forall name :: name in resolved ==> ResolveInput(src, schema, job, name) == Ok(resolved[name])
      decreases |names|
    {
      var name :| name in names;
      var value := ResolveInput(src, schema, job, name);
      if value.Err? {
        return Err(value.error);
      }
      names, resolved := names - {name}, resolved[name := value.value];
    }
    assert resolved == map name | name in job.inputs :: ResolveInput(src, schema, job, name).value;
    if JANUS_JOB_RUN_ID !in resolved {
      resolved := resolved[JANUS_JOB_RUN_ID := JString(jobRunId)];
    }
    forall name | name in job.inputs
      ensures DrawsOn(src, name, ExpectedKind(schema, name), job.inputs[name], resolved[name])
    {
      ResolvesExactlyWhen(src, name, ExpectedKind(schema, name), job.inputs[name], resolved[name]);
    }
    r := Ok(resolved);
  }

  // ---------------------------------------------------------------------------------------------
  // Keeping outputs

  /** Either every output is kept, or, when some artifact cannot be fetched, none. */
  method PersistJobOutputs(outputs: map<string, RegisteredOutput>, lost: set<string>)
    returns (r: Result<map<string, RunOutput>, string>)
    ensures r.Err? <==> TransferFails(outputs, lost)
    ensures r.Ok? ==> r.value == PersistedAll(outputs) && AllKept(outputs, r.value)
    ensures r.Err? ==> r.error in outputs && outputs[r.error].ArtifactOutput? && r.error in lost
  {
    PersistedIsKept(outputs);
    hide AllKept;
    var persisted: map<string, RunOutput> := map[];
    var names := outputs.Keys;
    while names != {}
      invariant names <= outputs.Keys
      invariant persisted.Keys == outputs.Keys - names
      invariant forall name :: name in persisted ==>
                  persisted[name] == Persisted(outputs[name]) && !(outputs[name].ArtifactOutput? && name in lost)
      decreases |names|
    {
      var name :| name in names;
      if outputs[name].ArtifactOutput? && name in lost {
        return Err(name);
      }
      names, persisted := names - {name}, persisted[name := Persisted(outputs[name])];
    }
    r := Ok(persisted);
  }
}
