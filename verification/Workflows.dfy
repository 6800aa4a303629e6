/** Workflow definitions and the type check they pass when saved. */
module Workflows {
  import opened Wire
  import opened Manifests

  datatype Binding =
    | Literal(value: JsonValue)
    | Commit
    | Branch
    | SourceArtifact
    | PromotedArtifact(sourceRunnerId: string, sourceJobName: string, promotedOutput: string)
    | JobOutputOf(jobIndex: nat, outputName: string)

  datatype WorkflowJob = WorkflowJob(runnerId: string, jobName: string, inputs: map<string, Binding>, mayFail: bool)

  type Definition = seq<WorkflowJob>

  /** The registered runners with the jobs each advertises. */
  type Catalog = map<string, seq<JobSchema>>

  function JobsOf(catalog: Catalog, runnerId: string): seq<JobSchema> {
    if runnerId in catalog then catalog[runnerId] else []
  }

  /** The first job of that name. */
  function FindJob(jobs: seq<JobSchema>, name: string): (found: Option<JobSchema>)
    ensures found == None <==> forall k :: 0 <= k < |jobs| ==> jobs[k].name != name
    ensures found.Some? ==>
              exists k :: 0 <= k < |jobs| && jobs[k] == found.value && jobs[k].name == name
                          && forall l :: 0 <= l < k ==> jobs[l].name != name
  {
    if jobs == [] then None
    else if jobs[0].name == name then Some(jobs[0])
    else FindJob(jobs[1..], name)
  }

  function Advertised(catalog: Catalog, job: WorkflowJob): Option<JobSchema> {
    FindJob(JobsOf(catalog, job.runnerId), job.jobName)
  }

  // ---------------------------------------------------------------------------------------------
  // The single checks

  predicate IsWhitespace(c: char) {
    || '\t' <= c <= '\r' || c == ' ' || c == '\U{85}' || c == '\U{A0}' || c == '\U{1680}'
    || '\U{2000}' <= c <= '\U{200A}' || c == '\U{2028}' || c == '\U{2029}' || c == '\U{202F}'
    || c == '\U{205F}' || c == '\U{3000}'
  }

  predicate Blank(text: string) {
    forall i :: 0 <= i < |text| ==> IsWhitespace(text[i])
  }

  predicate BindingIsEmpty(b: Binding) {
    match b
    case Literal(value) => value.JNull? || (value.JString? && Blank(value.text))
    case JobOutputOf(_, outputName) => Blank(outputName)
    case _ => false
  }

  predicate ValueMatchesKind(value: JsonValue, kind: Kind) {
    match kind
    case String => value.JString?
    case Artifact => value.JString?
    case Integer => value.JNumber? && value.integer.Some?
    case Boolean => value.JBool?
    case Json => !value.JNull?
  }

  /** `jsonBytes` is the length of a value's serialization. */
  predicate WithinLimits(spec: InputSpec, value: JsonValue, jsonBytes: JsonValue -> nat) {
    && (spec.maxLength.Some? && value.JString? ==> |value.text| <= spec.maxLength.value)
    && (spec.maxJsonBytes.Some? ==> jsonBytes(value) <= spec.maxJsonBytes.value)
  }

  /** The kind and reference checks of one input binding of job `i`. A job-output binding without a
      name is not looked at. */
  predicate BindingKindOk(schemas: seq<JobSchema>, i: nat, kind: Kind, b: Binding) {
    match b
    case Commit => kind == Kind.String
    case Branch => kind == Kind.String
    case SourceArtifact => kind == Kind.Artifact
    case PromotedArtifact(_, _, _) => kind == Kind.Artifact
    case Literal(value) => ValueMatchesKind(value, kind)
    case JobOutputOf(j, name) =>
      name != "" ==> j < |schemas| && j < i && name in schemas[j].outputs && schemas[j].outputs[name].kind == kind
  }

  predicate PromotionOk(catalog: Catalog, b: Binding) {
    b.PromotedArtifact? ==>
      && b.sourceRunnerId in catalog
      && var source := FindJob(catalog[b.sourceRunnerId], b.sourceJobName);
         source.Some? && b.promotedOutput in source.value.outputs
         && source.value.outputs[b.promotedOutput].kind == Kind.Artifact
  }

  predicate LiteralOk(spec: InputSpec, b: Binding, jsonBytes: JsonValue -> nat) {
    b.Literal? ==> WithinLimits(spec, b.value, jsonBytes)
  }

  predicate RequiredInputsBound(job: WorkflowJob, schema: JobSchema) {
    forall name :: name in schema.inputs && schema.inputs[name].required ==>
      name in job.inputs && !BindingIsEmpty(job.inputs[name])
  }

  // ---------------------------------------------------------------------------------------------
  // A well-typed workflow

  /** Kinds, references and required inputs; neither length limits nor promotion sources. */
  predicate JobKindsOk(schemas: seq<JobSchema>, def: Definition, i: nat)
    requires i < |def| == |schemas|
  {
    && (forall name :: name in def[i].inputs ==>
          name in schemas[i].inputs && BindingKindOk(schemas, i, schemas[i].inputs[name].kind, def[i].inputs[name]))
    && RequiredInputsBound(def[i], schemas[i])
  }

  predicate KindsOk(schemas: seq<JobSchema>, def: Definition) {
    |schemas| == |def| && forall i :: 0 <= i < |def| ==> JobKindsOk(schemas, def, i)
  }

  predicate InputOk(catalog: Catalog, schemas: seq<JobSchema>, i: nat, schema: JobSchema, name: string, b: Binding,
                    jsonBytes: JsonValue -> nat)
  {
    && name in schema.inputs
    && BindingKindOk(schemas, i, schema.inputs[name].kind, b)
    && PromotionOk(catalog, b)
    && LiteralOk(schema.inputs[name], b, jsonBytes)
  }

  /** Everything the save-time check demands of job `i`. */
  predicate JobTyped(catalog: Catalog, schemas: seq<JobSchema>, def: Definition, i: nat, jsonBytes: JsonValue -> nat)
    requires i < |def| == |schemas|
  {
    && (forall name :: name in def[i].inputs ==> InputOk(catalog, schemas, i, schemas[i], name, def[i].inputs[name], jsonBytes))
    && RequiredInputsBound(def[i], schemas[i])
  }

  predicate AllAdvertised(catalog: Catalog, def: Definition) {
    forall i :: 0 <= i < |def| ==> def[i].runnerId in catalog && Advertised(catalog, def[i]).Some?
  }

  function SchemasOf(catalog: Catalog, def: Definition): (schemas: seq<JobSchema>)
    requires AllAdvertised(catalog, def)
    ensures |schemas| == |def|
  {
    seq(|def|, i requires 0 <= i < |def| => Advertised(catalog, def[i]).value)
  }

  predicate WorkflowTyped(catalog: Catalog, def: Definition, jsonBytes: JsonValue -> nat) {
    && AllAdvertised(catalog, def)
    && forall i :: 0 <= i < |def| ==> JobTyped(catalog, SchemasOf(catalog, def), def, i, jsonBytes)
  }

  /** What the check of one input comes to, by what the input is bound to: commit and branch are strings, the
      source archive and a promotion are artifacts, a literal is a value of the input's kind within its
      limits, and a job output is one that an earlier job declares with that kind. */
  lemma InputOkExactlyWhen(catalog: Catalog, schemas: seq<JobSchema>, i: nat, schema: JobSchema, name: string, b: Binding,
                           jsonBytes: JsonValue -> nat)
    requires name in schema.inputs
    ensures
      var spec := schema.inputs[name];
      InputOk(catalog, schemas, i, schema, name, b, jsonBytes) <==>
        && (b.Commit? || b.Branch? ==> spec.kind == Kind.String)
        && (b.SourceArtifact? || b.PromotedArtifact? ==> spec.kind == Kind.Artifact)
        && (b.PromotedArtifact? ==>
              && b.sourceRunnerId in catalog
              && var source := FindJob(catalog[b.sourceRunnerId], b.sourceJobName);
                 source.Some? && b.promotedOutput in source.value.outputs
                 && source.value.outputs[b.promotedOutput].kind == Kind.Artifact)
        && (b.JobOutputOf? && b.outputName != "" ==>
              && b.jobIndex < i && b.jobIndex < |schemas| && b.outputName in schemas[b.jobIndex].outputs
              && schemas[b.jobIndex].outputs[b.outputName].kind == spec.kind)
        && (b.Literal? && (spec.kind == Kind.String || spec.kind == Kind.Artifact) ==> b.value.JString?)
        && (b.Literal? && spec.kind == Kind.Integer ==> b.value.JNumber? && b.value.integer.Some?)
        && (b.Literal? && spec.kind == Kind.Boolean ==> b.value.JBool?)
        && (b.Literal? && spec.kind == Kind.Json ==> b.value != JNull)
        && (b.Literal? && b.value.JString? && spec.maxLength.Some? ==> |b.value.text| <= spec.maxLength.value)
        && (b.Literal? && spec.maxJsonBytes.Some? ==> jsonBytes(b.value) <= spec.maxJsonBytes.value)
  {
  }

  /** A required input counts as bound unless its binding is missing, null, a blank text or a job output
      without a name. */
  lemma RequiredInputsBoundExactlyWhen(job: WorkflowJob, schema: JobSchema)
    ensures RequiredInputsBound(job, schema) <==>
              forall name :: name in schema.inputs && schema.inputs[name].required ==>
                && name in job.inputs && job.inputs[name] != Literal(JNull)
                && (job.inputs[name].Literal? && job.inputs[name].value.JString? ==> !Blank(job.inputs[name].value.text))
                && (job.inputs[name].JobOutputOf? ==> !Blank(job.inputs[name].outputName))
  {
    hide Blank;
  }

  datatype WorkflowError =
    | UnknownRunner(runnerId: string)
    | NotAdvertised(jobName: string)
    | UnknownInput(name: string)
    | IllTypedInput(name: string)
    | BadPromotionSource(name: string)
    | LiteralTooLong(name: string)
    | MissingRequiredInput(name: string)

  lemma TypedImpliesKindsOk(catalog: Catalog, def: Definition, jsonBytes: JsonValue -> nat)
    requires WorkflowTyped(catalog, def, jsonBytes)
    ensures KindsOk(SchemasOf(catalog, def), def)
  {
    var schemas := SchemasOf(catalog, def);
    forall i | 0 <= i < |def| ensures JobKindsOk(schemas, def, i) {
      assert JobTyped(catalog, schemas, def, i, jsonBytes);
      forall name | name in def[i].inputs
        ensures name in schemas[i].inputs && BindingKindOk(schemas, i, schemas[i].inputs[name].kind, def[i].inputs[name])
      {
        assert InputOk(catalog, schemas, i, schemas[i], name, def[i].inputs[name], jsonBytes);
      }
    }
  }

  /** The save-time check accepts exactly the well-typed workflows, and the schemas it returns to be
      saved are the advertised ones, job by job. */
  method ValidateWorkflowRunners(catalog: Catalog, def: Definition, jsonBytes: JsonValue -> nat)
    returns (r: Result<seq<JobSchema>, WorkflowError>)
    ensures r.Ok? <==> WorkflowTyped(catalog, def, jsonBytes)
    ensures r.Ok? ==> r.value == SchemasOf(catalog, def)
  {
    var schemas: seq<JobSchema> := [];
    for i := 0 to |def|
      invariant |schemas| == i
      invariant forall k :: 0 <= k < i ==> def[k].runnerId in catalog && Advertised(catalog, def[k]) == Some(schemas[k])
    {
      if def[i].runnerId !in catalog {
        return Err(UnknownRunner(def[i].runnerId));
      }
      var found := Advertised(catalog, def[i]);
      if found == None {
        return Err(NotAdvertised(def[i].jobName));
      }
      schemas := schemas + [found.value];
    }
    assert schemas == SchemasOf(catalog, def);

    for i := 0 to |def|
      invariant forall k :: 0 <= k < i ==> JobTyped(catalog, schemas, def, k, jsonBytes)
    {
      var error := ValidateJob(catalog, schemas, def, i, jsonBytes);
      if error.Some? {
        return Err(error.value);
      }
    }
    r := Ok(schemas);
  }

  method ValidateJob(catalog: Catalog, schemas: seq<JobSchema>, def: Definition, i: nat, jsonBytes: JsonValue -> nat)
    returns (error: Option<WorkflowError>)
    requires i < |def| == |schemas|
    ensures error == None <==> JobTyped(catalog, schemas, def, i, jsonBytes)
  {
    hide InputOk;
    var names := def[i].inputs.Keys;
    while names != {}
      invariant names <= def[i].inputs.Keys
      invariant forall name :: name in def[i].inputs && name !in names ==>
                  InputOk(catalog, schemas, i, schemas[i], name, def[i].inputs[name], jsonBytes)
      decreases |names|
    {
      var name :| name in names;
      error := ValidateInput(catalog, schemas, i, schemas[i], name, def[i].inputs[name], jsonBytes);
      if error.Some? {
        return;
      }
      names := names - {name};
    }
    error := ValidateRequiredInputs(def[i], schemas[i]);
  }

  method ValidateInput(catalog: Catalog, schemas: seq<JobSchema>, i: nat, schema: JobSchema, name: string, b: Binding,
                       jsonBytes: JsonValue -> nat)
    returns (error: Option<WorkflowError>)
    ensures error == None <==> InputOk(catalog, schemas, i, schema, name, b, jsonBytes)
    ensures error.Some? ==>
              match error.value
              case UnknownInput(n) => n == name && name !in schema.inputs
              case IllTypedInput(n) =>
                n == name && name in schema.inputs && !BindingKindOk(schemas, i, schema.inputs[name].kind, b)
              case BadPromotionSource(n) => n == name && !PromotionOk(catalog, b)
              case LiteralTooLong(n) => n == name && name in schema.inputs && !LiteralOk(schema.inputs[name], b, jsonBytes)
              case _ => false
  {
    hide BindingKindOk, PromotionOk, LiteralOk;
    if name !in schema.inputs {
      return Some(UnknownInput(name));
    }
    var spec := schema.inputs[name];
    if !BindingKindOk(schemas, i, spec.kind, b) {
      return Some(IllTypedInput(name));
    }
    if !PromotionOk(catalog, b) {
      return Some(BadPromotionSource(name));
    }
    if !LiteralOk(spec, b, jsonBytes) {
      return Some(LiteralTooLong(name));
    }
    error := None;
  }

  method ValidateRequiredInputs(job: WorkflowJob, schema: JobSchema) returns (error: Option<WorkflowError>)
    ensures error == None <==> RequiredInputsBound(job, schema)
    ensures error.Some? ==>
              && error.value.MissingRequiredInput?
              && var name := error.value.name;
                 name in schema.inputs && schema.inputs[name].required
                 && (name !in job.inputs || BindingIsEmpty(job.inputs[name]))
  {
    hide BindingIsEmpty;
    var names := schema.inputs.Keys;
    while names != {}
      invariant names <= schema.inputs.Keys
      invariant forall name :: name in schema.inputs && name !in names && schema.inputs[name].required ==>
                  name in job.inputs && !BindingIsEmpty(job.inputs[name])
      decreases |names|
    {
      var name :| name in names;
      if schema.inputs[name].required && (name !in job.inputs || BindingIsEmpty(job.inputs[name])) {
        return Some(MissingRequiredInput(name));
      }
      names := names - {name};
    }
    error := None;
  }
}
