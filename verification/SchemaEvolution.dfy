/** What the schema report is worth: which changes it lets pass, and what they leave intact. */
module SchemaEvolution {
  import opened Wire
  import opened Manifests
  import opened Workflows
  import opened SchemaDiff

  // ---------------------------------------------------------------------------------------------
  // The three grades, without the list

  /** The changes to one job that break nothing: bound and required inputs and referenced and promised
      outputs keep their kinds, nothing more is required, and no promise is withdrawn. */
  predicate StillFits(saved: JobSchema, current: JobSchema, bound: set<string>, referenced: set<string>) {
    && (forall n :: n in saved.inputs && (saved.inputs[n].required || n in bound) ==>
          n in current.inputs && current.inputs[n].kind == saved.inputs[n].kind)
    && (forall n :: n in current.inputs && current.inputs[n].required ==> n in saved.inputs && saved.inputs[n].required)
    && (forall n :: n in saved.outputs && (saved.outputs[n].required || n in referenced) ==>
          n in current.outputs && current.outputs[n].kind == saved.outputs[n].kind)
    && (forall n :: n in saved.outputs && saved.outputs[n].required && n in current.outputs ==> current.outputs[n].required)
  }

  /** Every saved field is still there as it was, and any new input is optional. */
  predicate Extends(saved: JobSchema, current: JobSchema) {
    && (forall n :: n in saved.inputs ==>
          n in current.inputs && current.inputs[n].kind == saved.inputs[n].kind && current.inputs[n].required == saved.inputs[n].required)
    && (forall n :: n in current.inputs && n !in saved.inputs ==> !current.inputs[n].required)
    && (forall n :: n in saved.outputs ==>
          n in current.outputs && current.outputs[n].kind == saved.outputs[n].kind && current.outputs[n].required == saved.outputs[n].required)
  }

  predicate SameSurface(saved: JobSchema, current: JobSchema) {
    Extends(saved, current) && current.inputs.Keys == saved.inputs.Keys && current.outputs.Keys == saved.outputs.Keys
  }

  lemma JobFitsExactlyWhen(i: nat, saved: JobSchema, current: JobSchema, bound: set<string>, referenced: set<string>)
    ensures (forall d :: IsJobDiff(d, i, saved, current, bound, referenced) ==> !d.incompatible)
            <==> StillFits(saved, current, bound, referenced)
  {
    if forall d :: IsJobDiff(d, i, saved, current, bound, referenced) ==> !d.incompatible {
      forall n | n in saved.inputs && (saved.inputs[n].required || n in bound)
        ensures n in current.inputs && current.inputs[n].kind == saved.inputs[n].kind
      {
        assert !IsJobDiff(Diff(InputRemoved, i, Some(n), true), i, saved, current, bound, referenced);
        assert !IsJobDiff(Diff(InputTypeChanged, i, Some(n), true), i, saved, current, bound, referenced);
      }
      forall n | n in current.inputs && current.inputs[n].required ensures n in saved.inputs && saved.inputs[n].required {
        assert !IsJobDiff(Diff(InputAdded, i, Some(n), true), i, saved, current, bound, referenced);
        assert !IsJobDiff(Diff(InputRequirednessChanged, i, Some(n), true), i, saved, current, bound, referenced);
      }
      forall n | n in saved.outputs && (saved.outputs[n].required || n in referenced)
        ensures n in current.outputs && current.outputs[n].kind == saved.outputs[n].kind
      {
        assert !IsJobDiff(Diff(OutputRemoved, i, Some(n), true), i, saved, current, bound, referenced);
        assert !IsJobDiff(Diff(OutputTypeChanged, i, Some(n), true), i, saved, current, bound, referenced);
      }
      forall n | n in saved.outputs && saved.outputs[n].required && n in current.outputs ensures current.outputs[n].required {
        assert !IsJobDiff(Diff(OutputRequirednessChanged, i, Some(n), true), i, saved, current, bound, referenced);
      }
    }
  }

  lemma JobExtendsExactlyWhen(i: nat, saved: JobSchema, current: JobSchema, bound: set<string>, referenced: set<string>)
    ensures (forall d :: IsJobDiff(d, i, saved, current, bound, referenced) ==> !d.incompatible && !d.IsStale())
            <==> Extends(saved, current)
  {
    if forall d :: IsJobDiff(d, i, saved, current, bound, referenced) ==> !d.incompatible && !d.IsStale() {
      forall n | n in saved.inputs
        ensures n in current.inputs && current.inputs[n].kind == saved.inputs[n].kind && current.inputs[n].required == saved.inputs[n].required
      {
        var breaks := saved.inputs[n].required || n in bound;
        assert !IsJobDiff(Diff(InputRemoved, i, Some(n), breaks), i, saved, current, bound, referenced);
        assert !IsJobDiff(Diff(InputTypeChanged, i, Some(n), breaks), i, saved, current, bound, referenced);
        assert !IsJobDiff(Diff(InputRequirednessChanged, i, Some(n), !saved.inputs[n].required), i, saved, current, bound, referenced);
      }
      forall n | n in current.inputs && n !in saved.inputs ensures !current.inputs[n].required {
        assert !IsJobDiff(Diff(InputAdded, i, Some(n), true), i, saved, current, bound, referenced);
      }
      forall n | n in saved.outputs
        ensures n in current.outputs && current.outputs[n].kind == saved.outputs[n].kind && current.outputs[n].required == saved.outputs[n].required
      {
        var breaks := saved.outputs[n].required || n in referenced;
        assert !IsJobDiff(Diff(OutputRemoved, i, Some(n), breaks), i, saved, current, bound, referenced);
        assert !IsJobDiff(Diff(OutputTypeChanged, i, Some(n), breaks), i, saved, current, bound, referenced);
        assert !IsJobDiff(Diff(OutputRequirednessChanged, i, Some(n), saved.outputs[n].required), i, saved, current, bound, referenced);
      }
    }
  }

  lemma JobUnchangedExactlyWhen(i: nat, saved: JobSchema, current: JobSchema, bound: set<string>, referenced: set<string>)
    ensures (forall d :: !IsJobDiff(d, i, saved, current, bound, referenced)) <==> SameSurface(saved, current)
  {
    if forall d :: !IsJobDiff(d, i, saved, current, bound, referenced) {
      JobExtendsExactlyWhen(i, saved, current, bound, referenced);
      forall n | n in current.inputs ensures n in saved.inputs {
        assert !IsJobDiff(Diff(InputAdded, i, Some(n), current.inputs[n].required), i, saved, current, bound, referenced);
      }
      forall n | n in current.outputs ensures n in saved.outputs {
        assert !IsJobDiff(Diff(OutputAdded, i, Some(n), false), i, saved, current, bound, referenced);
      }
    }
  }

  /** Every job of the workflow has its saved schema and is still advertised. */
  predicate Matched(catalog: Catalog, def: Definition, snapshot: seq<JobSchema>) {
    |snapshot| == |def| && forall i :: 0 <= i < |def| ==> Advertised(catalog, def[i]).Some?
  }

  predicate FitsAt(catalog: Catalog, def: Definition, snapshot: seq<JobSchema>, i: nat)
    requires Matched(catalog, def, snapshot) && i < |def|
  {
    StillFits(snapshot[i], Advertised(catalog, def[i]).value, BoundInputs(def, i), ReferencedOutputs(def, i))
  }

  /** The grade of a report, and its being empty, in terms of the schemas alone. */
  lemma ReportGrades(catalog: Catalog, def: Definition, snapshot: seq<JobSchema>, diff: seq<Diff>)
    requires forall d :: d in diff <==> IsReportDiff(d, catalog, def, snapshot)
    ensures StatusOf(diff) != Incompatible <==>
              Matched(catalog, def, snapshot) && forall i :: 0 <= i < |def| ==> FitsAt(catalog, def, snapshot, i)
    ensures StatusOf(diff) == Current <==>
              Matched(catalog, def, snapshot) && forall i :: 0 <= i < |def| ==> Extends(snapshot[i], Advertised(catalog, def[i]).value)
    ensures diff == [] <==>
              Matched(catalog, def, snapshot) && forall i :: 0 <= i < |def| ==> SameSurface(snapshot[i], Advertised(catalog, def[i]).value)
  {
    hide IsJobDiff, StillFits, Extends, SameSurface, Advertised, BoundInputs, ReferencedOutputs;
    if !Matched(catalog, def, snapshot) {
      UnmatchedIsReported(catalog, def, snapshot);
    } else {
      forall d | IsReportDiff(d, catalog, def, snapshot)
        ensures d.jobIndex < |def| && JobDiffers(d, d.jobIndex, catalog, def, snapshot)
      {
      }
      forall i | 0 <= i < |def|
        ensures FitsAt(catalog, def, snapshot, i) <==> forall d :: d in diff && d.jobIndex == i ==> !d.incompatible
        ensures Extends(snapshot[i], Advertised(catalog, def[i]).value)
                <==> forall d :: d in diff && d.jobIndex == i ==> !d.incompatible && !d.IsStale()
        ensures SameSurface(snapshot[i], Advertised(catalog, def[i]).value)
                <==> forall d :: d in diff ==> d.jobIndex != i
      {
        JobGrades(catalog, def, snapshot, i, diff);
      }
      assert diff != [] ==> diff[0] in diff;
    }
  }

  predicate JobDiffers(d: Diff, i: nat, catalog: Catalog, def: Definition, snapshot: seq<JobSchema>)
    requires Matched(catalog, def, snapshot) && i < |def|
  {
    IsJobDiff(d, i, snapshot[i], Advertised(catalog, def[i]).value, BoundInputs(def, i), ReferencedOutputs(def, i))
  }

  lemma JobGrades(catalog: Catalog, def: Definition, snapshot: seq<JobSchema>, i: nat, diff: seq<Diff>)
    requires Matched(catalog, def, snapshot) && i < |def|
    requires forall d :: d in diff <==> IsReportDiff(d, catalog, def, snapshot)
    ensures FitsAt(catalog, def, snapshot, i) <==> forall d :: d in diff && d.jobIndex == i ==> !d.incompatible
    ensures Extends(snapshot[i], Advertised(catalog, def[i]).value)
            <==> forall d :: d in diff && d.jobIndex == i ==> !d.incompatible && !d.IsStale()
    ensures SameSurface(snapshot[i], Advertised(catalog, def[i]).value)
            <==> forall d :: d in diff ==> d.jobIndex != i
  {
    hide IsJobDiff, StillFits, Extends, SameSurface, Advertised, BoundInputs, ReferencedOutputs;
    var current := Advertised(catalog, def[i]).value;
    var bound, referenced := BoundInputs(def, i), ReferencedOutputs(def, i);
    forall d ensures d in diff && d.jobIndex == i <==> IsJobDiff(d, i, snapshot[i], current, bound, referenced) {
      if IsJobDiff(d, i, snapshot[i], current, bound, referenced) {
        JobDiffIsOfItsJob(d, i, snapshot[i], current, bound, referenced);
        assert IsReportDiff(d, catalog, def, snapshot);
      }
    }
    JobFitsExactlyWhen(i, snapshot[i], current, bound, referenced);
    JobExtendsExactlyWhen(i, snapshot[i], current, bound, referenced);
    JobUnchangedExactlyWhen(i, snapshot[i], current, bound, referenced);
  }

  lemma UnmatchedIsReported(catalog: Catalog, def: Definition, snapshot: seq<JobSchema>)
    requires !Matched(catalog, def, snapshot)
    ensures exists d :: IsReportDiff(d, catalog, def, snapshot) && d.incompatible
  {
    hide IsJobDiff, Advertised;
    var i: nat;
    if |def| != |snapshot| {
      i := if |def| < |snapshot| then |def| else |snapshot|;
    } else {
      i :| 0 <= i < |def| && Advertised(catalog, def[i]) == None;
    }
    assert IsReportDiff(Diff(JobRemoved, i, None, true), catalog, def, snapshot);
  }

  // ---------------------------------------------------------------------------------------------
  // What an accepted change keeps

  lemma AdvertisedIsRegistered(catalog: Catalog, job: WorkflowJob)
    requires Advertised(catalog, job).Some?
    ensures job.runnerId in catalog
  {
  }

  lemma BindingStaysTyped(saved: seq<JobSchema>, current: seq<JobSchema>, def: Definition, i: nat, name: string)
    requires |saved| == |current| == |def| && i < |def| && name in def[i].inputs
    requires forall k :: 0 <= k < |def| ==> StillFits(saved[k], current[k], BoundInputs(def, k), ReferencedOutputs(def, k))
    requires name in saved[i].inputs && BindingKindOk(saved, i, saved[i].inputs[name].kind, def[i].inputs[name])
    ensures name in current[i].inputs && BindingKindOk(current, i, current[i].inputs[name].kind, def[i].inputs[name])
  {
    assert name in BoundInputs(def, i);
    assert StillFits(saved[i], current[i], BoundInputs(def, i), ReferencedOutputs(def, i));
    match def[i].inputs[name]
    case JobOutputOf(j, output) =>
      if output != "" {
        assert output in ReferencedOutputs(def, j);
        assert StillFits(saved[j], current[j], BoundInputs(def, j), ReferencedOutputs(def, j));
      }
    case _ =>
  }

  /** The kind, reference and required-input checks a workflow passed against its saved schemas hold
      against the current ones as well, whenever the report is Current or Stale. */
  lemma AcceptedChangesKeepTyping(catalog: Catalog, def: Definition, snapshot: seq<JobSchema>, report: Report)
    requires KindsOk(snapshot, def)
    requires forall d :: d in report.diff <==> IsReportDiff(d, catalog, def, snapshot)
    requires report.status == StatusOf(report.diff) && report.status != Incompatible
    ensures AllAdvertised(catalog, def) && KindsOk(SchemasOf(catalog, def), def)
  {
    hide IsJobDiff, IsReportDiff, StatusOf, StillFits, BindingKindOk, ReferencedOutputs, Advertised;
    ReportGrades(catalog, def, snapshot, report.diff);
    forall i | 0 <= i < |def| ensures def[i].runnerId in catalog {
      AdvertisedIsRegistered(catalog, def[i]);
    }
    var current := SchemasOf(catalog, def);
    forall i | 0 <= i < |def|
      ensures StillFits(snapshot[i], current[i], BoundInputs(def, i), ReferencedOutputs(def, i))
    {
      assert FitsAt(catalog, def, snapshot, i);
    }
    forall i | 0 <= i < |def| ensures JobKindsOk(current, def, i) {
      assert JobKindsOk(snapshot, def, i);
      forall name | name in def[i].inputs
        ensures name in current[i].inputs && BindingKindOk(current, i, current[i].inputs[name].kind, def[i].inputs[name])
      {
        BindingStaysTyped(snapshot, current, def, i, name);
      }
      RequiredStaysBound(snapshot[i], current[i], def[i], BoundInputs(def, i), ReferencedOutputs(def, i));
    }
  }

  lemma RequiredStaysBound(saved: JobSchema, current: JobSchema, job: WorkflowJob, bound: set<string>, referenced: set<string>)
    requires StillFits(saved, current, bound, referenced) && RequiredInputsBound(job, saved)
    ensures RequiredInputsBound(job, current)
  {
  }

  /** The two checks the report does not repeat. */
  predicate UnreportedOk(catalog: Catalog, schema: JobSchema, name: string, b: Binding, jsonBytes: JsonValue -> nat) {
    PromotionOk(catalog, b) && (name in schema.inputs ==> LiteralOk(schema.inputs[name], b, jsonBytes))
  }

  /** What the report leaves out: an accepted workflow would pass the whole save-time check again
      exactly when its promotion sources are still there and its literals within the current limits. */
  lemma AcceptedRevalidatesExactlyWhen(catalog: Catalog, def: Definition, snapshot: seq<JobSchema>, report: Report,
                                       jsonBytes: JsonValue -> nat)
    requires KindsOk(snapshot, def)
    requires forall d :: d in report.diff <==> IsReportDiff(d, catalog, def, snapshot)
    requires report.status == StatusOf(report.diff) && report.status != Incompatible
    ensures AllAdvertised(catalog, def)
    ensures WorkflowTyped(catalog, def, jsonBytes) <==>
              forall i, name :: 0 <= i < |def| && name in def[i].inputs ==>
                UnreportedOk(catalog, SchemasOf(catalog, def)[i], name, def[i].inputs[name], jsonBytes)
  {
    hide IsJobDiff, IsReportDiff, StatusOf, BindingKindOk, Advertised, PromotionOk, LiteralOk;
    AcceptedChangesKeepTyping(catalog, def, snapshot, report);
    var schemas := SchemasOf(catalog, def);
    forall i, name | 0 <= i < |def| && name in def[i].inputs
      ensures InputOk(catalog, schemas, i, schemas[i], name, def[i].inputs[name], jsonBytes)
              <==> UnreportedOk(catalog, schemas[i], name, def[i].inputs[name], jsonBytes)
    {
      assert JobKindsOk(schemas, def, i);
    }
    forall i | 0 <= i < |def| ensures RequiredInputsBound(def[i], schemas[i]) {
      assert JobKindsOk(schemas, def, i);
    }
    if WorkflowTyped(catalog, def, jsonBytes) {
      forall i, name | 0 <= i < |def| && name in def[i].inputs
        ensures InputOk(catalog, schemas, i, schemas[i], name, def[i].inputs[name], jsonBytes)
      {
        assert JobTyped(catalog, schemas, def, i, jsonBytes);
      }
    }
  }
}
