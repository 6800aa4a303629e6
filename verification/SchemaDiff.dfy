/** What a changed runner schema means for a workflow saved against an older one. */
module SchemaDiff {
  import opened Wire
  import opened Manifests
  import opened Workflows

  datatype DiffKind =
    | JobRemoved
    | InputAdded | InputRemoved | InputTypeChanged | InputRequirednessChanged
    | OutputAdded | OutputRemoved | OutputTypeChanged | OutputRequirednessChanged

  datatype Diff = Diff(kind: DiffKind, jobIndex: nat, field: Option<string>, incompatible: bool)
  {
    predicate IsStale() {
      !incompatible && kind != InputAdded && kind != OutputAdded
    }
  }

  datatype SchemaStatus = Current | Stale | Incompatible

  datatype Report = Report(status: SchemaStatus, diff: seq<Diff>)

  function BoundInputs(def: Definition, i: nat): set<string> {
    if i < |def| then def[i].inputs.Keys else {}
  }

  /** The outputs of job `i` that some binding of some job names. */
  function ReferencedOutputs(def: Definition, i: nat): set<string> {
    set k, name | 0 <= k < |def| && name in def[k].inputs && def[k].inputs[name].JobOutputOf? && def[k].inputs[name].jobIndex == i
      :: def[k].inputs[name].outputName
  }

  // ---------------------------------------------------------------------------------------------
  // The differences a report lists

  predicate IsInputDiff(d: Diff, i: nat, saved: map<string, InputSpec>, current: map<string, InputSpec>, bound: set<string>) {
    && d.jobIndex == i && d.field.Some?
    && var name := d.field.value;
       match d.kind
       case InputAdded => name in current && name !in saved && d.incompatible == current[name].required
       case InputRemoved =>
         name in saved && name !in current && d.incompatible == (saved[name].required || name in bound)
       case InputTypeChanged =>
         && name in saved && name in current && saved[name].kind != current[name].kind
         && d.incompatible == (saved[name].required || name in bound)
       case InputRequirednessChanged =>
         && name in saved && name in current && saved[name].required != current[name].required
         && d.incompatible == current[name].required
       case _ => false
  }

  predicate IsOutputDiff(d: Diff, i: nat, saved: map<string, OutputSpec>, current: map<string, OutputSpec>, referenced: set<string>) {
    && d.jobIndex == i && d.field.Some?
    && var name := d.field.value;
       match d.kind
       case OutputAdded => name in current && name !in saved && !d.incompatible
       case OutputRemoved =>
         name in saved && name !in current && d.incompatible == (saved[name].required || name in referenced)
       case OutputTypeChanged =>
         && name in saved && name in current && saved[name].kind != current[name].kind
         && d.incompatible == (saved[name].required || name in referenced)
       case OutputRequirednessChanged =>
         && name in saved && name in current && saved[name].required != current[name].required
         && d.incompatible == saved[name].required
       case _ => false
  }

  predicate IsJobDiff(d: Diff, i: nat, saved: JobSchema, current: JobSchema, bound: set<string>, referenced: set<string>) {
    || IsInputDiff(d, i, saved.inputs, current.inputs, bound)
    || IsOutputDiff(d, i, saved.outputs, current.outputs, referenced)
  }

  predicate Distinct(ds: seq<Diff>) {
    forall j, k :: 0 <= j < k < |ds| ==> ds[j] != ds[k]
  }

  predicate Seen(d: Diff, unseen: set<string>) {
    d.field.Some? && d.field.value !in unseen
  }

  /** The differences of one saved field. */
  method DiffSavedInput(i: nat, name: string, saved: map<string, InputSpec>, current: map<string, InputSpec>, bound: set<string>)
    returns (diff: seq<Diff>)
    requires name in saved
    ensures forall d :: d in diff <==> IsInputDiff(d, i, saved, current, bound) && d.kind != InputAdded && d.field == Some(name)
    ensures Distinct(diff)
  {
    diff := [];
    if name !in current {
      diff := [Diff(InputRemoved, i, Some(name), saved[name].required || name in bound)];
    } else {
      if saved[name].kind != current[name].kind {
        diff := [Diff(InputTypeChanged, i, Some(name), saved[name].required || name in bound)];
      }
      if saved[name].required != current[name].required {
        diff := diff + [Diff(InputRequirednessChanged, i, Some(name), current[name].required && !saved[name].required)];
      }
    }
  }

  method DiffInputs(i: nat, saved: map<string, InputSpec>, current: map<string, InputSpec>, bound: set<string>)
    returns (diff: seq<Diff>)
    ensures forall d :: d in diff <==> IsInputDiff(d, i, saved, current, bound)
    ensures Distinct(diff)
  {
    diff := [];
    var names := current.Keys;
    while names != {}
      invariant names <= current.Keys
      invariant forall d :: d in diff <==> IsInputDiff(d, i, saved, current, bound) && d.kind == InputAdded && Seen(d, names)
      invariant Distinct(diff)
      decreases |names|
    {
      var name :| name in names;
      names := names - {name};
      if name !in saved {
        diff := diff + [Diff(InputAdded, i, Some(name), current[name].required)];
      }
    }

    hide IsInputDiff;
    ghost var added := diff;
    names := saved.Keys;
    while names != {}
      invariant names <= saved.Keys
      invariant forall d :: d in diff <==> d in added || (IsInputDiff(d, i, saved, current, bound) && d.kind != InputAdded && Seen(d, names))
      invariant Distinct(diff)
      decreases |names|
    {
      var name :| name in names;
      var own := DiffSavedInput(i, name, saved, current, bound);
      DistinctAppend(diff, own);
      names, diff := names - {name}, diff + own;
    }
    forall d | IsInputDiff(d, i, saved, current, bound) ensures d in diff {
      InputDiffHasField(d, i, saved, current, bound);
    }
  }

  lemma InputDiffHasField(d: Diff, i: nat, saved: map<string, InputSpec>, current: map<string, InputSpec>, bound: set<string>)
    requires IsInputDiff(d, i, saved, current, bound)
    ensures d.jobIndex == i && d.field.Some? && (d.kind == InputAdded ==> d.field.value in current) && (d.kind != InputAdded ==> d.field.value in saved)
  {
  }

  /** The differences of one saved field. */
  method DiffSavedOutput(i: nat, name: string, saved: map<string, OutputSpec>, current: map<string, OutputSpec>, referenced: set<string>)
    returns (diff: seq<Diff>)
    requires name in saved
    ensures forall d :: d in diff <==> IsOutputDiff(d, i, saved, current, referenced) && d.kind != OutputAdded && d.field == Some(name)
    ensures Distinct(diff)
  {
    diff := [];
    if name !in current {
      diff := [Diff(OutputRemoved, i, Some(name), saved[name].required || name in referenced)];
    } else {
      if saved[name].kind != current[name].kind {
        diff := [Diff(OutputTypeChanged, i, Some(name), saved[name].required || name in referenced)];
      }
      if saved[name].required != current[name].required {
        diff := diff + [Diff(OutputRequirednessChanged, i, Some(name), saved[name].required && !current[name].required)];
      }
    }
  }

  method DiffOutputs(i: nat, saved: map<string, OutputSpec>, current: map<string, OutputSpec>, referenced: set<string>)
    returns (diff: seq<Diff>)
    ensures forall d :: d in diff <==> IsOutputDiff(d, i, saved, current, referenced)
    ensures Distinct(diff)
  {
    diff := [];
    var names := current.Keys;
    while names != {}
      invariant names <= current.Keys
      invariant forall d :: d in diff <==> IsOutputDiff(d, i, saved, current, referenced) && d.kind == OutputAdded && Seen(d, names)
      invariant Distinct(diff)
      decreases |names|
    {
      var name :| name in names;
      names := names - {name};
      if name !in saved {
        diff := diff + [Diff(OutputAdded, i, Some(name), false)];
      }
    }

    hide IsOutputDiff;
    ghost var added := diff;
    names := saved.Keys;
    while names != {}
      invariant names <= saved.Keys
      invariant forall d :: d in diff <==> d in added || (IsOutputDiff(d, i, saved, current, referenced) && d.kind != OutputAdded && Seen(d, names))
      invariant Distinct(diff)
      decreases |names|
    {
      var name :| name in names;
      var own := DiffSavedOutput(i, name, saved, current, referenced);
      DistinctAppend(diff, own);
      names, diff := names - {name}, diff + own;
    }
    forall d | IsOutputDiff(d, i, saved, current, referenced) ensures d in diff {
      OutputDiffHasField(d, i, saved, current, referenced);
    }
  }

  lemma OutputDiffHasField(d: Diff, i: nat, saved: map<string, OutputSpec>, current: map<string, OutputSpec>, referenced: set<string>)
    requires IsOutputDiff(d, i, saved, current, referenced)
    ensures d.jobIndex == i && d.field.Some? && (d.kind == OutputAdded ==> d.field.value in current) && (d.kind != OutputAdded ==> d.field.value in saved)
  {
  }

  /** The differences between one job's saved and current schemas: all of them, each once. */
  method DiffJobSchema(i: nat, saved: JobSchema, current: JobSchema, bound: set<string>, referenced: set<string>)
    returns (diff: seq<Diff>)
    ensures forall d :: d in diff <==> IsJobDiff(d, i, saved, current, bound, referenced)
    ensures Distinct(diff)
  {
    var inputs := DiffInputs(i, saved.inputs, current.inputs, bound);
    var outputs := DiffOutputs(i, saved.outputs, current.outputs, referenced);
    diff := inputs + outputs;
    DistinctAppend(inputs, outputs);
  }

  lemma DistinctAppend(a: seq<Diff>, b: seq<Diff>)
    requires Distinct(a) && Distinct(b) && forall d :: d in a ==> d !in b
    ensures Distinct(a + b)
  {
    forall j, k | 0 <= j < k < |a + b| ensures (a + b)[j] != (a + b)[k] {
      if j < |a| <= k {
        assert a[j] in a && b[k - |a|] in b;
      }
    }
  }

  /** What the report says about job `i`, which may be a job of the workflow or a leftover of the snapshot. */
  predicate IsDiffOf(d: Diff, i: nat, catalog: Catalog, def: Definition, snapshot: seq<JobSchema>) {
    if i < |def| && i < |snapshot| && Advertised(catalog, def[i]).Some? then
      IsJobDiff(d, i, snapshot[i], Advertised(catalog, def[i]).value, BoundInputs(def, i), ReferencedOutputs(def, i))
    else
      (i < |def| || i < |snapshot|) && d == Diff(JobRemoved, i, None, true)
  }

  predicate IsReportDiff(d: Diff, catalog: Catalog, def: Definition, snapshot: seq<JobSchema>) {
    IsDiffOf(d, d.jobIndex, catalog, def, snapshot)
  }

  function StatusOf(diff: seq<Diff>): SchemaStatus {
    if exists d :: d in diff && d.incompatible then Incompatible
    else if exists d :: d in diff && d.IsStale() then Stale
    else Current
  }

  /** The report lists every difference once and nothing else, and grades them. */
  method WorkflowSchemaReport(catalog: Catalog, def: Definition, snapshot: seq<JobSchema>) returns (report: Report)
    ensures forall d :: d in report.diff <==> IsReportDiff(d, catalog, def, snapshot)
    ensures Distinct(report.diff)
    ensures report.status == StatusOf(report.diff)
  {
    hide IsJobDiff;
    var diff: seq<Diff> := [];
    for i := 0 to |def|
      invariant forall d :: d in diff <==> d.jobIndex < i && IsReportDiff(d, catalog, def, snapshot)
      invariant Distinct(diff)
    {
      var found := Advertised(catalog, def[i]);
      var own: seq<Diff> := [];
      if |snapshot| <= i || found == None {
        own := [Diff(JobRemoved, i, None, true)];
      } else {
        own := DiffJobSchema(i, snapshot[i], found.value, BoundInputs(def, i), ReferencedOutputs(def, i));
        forall d | d in own ensures d.jobIndex == i {
          JobDiffIsOfItsJob(d, i, snapshot[i], found.value, BoundInputs(def, i), ReferencedOutputs(def, i));
        }
      }
      DistinctAppend(diff, own);
      diff := diff + own;
    }

    var i := |def|;
    while i < |snapshot|
      invariant |def| <= i && (i <= |snapshot| || i == |def|)
      invariant forall d :: d in diff <==> d.jobIndex < i && IsReportDiff(d, catalog, def, snapshot)
      invariant Distinct(diff)
    {
      DistinctAppend(diff, [Diff(JobRemoved, i, None, true)]);
      diff := diff + [Diff(JobRemoved, i, None, true)];
      i := i + 1;
    }
    report := Report(StatusOf(diff), diff);
  }

  lemma JobDiffIsOfItsJob(d: Diff, i: nat, saved: JobSchema, current: JobSchema, bound: set<string>, referenced: set<string>)
    requires IsJobDiff(d, i, saved, current, bound, referenced)
    ensures d.jobIndex == i
  {
  }
}
