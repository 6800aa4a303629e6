/** The runner's check of a job's inputs, and its reading of a job's outputs. */
module JobInputs {
  import opened Wire
  import opened Manifests
  import opened Workflows

  datatype ArtifactLookup = Unavailable | Corrupt | Expired | Stored(blobPath: string)

  /** What the checks ask the outside: pattern matching, serialized sizes and the artifact store. */
  datatype Env = Env(
    matches: (string, string) -> bool, jsonBytes: JsonValue -> nat, artifact: string -> ArtifactLookup)

  datatype InputError =
    | MissingInput(name: string)
    | UnknownInput(name: string)
    | InvalidInputType(name: string)
    | InvalidInputValue(name: string)
    | ArtifactUnavailable(name: string)
    | ArtifactCorrupt(name: string)
    | ExpiredArtifact(name: string)

  predicate MissingFrom(m: JobSchema, inputs: map<string, JsonValue>, name: string) {
    name in m.inputs && m.inputs[name].required && name !in inputs
  }

  predicate UnknownTo(m: JobSchema, inputs: map<string, JsonValue>, name: string) {
    name in inputs && name !in m.inputs && !IsReservedInputName(name)
  }

  /** The value is looked at: it was supplied under a declared, unreserved name. */
  predicate Checked(m: JobSchema, inputs: map<string, JsonValue>, name: string) {
    name in inputs && name in m.inputs && !IsReservedInputName(name)
  }

  predicate ValueAllowed(env: Env, spec: InputSpec, value: JsonValue) {
    match spec.kind
    case String =>
      && value.JString?
      && (spec.maxLength.Some? ==> |value.text| <= spec.maxLength.value)
      && (spec.pattern.Some? ==> env.matches(spec.pattern.value, value.text))
    case Integer => value.JNumber? && value.integer.Some?
    case Boolean => value.JBool?
    case Artifact => value.JString?
    case Json => !value.JNull? && (spec.maxJsonBytes.Some? ==> env.jsonBytes(value) <= spec.maxJsonBytes.value)
  }

  /** The complaints the check could make of these inputs. */
  predicate Complaint(env: Env, m: JobSchema, inputs: map<string, JsonValue>, e: InputError) {
    match e
    case MissingInput(name) => MissingFrom(m, inputs, name)
    case UnknownInput(name) => UnknownTo(m, inputs, name)
    case InvalidInputType(name) => Checked(m, inputs, name) && !ValueMatchesKind(inputs[name], m.inputs[name].kind)
    case InvalidInputValue(name) =>
      && Checked(m, inputs, name) && ValueMatchesKind(inputs[name], m.inputs[name].kind)
      && !ValueAllowed(env, m.inputs[name], inputs[name])
    case ArtifactUnavailable(name) =>
      && Checked(m, inputs, name) && m.inputs[name].kind == Kind.Artifact && inputs[name].JString?
      && env.artifact(inputs[name].text).Unavailable?
    case ArtifactCorrupt(name) =>
      && Checked(m, inputs, name) && m.inputs[name].kind == Kind.Artifact && inputs[name].JString?
      && env.artifact(inputs[name].text).Corrupt?
    case ExpiredArtifact(name) =>
      && Checked(m, inputs, name) && m.inputs[name].kind == Kind.Artifact && inputs[name].JString?
      && env.artifact(inputs[name].text).Expired?
  }

  predicate InputAccepted(env: Env, spec: InputSpec, value: JsonValue) {
    && ValueAllowed(env, spec, value)
    && ValueMatchesKind(value, spec.kind)
    && (spec.kind == Kind.Artifact ==> value.JString? && env.artifact(value.text).Stored?)
  }

  /** The value, under that name, is refused with this error. */
  predicate RefusedWith(env: Env, name: string, spec: InputSpec, value: JsonValue, error: InputError) {
    match error
    case InvalidInputType(n) => n == name && !ValueMatchesKind(value, spec.kind)
    case InvalidInputValue(n) => n == name && ValueMatchesKind(value, spec.kind) && !ValueAllowed(env, spec, value)
    case ArtifactUnavailable(n) =>
      n == name && spec.kind == Kind.Artifact && value.JString? && env.artifact(value.text).Unavailable?
    case ArtifactCorrupt(n) =>
      n == name && spec.kind == Kind.Artifact && value.JString? && env.artifact(value.text).Corrupt?
    case ExpiredArtifact(n) =>
      n == name && spec.kind == Kind.Artifact && value.JString? && env.artifact(value.text).Expired?
    case _ => false
  }

  lemma RefusalIsComplaint(env: Env, m: JobSchema, inputs: map<string, JsonValue>, name: string, error: InputError)
    requires Checked(m, inputs, name) && RefusedWith(env, name, m.inputs[name], inputs[name], error)
    ensures Complaint(env, m, inputs, error) && error.name == name && !error.MissingInput? && !error.UnknownInput?
  {
    hide IsReservedInputName, ValueAllowed, ValueMatchesKind;
  }

  method ValidateValue(env: Env, name: string, spec: InputSpec, value: JsonValue) returns (error: Option<InputError>)
    ensures error == None <==> InputAccepted(env, spec, value)
    ensures error.Some? ==> RefusedWith(env, name, spec, value, error.value)
  {
    if !ValueMatchesKind(value, spec.kind) {
      return Some(InvalidInputType(name));
    }
    if !ValueAllowed(env, spec, value) {
      return Some(InvalidInputValue(name));
    }
    if spec.kind == Kind.Artifact {
      var found := env.artifact(value.text);
      if found.Unavailable? {
        return Some(ArtifactUnavailable(name));
      }
      if found.Corrupt? {
        return Some(ArtifactCorrupt(name));
      }
      if found.Expired? {
        return Some(ExpiredArtifact(name));
      }
    }
    error := None;
  }

  ghost predicate AllAccepted(env: Env, m: JobSchema, inputs: map<string, JsonValue>) {
    && (forall name :: !MissingFrom(m, inputs, name))
    && (forall name :: !UnknownTo(m, inputs, name))
    && (forall name :: Checked(m, inputs, name) ==> InputAccepted(env, m.inputs[name], inputs[name]))
  }

  lemma AcceptedExactlyWithoutComplaint(env: Env, m: JobSchema, inputs: map<string, JsonValue>)
    ensures AllAccepted(env, m, inputs) <==> forall e :: !Complaint(env, m, inputs, e)
  {
    hide IsReservedInputName, ValueAllowed;
    if forall e :: !Complaint(env, m, inputs, e) {
      forall name ensures !MissingFrom(m, inputs, name) && !UnknownTo(m, inputs, name) {
        assert !Complaint(env, m, inputs, MissingInput(name));
        assert !Complaint(env, m, inputs, InputError.UnknownInput(name));
      }
      forall name | Checked(m, inputs, name) ensures InputAccepted(env, m.inputs[name], inputs[name]) {
        assert !Complaint(env, m, inputs, InvalidInputType(name));
        assert !Complaint(env, m, inputs, InvalidInputValue(name));
        assert !Complaint(env, m, inputs, ArtifactUnavailable(name));
        assert !Complaint(env, m, inputs, ArtifactCorrupt(name));
        assert !Complaint(env, m, inputs, ExpiredArtifact(name));
      }
    }
  }

  /** What a value must be like, by its spec: of its kind, and within the limits that go with the kind. */
  predicate Fits(env: Env, spec: InputSpec, value: JsonValue) {
    && (spec.kind == Kind.String || spec.kind == Kind.Artifact ==> value.JString?)
    && (spec.kind == Kind.Integer ==> value.JNumber? && value.integer.Some?)
    && (spec.kind == Kind.Boolean ==> value.JBool?)
    && (spec.kind == Kind.Json ==> value != JNull)
    && (spec.kind == Kind.String && spec.maxLength.Some? ==> |value.text| <= spec.maxLength.value)
    && (spec.kind == Kind.String && spec.pattern.Some? ==> env.matches(spec.pattern.value, value.text))
    && (spec.kind == Kind.Json && spec.maxJsonBytes.Some? ==> env.jsonBytes(value) <= spec.maxJsonBytes.value)
    && (spec.kind == Kind.Artifact ==> env.artifact(value.text).Stored?)
  }

  lemma AcceptedFits(env: Env, spec: InputSpec, value: JsonValue)
    ensures InputAccepted(env, spec, value) <==> Fits(env, spec, value)
  {
  }

  /** There is nothing to complain of exactly when every required input is there, every input is declared or
      has a reserved name, and every value under a declared name that is not reserved fits its spec. */
  lemma AcceptedInputsFit(env: Env, m: JobSchema, inputs: map<string, JsonValue>)
    ensures (forall e :: !Complaint(env, m, inputs, e)) <==>
              && (forall name :: name in m.inputs && m.inputs[name].required ==> name in inputs)
              && (forall name :: name in inputs ==> name in m.inputs || IsReservedInputName(name))
              && (forall name :: name in inputs && name in m.inputs && !IsReservedInputName(name) ==>
                    Fits(env, m.inputs[name], inputs[name]))
  {
    hide Complaint, IsReservedInputName, InputAccepted, Fits;
    AcceptedExactlyWithoutComplaint(env, m, inputs);
    forall name | Checked(m, inputs, name) ensures InputAccepted(env, m.inputs[name], inputs[name]) <==> Fits(env, m.inputs[name], inputs[name]) {
      AcceptedFits(env, m.inputs[name], inputs[name]);
    }
    if AllAccepted(env, m, inputs) {
      forall name | name in m.inputs && m.inputs[name].required ensures name in inputs {
        assert !MissingFrom(m, inputs, name);
      }
      forall name | name in inputs ensures name in m.inputs || IsReservedInputName(name) {
        assert !UnknownTo(m, inputs, name);
      }
      forall name | name in inputs && name in m.inputs && !IsReservedInputName(name) ensures Fits(env, m.inputs[name], inputs[name]) {
        assert Checked(m, inputs, name);
      }
    }
  }

  /** The order in which a map's entries are visited: every key, once. */
  predicate Visits(order: seq<string>, keys: set<string>) {
    && (forall name :: name in keys ==> name in order)
    && (forall i :: 0 <= i < |order| ==> order[i] in keys)
    && (forall i, j :: 0 <= i < j < |order| ==> order[i] != order[j])
  }

  predicate FirstMissing(m: JobSchema, inputs: map<string, JsonValue>, declared: seq<string>, name: string) {
    exists k :: 0 <= k < |declared| && declared[k] == name && MissingFrom(m, inputs, name)
                && forall l :: 0 <= l < k ==> !MissingFrom(m, inputs, declared[l])
  }

  predicate FirstUnknown(m: JobSchema, inputs: map<string, JsonValue>, given: seq<string>, name: string) {
    exists k :: 0 <= k < |given| && given[k] == name && UnknownTo(m, inputs, name)
                && forall l :: 0 <= l < k ==> !UnknownTo(m, inputs, given[l])
  }

  /** Every value visited before this one was accepted. */
  predicate FirstRefused(env: Env, m: JobSchema, inputs: map<string, JsonValue>, given: seq<string>, name: string) {
    exists k :: 0 <= k < |given| && given[k] == name
                && forall l :: 0 <= l < k && Checked(m, inputs, given[l]) ==> InputAccepted(env, m.inputs[given[l]], inputs[given[l]])
  }

  method CheckNames(m: JobSchema, inputs: map<string, JsonValue>, declared: seq<string>, given: seq<string>)
    returns (error: Option<InputError>)
    requires Visits(declared, m.inputs.Keys) && Visits(given, inputs.Keys)
    ensures error == None <==> forall name :: !MissingFrom(m, inputs, name) && !UnknownTo(m, inputs, name)
    ensures error.Some? ==>
              || (error.value.MissingInput? && FirstMissing(m, inputs, declared, error.value.name))
              || (&& error.value.UnknownInput? && FirstUnknown(m, inputs, given, error.value.name)
                  && forall name :: !MissingFrom(m, inputs, name))
  {
    hide IsReservedInputName;
    for k := 0 to |declared|
      invariant forall l :: 0 <= l < k ==> !MissingFrom(m, inputs, declared[l])
    {
      if m.inputs[declared[k]].required && declared[k] !in inputs {
        assert MissingFrom(m, inputs, declared[k]);
        return Some(MissingInput(declared[k]));
      }
    }
    assert forall name :: !MissingFrom(m, inputs, name);

    for k := 0 to |given|
      invariant forall l :: 0 <= l < k ==> !UnknownTo(m, inputs, given[l])
    {
      if given[k] !in m.inputs && !IsReservedInputName(given[k]) {
        assert UnknownTo(m, inputs, given[k]);
        return Some(InputError.UnknownInput(given[k]));
      }
    }
    error := None;
  }

  /** Inputs are accepted exactly when there is nothing to complain of. An error is a complaint that
      applies, and the first that does: missing inputs in the order they are declared, then unknown ones in
      the order they are given, then values in that order. Accepted artifact inputs, and only they, come
      back resolved to their blobs. */
  method ValidateInputs(env: Env, m: JobSchema, inputs: map<string, JsonValue>, declared: seq<string>, given: seq<string>)
    returns (r: Result<map<string, string>, InputError>)
    requires Visits(declared, m.inputs.Keys) && Visits(given, inputs.Keys)
    ensures r.Ok? <==> forall e :: !Complaint(env, m, inputs, e)
    ensures r.Err? ==> Complaint(env, m, inputs, r.error)
    ensures r.Err? && r.error.MissingInput? ==> FirstMissing(m, inputs, declared, r.error.name)
    ensures r.Err? && !r.error.MissingInput? ==> forall name :: !MissingFrom(m, inputs, name)
    ensures r.Err? && r.error.UnknownInput? ==> FirstUnknown(m, inputs, given, r.error.name)
    ensures r.Err? && !r.error.MissingInput? && !r.error.UnknownInput? ==>
              (forall name :: !UnknownTo(m, inputs, name)) && FirstRefused(env, m, inputs, given, r.error.name)
    ensures r.Ok? ==>
              && (forall name :: name in r.value <==> Checked(m, inputs, name) && m.inputs[name].kind == Kind.Artifact)
              && (forall name :: name in r.value ==>
                    inputs[name].JString? && env.artifact(inputs[name].text) == Stored(r.value[name]))
  {
    hide IsReservedInputName, ValueAllowed, ValueMatchesKind, FirstMissing, FirstUnknown, Complaint, RefusedWith, Fits;
    AcceptedExactlyWithoutComplaint(env, m, inputs);
    var misnamed := CheckNames(m, inputs, declared, given);
    if misnamed.Some? {
      FirstIsComplaint(env, m, inputs, declared, given, misnamed.value);
      return Err(misnamed.value);
    }
    var resolved: map<string, string> := map[];
    for k := 0 to |given|
      invariant forall l :: 0 <= l < k && Checked(m, inputs, given[l]) ==> InputAccepted(env, m.inputs[given[l]], inputs[given[l]])
      invariant forall name :: name in resolved <==>
                  name in given[..k] && Checked(m, inputs, name) && m.inputs[name].kind == Kind.Artifact
      invariant forall name :: name in resolved ==>
                  inputs[name].JString? && env.artifact(inputs[name].text) == Stored(resolved[name])
    {
      var name := given[k];
      assert given[..k + 1] == given[..k] + [name];
      if !IsReservedInputName(name) {
        assert !UnknownTo(m, inputs, name);
        var error := ValidateValue(env, name, m.inputs[name], inputs[name]);
        if error.Some? {
          RefusalIsComplaint(env, m, inputs, name, error.value);
          return Err(error.value);
        }
        if m.inputs[name].kind == Kind.Artifact {
          resolved := resolved[name := env.artifact(inputs[name].text).blobPath];
        }
      }
    }
    assert given[..|given|] == given;
    r := Ok(resolved);
  }

  lemma FirstIsComplaint(env: Env, m: JobSchema, inputs: map<string, JsonValue>, declared: seq<string>, given: seq<string>, e: InputError)
    requires || (e.MissingInput? && FirstMissing(m, inputs, declared, e.name))
             || (e.UnknownInput? && FirstUnknown(m, inputs, given, e.name))
    ensures Complaint(env, m, inputs, e)
    ensures e.MissingInput? ==> exists name :: MissingFrom(m, inputs, name)
  {
  }

  // ---------------------------------------------------------------------------------------------
  // Outputs

  /** What the runner finds at the path an output declares, once the path itself is accepted. */
  datatype OutputFile =
    | BadPath | Absent | NotAFile | UnreadableFile
    | Contents(text: Option<string>, integer: Option<i64>, flag: Option<bool>, json: Option<JsonValue>,
               artifact: Option<(string, string, nat)>)

  function KindOf(o: JobOutput): Kind {
    match o
    case ArtifactOutput(_, _, _) => Kind.Artifact
    case StringOutput(_) => Kind.String
    case IntegerOutput(_) => Kind.Integer
    case BooleanOutput(_) => Kind.Boolean
    case JsonOutput(_) => Kind.Json
  }

  function ReadOutput(name: string, kind: Kind, f: OutputFile): Result<RegisteredOutput, OutputError>
    requires f.Contents?
  {
    match kind
    case Artifact =>
      if f.artifact.Some? then Ok(ArtifactOutput(f.artifact.value.0, f.artifact.value.1, f.artifact.value.2))
      else Err(OutputUnreadable(name))
    case String => if f.text.Some? then Ok(StringOutput(f.text.value)) else Err(OutputUnreadable(name))
    case Integer => if f.integer.Some? then Ok(IntegerOutput(f.integer.value)) else Err(OutputUnreadable(name))
    case Boolean => if f.flag.Some? then Ok(BooleanOutput(f.flag.value)) else Err(OutputUnreadable(name))
    case Json =>
      if f.json.Some? && !f.json.value.JNull? then Ok(JsonOutput(f.json.value)) else Err(OutputUnreadable(name))
  }

  /** An output is read as its file says, under its kind; a null document is not an output. */
  predicate ReadAs(kind: Kind, f: OutputFile, o: JobOutput)
    requires f.Contents?
  {
    && (kind == Kind.Artifact ==>
          f.artifact.Some? && o == ArtifactOutput(f.artifact.value.0, f.artifact.value.1, f.artifact.value.2))
    && (kind == Kind.String ==> f.text.Some? && o == StringOutput(f.text.value))
    && (kind == Kind.Integer ==> f.integer.Some? && o == IntegerOutput(f.integer.value))
    && (kind == Kind.Boolean ==> f.flag.Some? && o == BooleanOutput(f.flag.value))
    && (kind == Kind.Json ==> f.json.Some? && f.json.value != JNull && o == JsonOutput(f.json.value))
  }

  lemma ReadsExactlyWhen(name: string, kind: Kind, f: OutputFile, o: RegisteredOutput)
    requires f.Contents?
    ensures ReadOutput(name, kind, f) == Ok(o) <==> ReadAs(kind, f, o)
    ensures ReadOutput(name, kind, f).Err? ==> ReadOutput(name, kind, f) == Err(OutputUnreadable(name))
  {
  }

  /** Every registered output is declared, has the declared kind, and is what its file says. */
  predicate Conforms(specs: map<string, OutputSpec>, files: map<string, OutputFile>, outputs: map<string, RegisteredOutput>) {
    forall name :: name in outputs ==>
      && name in specs && name in files && files[name].Contents?
      && KindOf(outputs[name]) == specs[name].kind
      && ReadOutput(name, specs[name].kind, files[name]) == Ok(outputs[name])
  }

  /** The output is there and readable as its kind, or need not be there. */
  predicate Readable(name: string, spec: OutputSpec, f: OutputFile) {
    || (f.Absent? && !spec.required)
    || (f.Contents? && ReadOutput(name, spec.kind, f).Ok?)
  }

  /** Registration succeeds exactly when every declared output is readable as its kind, or is optional
      and absent; then it registers exactly the present ones. What is registered always conforms, even
      when registration breaks off. */
  method RegisterOutputs(specs: map<string, OutputSpec>, files: map<string, OutputFile>)
    returns (outputs: map<string, RegisteredOutput>, error: Option<OutputError>)
    requires files.Keys == specs.Keys
    ensures Conforms(specs, files, outputs)
    ensures error == None <==> forall name :: name in specs ==> Readable(name, specs[name], files[name])
    ensures error == None ==> outputs.Keys == set name | name in specs && !files[name].Absent?
    ensures error.Some? && error.value.OutputMissing? ==>
              && error.value.name in specs
              && var f := files[error.value.name];
                 f.BadPath? || f.NotAFile? || (f.Absent? && specs[error.value.name].required)
  {
    outputs := map[];
    var names := specs.Keys;
    while names != {}
      invariant names <= specs.Keys
      invariant Conforms(specs, files, outputs)
      invariant forall name :: name in specs && name !in names ==> Readable(name, specs[name], files[name])
      invariant outputs.Keys == set name | name in specs && name !in names && !files[name].Absent?
      decreases |names|
    {
      var name :| name in names;
      var read := RegisterOutput(name, specs[name], files[name]);
      match read {
        case Err(e) => return outputs, Some(e);
        case Ok(None) =>
        case Ok(Some(output)) => outputs := outputs[name := output];
      }
      names := names - {name};
    }
    error := None;
  }

  method RegisterOutput(name: string, spec: OutputSpec, f: OutputFile) returns (r: Result<Option<RegisteredOutput>, OutputError>)
    ensures r.Ok? <==> Readable(name, spec, f)
    ensures r.Ok? ==> (r.value == None <==> f.Absent?)
    ensures r.Ok? && r.value.Some? ==> f.Contents? && ReadOutput(name, spec.kind, f) == Ok(r.value.value) && KindOf(r.value.value) == spec.kind
    ensures r.Err? ==> r.error.name == name
    ensures r.Err? ==> (r.error.OutputMissing? <==> f.BadPath? || f.NotAFile? || f.Absent?)
  {
    match f
    case BadPath => r := Err(OutputMissing(name));
    case NotAFile => r := Err(OutputMissing(name));
    case UnreadableFile => r := Err(OutputUnreadable(name));
    case Absent => r := if spec.required then Err(OutputMissing(name)) else Ok(None);
    case Contents(_, _, _, _, _) =>
      var output := ReadOutput(name, spec.kind, f);
      r := if output.Ok? then Ok(Some(output.value)) else Err(output.error);
  }
}
