/** Job manifests: what the runner offers, under names it guarantees to be unique. */
module Manifests {
  import opened Wire

  datatype Concurrency = Parallel | JobExclusive | GlobalExclusive

  datatype InputSpec = InputSpec(
    kind: Kind, required: bool, sensitive: bool,
    maxLength: Option<nat>, pattern: Option<string>, maxJsonBytes: Option<nat>)

  datatype OutputSpec = OutputSpec(kind: Kind, path: string, required: bool)

  /** A manifest, which is also what the runner advertises of it and what a workflow snapshot saves. */
  datatype JobSchema = JobSchema(
    name: string, concurrency: Concurrency, timeoutSeconds: nat,
    inputs: map<string, InputSpec>, outputs: map<string, OutputSpec>)

  const JANUS_JOB_RUN_ID := "janus_job_run_id"

  const RESERVED_INPUT_NAMES: seq<string> :=
    ["id", "name", "workdir", "output_dir", "metadata_path", JANUS_JOB_RUN_ID]

  predicate IsReservedInputName(name: string) {
    name in RESERVED_INPUT_NAMES
  }

  predicate IsAsciiLetter(c: char) {
    'a' <= c <= 'z' || 'A' <= c <= 'Z'
  }

  predicate IsSafeName(name: string) {
    && name != "" && IsAsciiLetter(name[0])
    && forall i :: 1 <= i < |name| ==> IsAsciiLetter(name[i]) || '0' <= name[i] <= '9' || name[i] == '_' || name[i] == '-'
  }

  predicate ValidConstraints(spec: InputSpec) {
    && (spec.maxLength.Some? ==> spec.maxLength.value != 0 && spec.kind == Kind.String)
    && (spec.pattern.Some? ==> spec.kind == Kind.String)
    && (spec.maxJsonBytes.Some? ==> spec.maxJsonBytes.value != 0 && spec.kind == Kind.Json)
  }

  predicate ComponentAt(path: string, i: nat, name: string) {
    && i + |name| <= |path| && path[i..i + |name|] == name
    && (i == 0 || path[i - 1] == '/') && (i + |name| == |path| || path[i + |name|] == '/')
  }

  /** A relative path none of whose components leads upwards. */
  predicate StaysInside(path: string) {
    && path != "" && path[0] != '/'
    && forall i :: 0 <= i < |path| ==> !ComponentAt(path, i, "..")
  }

  predicate ValidManifest(m: JobSchema) {
    && IsSafeName(m.name) && m.timeoutSeconds != 0
    && (forall name :: name in m.inputs ==>
          IsSafeName(name) && !IsReservedInputName(name) && ValidConstraints(m.inputs[name]))
    && (forall name :: name in m.outputs ==> IsSafeName(name) && StaysInside(m.outputs[name].path))
  }

  /** A loaded store: every manifest is valid and filed under its own name. */
  predicate WellFiled(manifests: map<string, JobSchema>) {
    forall name :: name in manifests ==> manifests[name].name == name && ValidManifest(manifests[name])
  }

  // ---------------------------------------------------------------------------------------------
  // Loading

  /** A file of the manifest directory: not a manifest at all, one that cannot be read or parsed, or one
      that can. */
  datatype DirEntry = OtherFile | BrokenManifest | ManifestFile(schema: JobSchema, script: string)

  datatype ScriptFile = NoScript | NotExecutable | Executable

  /** What loading asks the host: what is at a script's path, and whether a pattern compiles. */
  datatype Host = Host(script: string -> ScriptFile, compiles: string -> bool)

  predicate ValidFile(host: Host, e: DirEntry)
    requires e.ManifestFile?
  {
    && ValidManifest(e.schema)
    && e.script != "" && e.script[0] == '/' && host.script(e.script).Executable?
    && forall name :: name in e.schema.inputs && e.schema.inputs[name].pattern.Some? ==>
         host.compiles(e.schema.inputs[name].pattern.value)
  }

  predicate EntryLoads(host: Host, e: DirEntry) {
    e.OtherFile? || (e.ManifestFile? && ValidFile(host, e))
  }

  datatype LoadError = InvalidManifest | DuplicateJobName(name: string)

  predicate DistinctNames(entries: seq<DirEntry>) {
    forall i, j :: 0 <= i < j < |entries| && entries[i].ManifestFile? && entries[j].ManifestFile? ==>
      entries[i].schema.name != entries[j].schema.name
  }

  /** Some file of the directory is this manifest. */
  predicate Files(entries: seq<DirEntry>, m: JobSchema) {
    exists i :: 0 <= i < |entries| && entries[i].ManifestFile? && entries[i].schema == m
  }

  /** Loading succeeds exactly when every manifest file is valid, its script and patterns included, and
      names are pairwise distinct; then every manifest is found again under its name, and no other. */
  method LoadFromDir(host: Host, entries: seq<DirEntry>) returns (r: Result<map<string, JobSchema>, LoadError>)
    ensures r.Ok? <==> (forall i :: 0 <= i < |entries| ==> EntryLoads(host, entries[i])) && DistinctNames(entries)
    ensures r.Ok? ==>
              && WellFiled(r.value)
              && (forall m :: Files(entries, m) ==> m.name in r.value && r.value[m.name] == m)
              && (forall name :: name in r.value ==> Files(entries, r.value[name]))
  {
    hide ValidManifest, Files;
    var manifests: map<string, JobSchema> := map[];
    for n := 0 to |entries|
      invariant forall i :: 0 <= i < n ==> EntryLoads(host, entries[i])
      invariant DistinctNames(entries[..n])
      invariant WellFiled(manifests)
      invariant forall i :: 0 <= i < n && entries[i].ManifestFile? ==>
                  entries[i].schema.name in manifests && manifests[entries[i].schema.name] == entries[i].schema
      invariant forall name :: name in manifests ==> Files(entries[..n], manifests[name])
    {
      assert entries[..n + 1] == entries[..n] + [entries[n]];
      FilesGrow(entries, n);
      match entries[n] {
        case OtherFile =>
        case BrokenManifest =>
          return Err(InvalidManifest);
        case ManifestFile(m, script) =>
          if !ValidFile(host, entries[n]) {
            return Err(InvalidManifest);
          }
          if m.name in manifests {
            ghost var i := FileOf(entries, n, manifests[m.name]);
            assert entries[i].schema.name == m.name;
            return Err(DuplicateJobName(m.name));
          }
          manifests := manifests[m.name := m];
      }
    }
    assert entries[..|entries|] == entries;
    forall m | Files(entries, m) ensures m.name in manifests && manifests[m.name] == m {
      var i := FileOf(entries, |entries|, m);
    }
    r := Ok(manifests);
  }

  lemma FileOf(entries: seq<DirEntry>, n: nat, m: JobSchema) returns (i: nat)
    requires n <= |entries| && Files(entries[..n], m)
    ensures i < n && entries[i].ManifestFile? && entries[i].schema == m
  {
    i :| 0 <= i < n && entries[..n][i].ManifestFile? && entries[..n][i].schema == m;
  }

  lemma FilesGrow(entries: seq<DirEntry>, n: nat)
    requires n < |entries|
    ensures forall m :: Files(entries[..n], m) ==> Files(entries[..n + 1], m)
    ensures entries[n].ManifestFile? ==> Files(entries[..n + 1], entries[n].schema)
  {
    assert entries[..n + 1][n] == entries[n];
    forall m | Files(entries[..n], m) ensures Files(entries[..n + 1], m) {
      var i :| 0 <= i < n && entries[..n][i].ManifestFile? && entries[..n][i].schema == m;
      assert entries[..n + 1][i] == entries[..n][i];
    }
  }
}
