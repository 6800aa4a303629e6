/** The vocabulary shared by server and runner: statuses, reasons, values and typed outputs. */
module Wire {

  datatype Option<+T> = None | Some(value: T)

  datatype Result<+T, +E> = Ok(value: T) | Err(error: E)

  /** Instants, in ticks of one clock; the tick length does not matter to the protocol. */
  type Time = int

  /** A runner's directory name for a run. */
  type RunId = string

  /** An idempotency key. Keys the modelled server issues are numbered in order of issue, which
      stands for their being fresh; every other client's keys are `Foreign`. */
  datatype Key = Issued(serial: nat) | Foreign(tag: nat)

  datatype RunStatus =
    | Running | CancelRequested | Canceling
    | Success | Failed | TimedOut | Canceled | Rejected
  {
    predicate IsTerminal() {
      Success? || Failed? || TimedOut? || Canceled? || Rejected?
    }

    /** How far a run has come; cancellation only ever moves this forward. */
    function Phase(): nat {
      match this
      case Running => 0
      case CancelRequested => 1
      case Canceling => 2
      case _ => 3
    }
  }

  datatype TerminalReason =
    | Success | ExitCode | Timeout | Canceled | Shutdown | SpawnError | WaitError | CaptureError
    | LogLimitExceeded | MissingRequiredOutput | OutputRegistrationFailed

  datatype FailureCategory = Job | Infra | Timeout | Canceled

  /** The five input and output types. Their wire names are the same on both sides and pairwise
      distinct, so comparing names is comparing these. */
  datatype Kind = String | Integer | Boolean | Artifact | Json

  const MIN_I64: int := -0x8000_0000_0000_0000
  const MAX_I64: int := 0x7FFF_FFFF_FFFF_FFFF

  type i64 = n: int | MIN_I64 <= n <= MAX_I64

  /** JSON values. `JNumber` is any number, `integer` its value when it fits a signed 64-bit integer. */
  datatype JsonValue =
    | JNull
    | JBool(b: bool)
    | JNumber(integer: Option<i64>)
    | JString(text: string)
    | JArray(items: seq<JsonValue>)
    | JObject(fields: map<string, JsonValue>)

  /** A typed output as the runner reports it. */
  datatype JobOutput =
    | ArtifactOutput(artifactId: string, sha256: string, size: nat)
    | StringOutput(text: string)
    | IntegerOutput(integer: i64)
    | BooleanOutput(flag: bool)
    | JsonOutput(json: JsonValue)

  /** What a runner may register: a JSON output is never null. */
  type RegisteredOutput = o: JobOutput | o.JsonOutput? ==> o.json != JNull witness BooleanOutput(false)

  /** Why registering a job's outputs broke off. */
  datatype OutputError = OutputMissing(name: string) | OutputUnreadable(name: string)

  predicate IsHexDigit(c: char) {
    '0' <= c <= '9' || 'a' <= c <= 'f' || 'A' <= c <= 'F'
  }

  /** Artifact and run ids: a prefix and 32 hexadecimal digits. */
  predicate IsPrefixedHexId(value: string, prefix: string) {
    prefix <= value && |value| == |prefix| + 32 && forall i :: |prefix| <= i < |value| ==> IsHexDigit(value[i])
  }
}
