/** The API objects of `upgrade.cattle.io/v1` and the parts of nodes and jobs the controller reads. */
module Types {
  import opened Labels

  datatype Option<+T> = None | Some(value: T)

  /** Error texts. The controller's own are told apart by what they say. */
  datatype Message =
    | Says(text: string)
    | CannotResolve
    | NotValidAndResolved
    | NotWithinWindow
    | DelayIsNegative
    | SecretNotFound
    | WindowsImageRequired
    | JobFailedOn(node: string)

  const NO_MESSAGE := Says("")

  datatype Result<+T> = Ok(value: T) | Err(error: Message)

  /** Durations and instants are nanoseconds, as in Go's `time`. */
  const SECOND: int := 1_000_000_000
  const MINUTE: int := 60 * SECOND

  const LABEL_HOSTNAME := "kubernetes.io/hostname"
  const LABEL_OS := "kubernetes.io/os"

  datatype Node = Node(name: string, uid: string, labels: LabelSet, unschedulable: bool)

  /** The hostname label, or the node's name when the label is missing. */
  function Hostname(n: Node): string {
    if LABEL_HOSTNAME in n.labels then n.labels[LABEL_HOSTNAME] else n.name
  }

  /** An RFC 3339 time stamp: second resolution, or a text that does not parse. */
  datatype Stamp = Blank | At(seconds: int)

  function StampOf(now: int): Stamp { At(now / SECOND) }

  datatype Truth = True | False | Unknown

  datatype Condition = Condition(kind: string, status: Truth, reason: string, message: Message, lastUpdate: Stamp)

  // the condition types of a plan
  const COMPLETE := "Complete"
  const VALIDATED := "Validated"
  const LATEST_RESOLVED := "LatestResolved"

  datatype SecretSpec = SecretSpec(name: string, ignoreUpdates: bool)

  type Secret = map<string, string>

  /**
   * `nodeSelector` is the outcome of converting the label selector, `fault` the
   * first complaint about the drain or window settings, `window` the containment
   * test of the time window, `digested` the plan fields named by the digest annotation,
   * and `uncordons` whether a cordon or a drain is configured.
   */
  datatype PlanSpec = PlanSpec(
    concurrency: int,
    nodeSelector: Result<Selector>,
    version: string,
    channel: string,
    serviceAccount: string,
    secrets: seq<SecretSpec>,
    window: Option<int -> bool>,
    postCompleteDelay: Option<int>,
    postCompleteLabels: LabelSet,
    uncordons: bool,
    fault: Option<Message>,
    digested: seq<string>)

  datatype PlanStatus = PlanStatus(
    conditions: seq<Condition>,
    latestVersion: string,
    latestHash: string,
    applying: seq<string>)

  datatype Plan = Plan(
    name: string,
    uid: string,
    labels: LabelSet,
    annotations: LabelSet,
    spec: PlanSpec,
    status: PlanStatus)

  /** A job's name is composed from the plan, the short node name and the hash. */
  datatype JobKey = JobKey(node: string, hash: string)

  /** A finished job carries the transition time of its condition, unless that field is missing. */
  datatype JobStatus = Active | Complete(at: Option<int>) | Failed(at: Option<int>)

  datatype Job = Job(
    key: JobKey,
    labels: LabelSet,
    annotations: LabelSet,
    ttlSeconds: Option<int>,
    parallelism: int,
    status: JobStatus)

  /** Controller settings, and the library functions it calls. */
  datatype Config = Config(
    controller: string,
    defaultTtlSeconds: int,
    int32Overflow: int,
    pollingInterval: int,
    windowsImage: string,
    sha224: string -> string,
    sha256: string -> string,
    secretHash: Secret -> string,
    expand: (map<string, string>, string) -> string,
    formatInt: int -> string,
    parseInt32: string -> Option<int>)

  /** Distinct arguments give distinct results: what is assumed of a hash where collisions would matter. */
  ghost predicate Injective<A(!new), B>(f: A -> B) { forall a, b :: f(a) == f(b) ==> a == b }

  function Min(a: int, b: int): int { if a < b then a else b }

  function Max(a: int, b: int): int { if a < b then b else a }
}
