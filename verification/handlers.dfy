/** The plan's status handler and generating handler as functions from a plan to its next status. */
module Handlers {
  import opened Types
  import opened Labels
  import opened Conditions
  import opened Allocator
  import opened Jobs


  /** `strings.ReplaceAll(version, "+", "-")`. */
  function MungeVersion(version: string): (r: string)
    ensures |r| == |version| && '+' !in r
    ensures forall i :: 0 <= i < |version| && version[i] != '+' ==> r[i] == version[i]
    ensures forall i :: 0 <= i < |version| && version[i] == '+' ==> r[i] == '-'
  {
    if version == [] then [] else [if version[0] == '+' then '-' else version[0]] + MungeVersion(version[1..])
  }

  // ----- digest and validation -----

  function Concat(parts: seq<string>): string { if parts == [] then "" else parts[0] + Concat(parts[1..]) }

  /** The hashed contents of the secrets that count, or the first one that is missing. */
  function SecretDigests(cfg: Config, specs: seq<SecretSpec>, secrets: map<string, Secret>): Result<string> {
    if specs == [] then Ok("")
    else if specs[0].ignoreUpdates then SecretDigests(cfg, specs[1..], secrets)
    else if specs[0].name !in secrets then Err(Says(specs[0].name))
    else
      match SecretDigests(cfg, specs[1..], secrets)
      case Err(e) => Err(e)
      case Ok(rest) => Ok(cfg.secretHash(secrets[specs[0].name]) + rest)
  }

  /** `DigestStatus`: an unresolvable plan keeps its old hash. */
  function DigestStatus(cfg: Config, spec: PlanSpec, st: PlanStatus, secrets: map<string, Secret>): Result<PlanStatus> {
    if GetReason(st.conditions, LATEST_RESOLVED) == "Error" then Ok(st)
    else
      match SecretDigests(cfg, spec.secrets, secrets)
      case Err(e) => Err(e)
      case Ok(d) => Ok(st.(latestHash := cfg.sha224(st.latestVersion + spec.serviceAccount + Concat(spec.digested) + d)))
  }

  predicate SecretsPresent(specs: seq<SecretSpec>, secrets: map<string, Secret>) {
    forall i :: 0 <= i < |specs| && !specs[i].ignoreUpdates ==> specs[i].name in secrets
  }

  function Validate(spec: PlanSpec, secrets: map<string, Secret>): Option<Message> {
    if spec.fault.Some? then spec.fault
    else if spec.postCompleteDelay.Some? && spec.postCompleteDelay.value < 0 then Some(DelayIsNegative)
    else if !SecretsPresent(spec.secrets, secrets) then Some(SecretNotFound)
    else None
  }

  // ----- the status handler -----

  /** The stamp still counts as recent: the channel is not asked again. */
  predicate Throttled(cfg: Config, cs: seq<Condition>, now: int) {
    && IsTrue(cs, LATEST_RESOLVED)
    && GetLastUpdate(cs, LATEST_RESOLVED).At?
    && now - GetLastUpdate(cs, LATEST_RESOLVED).seconds * SECOND < cfg.pollingInterval
  }

  /** A new version announces itself by resetting Complete. */
  function Announce(d: Draft, st: PlanStatus, latest: string, now: int): Draft {
    if !IsTrue(d.mine, LATEST_RESOLVED) || st.latestVersion != latest
    then MarkDraft(d, COMPLETE, False, NO_MESSAGE, "Resolved", now) else d
  }

  function Resolved(cfg: Config, p: Plan, d: Draft, latest: string, reason: string,
                    secrets: map<string, Secret>, now: int): Result<PlanStatus>
  {
    var d' := SetErrorDraft(Announce(d, p.status, latest, now), LATEST_RESOLVED, reason, None, now);
    DigestStatus(cfg, p.spec, p.status.(conditions := d'.mine, latestVersion := latest), secrets)
  }

  /** Complete and Validated exist, and the validation outcome is recorded. */
  function ValidatedDraft(p: Plan, secrets: map<string, Secret>, now: int): Draft {
    var d := Edit(Edit(NewDraft(p.status.conditions), COMPLETE, Create, now), VALIDATED, Create, now);
    var v := Validate(p.spec, secrets);
    SetErrorDraft(d, VALIDATED, if v.Some? then "Error" else "PlanIsValid", v, now)
  }

  /**
   * Resolving the version of a valid plan. `poll` is the channel server's answer, if asked.
   * The throttled branch returns the by-value status, so only in-place writes survive.
   */
  function ResolveValid(cfg: Config, p: Plan, v: Draft, secrets: map<string, Secret>, poll: Result<string>, now: int): Result<PlanStatus> {
    var d := Edit(v, LATEST_RESOLVED, Create, now);
    if p.spec.version == "" && p.spec.channel == "" then
      var e := SetErrorDraft(d, LATEST_RESOLVED, "Error", Some(CannotResolve), now);
      DigestStatus(cfg, p.spec, p.status.(conditions := e.mine), secrets)
    else if p.spec.version != "" then
      Resolved(cfg, p, d, MungeVersion(p.spec.version), "Version", secrets, now)
    else if Throttled(cfg, d.mine, now) then Ok(p.status.(conditions := d.shared))
    else
      match poll
      case Err(e) => Err(e)
      case Ok(version) => Resolved(cfg, p, d, MungeVersion(version), "Channel", secrets, now)
  }

  /** One call of the status handler: the status it returns, or an error, on which the caller keeps the old status. */
  function StatusHandler(cfg: Config, p: Plan, secrets: map<string, Secret>, poll: Result<string>, now: int): Result<PlanStatus> {
    var d := ValidatedDraft(p, secrets, now);
    if Validate(p.spec, secrets).Some? then DigestStatus(cfg, p.spec, p.status.(conditions := d.mine), secrets)
    else ResolveValid(cfg, p, d, secrets, poll, now)
  }

  // ----- the generating handler -----

  predicate Ready(st: PlanStatus) { IsTrue(st.conditions, VALIDATED) && IsTrue(st.conditions, LATEST_RESOLVED) }

  function Hostnames(nodes: seq<Node>): (r: seq<string>)
    ensures |r| == |nodes| && forall i :: 0 <= i < |nodes| ==> r[i] == Hostname(nodes[i])
  {
    if nodes == [] then [] else [Hostname(nodes[0])] + Hostnames(nodes[1..])
  }

  function JobsFor(cfg: Config, p: Plan, nodes: seq<Node>): (r: seq<Job>)
    ensures |r| == |nodes| && forall i :: 0 <= i < |nodes| ==> r[i] == NewJob(cfg, p, nodes[i])
  {
    if nodes == [] then [] else [NewJob(cfg, p, nodes[0])] + JobsFor(cfg, p, nodes[1..])
  }

  predicate NeedsWindowsImage(cfg: Config, n: Node) {
    LABEL_OS in n.labels && n.labels[LABEL_OS] == "windows" && cfg.windowsImage == ""
  }

  predicate OutsideWindow(spec: PlanSpec, now: int) { spec.window.Some? && !spec.window.value(now) }

  datatype Generated = Generated(jobs: seq<Job>, status: PlanStatus)

  /** Early returns hand back the by-value status after writing Complete on `obj`. */
  function EarlyReturn(p: Plan, reason: string, message: Message, now: int): Generated {
    Generated([], p.status.(conditions := SetErrorDraft(NewDraft(p.status.conditions), COMPLETE, reason, Some(message), now).shared))
  }

  predicate AnyNeedsWindowsImage(cfg: Config, nodes: seq<Node>) { exists n :: n in nodes && NeedsWindowsImage(cfg, n) }

  /** The outcome for a ready plan once its nodes are selected. */
  function Planned(cfg: Config, p: Plan, nodes: seq<Node>, now: int): Generated {
    if nodes == [] then
      Generated([], p.status.(applying := [], conditions := SetError(p.status.conditions, COMPLETE, "Complete", None, now)))
    else if p.status.applying == [] && OutsideWindow(p.spec, now) then EarlyReturn(p, "Waiting", NotWithinWindow, now)
    else if p.status.applying == Hostnames(nodes) then Generated(JobsFor(cfg, p, nodes), p.status)
    else
      Generated(JobsFor(cfg, p, nodes),
                p.status.(applying := Hostnames(nodes), conditions := Mark(p.status.conditions, COMPLETE, False, NO_MESSAGE, "SyncJob", now)))
  }

  function GeneratingHandler(cfg: Config, p: Plan, selected: Result<seq<Node>>, now: int): Result<Generated> {
    if !Ready(p.status) then Ok(EarlyReturn(p, "NotReady", NotValidAndResolved, now))
    else if selected.Err? then Err(selected.error)
    else if AnyNeedsWindowsImage(cfg, selected.value) then Err(WindowsImageRequired)
    else Ok(Planned(cfg, p, selected.value, now))
  }
}
