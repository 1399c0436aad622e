/** The jobs generated for a plan (`job.New`) and the handler of job events (`handleJobs`). */
module Jobs {
  import opened Types
  import opened Labels
  import opened Text
  import opened Conditions
  import opened Allocator

  const LABEL_CONTROLLER := "upgrade.cattle.io/controller"
  const LABEL_NODE := "upgrade.cattle.io/node"
  const LABEL_PLAN := "upgrade.cattle.io/plan"
  const LABEL_VERSION := "upgrade.cattle.io/version"
  const ANNOTATION_TTL := "upgrade.cattle.io" + "/ttl-seconds-after-finished"

  const INT32_MAX: int := 0x7fff_ffff
  const INT64_LIMIT: int := 0x8000_0000_0000_0000

  predicate IsInt32(x: int) { -INT32_MAX - 1 <= x <= INT32_MAX }

  /** Two's-complement wrap-around of an int64 sum. */
  function Wrap64(x: int): int { (x + INT64_LIMIT) % (2 * INT64_LIMIT) - INT64_LIMIT }

  /** Conversion to int32: exact when it fits, otherwise whatever the platform yields. */
  function ToInt32(cfg: Config, x: int): int { if IsInt32(x) then x else cfg.int32Overflow }

  /** At least one minute more than the delay; `Seconds` truncates to whole seconds. */
  function TtlSeconds(cfg: Config, delay: Option<int>): int {
    match delay
    case None => cfg.defaultTtlSeconds
    case Some(d) =>
      var wanted := Wrap64(d + MINUTE);
      if cfg.defaultTtlSeconds * SECOND < wanted then ToInt32(cfg, wanted / SECOND) else cfg.defaultTtlSeconds
  }

  /** The job outlives its plan's delay by more than 59 seconds exactly when delay plus a minute fits int32 seconds. */
  lemma TtlOutlivesDelay(cfg: Config, d: int)
    requires IsInt32(cfg.defaultTtlSeconds) && IsInt32(cfg.int32Overflow)
    requires 0 <= d < INT64_LIMIT
    ensures var ttl := TtlSeconds(cfg, Some(d));
            && IsInt32(ttl)
            && (ttl * SECOND > d + 59 * SECOND <==> d + MINUTE < (INT32_MAX + 1) * SECOND)
  {
    var wanted := Wrap64(d + MINUTE);
    if d + MINUTE < INT64_LIMIT {
      assert wanted == d + MINUTE;
      assert wanted / SECOND * SECOND <= wanted < wanted / SECOND * SECOND + SECOND;
    } else {
      assert wanted == d + MINUTE - 2 * INT64_LIMIT;
    }
  }

  function DelayOf(spec: PlanSpec): int { if spec.postCompleteDelay.Some? then spec.postCompleteDelay.value else 0 }

  // ----- job.New -----

  function ReservedLabels(cfg: Config, p: Plan, n: Node): LabelSet {
    map[LABEL_CONTROLLER := cfg.controller,
        LABEL_NODE := n.name,
        LABEL_PLAN := p.name,
        LABEL_VERSION := p.status.latestVersion,
        LabelPlanName(p.name) := p.status.latestHash]
  }

  /** Labels a plan passes on to its jobs. */
  predicate Inherited(key: string) { !Contains(key, "cattle.io/") }

  predicate InheritedAnnotation(key: string) {
    !Contains(key, "cattle.io/") && !Contains(key, "kubectl.kubernetes.io/")
  }

  function Accepted(extra: LabelSet, accepts: string -> bool): LabelSet { map k | k in extra && accepts(k) :: extra[k] }

  function NewJob(cfg: Config, p: Plan, n: Node): Job {
    var ttl := TtlSeconds(cfg, p.spec.postCompleteDelay);
    Job(JobKey(n.name, p.status.latestHash),
        ReservedLabels(cfg, p, n) + Accepted(p.labels, Inherited),
        map[ANNOTATION_TTL := cfg.formatInt(ttl)] + Accepted(p.annotations, InheritedAnnotation),
        Some(ttl),
        if Hostname(n) in p.status.applying then 1 else 0,
        Active)
  }

  lemma ReservedKeysContainDomain(plan: string)
    ensures Contains(LABEL_CONTROLLER, "cattle.io/") && Contains(LABEL_NODE, "cattle.io/")
    ensures Contains(LABEL_PLAN, "cattle.io/") && Contains(LABEL_VERSION, "cattle.io/")
    ensures Contains(LabelPlanName(plan), "cattle.io/")
  {
    assert OccursAt(LABEL_CONTROLLER, "cattle.io/", 8);
    assert OccursAt(LABEL_NODE, "cattle.io/", 8);
    assert OccursAt(LABEL_PLAN, "cattle.io/", 8);
    assert OccursAt(LABEL_VERSION, "cattle.io/", 8);
    var l := LabelPlanName(plan);
    assert l[13..23] == "plan.upgrade.cattle.io/"[13..23] == "cattle.io/";
    assert OccursAt(l, "cattle.io/", 13);
  }

  lemma ReservedKeysDistinct(plan: string)
    ensures LABEL_NODE != LABEL_PLAN && LABEL_NODE != LABEL_VERSION && LABEL_NODE != LABEL_CONTROLLER
    ensures LABEL_PLAN != LABEL_VERSION && LABEL_PLAN != LABEL_CONTROLLER && LABEL_VERSION != LABEL_CONTROLLER
    ensures LabelPlanName(plan) !in {LABEL_NODE, LABEL_PLAN, LABEL_VERSION, LABEL_CONTROLLER, LABEL_HOSTNAME}
  {
    assert LABEL_NODE[18] == 'n' && LABEL_PLAN[18] == 'p';
    assert LabelPlanName(plan)[0] == 'p' && LABEL_NODE[0] == 'u' && LABEL_PLAN[0] == 'u' && LABEL_VERSION[0] == 'u';
    assert LABEL_CONTROLLER[0] == 'u' && LABEL_HOSTNAME[0] == 'k';
  }

  /** Whatever labels the plan carries, the identifying labels of its jobs are the controller's own. */
  lemma NewJobIdentity(cfg: Config, p: Plan, n: Node)
    ensures var ls := NewJob(cfg, p, n).labels;
            && LABEL_CONTROLLER in ls && ls[LABEL_CONTROLLER] == cfg.controller
            && LABEL_NODE in ls && ls[LABEL_NODE] == n.name
            && LABEL_PLAN in ls && ls[LABEL_PLAN] == p.name
            && LABEL_VERSION in ls && ls[LABEL_VERSION] == p.status.latestVersion
            && LabelPlanName(p.name) in ls && ls[LabelPlanName(p.name)] == p.status.latestHash
  {
    ReservedKeysContainDomain(p.name);
    ReservedKeysDistinct(p.name);
  }

  method ComputeTtl(cfg: Config, delay: Option<int>) returns (ttl: int)
    ensures ttl == TtlSeconds(cfg, delay)
  {
    ttl := cfg.defaultTtlSeconds;
    if delay.Some? {
      var wanted := Wrap64(delay.value + MINUTE);
      if ttl * SECOND < wanted { ttl := ToInt32(cfg, wanted / SECOND); }
    }
  }

  /** The loop that copies the acceptable entries of `extra` over `base`, in whatever order the map yields them. */
  method Overlay(base: LabelSet, extra: LabelSet, accepts: string -> bool) returns (r: LabelSet)
    ensures r == base + Accepted(extra, accepts)
  {
    r := base;
    var keys := extra.Keys;
    while keys != {}
      invariant keys <= extra.Keys
      invariant r == base + (map k | k in extra && k !in keys && accepts(k) :: extra[k])
      decreases keys
    {
      var key :| key in keys;
      if accepts(key) { r := r[key := extra[key]]; }
      keys := keys - {key};
    }
    assert (map k | k in extra && k !in keys && accepts(k) :: extra[k]) == Accepted(extra, accepts);
  }

  /** The code's construction: reserved entries first, then a loop over the plan's own. */
  method BuildJob(cfg: Config, p: Plan, n: Node) returns (job: Job)
    ensures job == NewJob(cfg, p, n)
  {
    var ttl := ComputeTtl(cfg, p.spec.postCompleteDelay);
    var annotations := Overlay(map[ANNOTATION_TTL := cfg.formatInt(ttl)], p.annotations, InheritedAnnotation);
    var labels := Overlay(ReservedLabels(cfg, p, n), p.labels, Inherited);
    job := Job(JobKey(n.name, p.status.latestHash), labels, annotations, Some(ttl), 0, Active);
    if Hostname(n) in p.status.applying { job := job.(parallelism := 1); }
  }

  // ----- the job event handler -----

  /**
   * What one handler call does: delete the job, look at it again after some durations,
   * write the node, write the plan's status, wake the plan, or fail and be retried.
   */
  datatype Outcome = Outcome(
    deletes: bool,
    requeues: seq<int>,
    node: Option<Node>,
    status: Option<PlanStatus>,
    wakesPlan: bool,
    fails: bool)

  const Ignored := Outcome(false, [], None, None, false, false)

  function EffectiveTtl(cfg: Config, job: Job): Option<int> {
    if job.ttlSeconds.Some? then Some(job.ttlSeconds.value * SECOND)
    else if ANNOTATION_TTL in job.annotations then
      match cfg.parseInt32(job.annotations[ANNOTATION_TTL])
      case None => None
      case Some(s) => Some(s * SECOND)
    else Some(0)
  }

  /** `enqueueOrDelete`, on top of what the call already did. */
  function EnqueueOrDelete(cfg: Config, job: Job, at: int, now: int, o: Outcome): Outcome {
    match EffectiveTtl(cfg, job)
    case None => o.(deletes := true)
    case Some(ttl) => if now - at < ttl then o.(requeues := o.requeues + [ttl - (now - at)]) else o.(deletes := true)
  }

  function LabelVars(p: Plan): map<string, string> {
    map["LATEST_VERSION" := p.status.latestVersion, "LATEST_HASH" := p.status.latestHash]
  }

  function Expander(cfg: Config, p: Plan): string -> string { v => cfg.expand(LabelVars(p), v) }

  function Mapped(extra: LabelSet, f: string -> string): LabelSet { map k | k in extra :: f(extra[k]) }

  /** The node's labels once its job is done: the plan's label is written last. */
  function CompletedLabels(cfg: Config, p: Plan, labels: LabelSet, hash: string): LabelSet {
    (labels + Mapped(p.spec.postCompleteLabels, Expander(cfg, p)))[LabelPlanName(p.name) := hash]
  }

  function CompletedNode(cfg: Config, p: Plan, n: Node, hash: string, waited: int): Node {
    n.(labels := if waited < DelayOf(p.spec) then n.labels else CompletedLabels(cfg, p, n.labels, hash),
       unschedulable := n.unschedulable && !p.spec.uncordons)
  }

  /** A job that has not waited out the delay is looked at again when it has. */
  function DelayRequeue(p: Plan, waited: int): seq<int> {
    if waited < DelayOf(p.spec) then [DelayOf(p.spec) - waited] else []
  }

  /** The call for a job of the plan's version whose node exists: failed, completed or unfinished. */
  function HandleOwn(cfg: Config, job: Job, p: Plan, n: Node, delayClock: int, ttlClock: int, planWrites: bool, nodeWrites: bool): Outcome
    requires LABEL_PLAN in job.labels && LABEL_NODE in job.labels
  {
    var woken := Ignored.(wakesPlan := true);
    match job.status
    case Failed(at) =>
      if at.None? then woken.(fails := true)
      else if !planWrites then woken.(fails := true)
      else
        var cs := SetError(p.status.conditions, COMPLETE, "JobFailed", Some(JobFailedOn(job.labels[LABEL_NODE])), delayClock);
        EnqueueOrDelete(cfg, job, at.value, ttlClock, woken.(status := Some(p.status.(conditions := cs))))
    case Complete(at) =>
      if at.None? then woken.(fails := true)
      else if LabelPlanName(job.labels[LABEL_PLAN]) !in job.labels then EnqueueOrDelete(cfg, job, at.value, ttlClock, woken)
      else if !nodeWrites then woken.(fails := true, requeues := DelayRequeue(p, delayClock - at.value))
      else
        var hash := job.labels[LabelPlanName(job.labels[LABEL_PLAN])];
        EnqueueOrDelete(cfg, job, at.value, ttlClock,
                        woken.(node := Some(CompletedNode(cfg, p, n, hash, delayClock - at.value)),
                               requeues := DelayRequeue(p, delayClock - at.value)))
    case Active =>
      if FoundBySearch(p.status.applying, job.labels[LABEL_NODE]) then woken else woken.(deletes := true)
  }

  /**
   * One call of the handler. `delayClock` and `ttlClock` are its two clock readings,
   * `planWrites` and `nodeWrites` whether the API accepts the status and node updates.
   */
  function HandleJob(cfg: Config, job: Job, plans: map<string, Plan>, nodes: map<string, Node>,
                     delayClock: int, ttlClock: int, planWrites: bool, nodeWrites: bool): Outcome
  {
    if LABEL_CONTROLLER !in job.labels || job.labels[LABEL_CONTROLLER] != cfg.controller then Ignored
    else if LABEL_PLAN !in job.labels || LABEL_VERSION !in job.labels then Ignored.(deletes := true)
    else if job.labels[LABEL_PLAN] !in plans then Ignored.(deletes := true)
    else
      var p := plans[job.labels[LABEL_PLAN]];
      if job.labels[LABEL_VERSION] != p.status.latestVersion then Ignored.(deletes := true)
      else if LABEL_NODE !in job.labels || job.labels[LABEL_NODE] !in nodes then Ignored.(wakesPlan := true, deletes := true)
      else HandleOwn(cfg, job, p, nodes[job.labels[LABEL_NODE]], delayClock, ttlClock, planWrites, nodeWrites)
  }

  /** Labels that name a job's node and hash agree with the job's name. */
  ghost predicate OwnLabels(plan: string, key: JobKey, job: Job) {
    && job.key == key
    && (LABEL_NODE in job.labels ==> job.labels[LABEL_NODE] == key.node)
    && (LabelPlanName(plan) in job.labels ==> job.labels[LabelPlanName(plan)] == key.hash)
  }

  /** A handler call gets as far as labelling the node: the branch conditions of the code, in order. */
  predicate Relabels(cfg: Config, p: Plan, job: Job, nodes: map<string, Node>, now: int, nodeWrites: bool) {
    && LABEL_CONTROLLER in job.labels && job.labels[LABEL_CONTROLLER] == cfg.controller
    && LABEL_PLAN in job.labels && job.labels[LABEL_PLAN] == p.name
    && LABEL_VERSION in job.labels && job.labels[LABEL_VERSION] == p.status.latestVersion
    && LABEL_NODE in job.labels && job.labels[LABEL_NODE] in nodes
    && job.status.Complete? && job.status.at.Some?
    && LabelPlanName(p.name) in job.labels
    && now - job.status.at.value >= DelayOf(p.spec)
    && nodeWrites
  }

  /** The node an outcome writes: relabelled exactly in that branch, otherwise with its labels as they were. */
  ghost predicate WritesNode(cfg: Config, p: Plan, key: JobKey, job: Job, nodes: map<string, Node>, now: int, nodeWrites: bool, o: Outcome) {
    && (Relabels(cfg, p, job, nodes, now, nodeWrites) ==>
          key.node in nodes && o.node.Some? && o.node.value.labels == CompletedLabels(cfg, p, nodes[key.node].labels, key.hash))
    && (o.node.Some? ==>
          && key.node in nodes && job.status.Complete? && job.status.at.Some?
          && o.node.value == CompletedNode(cfg, p, nodes[key.node], key.hash, now - job.status.at.value)
          && (!Relabels(cfg, p, job, nodes, now, nodeWrites) ==> o.node.value.labels == nodes[key.node].labels))
  }

  lemma WrittenLabels(cfg: Config, p: Plan, key: JobKey, job: Job, nodes: map<string, Node>, d: int, t: int, pw: bool, nw: bool)
    requires OwnLabels(p.name, key, job)
    ensures WritesNode(cfg, p, key, job, nodes, d, nw, HandleJob(cfg, job, map[p.name := p], nodes, d, t, pw, nw))
  {
  }

  /** The post-complete labels cannot decide the plan's own label. */
  lemma PlanLabelIsJobHash(cfg: Config, p: Plan, labels: LabelSet, hash: string)
    ensures var r := CompletedLabels(cfg, p, labels, hash);
            && LabelPlanName(p.name) in r && r[LabelPlanName(p.name)] == hash
            && (forall k :: k in labels && k != LabelPlanName(p.name) && k !in p.spec.postCompleteLabels ==> k in r && r[k] == labels[k])
  {
  }

  lemma TtlCoversDelay(cfg: Config, spec: PlanSpec)
    requires IsInt32(cfg.defaultTtlSeconds) && IsInt32(cfg.int32Overflow)
    requires 0 <= DelayOf(spec) && DelayOf(spec) + MINUTE < (INT32_MAX + 1) * SECOND
    ensures spec.postCompleteDelay.Some? ==> TtlSeconds(cfg, spec.postCompleteDelay) * SECOND > DelayOf(spec) + 59 * SECOND
  {
    if spec.postCompleteDelay.Some? { TtlOutlivesDelay(cfg, spec.postCompleteDelay.value); }
  }

  lemma OwnDelete(cfg: Config, job: Job, p: Plan, n: Node, delayClock: int, ttlClock: int, nodeWrites: bool)
    requires IsInt32(cfg.defaultTtlSeconds) && IsInt32(cfg.int32Overflow)
    requires 0 <= DelayOf(p.spec) && DelayOf(p.spec) + MINUTE < (INT32_MAX + 1) * SECOND
    requires delayClock <= ttlClock <= delayClock + 59 * SECOND
    requires LABEL_PLAN in job.labels && job.labels[LABEL_PLAN] == p.name && LABEL_NODE in job.labels
    requires LabelPlanName(p.name) in job.labels && job.ttlSeconds == Some(TtlSeconds(cfg, p.spec.postCompleteDelay))
    requires job.status.Complete? && job.status.at.Some? && job.status.at.value <= delayClock
    ensures var o := HandleOwn(cfg, job, p, n, delayClock, ttlClock, true, nodeWrites);
            o.deletes ==> o.node.Some? && PlanLabel(p, o.node.value) == Some(job.labels[LabelPlanName(p.name)])
  {
    TtlCoversDelay(cfg, p.spec);
    PlanLabelIsJobHash(cfg, p, n.labels, job.labels[LabelPlanName(p.name)]);
  }

  /**
   * With a delay in range, clock readings at most 59 seconds apart, and the lifetime
   * the job was created with, a completed job is only ever deleted by a call that
   * writes its hash to the node.
   */
  lemma NoUnlabelledDelete(cfg: Config, job: Job, p: Plan, n: Node, delayClock: int, ttlClock: int, nodeWrites: bool)
    requires IsInt32(cfg.defaultTtlSeconds) && IsInt32(cfg.int32Overflow)
    requires 0 <= DelayOf(p.spec) && DelayOf(p.spec) + MINUTE < (INT32_MAX + 1) * SECOND
    requires delayClock <= ttlClock <= delayClock + 59 * SECOND
    requires job.labels == NewJob(cfg, p, n).labels && job.ttlSeconds == NewJob(cfg, p, n).ttlSeconds
    requires job.status.Complete? && job.status.at.Some?
    requires job.status.at.value <= delayClock
    ensures var o := HandleJob(cfg, job, map[p.name := p], map[n.name := n], delayClock, ttlClock, true, nodeWrites);
            o.deletes ==> o.node.Some? && PlanLabel(p, o.node.value) == Some(p.status.latestHash)
  {
    NewJobIdentity(cfg, p, n);
    assert map[n.name := n][n.name] == n;
    OwnDelete(cfg, job, p, n, delayClock, ttlClock, nodeWrites);
  }
}
