/** What one job event does, branch by branch, and what it means over runs for the nodes and the jobs. */
module Events {
  import opened Types
  import opened Labels
  import opened Text
  import opened Conditions
  import opened Allocator
  import opened Jobs
  import opened Handlers
  import opened Rollout
  import opened Batch

  // ----- the job's lifetime -----

  /** Without a delay the lifetime is the default; with one that fits it is the longer of the default and the delay plus a minute, in whole seconds. */
  lemma LifetimeMeans(cfg: Config, spec: PlanSpec)
    requires IsInt32(cfg.defaultTtlSeconds)
    ensures var ttl := TtlSeconds(cfg, spec.postCompleteDelay);
            && (spec.postCompleteDelay.None? ==> ttl == cfg.defaultTtlSeconds)
            && (spec.postCompleteDelay.Some? && 0 <= DelayOf(spec) && DelayOf(spec) + MINUTE < (INT32_MAX + 1) * SECOND ==>
                  ttl == Max(cfg.defaultTtlSeconds, (DelayOf(spec) + MINUTE) / SECOND))
  {
    var d := DelayOf(spec);
    if spec.postCompleteDelay.Some? && 0 <= d && d + MINUTE < (INT32_MAX + 1) * SECOND {
      assert Wrap64(d + MINUTE) == d + MINUTE;
      assert cfg.defaultTtlSeconds * SECOND < d + MINUTE || (d + MINUTE) / SECOND <= cfg.defaultTtlSeconds;
    }
  }

  /** How long a finished job is kept: its field, or else its annotation, or else not at all. */
  ghost predicate KeptFor(cfg: Config, job: Job, seconds: int) {
    || job.ttlSeconds == Some(seconds)
    || (job.ttlSeconds.None? && ANNOTATION_TTL in job.annotations && cfg.parseInt32(job.annotations[ANNOTATION_TTL]) == Some(seconds))
    || (job.ttlSeconds.None? && ANNOTATION_TTL !in job.annotations && seconds == 0)
  }

  /** The annotation is the controller's own, so a job whose field was cleared keeps its lifetime. */
  lemma ClearedLifetimeStays(cfg: Config, p: Plan, n: Node)
    requires cfg.parseInt32(cfg.formatInt(TtlSeconds(cfg, p.spec.postCompleteDelay))) == Some(TtlSeconds(cfg, p.spec.postCompleteDelay))
    ensures var job, ttl := NewJob(cfg, p, n), TtlSeconds(cfg, p.spec.postCompleteDelay);
            KeptFor(cfg, job, ttl) && KeptFor(cfg, job.(ttlSeconds := None), ttl)
  {
    TtlAnnotationReserved();
  }

  // ----- what a new job carries over -----

  ghost predicate Within(key: string, part: string) { exists a: string, b: string :: key == a + part + b }

  lemma TtlAnnotationReserved()
    ensures Contains(ANNOTATION_TTL, "cattle.io/")
  {
    var group, rest := "upgrade.cattle.io", "/ttl-seconds-after-finished";
    assert ANNOTATION_TTL == group + rest && group[8..] == "cattle.io" && rest[..1] == "/";
    assert ANNOTATION_TTL[8..18] == group[8..] + rest[..1];
    assert OccursAt(ANNOTATION_TTL, "cattle.io/", 8);
  }

  lemma AcceptedMeans(extra: LabelSet, accepts: string -> bool, k: string)
    ensures k in Accepted(extra, accepts) <==> k in extra && accepts(k)
    ensures k in extra && accepts(k) ==> Accepted(extra, accepts)[k] == extra[k]
  {
  }

  /** A job's labels are its identity and the plan's labels outside the controller's domain, and nothing else. */
  lemma NewJobLabels(cfg: Config, p: Plan, n: Node, k: string)
    ensures var ls := NewJob(cfg, p, n).labels;
            && (k in p.labels && !Within(k, "cattle.io/") ==> k in ls && ls[k] == p.labels[k])
            && (k in ls ==> Within(k, "cattle.io/") || k in p.labels)
  {
    ReservedKeysContainDomain(p.name);
    ContainsMeans(k, "cattle.io/");
    AcceptedMeans(p.labels, Inherited, k);
  }

  /** A job's annotations are its lifetime and the plan's annotations outside two domains, and nothing else. */
  lemma NewJobAnnotations(cfg: Config, p: Plan, n: Node, k: string)
    ensures var notes := NewJob(cfg, p, n).annotations;
            && (k in p.annotations && !Within(k, "cattle.io/") && !Within(k, "kubectl.kubernetes.io/")
                ==> k in notes && notes[k] == p.annotations[k])
            && (k in notes && k != ANNOTATION_TTL ==> k in p.annotations && !Within(k, "cattle.io/") && !Within(k, "kubectl.kubernetes.io/"))
  {
    TtlAnnotationReserved();
    ContainsMeans(k, "cattle.io/");
    ContainsMeans(k, "kubectl.kubernetes.io/");
    AcceptedMeans(p.annotations, InheritedAnnotation, k);
  }

  // ----- one event -----

  /** The job belongs to this controller and to plan `p`. */
  ghost predicate Ours(cfg: Config, p: Plan, job: Job) {
    && LABEL_CONTROLLER in job.labels && job.labels[LABEL_CONTROLLER] == cfg.controller
    && LABEL_PLAN in job.labels && job.labels[LABEL_PLAN] == p.name
  }

  /** It was made for the plan's version, and node `n` for which it was made exists. */
  ghost predicate Current(cfg: Config, p: Plan, job: Job, nodes: map<string, Node>, n: string) {
    && Ours(cfg, p, job)
    && LABEL_VERSION in job.labels && job.labels[LABEL_VERSION] == p.status.latestVersion
    && LABEL_NODE in job.labels && job.labels[LABEL_NODE] == n && n in nodes
  }

  ghost predicate OnlyDeletes(o: Outcome, wakes: bool) {
    o.deletes && o.requeues == [] && o.node.None? && o.status.None? && !o.fails && o.wakesPlan == wakes
  }

  /**
   * Jobs of other controllers are left alone. A job without plan or version, of a plan that is gone, or of
   * another version is only deleted; one without node or whose node is gone is deleted and wakes its plan.
   */
  lemma ForeignAndStaleJobs(cfg: Config, plans: map<string, Plan>, job: Job, nodes: map<string, Node>, d: int, t: int, pw: bool, nw: bool)
    ensures var o := HandleJob(cfg, job, plans, nodes, d, t, pw, nw);
            var ours := LABEL_CONTROLLER in job.labels && job.labels[LABEL_CONTROLLER] == cfg.controller;
            var known := LABEL_PLAN in job.labels && job.labels[LABEL_PLAN] in plans;
            var current := LABEL_VERSION in job.labels && known && job.labels[LABEL_VERSION] == plans[job.labels[LABEL_PLAN]].status.latestVersion;
            && (!ours ==> !o.deletes && o.requeues == [] && o.node.None? && o.status.None? && !o.fails && !o.wakesPlan)
            && (ours && !current ==> OnlyDeletes(o, false))
            && (ours && current && !(LABEL_NODE in job.labels && job.labels[LABEL_NODE] in nodes) ==> OnlyDeletes(o, true))
            && (ours && current ==> o.wakesPlan)
  {
  }

  /** The lifetime decides: a younger job is looked at again when it is over, an older one is deleted, and so is one with a malformed lifetime. */
  ghost predicate LifetimeDecides(cfg: Config, job: Job, at: int, now: int, o: Outcome) {
    && (forall s :: KeptFor(cfg, job, s) ==>
          && (o.deletes <==> now - at >= s * SECOND)
          && (now - at < s * SECOND ==> (s * SECOND - (now - at)) in o.requeues))
    && ((forall s :: !KeptFor(cfg, job, s)) ==> o.deletes)
  }

  lemma EnqueueDecides(cfg: Config, job: Job, at: int, now: int, o: Outcome)
    requires !o.deletes
    ensures LifetimeDecides(cfg, job, at, now, EnqueueOrDelete(cfg, job, at, now, o))
    ensures forall w :: w in o.requeues ==> w in EnqueueOrDelete(cfg, job, at, now, o).requeues
  {
    match EffectiveTtl(cfg, job)
    case None =>
    case Some(ttl) =>
      assert KeptFor(cfg, job, ttl / SECOND) && ttl == ttl / SECOND * SECOND;
      assert forall s :: KeptFor(cfg, job, s) ==> s == ttl / SECOND;
  }

  /**
   * A failed job: the plan's Complete turns false, naming the node and the failure, and the lifetime decides about
   * the job; if the status is not accepted, or the time of the failure is missing, the call only fails.
   */
  lemma FailureRecorded(cfg: Config, p: Plan, job: Job, nodes: map<string, Node>, n: string, d: int, t: int, pw: bool, nw: bool)
    requires Current(cfg, p, job, nodes, n) && job.status.Failed?
    ensures var o := HandleJob(cfg, job, map[p.name := p], nodes, d, t, pw, nw);
            && o.node.None? && (o.fails <==> job.status.at.None? || !pw) && (o.status.Some? <==> !o.fails)
            && (o.fails ==> !o.deletes && o.requeues == [])
            && (!o.fails ==>
                  && o.status.value == p.status.(conditions := o.status.value.conditions)
                  && Shows(o.status.value.conditions, COMPLETE, False, JobFailedOn(n), "JobFailed")
                  && LifetimeDecides(cfg, job, job.status.at.value, t, o))
  {
    if job.status.at.Some? && pw {
      SetErrorShows(p.status.conditions, COMPLETE, "JobFailed", Some(JobFailedOn(n)), d);
      var cs := SetError(p.status.conditions, COMPLETE, "JobFailed", Some(JobFailedOn(n)), d);
      EnqueueDecides(cfg, job, job.status.at.value, t, Ignored.(wakesPlan := true, status := Some(p.status.(conditions := cs))));
    }
  }

  /** An unfinished job is deleted exactly when its node is not found in the batch, and nothing else happens. */
  lemma UnfinishedJudged(cfg: Config, p: Plan, job: Job, nodes: map<string, Node>, n: string, d: int, t: int, pw: bool, nw: bool)
    requires Current(cfg, p, job, nodes, n) && job.status.Active? && Ascending(p.status.applying)
    ensures var o := HandleJob(cfg, job, map[p.name := p], nodes, d, t, pw, nw);
            && (o.deletes <==> n !in p.status.applying)
            && o.requeues == [] && o.node.None? && o.status.None? && !o.fails
  {
    SearchDecidesMembership(p.status.applying, n);
  }

  /** A completed job of node `n` that carries a hash, as the handler finds it. */
  ghost predicate Succeeded(cfg: Config, p: Plan, job: Job, nodes: map<string, Node>, n: string) {
    Current(cfg, p, job, nodes, n) && job.status.Complete? && job.status.at.Some? && LabelPlanName(p.name) in job.labels
  }

  /** The labels of a finished node: every post-complete label with the version and the hash filled in, the plan's own label, the rest as before. */
  ghost predicate FinishedLabels(cfg: Config, p: Plan, before: LabelSet, hash: string, after: LabelSet) {
    && LabelPlanName(p.name) in after && after[LabelPlanName(p.name)] == hash
    && (forall k :: k in p.spec.postCompleteLabels && k != LabelPlanName(p.name) ==>
          k in after && after[k] == cfg.expand(map["LATEST_VERSION" := p.status.latestVersion, "LATEST_HASH" := p.status.latestHash],
                                               p.spec.postCompleteLabels[k]))
    && (forall k :: k !in p.spec.postCompleteLabels && k != LabelPlanName(p.name) ==>
          (k in after <==> k in before) && (k in after && k in before ==> after[k] == before[k]))
  }

  lemma CompletedLabelsFinished(cfg: Config, p: Plan, before: LabelSet, hash: string)
    ensures FinishedLabels(cfg, p, before, hash, CompletedLabels(cfg, p, before, hash))
  {
    var extra, f := p.spec.postCompleteLabels, Expander(cfg, p);
    forall k | k in extra
      ensures Mapped(extra, f)[k] == cfg.expand(map["LATEST_VERSION" := p.status.latestVersion, "LATEST_HASH" := p.status.latestHash], extra[k])
    {
      assert f(extra[k]) == cfg.expand(LabelVars(p), extra[k]);
    }
  }

  /** What the node of a completed job becomes: schedulable if the plan cordons or drains, and labelled once the delay is over. */
  ghost predicate Finishes(cfg: Config, p: Plan, n: Node, hash: string, waited: int, m: Node) {
    && m.name == n.name && m.uid == n.uid
    && (m.unschedulable <==> n.unschedulable && !p.spec.uncordons)
    && (if waited < DelayOf(p.spec) then m.labels == n.labels else FinishedLabels(cfg, p, n.labels, hash, m.labels))
  }

  lemma CompletedNodeFinishes(cfg: Config, p: Plan, n: Node, hash: string, waited: int)
    ensures Finishes(cfg, p, n, hash, waited, CompletedNode(cfg, p, n, hash, waited))
  {
    CompletedLabelsFinished(cfg, p, n.labels, hash);
  }

  lemma SucceededCall(cfg: Config, p: Plan, job: Job, nodes: map<string, Node>, n: string, d: int, t: int, pw: bool, nw: bool)
    requires Succeeded(cfg, p, job, nodes, n)
    ensures HandleJob(cfg, job, map[p.name := p], nodes, d, t, pw, nw) == HandleOwn(cfg, job, p, nodes[n], d, t, pw, nw)
  {
  }

  /**
   * A completed job that carries a hash: the node becomes schedulable if the plan cordons or drains, before the delay
   * is over as well as after; labels wait for the delay, and before it the job is looked at again exactly when it is over.
   * If the node is not accepted the call fails, and nothing is deleted.
   */
  lemma SuccessRecorded(cfg: Config, p: Plan, job: Job, nodes: map<string, Node>, n: string, d: int, t: int, pw: bool, nw: bool)
    requires Succeeded(cfg, p, job, nodes, n)
    ensures var o := HandleJob(cfg, job, map[p.name := p], nodes, d, t, pw, nw);
            var waited := d - job.status.at.value;
            && o.status.None? && (o.fails <==> !nw) && (o.node.Some? <==> nw)
            && (waited < DelayOf(p.spec) ==> (DelayOf(p.spec) - waited) in o.requeues)
            && (!nw ==> !o.deletes)
            && (nw ==> && Finishes(cfg, p, nodes[n], job.labels[LabelPlanName(p.name)], waited, o.node.value)
                       && LifetimeDecides(cfg, job, job.status.at.value, t, o))
  {
    SucceededCall(cfg, p, job, nodes, n, d, t, pw, nw);
    if nw {
      var hash, waited := job.labels[LabelPlanName(p.name)], d - job.status.at.value;
      var m := CompletedNode(cfg, p, nodes[n], hash, waited);
      CompletedNodeFinishes(cfg, p, nodes[n], hash, waited);
      EnqueueDecides(cfg, job, job.status.at.value, t, Ignored.(wakesPlan := true, node := Some(m), requeues := DelayRequeue(p, waited)));
    }
  }

  /** A completed job without a hash only waits for its lifetime; one without the time of its completion only fails. */
  lemma BareSuccess(cfg: Config, p: Plan, job: Job, nodes: map<string, Node>, n: string, d: int, t: int, pw: bool, nw: bool)
    requires Current(cfg, p, job, nodes, n) && job.status.Complete? && !Succeeded(cfg, p, job, nodes, n)
    ensures var o := HandleJob(cfg, job, map[p.name := p], nodes, d, t, pw, nw);
            && o.node.None? && o.status.None? && (o.fails <==> job.status.at.None?)
            && (o.fails ==> !o.deletes && o.requeues == [])
            && (!o.fails ==> LifetimeDecides(cfg, job, job.status.at.value, t, o))
  {
    if job.status.at.Some? { EnqueueDecides(cfg, job, job.status.at.value, t, Ignored.(wakesPlan := true)); }
  }

  /** A node is written only by a completed job that carries a hash, and only its own node. */
  lemma WritesOnlyOnSuccess(cfg: Config, p: Plan, job: Job, nodes: map<string, Node>, d: int, t: int, pw: bool, nw: bool)
    ensures var o := HandleJob(cfg, job, map[p.name := p], nodes, d, t, pw, nw);
            o.node.Some? ==> LABEL_NODE in job.labels && Succeeded(cfg, p, job, nodes, job.labels[LABEL_NODE]) && nw
  {
  }

  // ----- whole runs -----

  /** A success writes its own node, and cordons it no more than it was. */
  ghost predicate NodeFinished(s: State, key: JobKey, o: Outcome) {
    && key in s.held && s.held[key].version < |s.versions|
    && (o.node.Some? ==>
          && LABEL_NODE in s.held[key].job.labels && s.held[key].job.labels[LABEL_NODE] in s.nodes
          && var n := s.nodes[s.held[key].job.labels[LABEL_NODE]];
             o.node.value.name == n.name
             && (o.node.value.unschedulable <==> n.unschedulable && !s.versions[s.held[key].version].spec.uncordons))
  }

  lemma OutcomeFinishes(cfg: Config, s: State, key: JobKey, lag: int, nodeWrites: bool)
    requires key in s.held && s.held[key].version < |s.versions|
    ensures NodeFinished(s, key, JobOutcome(cfg, s, key, lag, nodeWrites))
  {
    var r := s.held[key];
    var v := s.versions[r.version];
    WritesOnlyOnSuccess(cfg, v, r.job, s.nodes, s.clock, s.clock + lag, r.version + 1 == |s.versions|, nodeWrites);
    if JobOutcome(cfg, s, key, lag, nodeWrites).node.Some? {
      SuccessRecorded(cfg, v, r.job, s.nodes, r.job.labels[LABEL_NODE], s.clock, s.clock + lag, r.version + 1 == |s.versions|, nodeWrites);
    }
  }

  lemma OutcomeCordonsNobody(s: State, key: JobKey, lag: int, o: Outcome, n: string)
    requires NodesOk(s.nodes) && n in s.nodes && NodeFinished(s, key, o)
    ensures var t := AfterOutcome(s, key, lag, o); n in t.nodes && (t.nodes[n].unschedulable ==> s.nodes[n].unschedulable)
  {
  }

  lemma OutcomeUncordons(s: State, key: JobKey, lag: int, o: Outcome, n: string)
    requires NodesOk(s.nodes) && NodeFinished(s, key, o) && o.node.Some? && s.held[key].job.labels[LABEL_NODE] == n
    requires s.versions[s.held[key].version].spec.uncordons
    ensures var t := AfterOutcome(s, key, lag, o); n in t.nodes && !t.nodes[n].unschedulable
  {
  }

  lemma SuccessWrites(cfg: Config, s: State, key: JobKey, lag: int, n: string)
    requires key in s.held && s.held[key].version < |s.versions|
    requires Succeeded(cfg, s.versions[s.held[key].version], s.held[key].job, s.nodes, n)
    ensures JobOutcome(cfg, s, key, lag, true).node.Some?
  {
    var r := s.held[key];
    SuccessRecorded(cfg, s.versions[r.version], r.job, s.nodes, n, s.clock, s.clock + lag, r.version + 1 == |s.versions|, true);
  }

  lemma StepCordonsNobody(cfg: Config, s: State, step: Step, n: string)
    requires NodesOk(s.nodes) && n in s.nodes && Enabled(cfg, s, step) && !step.EditNodes?
    ensures n in Do(cfg, s, step).nodes && (Do(cfg, s, step).nodes[n].unschedulable ==> s.nodes[n].unschedulable)
  {
    if step.ActOnJob? {
      OutcomeFinishes(cfg, s, step.key, step.lag, step.nodeWrites);
      OutcomeCordonsNobody(s, step.key, step.lag, JobOutcome(cfg, s, step.key, step.lag, step.nodeWrites), n);
    }
  }

  /** In every run only a user's edit cordons a node; the controller never does. */
  lemma OnlyEditsCordon(cfg: Config, run: seq<State>, i: nat, step: Step, n: string)
    requires IsCleanRun(cfg, run) && i + 1 < |run| && Enabled(cfg, run[i], step) && run[i + 1] == Do(cfg, run[i], step)
    requires n in run[i].nodes && !run[i].nodes[n].unschedulable && n in run[i + 1].nodes && run[i + 1].nodes[n].unschedulable
    ensures step.EditNodes?
  {
    RunConsistent(cfg, run, i);
    if !step.EditNodes? { StepCordonsNobody(cfg, run[i], step, n); }
  }

  /** In every run the handled success of a job of a cordoning plan leaves its node schedulable. */
  lemma SuccessUncordons(cfg: Config, run: seq<State>, i: nat, key: JobKey, lag: int, n: string)
    requires IsCleanRun(cfg, run) && i < |run| && Enabled(cfg, run[i], ActOnJob(key, lag, true))
    requires var s := run[i]; var r := s.held[key]; var v := s.versions[r.version]; Succeeded(cfg, v, r.job, s.nodes, n) && v.spec.uncordons
    ensures var t := Do(cfg, run[i], ActOnJob(key, lag, true)); n in t.nodes && !t.nodes[n].unschedulable
  {
    RunConsistent(cfg, run, i);
    OutcomeFinishes(cfg, run[i], key, lag, true);
    SuccessWrites(cfg, run[i], key, lag, n);
    OutcomeUncordons(run[i], key, lag, JobOutcome(cfg, run[i], key, lag, true), n);
  }

  /** A failure read with the latest version is on the plan afterwards. */
  lemma OutcomeFails(s: State, key: JobKey, lag: int, o: Outcome, m: Message)
    requires key in s.held && s.held[key].version + 1 == |s.versions| && o.status.Some?
    requires o.status.value == Last(s).status.(conditions := o.status.value.conditions) && Shows(o.status.value.conditions, COMPLETE, False, m, "JobFailed")
    ensures var t := AfterOutcome(s, key, lag, o);
            |t.versions| > 0 && ApplyingNow(t) == ApplyingNow(s) && Shows(Last(t).status.conditions, COMPLETE, False, m, "JobFailed")
  {
  }

  /** In every state in which a failed job is handled with the latest version, the plan afterwards names the failure, and its batch is as before. */
  lemma FailureReachesPlan(cfg: Config, s: State, key: JobKey, lag: int, nodeWrites: bool, n: string)
    requires Enabled(cfg, s, ActOnJob(key, lag, nodeWrites)) && s.held[key].version + 1 == |s.versions|
    requires Current(cfg, Last(s), s.held[key].job, s.nodes, n) && s.held[key].job.status.Failed? && s.held[key].job.status.at.Some?
    ensures var t := Do(cfg, s, ActOnJob(key, lag, nodeWrites));
            |t.versions| > 0 && ApplyingNow(t) == ApplyingNow(s) && Shows(Last(t).status.conditions, COMPLETE, False, JobFailedOn(n), "JobFailed")
  {
    FailureRecorded(cfg, Last(s), s.held[key].job, s.nodes, n, s.clock, s.clock + lag, true, nodeWrites);
    OutcomeFails(s, key, lag, JobOutcome(cfg, s, key, lag, nodeWrites), JobFailedOn(n));
  }
}
