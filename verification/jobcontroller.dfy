/** The job event handler as it runs against the API server. */
module JobControllers {
  import opened Types
  import opened Labels
  import opened Text
  import opened Conditions
  import opened Allocator
  import opened Jobs

  /** The loop over the post-complete labels, in whatever order the map yields them. */
  method WriteLabels(base: LabelSet, extra: LabelSet, f: string -> string) returns (labels: LabelSet)
    ensures labels == base + Mapped(extra, f)
  {
    labels := base;
    var keys := extra.Keys;
    while keys != {}
      invariant keys <= extra.Keys
      invariant labels == base + map k | k in extra && k !in keys :: f(extra[k])
      decreases keys
    {
      var key :| key in keys;
      labels := labels[key := f(extra[key])];
      keys := keys - {key};
    }
    assert (map k | k in extra && k !in keys :: f(extra[k])) == Mapped(extra, f);
  }

  method LabelNode(cfg: Config, p: Plan, n: Node, hash: string) returns (m: Node)
    ensures m == n.(labels := CompletedLabels(cfg, p, n.labels, hash))
  {
    var labels := WriteLabels(n.labels, p.spec.postCompleteLabels, Expander(cfg, p));
    m := n.(labels := labels[LabelPlanName(p.name) := hash]);
  }

  class JobController {
    var plans: map<string, Plan>
    var nodes: map<string, Node>
    var jobs: map<JobKey, Job>
    var requeued: seq<(JobKey, int)>
    var woken: set<string>

    constructor (plans: map<string, Plan>, nodes: map<string, Node>, jobs: map<JobKey, Job>)
      ensures this.plans == plans && this.nodes == nodes && this.jobs == jobs && this.requeued == [] && this.woken == {}
    {
      this.plans, this.nodes, this.jobs, this.requeued, this.woken := plans, nodes, jobs, [], {};
    }

    static function Tagged(key: JobKey, delays: seq<int>): seq<(JobKey, int)> {
      seq(|delays|, i requires 0 <= i < |delays| => (key, delays[i]))
    }

    method EnqueueAfter(key: JobKey, delay: int)
      modifies this`requeued
      ensures requeued == old(requeued) + [(key, delay)]
    {
      requeued := requeued + [(key, delay)];
    }

    method Delete(key: JobKey)
      modifies this`jobs
      ensures jobs == old(jobs) - {key}
    {
      jobs := jobs - {key};
    }

    /** `enqueueOrDelete`. */
    method EnqueueOrDeleteJob(cfg: Config, key: JobKey, job: Job, at: int, now: int)
      modifies this`jobs, this`requeued
      ensures var e := EnqueueOrDelete(cfg, job, at, now, Ignored);
              && jobs == (if e.deletes then old(jobs) - {key} else old(jobs))
              && requeued == old(requeued) + Tagged(key, e.requeues)
    {
      var ttl := 0;
      if job.ttlSeconds.None? {
        if ANNOTATION_TTL in job.annotations {
          var parsed := cfg.parseInt32(job.annotations[ANNOTATION_TTL]);
          if parsed.None? {
            Delete(key);
            return;
          }
          ttl := parsed.value * SECOND;
        }
      } else {
        ttl := job.ttlSeconds.value * SECOND;
      }
      if now - at < ttl { EnqueueAfter(key, ttl - (now - at)); } else { Delete(key); }
    }

    /** The branch for a failed job: Complete turns false with the failure, then the lifetime decides. */
    method OnFailed(cfg: Config, key: JobKey, job: Job, p: Plan, node: string, at: int, ttlClock: int, delayClock: int, planWrites: bool)
      returns (fails: bool)
      requires p.name in plans && plans[p.name] == p
      modifies this`plans, this`jobs, this`requeued
      ensures fails == !planWrites
      ensures fails ==> plans == old(plans) && jobs == old(jobs) && requeued == old(requeued)
      ensures !fails ==>
                var cs := SetError(p.status.conditions, COMPLETE, "JobFailed", Some(JobFailedOn(node)), delayClock);
                var e := EnqueueOrDelete(cfg, job, at, ttlClock, Ignored);
                && plans == old(plans)[p.name := p.(status := p.status.(conditions := cs))]
                && jobs == (if e.deletes then old(jobs) - {key} else old(jobs))
                && requeued == old(requeued) + Tagged(key, e.requeues)
    {
      if !planWrites { return true; }
      var cs := SetError(p.status.conditions, COMPLETE, "JobFailed", Some(JobFailedOn(node)), delayClock);
      plans := plans[p.name := p.(status := p.status.(conditions := cs))];
      EnqueueOrDeleteJob(cfg, key, job, at, ttlClock);
      fails := false;
    }

    /** The branch for a completed job that carries a hash: label after the delay, uncordon, then the lifetime. */
    method OnComplete(cfg: Config, key: JobKey, job: Job, p: Plan, n: Node, hash: string, at: int, ttlClock: int, delayClock: int, nodeWrites: bool)
      returns (fails: bool)
      modifies this`nodes, this`jobs, this`requeued
      ensures fails == !nodeWrites
      ensures fails ==> nodes == old(nodes) && jobs == old(jobs) && requeued == old(requeued) + Tagged(key, DelayRequeue(p, delayClock - at))
      ensures !fails ==>
                var waited := delayClock - at;
                var wait := DelayRequeue(p, waited);
                var e := EnqueueOrDelete(cfg, job, at, ttlClock, Ignored);
                && nodes == old(nodes)[n.name := CompletedNode(cfg, p, n, hash, waited)]
                && jobs == (if e.deletes then old(jobs) - {key} else old(jobs))
                && requeued == old(requeued) + Tagged(key, wait) + Tagged(key, e.requeues)
    {
      var m := n;
      if delayClock - at < DelayOf(p.spec) {
        EnqueueAfter(key, DelayOf(p.spec) - (delayClock - at));
      } else {
        m := LabelNode(cfg, p, n, hash);
      }
      if m.unschedulable && p.spec.uncordons { m := m.(unschedulable := false); }
      if !nodeWrites { return true; }
      nodes := nodes[m.name := m];
      EnqueueOrDeleteJob(cfg, key, job, at, ttlClock);
      fails := false;
    }

    /** The out-of-turn check on an unfinished job. */
    method OnActive(key: JobKey, p: Plan, node: string)
      modifies this`jobs
      ensures jobs == if FoundBySearch(p.status.applying, node) then old(jobs) else old(jobs) - {key}
    {
      var i := SearchStrings(p.status.applying, node);
      if i == |p.status.applying| || (i < |p.status.applying| && p.status.applying[i] != node) { Delete(key); }
    }

    /** A job of the plan's version whose node exists. */
    method OnOwnJob(cfg: Config, key: JobKey, job: Job, p: Plan, node: string, delayClock: int, ttlClock: int, planWrites: bool, nodeWrites: bool)
      returns (fails: bool)
      requires LABEL_PLAN in job.labels && p.name == job.labels[LABEL_PLAN] && p.name in plans && plans[p.name] == p
      requires LABEL_NODE in job.labels && node == job.labels[LABEL_NODE] && node in nodes
      modifies this`plans, this`nodes, this`jobs, this`requeued
      ensures var o := HandleOwn(cfg, job, p, old(nodes)[node], delayClock, ttlClock, planWrites, nodeWrites);
              && fails == o.fails
              && jobs == (if o.deletes then old(jobs) - {key} else old(jobs))
              && nodes == (if o.node.Some? then old(nodes)[o.node.value.name := o.node.value] else old(nodes))
              && plans == (if o.status.Some? then old(plans)[p.name := p.(status := o.status.value)] else old(plans))
              && requeued == old(requeued) + Tagged(key, o.requeues)
    {
      fails := false;
      match job.status {
        case Failed(at) =>
          if at.None? { return true; }
          fails := OnFailed(cfg, key, job, p, node, at.value, ttlClock, delayClock, planWrites);
        case Complete(at) =>
          if at.None? { return true; }
          if LabelPlanName(p.name) in job.labels {
            fails := OnComplete(cfg, key, job, p, nodes[node], job.labels[LabelPlanName(p.name)], at.value, ttlClock, delayClock, nodeWrites);
          } else {
            EnqueueOrDeleteJob(cfg, key, job, at.value, ttlClock);
          }
        case Active =>
          OnActive(key, p, node);
      }
    }

    /** One job event: the effect on plans, nodes, jobs and queues is the specified outcome, failures included. */
    method OnChange(cfg: Config, key: JobKey, job: Job, delayClock: int, ttlClock: int, planWrites: bool, nodeWrites: bool)
      returns (fails: bool)
      requires forall k :: k in plans ==> plans[k].name == k
      modifies this
      ensures var o := HandleJob(cfg, job, old(plans), old(nodes), delayClock, ttlClock, planWrites, nodeWrites);
              && fails == o.fails
              && jobs == (if o.deletes then old(jobs) - {key} else old(jobs))
              && nodes == (if o.node.Some? then old(nodes)[o.node.value.name := o.node.value] else old(nodes))
              && plans == (if o.status.Some? then old(plans)[job.labels[LABEL_PLAN] := old(plans)[job.labels[LABEL_PLAN]].(status := o.status.value)]
                           else old(plans))
              && requeued == old(requeued) + Tagged(key, o.requeues)
              && woken == (if o.wakesPlan then old(woken) + {job.labels[LABEL_PLAN]} else old(woken))
    {
      fails := false;
      if LABEL_CONTROLLER !in job.labels || job.labels[LABEL_CONTROLLER] != cfg.controller { return; }
      if LABEL_PLAN !in job.labels || LABEL_VERSION !in job.labels || job.labels[LABEL_PLAN] !in plans {
        Delete(key);
        return;
      }
      var name := job.labels[LABEL_PLAN];
      var p := plans[name];
      if job.labels[LABEL_VERSION] != p.status.latestVersion {
        Delete(key);
        return;
      }
      woken := woken + {name};
      if LABEL_NODE !in job.labels || job.labels[LABEL_NODE] !in nodes {
        Delete(key);
        return;
      }
      fails := OnOwnJob(cfg, key, job, p, job.labels[LABEL_NODE], delayClock, ttlClock, planWrites, nodeWrites);
    }
  }
}
