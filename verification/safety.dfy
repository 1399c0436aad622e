/**
 * Concurrency safety for one plan, spec and hash: over every interleaving of the plan
 * worker, the job workers, the jobs themselves, conflicts and restarts, only hosts
 * listed in the persisted `Applying` run an unfinished unpaused job.
 */
module Safety {
  import opened Types
  import opened Labels
  import opened Text
  import opened Sequences
  import opened Conditions
  import opened Allocator
  import opened Jobs
  import opened Handlers
  import opened Rollout
  import opened Batch
  import opened Completion

  /** `v` differs from `p` at most in its concurrency, its conditions and its batch. */
  ghost predicate SamePlan(p: Plan, v: Plan) {
    v == p.(spec := p.spec.(concurrency := v.spec.concurrency),
            status := p.status.(conditions := v.status.conditions, applying := v.status.applying))
  }

  /** The labels and lifetime the controller gives a job of plan `p` on node `key.node`. */
  ghost predicate Identified(cfg: Config, p: Plan, key: JobKey, j: Job) {
    && key.hash == p.status.latestHash && j.key == key
    && LABEL_CONTROLLER in j.labels && j.labels[LABEL_CONTROLLER] == cfg.controller
    && LABEL_NODE in j.labels && j.labels[LABEL_NODE] == key.node
    && LABEL_PLAN in j.labels && j.labels[LABEL_PLAN] == p.name
    && LABEL_VERSION in j.labels && j.labels[LABEL_VERSION] == p.status.latestVersion
    && LabelPlanName(p.name) in j.labels && j.labels[LabelPlanName(p.name)] == p.status.latestHash
    && j.ttlSeconds == Some(TtlSeconds(cfg, p.spec.postCompleteDelay))
  }

  /** A job of another hash, whatever its version. */
  ghost predicate Leftover(p: Plan, key: JobKey, j: Job) { key.hash != p.status.latestHash && OwnLabels(p.name, key, j) }

  ghost predicate KnownJob(cfg: Config, p: Plan, key: JobKey, j: Job) { Identified(cfg, p, key, j) || Leftover(p, key, j) }

  ghost predicate StillEligible(p: Plan, nodes: map<string, Node>, n: string) { n in nodes && Eligible(p, nodes[n]) }

  /** Labelling this node with an old hash neither takes the latest hash off it nor changes whether it is eligible. */
  ghost predicate Undisturbed(cfg: Config, p: Plan, v: Plan, n: Node, hash: string) {
    && PlanLabel(p, n) != Some(p.status.latestHash)
    && (Eligible(p, n.(labels := CompletedLabels(cfg, v, n.labels, hash))) <==> Eligible(p, n))
  }

  /** A call of the handler for a job of another hash labels no finished node and changes nobody's eligibility. */
  ghost predicate OldJobsSettled(cfg: Config, p: Plan, s: State, step: Step) {
    step.ActOnJob? && step.key in s.held && step.key.hash != p.status.latestHash && s.held[step.key].version < |s.versions| ==>
      var v, j := s.versions[s.held[step.key].version], s.held[step.key].job;
      Relabels(cfg, v, j, s.nodes, s.clock, step.nodeWrites) ==> Undisturbed(cfg, p, v, s.nodes[j.labels[LABEL_NODE]], step.key.hash)
  }

  /** Nobody edits the spec (except its concurrency) or the nodes, the hash stays resolved, and old jobs disturb nobody. */
  ghost predicate Steady(cfg: Config, p: Plan, s: State, step: Step) {
    && Enabled(cfg, s, step) && !step.EditPlan? && !step.EditNodes? && OldJobsSettled(cfg, p, s, step)
    && (step.SyncStatus? ==>
          var r := StatusHandler(cfg, s.versions[step.base], step.secrets, step.poll, s.clock);
          r.Ok? ==> r.value.latestVersion == p.status.latestVersion && r.value.latestHash == p.status.latestHash)
  }

  /** The job is created paused, or already finished: applying it starts nothing. */
  ghost predicate Harmless(s: State, j: Job) {
    j.parallelism <= 0 || (j.key in s.jobs && !s.jobs[j.key].status.Active?)
  }

  /** A generated job that would run reaches the API before its node has been labelled as done. */
  ghost predicate Timely(p: Plan, s: State, step: Step) {
    step.ApplyOne? && s.worker.Applying? && step.index < |s.worker.jobs| ==>
      var j := s.worker.jobs[step.index];
      StillEligible(p, s.nodes, j.key.node) || Harmless(s, j)
  }

  // ----- the invariant -----

  ghost predicate Running(j: Job) { j.status.Active? && j.parallelism > 0 }

  ghost predicate Plans(p: Plan, s: State) { |s.versions| > 0 && forall i :: 0 <= i < |s.versions| ==> SamePlan(p, s.versions[i]) }

  ghost predicate Known(cfg: Config, p: Plan, s: State) {
    && (forall k :: k in s.jobs ==> KnownJob(cfg, p, k, s.jobs[k]))
    && (forall k :: k in s.held ==> KnownJob(cfg, p, k, s.held[k].job))
    && (forall k :: k in s.held && s.held[k].job.status.Complete? ==> k in s.jobs && s.jobs[k].status == s.held[k].job.status)
  }

  /** A node that was ever listed and is still eligible is still listed. */
  ghost predicate Remembered(p: Plan, s: State) {
    |s.versions| > 0 &&
    forall i, n :: 0 <= i < |s.versions| && StillEligible(p, s.nodes, n) && Hostname(s.nodes[n]) in s.versions[i].status.applying
                   ==> Hostname(s.nodes[n]) in ApplyingNow(s)
  }

  ghost predicate Pending(p: Plan, s: State) {
    !s.worker.Idle? ==>
      && s.worker.base < |s.versions|
      && SamePlan(p, s.versions[s.worker.base].(status := s.worker.status))
      && forall n :: StillEligible(p, s.nodes, n) && Hostname(s.nodes[n]) in s.versions[s.worker.base].status.applying
                     ==> Hostname(s.nodes[n]) in s.worker.status.applying
  }

  /** A job waiting to be applied: fresh, and unpaused only for a listed host. */
  ghost predicate ObjectOk(cfg: Config, p: Plan, s: State, j: Job) {
    && |s.versions| > 0
    && Identified(cfg, p, j.key, j) && j.status.Active? && j.key.node in s.nodes
    && (j.parallelism > 0 ==> Hostname(s.nodes[j.key.node]) in ApplyingNow(s))
  }

  ghost predicate Objects(cfg: Config, p: Plan, s: State) {
    s.worker.Applying? ==> forall i :: 0 <= i < |s.worker.jobs| ==> ObjectOk(cfg, p, s, s.worker.jobs[i])
  }

  /** The safety property, with the reason a host cannot lose its slot under a running job. */
  ghost predicate RunningListed(p: Plan, s: State) {
    |s.versions| > 0 &&
    forall k :: k in s.jobs && k.hash == p.status.latestHash && Running(s.jobs[k])
                ==> StillEligible(p, s.nodes, k.node) && Hostname(s.nodes[k.node]) in ApplyingNow(s)
  }

  ghost predicate Guarded(cfg: Config, p: Plan, s: State) {
    && Plans(p, s) && Known(cfg, p, s) && Remembered(p, s) && Pending(p, s) && Objects(cfg, p, s) && RunningListed(p, s)
  }

  ghost predicate Safe(cfg: Config, p: Plan, s: State) { Consistent(s) && Guarded(cfg, p, s) }

  lemma EligibleAlike(p: Plan, v: Plan, n: Node)
    requires SamePlan(p, v)
    ensures Eligible(v, n) <==> Eligible(p, n)
  {
  }

  // ----- the steps -----

  /** The waiting objects stay good while the plan's batch and the nodes' hostnames do. */
  lemma ObjectsCarry(cfg: Config, p: Plan, s: State, t: State)
    requires Objects(cfg, p, s) && |s.versions| > 0 && |t.versions| > 0
    requires t.worker.Applying? ==> s.worker.Applying? && t.worker.jobs == s.worker.jobs
    requires ApplyingNow(t) == ApplyingNow(s)
    requires forall n :: n in s.nodes ==> n in t.nodes && Hostname(t.nodes[n]) == Hostname(s.nodes[n])
    ensures Objects(cfg, p, t)
  {
    if t.worker.Applying? {
      forall i | 0 <= i < |t.worker.jobs| ensures ObjectOk(cfg, p, t, t.worker.jobs[i]) {
        assert ObjectOk(cfg, p, s, s.worker.jobs[i]);
      }
    }
  }

  /** A new version that repeats the batch changes nothing that matters here. */
  lemma RepeatedBatch(cfg: Config, p: Plan, s: State, t: State, v: Plan)
    requires Guarded(cfg, p, s) && t == s.(versions := s.versions + [v])
    requires SamePlan(p, v) && v.status.applying == ApplyingNow(s)
    ensures Guarded(cfg, p, t)
  {
    ObjectsCarry(cfg, p, s, t);
  }

  /** The jobs of one selection: identified, and unpaused only for hosts that are listed. */
  lemma GeneratedJobOk(cfg: Config, p: Plan, s: State, base: nat, r: seq<Node>, i: nat)
    requires NodesOk(s.nodes) && Plans(p, s) && Remembered(p, s) && base < |s.versions| && i < |r|
    requires IsSelection(cfg, s.versions[base], s.nodes.Values, r)
    ensures ObjectOk(cfg, p, s, JobsFor(cfg, s.versions[base], r)[i])
  {
    var v, n := s.versions[base], r[i];
    assert SamePlan(p, v);
    assert n in Elements(r) && n in EligibleNodes(v, s.nodes.Values);
    var name :| name in s.nodes && s.nodes[name] == n;
    EligibleAlike(p, v, n);
    NewJobIdentity(cfg, v, n);
    assert StillEligible(p, s.nodes, n.name);
  }

  lemma GeneratedKeepsListed(cfg: Config, p: Plan, s: State, base: nat, selected: Result<seq<Node>>, n: string)
    requires Plans(p, s) && base < |s.versions|
    requires selected.Ok? ==> IsSelection(cfg, s.versions[base], s.nodes.Values, selected.value)
    requires StillEligible(p, s.nodes, n) && Hostname(s.nodes[n]) in s.versions[base].status.applying
    ensures var g := GeneratingHandler(cfg, s.versions[base], selected, s.clock);
            g.Ok? ==> Hostname(s.nodes[n]) in g.value.status.applying
  {
    var v := s.versions[base];
    assert SamePlan(p, v);
    EligibleAlike(p, v, s.nodes[n]);
    if selected.Ok? { KeptIsSelected(cfg, v, s.nodes.Values, selected.value, s.nodes[n]); }
    GenerateKeepsListed(cfg, v, selected, s.clock, s.nodes[n]);
  }

  lemma GeneratedShape(cfg: Config, p: Plan, selected: Result<seq<Node>>, now: int)
    ensures var g := GeneratingHandler(cfg, p, selected, now);
            g.Ok? ==>
              && (g.value.jobs == [] || (selected.Ok? && g.value.jobs == JobsFor(cfg, p, selected.value)))
              && g.value.status == p.status.(applying := g.value.status.applying, conditions := g.value.status.conditions)
  {
  }

  /** What starting a pass changes: the floor, and a worker with a status and jobs computed from the base. */
  ghost predicate StartsFrom(cfg: Config, s: State, base: nat, selected: Result<seq<Node>>, t: State) {
    && base < |s.versions|
    && t == s.(floor := t.floor, worker := t.worker)
    && (!t.worker.Idle? ==>
          && t.worker.base == base && Carried(s.versions[base].status, t.worker.status))
    && (t.worker.Applying? ==> t.worker.jobs == [] || (selected.Ok? && t.worker.jobs == JobsFor(cfg, s.versions[base], selected.value)))
  }

  ghost predicate Carried(a: PlanStatus, b: PlanStatus) { b == a.(applying := b.applying, conditions := b.conditions) }

  lemma StartedStartsFrom(cfg: Config, s: State, base: nat, selected: Result<seq<Node>>)
    requires base < |s.versions| && s.worker.Idle?
    ensures StartsFrom(cfg, s, base, selected, Started(cfg, s, base, selected))
  {
    GeneratedShape(cfg, s.versions[base], selected, s.clock);
  }

  lemma StartedKeepsListed(cfg: Config, p: Plan, s: State, base: nat, selected: Result<seq<Node>>, n: string)
    requires Plans(p, s) && base < |s.versions| && s.worker.Idle?
    requires selected.Ok? ==> IsSelection(cfg, s.versions[base], s.nodes.Values, selected.value)
    requires StillEligible(p, s.nodes, n) && Hostname(s.nodes[n]) in s.versions[base].status.applying
    ensures var t := Started(cfg, s, base, selected); !t.worker.Idle? ==> Hostname(s.nodes[n]) in t.worker.status.applying
  {
    GeneratedKeepsListed(cfg, p, s, base, selected, n);
  }

  lemma StartObjects(cfg: Config, p: Plan, s: State, base: nat, selected: Result<seq<Node>>, t: State)
    requires NodesOk(s.nodes) && Plans(p, s) && Remembered(p, s) && StartsFrom(cfg, s, base, selected, t)
    requires selected.Ok? ==> IsSelection(cfg, s.versions[base], s.nodes.Values, selected.value)
    ensures Objects(cfg, p, t)
  {
    if t.worker.Applying? && t.worker.jobs != [] {
      forall i | 0 <= i < |t.worker.jobs| ensures ObjectOk(cfg, p, t, t.worker.jobs[i]) {
        GeneratedJobOk(cfg, p, s, base, selected.value, i);
        ObjectOkAlike(cfg, p, s, t, t.worker.jobs[i]);
      }
    }
  }

  lemma ObjectOkAlike(cfg: Config, p: Plan, s: State, t: State, j: Job)
    requires ObjectOk(cfg, p, s, j) && t.versions == s.versions && t.nodes == s.nodes
    ensures ObjectOk(cfg, p, t, j)
  {
  }

  lemma StartGuarded(cfg: Config, p: Plan, s: State, base: nat, selected: Result<seq<Node>>, t: State)
    requires Guarded(cfg, p, s) && StartsFrom(cfg, s, base, selected, t) && Objects(cfg, p, t)
    requires forall n :: StillEligible(p, s.nodes, n) && Hostname(s.nodes[n]) in s.versions[base].status.applying && !t.worker.Idle?
                         ==> Hostname(s.nodes[n]) in t.worker.status.applying
    ensures Guarded(cfg, p, t)
  {
    assert SamePlan(p, s.versions[base]);
  }

  lemma GenerateGuarded(cfg: Config, p: Plan, s: State, base: nat, selected: Result<seq<Node>>)
    requires Guarded(cfg, p, s) && NodesOk(s.nodes) && base < |s.versions| && s.worker.Idle?
    requires selected.Ok? ==> IsSelection(cfg, s.versions[base], s.nodes.Values, selected.value)
    ensures Guarded(cfg, p, Started(cfg, s, base, selected))
  {
    var t := Started(cfg, s, base, selected);
    StartedStartsFrom(cfg, s, base, selected);
    StartObjects(cfg, p, s, base, selected, t);
    forall n | StillEligible(p, s.nodes, n) && Hostname(s.nodes[n]) in s.versions[base].status.applying && !t.worker.Idle?
      ensures Hostname(s.nodes[n]) in t.worker.status.applying
    {
      StartedKeepsListed(cfg, p, s, base, selected, n);
    }
    StartGuarded(cfg, p, s, base, selected, t);
  }

  /** Versions, nodes and the worker's plan of action are as before. */
  lemma WorkerFrame(cfg: Config, p: Plan, s: State, t: State)
    requires Plans(p, s) && Remembered(p, s) && Pending(p, s) && Objects(cfg, p, s)
    requires t.versions == s.versions && t.nodes == s.nodes
    requires t.worker.Idle? || t.worker == s.worker
             || (!s.worker.Idle? && t.worker.base == s.worker.base && t.worker.status == s.worker.status
                 && (t.worker.Applying? ==> s.worker.Applying? && t.worker.jobs == s.worker.jobs))
    ensures Plans(p, t) && Remembered(p, t) && Pending(p, t) && Objects(cfg, p, t)
  {
    ObjectsCarry(cfg, p, s, t);
  }

  lemma UpsertKnown(cfg: Config, p: Plan, s: State, j: Job, t: State)
    requires Known(cfg, p, s) && Identified(cfg, p, j.key, j) && t.jobs == Upsert(s.jobs, j) && t.held == s.held
    ensures Known(cfg, p, t)
  {
    forall k | k in t.jobs ensures KnownJob(cfg, p, k, t.jobs[k]) {
      if k == j.key { assert Identified(cfg, p, k, t.jobs[k]); } else { assert KnownJob(cfg, p, k, s.jobs[k]); }
    }
  }

  lemma UpsertListed(cfg: Config, p: Plan, s: State, j: Job, t: State)
    requires RunningListed(p, s) && ObjectOk(cfg, p, s, j)
    requires StillEligible(p, s.nodes, j.key.node) || Harmless(s, j)
    requires t.jobs == Upsert(s.jobs, j) && t.nodes == s.nodes && t.versions == s.versions
    ensures RunningListed(p, t)
  {
    forall k | k in t.jobs && k.hash == p.status.latestHash && Running(t.jobs[k])
      ensures StillEligible(p, t.nodes, k.node) && Hostname(t.nodes[k.node]) in ApplyingNow(t)
    {
      if k != j.key { assert Running(s.jobs[k]); }
    }
  }

  /** Applying one job is safe when its node is still eligible or it starts nothing. */
  lemma ApplyOneGuarded(cfg: Config, p: Plan, s: State, i: nat, t: State)
    requires Guarded(cfg, p, s) && s.worker.Applying? && i < |s.worker.jobs| && Timely(p, s, ApplyOne(i))
    requires t == s.(jobs := Upsert(s.jobs, s.worker.jobs[i]), worker := s.worker.(done := s.worker.done + {i}))
    ensures Guarded(cfg, p, t)
  {
    var j := s.worker.jobs[i];
    assert ObjectOk(cfg, p, s, j);
    WorkerFrame(cfg, p, s, t);
    UpsertKnown(cfg, p, s, j, t);
    UpsertListed(cfg, p, s, j, t);
  }

  lemma WriteGuarded(cfg: Config, p: Plan, s: State, t: State)
    requires Guarded(cfg, p, s) && s.worker.Writing? && s.worker.base + 1 == |s.versions|
    requires t == s.(versions := s.versions + [Last(s).(status := s.worker.status)], worker := Idle)
    ensures Guarded(cfg, p, t)
  {
    assert ApplyingNow(t) == s.worker.status.applying;
    forall i, n | 0 <= i < |t.versions| && StillEligible(p, t.nodes, n) && Hostname(t.nodes[n]) in t.versions[i].status.applying
      ensures Hostname(t.nodes[n]) in ApplyingNow(t)
    {
      if i < |s.versions| { assert Hostname(s.nodes[n]) in ApplyingNow(s); }
    }
  }

  lemma FinishGuarded(cfg: Config, p: Plan, s: State, key: JobKey, status: JobStatus, t: State)
    requires Guarded(cfg, p, s) && key in s.jobs && s.jobs[key].status.Active? && !status.Active?
    requires t.jobs == s.jobs[key := s.jobs[key].(status := status)]
    requires t.versions == s.versions && t.nodes == s.nodes && t.worker == s.worker && t.held == s.held
    ensures Guarded(cfg, p, t)
  {
    assert KnownJob(cfg, p, key, s.jobs[key]);
    ObjectsCarry(cfg, p, s, t);
  }

  /** Nodes may appear with unused hostnames, keep their hostnames, and only ever stop being eligible. */
  ghost predicate NodesShrink(p: Plan, s: State, t: State) {
    && (forall n :: n in s.nodes ==> n in t.nodes && Hostname(t.nodes[n]) == Hostname(s.nodes[n]))
    && (forall n :: StillEligible(p, t.nodes, n) ==>
          || StillEligible(p, s.nodes, n)
          || (n !in s.nodes && forall i :: 0 <= i < |s.versions| ==> Hostname(t.nodes[n]) !in s.versions[i].status.applying))
  }

  lemma ShrinkGuarded(cfg: Config, p: Plan, s: State, t: State)
    requires Guarded(cfg, p, s) && NodesShrink(p, s, t) && t.versions == s.versions && t.worker == s.worker
    ensures Plans(p, t) && Remembered(p, t) && Pending(p, t) && Objects(cfg, p, t)
  {
    ObjectsCarry(cfg, p, s, t);
    forall i, n | 0 <= i < |t.versions| && StillEligible(p, t.nodes, n) && Hostname(t.nodes[n]) in t.versions[i].status.applying
      ensures Hostname(t.nodes[n]) in ApplyingNow(t)
    {
      assert StillEligible(p, s.nodes, n);
    }
    if !t.worker.Idle? {
      forall n | StillEligible(p, t.nodes, n) && Hostname(t.nodes[n]) in t.versions[t.worker.base].status.applying
        ensures Hostname(t.nodes[n]) in t.worker.status.applying
      {
        assert StillEligible(p, s.nodes, n);
      }
    }
  }

  lemma AddNodeGuarded(cfg: Config, p: Plan, s: State, n: Node, t: State)
    requires Guarded(cfg, p, s) && n.name !in s.nodes && t == s.(nodes := s.nodes[n.name := n])
    requires forall i :: 0 <= i < |s.versions| ==> Hostname(n) !in s.versions[i].status.applying
    ensures Guarded(cfg, p, t)
  {
    assert NodesShrink(p, s, t) by {
      forall m | StillEligible(p, t.nodes, m) ensures m == n.name || StillEligible(p, s.nodes, m) {}
    }
    ShrinkGuarded(cfg, p, s, t);
    forall k | k in t.jobs && k.hash == p.status.latestHash && Running(t.jobs[k])
      ensures StillEligible(p, t.nodes, k.node) && Hostname(t.nodes[k.node]) in ApplyingNow(t)
    {
      assert StillEligible(p, s.nodes, k.node);
    }
  }

  /** Steps that leave the plan, the nodes and the jobs alone. */
  lemma QuietGuarded(cfg: Config, p: Plan, s: State, t: State)
    requires Guarded(cfg, p, s)
    requires t.versions == s.versions && t.nodes == s.nodes && t.jobs == s.jobs
    requires forall k :: k in t.held ==> (k in s.held && t.held[k] == s.held[k]) || (k in s.jobs && t.held[k].job == s.jobs[k])
    requires t.worker.Idle? || t.worker == s.worker
             || (t.worker.Writing? && !s.worker.Idle? && t.worker.base == s.worker.base && t.worker.status == s.worker.status)
    ensures Guarded(cfg, p, t)
  {
    WorkerFrame(cfg, p, s, t);
  }

  // ----- the job handler -----

  /** Finishing a node keeps its hostname, and either leaves its labels or ends its eligibility. */
  lemma CompletedNodeKeeps(cfg: Config, p: Plan, v: Plan, n: Node, waited: int)
    requires SamePlan(p, v) && LABEL_HOSTNAME !in p.spec.postCompleteLabels
    ensures var m := CompletedNode(cfg, v, n, p.status.latestHash, waited);
            && m.name == n.name && Hostname(m) == Hostname(n)
            && (waited < DelayOf(p.spec) ==> m.labels == n.labels)
            && (waited >= DelayOf(p.spec) ==> !Eligible(p, m))
            && (Eligible(p, m) ==> Eligible(p, n))
  {
    var m := CompletedNode(cfg, v, n, p.status.latestHash, waited);
    EligibleMeans(p, m);
    EligibleMeans(p, n);
    ReservedKeysDistinct(p.name);
    PlanLabelIsJobHash(cfg, v, n.labels, p.status.latestHash);
  }

  /** Whatever a call writes keeps the node's hostname, and makes no node eligible that was not. */
  ghost predicate NodeWriteOk(cfg: Config, p: Plan, s: State, key: JobKey, m: Node) {
    && key in s.held && s.held[key].version < |s.versions| && key.node in s.nodes
    && s.held[key].job.status.Complete? && s.held[key].job.status.at.Some?
    && m.name == key.node && Hostname(m) == Hostname(s.nodes[key.node])
    && (Eligible(p, m) ==> Eligible(p, s.nodes[key.node]))
    && (key.hash != p.status.latestHash ==>
          (Eligible(p, s.nodes[key.node]) ==> Eligible(p, m))
          && (PlanLabel(p, s.nodes[key.node]) == Some(p.status.latestHash) ==> m.labels == s.nodes[key.node].labels))
    && m == CompletedNode(cfg, s.versions[s.held[key].version], s.nodes[key.node], key.hash,
                          s.clock - s.held[key].job.status.at.value)
  }

  /** What an old job's call writes: a node as eligible as before, and nothing on a finished one. */
  lemma OldNodeKeeps(cfg: Config, p: Plan, v: Plan, key: JobKey, job: Job, nodes: map<string, Node>, now: int, nw: bool, m: Node)
    requires v.name == p.name && OwnLabels(p.name, key, job) && key.node in nodes && job.status.Complete? && job.status.at.Some?
    requires m == CompletedNode(cfg, v, nodes[key.node], key.hash, now - job.status.at.value)
    requires !Relabels(cfg, v, job, nodes, now, nw) ==> m.labels == nodes[key.node].labels
    requires Relabels(cfg, v, job, nodes, now, nw) ==> Undisturbed(cfg, p, v, nodes[key.node], key.hash)
    ensures Eligible(p, m) <==> Eligible(p, nodes[key.node])
    ensures PlanLabel(p, nodes[key.node]) == Some(p.status.latestHash) ==> m.labels == nodes[key.node].labels
  {
    var n := nodes[key.node];
    if m.labels == n.labels { EligibleByLabels(p, m, n); }
    else { EligibleByLabels(p, m, n.(labels := CompletedLabels(cfg, v, n.labels, key.hash))); }
  }

  lemma WriteKeepsHostname(cfg: Config, p: Plan, v: Plan, n: Node, hash: string, waited: int)
    requires SamePlan(p, v) && LABEL_HOSTNAME !in p.spec.postCompleteLabels
    ensures Hostname(CompletedNode(cfg, v, n, hash, waited)) == Hostname(n)
  {
    ReservedKeysDistinct(p.name);
    PlanLabelIsJobHash(cfg, v, n.labels, hash);
  }

  lemma KnownHasOwnLabels(cfg: Config, p: Plan, key: JobKey, j: Job)
    requires KnownJob(cfg, p, key, j)
    ensures OwnLabels(p.name, key, j)
  {
  }

  lemma OutcomeNodeOk(cfg: Config, p: Plan, s: State, key: JobKey, nodeWrites: bool, o: Outcome)
    requires key in s.held && s.held[key].version < |s.versions| && SamePlan(p, s.versions[s.held[key].version])
    requires key.node in s.nodes ==> s.nodes[key.node].name == key.node
    requires OwnLabels(p.name, key, s.held[key].job) && LABEL_HOSTNAME !in p.spec.postCompleteLabels
    requires OldJobsSettled(cfg, p, s, ActOnJob(key, 0, nodeWrites))
    requires WritesNode(cfg, s.versions[s.held[key].version], key, s.held[key].job, s.nodes, s.clock, nodeWrites, o)
    ensures o.node.Some? ==> NodeWriteOk(cfg, p, s, key, o.node.value)
  {
    var r := s.held[key];
    var v := s.versions[r.version];
    if o.node.Some? {
      var waited := s.clock - r.job.status.at.value;
      WriteKeepsHostname(cfg, p, v, s.nodes[key.node], key.hash, waited);
      if key.hash == p.status.latestHash { CompletedNodeKeeps(cfg, p, v, s.nodes[key.node], waited); }
      else { OldNodeKeeps(cfg, p, v, key, r.job, s.nodes, s.clock, nodeWrites, o.node.value); }
    }
  }

  /** What the outcome of a call writes to the nodes. */
  lemma ActWrites(cfg: Config, s: State, key: JobKey, lag: int, nodeWrites: bool)
    requires key in s.held && s.held[key].version < |s.versions| && OwnLabels(s.versions[s.held[key].version].name, key, s.held[key].job)
    ensures WritesNode(cfg, s.versions[s.held[key].version], key, s.held[key].job, s.nodes, s.clock, nodeWrites,
                       JobOutcome(cfg, s, key, lag, nodeWrites))
  {
    var r := s.held[key];
    WrittenLabels(cfg, s.versions[r.version], key, r.job, s.nodes, s.clock, s.clock + lag, r.version + 1 == |s.versions|, nodeWrites);
  }

  lemma ActedNode(cfg: Config, p: Plan, s: State, key: JobKey, lag: int, nodeWrites: bool)
    requires key in s.held && s.held[key].version < |s.versions| && SamePlan(p, s.versions[s.held[key].version])
    requires key.node in s.nodes ==> s.nodes[key.node].name == key.node
    requires KnownJob(cfg, p, key, s.held[key].job) && LABEL_HOSTNAME !in p.spec.postCompleteLabels
    requires OldJobsSettled(cfg, p, s, ActOnJob(key, lag, nodeWrites))
    ensures var o := JobOutcome(cfg, s, key, lag, nodeWrites); o.node.Some? ==> NodeWriteOk(cfg, p, s, key, o.node.value)
  {
    KnownHasOwnLabels(cfg, p, key, s.held[key].job);
    ActWrites(cfg, s, key, lag, nodeWrites);
    OutcomeNodeOk(cfg, p, s, key, nodeWrites, JobOutcome(cfg, s, key, lag, nodeWrites));
  }

  lemma NodeWriteGuarded(cfg: Config, p: Plan, s: State, key: JobKey, t: State)
    requires Guarded(cfg, p, s) && key in s.held && t.versions == s.versions && t.worker == s.worker
    requires t.jobs == s.jobs || t.jobs == s.jobs - {key}
    requires t.held == s.held - {key}
    requires forall n :: n in s.nodes ==> n in t.nodes && (n != key.node ==> t.nodes[n] == s.nodes[n])
    requires forall n :: n in t.nodes ==> n in s.nodes
    requires t.nodes != s.nodes ==>
               && key.node in s.nodes && s.held[key].job.status.Complete?
               && Hostname(t.nodes[key.node]) == Hostname(s.nodes[key.node])
               && (Eligible(p, t.nodes[key.node]) ==> Eligible(p, s.nodes[key.node]))
               && (key.hash != p.status.latestHash && Eligible(p, s.nodes[key.node]) ==> Eligible(p, t.nodes[key.node]))
    ensures Guarded(cfg, p, t)
  {
    assert NodesShrink(p, s, t) by {
      forall n | StillEligible(p, t.nodes, n) ensures StillEligible(p, s.nodes, n) {}
    }
    ShrinkGuarded(cfg, p, s, t);
    forall k | k in t.jobs && k.hash == p.status.latestHash && Running(t.jobs[k])
      ensures StillEligible(p, t.nodes, k.node) && Hostname(t.nodes[k.node]) in ApplyingNow(t)
    {
      assert StillEligible(p, s.nodes, k.node);
      assert k.node == key.node && key.hash == p.status.latestHash ==> k == key;
    }
  }

  lemma OutcomePublishes(cfg: Config, p: Plan, s: State, key: JobKey, lag: int, o: Outcome)
    requires Guarded(cfg, p, s) && WritesFailure(s, key, o)
    ensures Guarded(cfg, p, s.(versions := AfterOutcome(s, key, lag, o).versions))
  {
    var t := AfterOutcome(s, key, lag, o);
    OutcomeRepeats(s, key, lag, o);
    if t.versions != s.versions {
      assert SamePlan(p, Last(s));
      assert t.versions == s.versions + [Last(t)];
      RepeatedBatch(cfg, p, s, s.(versions := t.versions), Last(t));
    }
  }

  lemma OutcomeGuarded(cfg: Config, p: Plan, s: State, key: JobKey, lag: int, o: Outcome)
    requires Guarded(cfg, p, s) && WritesFailure(s, key, o)
    requires o.node.Some? ==> NodeWriteOk(cfg, p, s, key, o.node.value)
    ensures Guarded(cfg, p, AfterOutcome(s, key, lag, o))
  {
    var t := AfterOutcome(s, key, lag, o);
    OutcomePublishes(cfg, p, s, key, lag, o);
    NodeWriteGuarded(cfg, p, s.(versions := t.versions), key, t);
  }

  lemma OutcomeNodesOk(cfg: Config, p: Plan, s: State, key: JobKey, lag: int, o: Outcome)
    requires NodesOk(s.nodes) && key in s.held && s.held[key].version < |s.versions|
    requires o.node.Some? ==> NodeWriteOk(cfg, p, s, key, o.node.value)
    ensures NodesOk(AfterOutcome(s, key, lag, o).nodes)
  {
  }

  /** What a call does in a safe state, as far as later lemmas need it. */
  lemma ActFacts(cfg: Config, p: Plan, s: State, key: JobKey, lag: int, nodeWrites: bool)
    requires Safe(cfg, p, s) && key in s.held && LABEL_HOSTNAME !in p.spec.postCompleteLabels
    requires OldJobsSettled(cfg, p, s, ActOnJob(key, lag, nodeWrites))
    ensures var o := JobOutcome(cfg, s, key, lag, nodeWrites);
            WritesFailure(s, key, o) && (o.node.Some? ==> NodeWriteOk(cfg, p, s, key, o.node.value))
  {
    assert SamePlan(p, s.versions[s.held[key].version]) && KnownJob(cfg, p, key, s.held[key].job);
    ActStatus(cfg, s, key, lag, nodeWrites);
    ActedNode(cfg, p, s, key, lag, nodeWrites);
  }

  lemma ActGuarded(cfg: Config, p: Plan, s: State, key: JobKey, lag: int, nodeWrites: bool)
    requires Safe(cfg, p, s) && key in s.held && LABEL_HOSTNAME !in p.spec.postCompleteLabels
    requires OldJobsSettled(cfg, p, s, ActOnJob(key, lag, nodeWrites))
    ensures Guarded(cfg, p, ActedOn(cfg, s, key, lag, nodeWrites)) && NodesOk(ActedOn(cfg, s, key, lag, nodeWrites).nodes)
  {
    ActFacts(cfg, p, s, key, lag, nodeWrites);
    OutcomeGuarded(cfg, p, s, key, lag, JobOutcome(cfg, s, key, lag, nodeWrites));
    OutcomeNodesOk(cfg, p, s, key, lag, JobOutcome(cfg, s, key, lag, nodeWrites));
  }

  // ----- whole runs -----

  lemma SyncGuarded(cfg: Config, p: Plan, s: State, step: Step)
    requires Safe(cfg, p, s) && step.SyncStatus? && Steady(cfg, p, s, step)
    ensures Guarded(cfg, p, Do(cfg, s, step))
  {
    var v := s.versions[step.base];
    StatusHandlerKeeps(cfg, v, step.secrets, step.poll, s.clock);
    var r := StatusHandler(cfg, v, step.secrets, step.poll, s.clock);
    if r.Ok? && r.value != v.status && step.base + 1 == |s.versions| {
      assert SamePlan(p, v);
      RepeatedBatch(cfg, p, s, Do(cfg, s, step), v.(status := r.value));
    }
  }

  lemma WorkerStepGuarded(cfg: Config, p: Plan, s: State, step: Step)
    requires Safe(cfg, p, s) && Enabled(cfg, s, step) && Timely(p, s, step)
    requires step.ApplyOne? || step.ApplyFails? || step.ApplyDone? || step.Restart?
    ensures Guarded(cfg, p, Do(cfg, s, step))
  {
    var t := Do(cfg, s, step);
    if step.ApplyOne? { ApplyOneGuarded(cfg, p, s, step.index, t); }
    else { QuietGuarded(cfg, p, s, t); }
  }

  lemma WriteStepGuarded(cfg: Config, p: Plan, s: State)
    requires Safe(cfg, p, s) && Enabled(cfg, s, WriteStatus)
    ensures Guarded(cfg, p, Do(cfg, s, WriteStatus))
  {
    var t := Do(cfg, s, WriteStatus);
    if t.versions != s.versions { WriteGuarded(cfg, p, s, t); } else { QuietGuarded(cfg, p, s, t); }
  }

  lemma EnvironmentStepGuarded(cfg: Config, p: Plan, s: State, step: Step)
    requires Safe(cfg, p, s) && Enabled(cfg, s, step)
    requires step.BeginJob? || step.CompleteJob? || step.FailJob? || step.Tick?
    ensures Guarded(cfg, p, Do(cfg, s, step))
  {
    var t := Do(cfg, s, step);
    if step.CompleteJob? { FinishGuarded(cfg, p, s, step.key, Complete(Some(s.clock)), t); }
    else if step.FailJob? { FinishGuarded(cfg, p, s, step.key, Failed(Some(s.clock)), t); }
    else { QuietGuarded(cfg, p, s, t); }
  }

  lemma OutsideStepGuarded(cfg: Config, p: Plan, s: State, step: Step)
    requires Safe(cfg, p, s) && Enabled(cfg, s, step)
    requires step.SetConcurrency? || step.AddNode?
    ensures Guarded(cfg, p, Do(cfg, s, step)) && NodesOk(Do(cfg, s, step).nodes)
  {
    var t := Do(cfg, s, step);
    if step.AddNode? { AddNodeGuarded(cfg, p, s, step.node, t); }
    else {
      assert SamePlan(p, Last(s));
      RepeatedBatch(cfg, p, s, t, Last(s).(spec := Last(s).spec.(concurrency := step.concurrency)));
    }
  }

  lemma StepGuarded(cfg: Config, p: Plan, s: State, step: Step)
    requires Safe(cfg, p, s) && Steady(cfg, p, s, step) && Timely(p, s, step) && LABEL_HOSTNAME !in p.spec.postCompleteLabels
    ensures Guarded(cfg, p, Do(cfg, s, step)) && NodesOk(Do(cfg, s, step).nodes)
  {
    if step.SyncStatus? { SyncGuarded(cfg, p, s, step); }
    else if step.Generate? { GenerateGuarded(cfg, p, s, step.base, step.selected); }
    else if step.ActOnJob? { ActGuarded(cfg, p, s, step.key, step.lag, step.nodeWrites); }
    else if step.SetConcurrency? || step.AddNode? { OutsideStepGuarded(cfg, p, s, step); }
    else if step.BeginJob? || step.CompleteJob? || step.FailJob? || step.Tick? { EnvironmentStepGuarded(cfg, p, s, step); }
    else if step.WriteStatus? { WriteStepGuarded(cfg, p, s); }
    else { WorkerStepGuarded(cfg, p, s, step); }
  }

  lemma StepSafe(cfg: Config, p: Plan, s: State, step: Step)
    requires Safe(cfg, p, s) && Steady(cfg, p, s, step) && Timely(p, s, step) && LABEL_HOSTNAME !in p.spec.postCompleteLabels
    ensures Safe(cfg, p, Do(cfg, s, step))
  {
    StepGuarded(cfg, p, s, step);
    StepKeeps(cfg, s, step, 0);
  }

  /** One plan, spec and hash; every other step of anybody is allowed. */
  ghost predicate SteadyNext(cfg: Config, p: Plan, s: State, t: State) {
    exists step :: Steady(cfg, p, s, step) && Timely(p, s, step) && t == Do(cfg, s, step)
  }

  ghost function SteadyStep(cfg: Config, p: Plan): (State, State) -> bool { (s, t) => SteadyNext(cfg, p, s, t) }

  lemma SteadyNextSafe(cfg: Config, p: Plan, s: State, t: State)
    requires Safe(cfg, p, s) && SteadyNext(cfg, p, s, t) && LABEL_HOSTNAME !in p.spec.postCompleteLabels
    ensures Safe(cfg, p, t)
  {
    var step :| Steady(cfg, p, s, step) && Timely(p, s, step) && t == Do(cfg, s, step);
    StepSafe(cfg, p, s, step);
  }

  /** A controller starts on the plan `p` as persisted, with no job of its hash yet. */
  ghost predicate Start(cfg: Config, p: Plan, s: State) {
    && Init(s) && s.versions == [p]
    && forall k :: k in s.jobs ==> Leftover(p, k, s.jobs[k])
  }

  ghost predicate IsRollout(cfg: Config, p: Plan, run: seq<State>) {
    Follows(run, SteadyStep(cfg, p)) && Start(cfg, p, run[0]) && LABEL_HOSTNAME !in p.spec.postCompleteLabels
  }

  lemma RolloutSafe(cfg: Config, p: Plan, run: seq<State>, j: nat)
    requires IsRollout(cfg, p, run) && j < |run|
    ensures Safe(cfg, p, run[j])
  {
    var inv := (s: State) => Safe(cfg, p, s);
    forall s, t | inv(s) && SteadyStep(cfg, p)(s, t) ensures inv(t) { SteadyNextSafe(cfg, p, s, t); }
    HoldsThroughout(run, SteadyStep(cfg, p), inv, j);
  }

  /** A rollout is in particular a run under arbitrary edits, so all that is known of those applies. */
  lemma RolloutIsCleanRun(cfg: Config, p: Plan, run: seq<State>)
    requires IsRollout(cfg, p, run)
    ensures IsCleanRun(cfg, run)
  {
    forall i | 0 <= i < |run| - 1 ensures Linked(run, i, AnyStep(cfg)) {
      assert Linked(run, i, SteadyStep(cfg, p));
      RolloutSafe(cfg, p, run, i + 1);
      SteadyIsNext(cfg, p, run[i], run[i + 1]);
    }
  }

  lemma SteadyIsNext(cfg: Config, p: Plan, s: State, t: State)
    requires SteadyNext(cfg, p, s, t)
    ensures Next(cfg, s, t)
  {
    var step :| Steady(cfg, p, s, step) && Timely(p, s, step) && t == Do(cfg, s, step);
    assert Enabled(cfg, s, step);
  }

  /** The nodes on which a job of this hash is unpaused and unfinished. */
  ghost function RunningNodes(p: Plan, s: State): set<Node> {
    set k | k in s.jobs && k.hash == p.status.latestHash && Running(s.jobs[k]) && k.node in s.nodes :: s.nodes[k.node]
  }

  lemma RunningWithinBatch(cfg: Config, p: Plan, s: State)
    requires Safe(cfg, p, s)
    ensures forall k :: k in s.jobs && k.hash == p.status.latestHash && Running(s.jobs[k])
                        ==> k.node in s.nodes && Hostname(s.nodes[k.node]) in ApplyingNow(s)
    ensures |RunningNodes(p, s)| <= |ApplyingNow(s)|
  {
    HostsCount(s.nodes, RunningNodes(p, s), Elements(ApplyingNow(s)));
    ElementsAtMost(ApplyingNow(s));
  }

  /**
   * Concurrency safety. In every state of every rollout, every unfinished unpaused job
   * of the hash runs on a host of the persisted batch, the batch names each host once,
   * and neither the batch nor the number of busy nodes exceeds the largest limit so far.
   */
  lemma ConcurrencySafety(cfg: Config, p: Plan, run: seq<State>, j: nat, cap: int)
    requires IsRollout(cfg, p, run) && j < |run| && Capped(run[j], cap)
    ensures forall k :: k in run[j].jobs && k.hash == p.status.latestHash && Running(run[j].jobs[k])
                        ==> k.node in run[j].nodes && Hostname(run[j].nodes[k.node]) in ApplyingNow(run[j])
    ensures NoDuplicates(ApplyingNow(run[j])) && |ApplyingNow(run[j])| <= cap
    ensures |RunningNodes(p, run[j])| <= cap
  {
    RolloutSafe(cfg, p, run, j);
    RunningWithinBatch(cfg, p, run[j]);
    RolloutIsCleanRun(cfg, p, run);
    BatchBound(cfg, run, j, cap);
  }

  /** Every running job belongs to a batch that was opened by a status computed inside the time window. */
  lemma RunningJobsStartedInWindow(cfg: Config, p: Plan, run: seq<State>, j: nat, k: JobKey) returns (i: nat)
    requires IsRollout(cfg, p, run) && j < |run| && !BatchOpen(run[0])
    requires k in run[j].jobs && k.hash == p.status.latestHash && Running(run[j].jobs[k])
    ensures i < j && OpensBatch(run[i], run[i + 1]) && forall m :: i < m <= j ==> BatchOpen(run[m])
  {
    RolloutSafe(cfg, p, run, j);
    RolloutIsCleanRun(cfg, p, run);
    assert BatchOpen(run[j]);
    i := BatchOpenedInWindow(cfg, run, j);
  }
}
