/** Where a node's plan label comes from, and when its slot may go to another node. */
module Provenance {
  import opened Types
  import opened Labels
  import opened Text
  import opened Sequences
  import opened Conditions
  import opened Allocator
  import opened Jobs
  import opened Handlers
  import opened Rollout
  import opened Batch
  import opened Completion
  import opened Safety
  import opened Slots

  // ----- labels under arbitrary edits -----

  /** If the job has completed, its finish time is on record. */
  ghost predicate Logged(s: State, k: JobKey) {
    k in s.jobs && s.jobs[k].status.Complete? ==>
      k in s.completions && s.jobs[k].status.at == Some(s.completions[k]) && s.completions[k] <= s.clock
  }

  /** Jobs, copies of jobs and jobs about to be applied carry the labels of their names, and a completed copy is current. */
  ghost predicate Traceable(name: string, s: State) {
    && (forall i :: 0 <= i < |s.versions| ==> s.versions[i].name == name)
    && (forall k :: k in s.jobs ==> OwnLabels(name, k, s.jobs[k]))
    && (forall k :: k in s.held ==> OwnLabels(name, k, s.held[k].job))
    && (forall k :: k in s.held && s.held[k].job.status.Complete? ==> k in s.jobs && s.jobs[k].status == s.held[k].job.status)
    && (s.worker.Applying? ==> forall i :: 0 <= i < |s.worker.jobs| ==> Fresh(name, s.worker.jobs[i]))
  }

  ghost predicate Fresh(name: string, j: Job) { OwnLabels(name, j.key, j) && j.status.Active? }

  lemma GeneratedFresh(cfg: Config, p: Plan, selected: Result<seq<Node>>, now: int, i: nat)
    ensures var g := GeneratingHandler(cfg, p, selected, now); g.Ok? && i < |g.value.jobs| ==> Fresh(p.name, g.value.jobs[i])
  {
    GeneratedShape(cfg, p, selected, now);
    if selected.Ok? && i < |selected.value| { NewJobIdentity(cfg, p, selected.value[i]); }
  }

  /** A step that adds no job, copy or waiting job of its own making. */
  ghost predicate Inherits(s: State, t: State) {
    && (forall k :: k in t.jobs ==> k in s.jobs && t.jobs[k] == s.jobs[k])
    && (forall k :: k in t.held ==> (k in s.held && t.held[k] == s.held[k]) || (k in t.jobs && t.held[k].job == t.jobs[k]))
    && (forall k :: k in t.held && k in s.jobs ==> k in t.jobs)
    && (t.worker.Applying? ==> t.worker == s.worker)
  }

  lemma InheritedTraceable(name: string, s: State, t: State)
    requires Traceable(name, s) && Inherits(s, t)
    requires forall i :: 0 <= i < |t.versions| ==> t.versions[i].name == name
    ensures Traceable(name, t)
  {
  }

  /** Every new version keeps the plan's name. */
  lemma NamesStay(cfg: Config, name: string, s: State, step: Step)
    requires Enabled(cfg, s, step) && forall i :: 0 <= i < |s.versions| ==> s.versions[i].name == name
    ensures forall i :: 0 <= i < |Do(cfg, s, step).versions| ==> Do(cfg, s, step).versions[i].name == name
  {
    assert Last(s).name == name;
  }

  lemma StartInherits(cfg: Config, name: string, s: State, base: nat, selected: Result<seq<Node>>)
    requires Traceable(name, s) && base < |s.versions| && s.worker.Idle?
    ensures Traceable(name, Started(cfg, s, base, selected))
  {
    var t := Started(cfg, s, base, selected);
    if t.worker.Applying? {
      forall i | 0 <= i < |t.worker.jobs| ensures Fresh(name, t.worker.jobs[i]) {
        GeneratedFresh(cfg, s.versions[base], selected, s.clock, i);
      }
    }
  }

  lemma ApplyTraceable(name: string, s: State, i: nat, t: State)
    requires Traceable(name, s) && s.worker.Applying? && i < |s.worker.jobs|
    requires t == s.(jobs := Upsert(s.jobs, s.worker.jobs[i]), worker := s.worker.(done := s.worker.done + {i}))
    ensures Traceable(name, t)
  {
    assert Fresh(name, s.worker.jobs[i]);
  }

  lemma StepTraceable(cfg: Config, name: string, s: State, step: Step)
    requires Traceable(name, s) && Enabled(cfg, s, step)
    ensures Traceable(name, Do(cfg, s, step))
  {
    if step.Generate? { StartInherits(cfg, name, s, step.base, step.selected); }
    else if step.ApplyOne? { ApplyTraceable(name, s, step.index, Do(cfg, s, step)); }
    else if step.CompleteJob? || step.FailJob? {}
    else {
      NamesStay(cfg, name, s, step);
      StepInherits(cfg, s, step);
      InheritedTraceable(name, s, Do(cfg, s, step));
    }
  }

  lemma StepInherits(cfg: Config, s: State, step: Step)
    requires Enabled(cfg, s, step) && !step.Generate? && !step.ApplyOne? && !step.CompleteJob? && !step.FailJob?
    ensures Inherits(s, Do(cfg, s, step)) && Do(cfg, s, step).completions == s.completions
    ensures s.clock <= Do(cfg, s, step).clock
  {
  }

  lemma StepLogged(cfg: Config, name: string, s: State, step: Step, k: JobKey)
    requires Traceable(name, s) && Enabled(cfg, s, step) && Logged(s, k)
    ensures Logged(Do(cfg, s, step), k) && s.clock <= Do(cfg, s, step).clock
  {
    if step.ApplyOne? { assert Fresh(name, s.worker.jobs[step.index]); }
    else if !step.Generate? && !step.CompleteJob? && !step.FailJob? { StepInherits(cfg, s, step); }
  }

  /** Only the job handler, new nodes and edits touch the nodes. */
  lemma NodesOnlyBy(cfg: Config, s: State, step: Step, n: string)
    requires Enabled(cfg, s, step) && !step.ActOnJob? && !step.EditNodes? && n in s.nodes
    ensures n in Do(cfg, s, step).nodes && Do(cfg, s, step).nodes[n] == s.nodes[n]
  {
  }

  /** The handler call for `key` labels node `n`: the job had completed there the delay of the plan it read before. */
  ghost predicate LabelsBy(s: State, key: JobKey, n: string, m: Node) {
    && key in s.held && s.held[key].version < |s.versions| && key.node == n
    && var v, j := s.versions[s.held[key].version], s.held[key].job;
       && PlanLabel(v, m) == Some(key.hash)
       && j.status.Complete? && key in s.completions && j.status.at == Some(s.completions[key])
       && s.completions[key] + DelayOf(v.spec) <= s.clock
  }

  /** The outcome writes only the job's node, and changes labels only to carry the job's hash after the delay. */
  ghost predicate LabelsOwn(s: State, key: JobKey, o: Outcome) {
    o.node.Some? ==>
      && key.node in s.nodes && o.node.value.name == s.nodes[key.node].name
      && (o.node.value.labels != s.nodes[key.node].labels ==> LabelsBy(s, key, key.node, o.node.value))
  }

  lemma WrittenOwn(cfg: Config, s: State, key: JobKey, nodeWrites: bool, o: Outcome)
    requires Logged(s, key) && key in s.held && s.held[key].version < |s.versions|
    requires s.held[key].job.status.Complete? ==> key in s.jobs && s.jobs[key].status == s.held[key].job.status
    requires WritesNode(cfg, s.versions[s.held[key].version], key, s.held[key].job, s.nodes, s.clock, nodeWrites, o)
    ensures LabelsOwn(s, key, o)
  {
    if o.node.Some? { PlanLabelIsJobHash(cfg, s.versions[s.held[key].version], s.nodes[key.node].labels, key.hash); }
  }

  lemma OutcomeLabels(cfg: Config, name: string, s: State, key: JobKey, lag: int, nodeWrites: bool)
    requires Traceable(name, s) && Logged(s, key) && key in s.held && s.held[key].version < |s.versions|
    ensures LabelsOwn(s, key, JobOutcome(cfg, s, key, lag, nodeWrites))
  {
    ActWrites(cfg, s, key, lag, nodeWrites);
    WrittenOwn(cfg, s, key, nodeWrites, JobOutcome(cfg, s, key, lag, nodeWrites));
  }

  lemma ActLabels(cfg: Config, name: string, s: State, key: JobKey, lag: int, nodeWrites: bool, n: string)
    requires Traceable(name, s) && NodesOk(s.nodes) && n in s.nodes && Logged(s, key)
    requires key in s.held && s.held[key].version < |s.versions|
    ensures var t := ActedOn(cfg, s, key, lag, nodeWrites);
            n in t.nodes && (t.nodes[n].labels != s.nodes[n].labels ==> LabelsBy(s, key, n, t.nodes[n]))
  {
    OutcomeLabels(cfg, name, s, key, lag, nodeWrites);
  }

  lemma StepLabels(cfg: Config, name: string, s: State, step: Step, n: string)
    requires Traceable(name, s) && NodesOk(s.nodes) && Enabled(cfg, s, step) && !step.EditNodes? && n in s.nodes
    requires step.ActOnJob? ==> Logged(s, step.key)
    ensures var t := Do(cfg, s, step);
            n in t.nodes && (t.nodes[n].labels != s.nodes[n].labels ==> step.ActOnJob? && LabelsBy(s, step.key, n, t.nodes[n]))
  {
    if step.ActOnJob? { ActLabels(cfg, name, s, step.key, step.lag, step.nodeWrites, n); }
    else { NodesOnlyBy(cfg, s, step, n); }
  }

  ghost predicate AllLogged(name: string, s: State) { Traceable(name, s) && forall k :: Logged(s, k) }

  lemma RunLogged(cfg: Config, name: string, run: seq<State>, j: nat)
    requires IsCleanRun(cfg, run) && AllLogged(name, run[0]) && j < |run|
    ensures AllLogged(name, run[j])
  {
    var inv := (s: State) => AllLogged(name, s);
    forall s, t | inv(s) && AnyStep(cfg)(s, t) ensures inv(t) {
      var step :| Enabled(cfg, s, step) && t == Do(cfg, s, step);
      StepTraceable(cfg, name, s, step);
      forall k ensures Logged(t, k) { StepLogged(cfg, name, s, step, k); }
    }
    HoldsThroughout(run, AnyStep(cfg), inv, j);
  }

  /**
   * Label provenance. In any run, whatever is edited, the controller changes a node's labels only in
   * a handler call for a job named by that node, to carry the hash in the job's name, and only
   * when that job completed at least the delay of the plan earlier.
   */
  lemma LabelProvenance(cfg: Config, name: string, run: seq<State>, i: nat, step: Step, n: string)
    requires IsCleanRun(cfg, run) && AllLogged(name, run[0]) && i + 1 < |run|
    requires Enabled(cfg, run[i], step) && run[i + 1] == Do(cfg, run[i], step)
    requires n in run[i].nodes && n in run[i + 1].nodes && run[i + 1].nodes[n].labels != run[i].nodes[n].labels
    ensures step.EditNodes? || (step.ActOnJob? && LabelsBy(run[i], step.key, n, run[i + 1].nodes[n]))
  {
    RunLogged(cfg, name, run, i);
    RunConsistent(cfg, run, i);
    if !step.EditNodes? { StepLabels(cfg, name, run[i], step, n); }
  }

  // ----- when a slot changes hands -----

  /** The node's own job completed at least the delay ago. */
  ghost predicate WaitedOut(p: Plan, s: State, n: string) {
    OwnKey(p, n) in s.completions && s.completions[OwnKey(p, n)] + DelayOf(p.spec) <= s.clock
  }

  ghost predicate Done(p: Plan, s: State, n: string) {
    n in s.nodes && PlanLabel(p, s.nodes[n]) == Some(p.status.latestHash) && WaitedOut(p, s, n)
  }

  /** The node has its hostname, and is still to be done, or done with its delay waited out. */
  ghost predicate EarnedBy(p: Plan, host: string, s: State, n: string) {
    n in s.nodes && Hostname(s.nodes[n]) == host && (StillEligible(p, s.nodes, n) || Done(p, s, n))
  }

  lemma SafeTraceable(cfg: Config, p: Plan, s: State)
    requires Safe(cfg, p, s)
    ensures Traceable(p.name, s)
  {
    forall k | k in s.jobs ensures OwnLabels(p.name, k, s.jobs[k]) { KnownHasOwnLabels(cfg, p, k, s.jobs[k]); }
    forall k | k in s.held ensures OwnLabels(p.name, k, s.held[k].job) { KnownHasOwnLabels(cfg, p, k, s.held[k].job); }
    if s.worker.Applying? {
      forall i | 0 <= i < |s.worker.jobs| ensures Fresh(p.name, s.worker.jobs[i]) { assert ObjectOk(cfg, p, s, s.worker.jobs[i]); }
    }
    forall i | 0 <= i < |s.versions| ensures s.versions[i].name == p.name { assert SamePlan(p, s.versions[i]); }
  }

  /** What a call writes to a node to be done or done: it is still to be done, or finished by its own job. */
  lemma WriteEarns(cfg: Config, p: Plan, s: State, key: JobKey, n: string, m: Node)
    requires NodeWriteOk(cfg, p, s, key, m) && key.node == n && (StillEligible(p, s.nodes, n) || Done(p, s, n))
    requires SamePlan(p, s.versions[s.held[key].version])
    requires key.hash == p.status.latestHash && m.labels != s.nodes[n].labels ==> LabelsBy(s, key, n, m)
    ensures Eligible(p, m) || (PlanLabel(p, m) == Some(p.status.latestHash) && WaitedOut(p, s, n))
  {
    if m.labels == s.nodes[n].labels { EligibleByLabels(p, m, s.nodes[n]); }
    else if key.hash == p.status.latestHash { assert key == OwnKey(p, n); }
  }

  /** The outcome of a call leaves a node to be done or done so. */
  ghost predicate Earns(p: Plan, s: State, key: JobKey, o: Outcome, n: string) {
    o.node.Some? ==>
      && o.node.value.name == key.node
      && (key.node == n ==>
            && n in s.nodes && Hostname(o.node.value) == Hostname(s.nodes[n])
            && (Eligible(p, o.node.value) || (PlanLabel(p, o.node.value) == Some(p.status.latestHash) && WaitedOut(p, s, n))))
  }

  lemma OutcomeEarns(cfg: Config, p: Plan, s: State, key: JobKey, lag: int, nodeWrites: bool, n: string)
    requires Safe(cfg, p, s) && key in s.held && OldJobsSettled(cfg, p, s, ActOnJob(key, lag, nodeWrites))
    requires n in s.nodes && Logged(s, OwnKey(p, n)) && LABEL_HOSTNAME !in p.spec.postCompleteLabels
    requires StillEligible(p, s.nodes, n) || Done(p, s, n)
    ensures Earns(p, s, key, JobOutcome(cfg, s, key, lag, nodeWrites), n)
  {
    assert SamePlan(p, s.versions[s.held[key].version]);
    ActFacts(cfg, p, s, key, lag, nodeWrites);
    if key == OwnKey(p, n) {
      SafeTraceable(cfg, p, s);
      OutcomeLabels(cfg, p.name, s, key, lag, nodeWrites);
    }
    var o := JobOutcome(cfg, s, key, lag, nodeWrites);
    if o.node.Some? && key.node == n { WriteEarns(cfg, p, s, key, n, o.node.value); }
  }

  lemma EarnedAfterOutcome(p: Plan, host: string, s: State, key: JobKey, lag: nat, o: Outcome, n: string)
    requires EarnedBy(p, host, s, n) && Earns(p, s, key, o, n) && key in s.held && s.held[key].version < |s.versions|
    ensures EarnedBy(p, host, AfterOutcome(s, key, lag, o), n)
  {
    assert WaitedOut(p, s, n) ==> WaitedOut(p, AfterOutcome(s, key, lag, o), n);
  }

  lemma CompletionsSettle(cfg: Config, p: Plan, s: State, step: Step, n: string)
    requires RunningListed(p, s) && Enabled(cfg, s, step) && !StillEligible(p, s.nodes, n) && WaitedOut(p, s, n)
    ensures WaitedOut(p, Do(cfg, s, step), n)
  {
    if step.CompleteJob? { assert step.key == OwnKey(p, n) ==> Running(s.jobs[step.key]); }
    else if !step.Generate? && !step.ApplyOne? && !step.FailJob? { StepInherits(cfg, s, step); }
  }

  lemma EarnedStep(cfg: Config, p: Plan, host: string, s: State, step: Step, n: string)
    requires Safe(cfg, p, s) && Logged(s, OwnKey(p, n)) && EarnedBy(p, host, s, n) && Steady(cfg, p, s, step)
    requires LABEL_HOSTNAME !in p.spec.postCompleteLabels
    ensures EarnedBy(p, host, Do(cfg, s, step), n)
  {
    if step.ActOnJob? {
      OutcomeEarns(cfg, p, s, step.key, step.lag, step.nodeWrites, n);
      EarnedAfterOutcome(p, host, s, step.key, step.lag, JobOutcome(cfg, s, step.key, step.lag, step.nodeWrites), n);
    } else {
      NodesOnlyBy(cfg, s, step, n);
      if !StillEligible(p, s.nodes, n) { CompletionsSettle(cfg, p, s, step, n); }
    }
  }

  ghost predicate Accounted(cfg: Config, p: Plan, host: string, n: string, s: State) {
    Safe(cfg, p, s) && Logged(s, OwnKey(p, n)) && EarnedBy(p, host, s, n)
  }

  lemma AccountedNext(cfg: Config, p: Plan, host: string, n: string, s: State, t: State)
    requires Accounted(cfg, p, host, n, s) && SteadyNext(cfg, p, s, t) && LABEL_HOSTNAME !in p.spec.postCompleteLabels
    ensures Accounted(cfg, p, host, n, t)
  {
    var step :| Steady(cfg, p, s, step) && Timely(p, s, step) && t == Do(cfg, s, step);
    StepSafe(cfg, p, s, step);
    SafeTraceable(cfg, p, s);
    StepLogged(cfg, p.name, s, step, OwnKey(p, n));
    EarnedStep(cfg, p, host, s, step, n);
  }

  ghost predicate LoggedSafe(cfg: Config, p: Plan, n: string, s: State) { Safe(cfg, p, s) && Logged(s, OwnKey(p, n)) }

  lemma LoggedNext(cfg: Config, p: Plan, n: string, s: State, t: State)
    requires LoggedSafe(cfg, p, n, s) && SteadyNext(cfg, p, s, t) && LABEL_HOSTNAME !in p.spec.postCompleteLabels
    ensures LoggedSafe(cfg, p, n, t)
  {
    var step :| Steady(cfg, p, s, step) && Timely(p, s, step) && t == Do(cfg, s, step);
    StepSafe(cfg, p, s, step);
    SafeTraceable(cfg, p, s);
    StepLogged(cfg, p.name, s, step, OwnKey(p, n));
  }

  lemma RolloutLogged(cfg: Config, p: Plan, run: seq<State>, j: nat, n: string)
    requires IsRollout(cfg, p, run) && j < |run|
    ensures LoggedSafe(cfg, p, n, run[j])
  {
    RolloutSafe(cfg, p, run, 0);
    var inv := (s: State) => LoggedSafe(cfg, p, n, s);
    forall s, t | inv(s) && SteadyStep(cfg, p)(s, t) ensures inv(t) { LoggedNext(cfg, p, n, s, t); }
    HoldsThroughout(run, SteadyStep(cfg, p), inv, j);
  }

  /** From any moment at which a node has the upgrade ahead of it, it is accounted for. */
  lemma RolloutAccounted(cfg: Config, p: Plan, run: seq<State>, m: nat, j: nat, n: string)
    requires IsRollout(cfg, p, run) && m <= j < |run| && StillEligible(p, run[m].nodes, n)
    ensures Accounted(cfg, p, Hostname(run[m].nodes[n]), n, run[j])
  {
    var host := Hostname(run[m].nodes[n]);
    RolloutLogged(cfg, p, run, m, n);
    var inv := (s: State) => Accounted(cfg, p, host, n, s);
    forall s, t | inv(s) && SteadyStep(cfg, p)(s, t) ensures inv(t) { AccountedNext(cfg, p, host, n, s, t); }
    HoldsFrom(run, SteadyStep(cfg, p), inv, m, j);
  }

  /**
   * A slot changes hands only after the delay: when a node that had the upgrade ahead of
   * it at some moment of the rollout later leaves the batch, it carries the hash, its own
   * job completed, and the delay since then has passed.
   */
  lemma SlotFreedAfterDelay(cfg: Config, p: Plan, run: seq<State>, m: nat, i: nat, n: string)
    requires IsRollout(cfg, p, run) && m <= i && i + 1 < |run| && StillEligible(p, run[m].nodes, n)
    requires |run[i].versions| > 0 && Hostname(run[m].nodes[n]) in ApplyingNow(run[i])
    requires |run[i + 1].versions| > 0 && Hostname(run[m].nodes[n]) !in ApplyingNow(run[i + 1])
    ensures Done(p, run[i + 1], n)
  {
    RolloutAccounted(cfg, p, run, m, i + 1, n);
    RolloutIsCleanRun(cfg, p, run);
    RunEffect(cfg, run, i);
    var s, t := run[i], run[i + 1];
    assert Last(s) == t.versions[|s.versions| - 1];
    assert Hostname(t.nodes[n]) in t.versions[|s.versions| - 1].status.applying;
  }
}
