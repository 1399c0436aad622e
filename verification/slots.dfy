/**
 * No lost slot: once the current version of a ready plan has been applied, every listed node that is
 * still to be done has a job that runs, has finished, or has failed before, even though
 * versions are applied only once and the job handler deletes jobs it thinks out of turn.
 */
module Slots {
  import opened Types
  import opened Labels
  import opened Text
  import opened Sequences
  import opened Conditions
  import opened Allocator
  import opened Jobs
  import opened Handlers
  import opened Rollout
  import opened Batch
  import opened Completion
  import opened Safety

  /** `Applying` holds hostnames but the job handler looks node names up in it. */
  ghost predicate NamedByHost(nodes: map<string, Node>) { forall n :: n in nodes ==> Hostname(nodes[n]) == n }

  ghost predicate DelayInRange(cfg: Config, p: Plan) {
    && IsInt32(cfg.defaultTtlSeconds) && IsInt32(cfg.int32Overflow)
    && 0 <= DelayOf(p.spec) && DelayOf(p.spec) + MINUTE < (INT32_MAX + 1) * SECOND
  }

  function OwnKey(p: Plan, n: string): JobKey { JobKey(n, p.status.latestHash) }

  /** The node's job runs, has finished, or has failed at some time. */
  ghost predicate Served(p: Plan, s: State, n: string) {
    var k := OwnKey(p, n);
    k in s.failures || (k in s.jobs && (s.jobs[k].parallelism > 0 || !s.jobs[k].status.Active?))
  }

  ghost predicate Waiting(p: Plan, s: State, n: string) {
    |s.versions| > 0 && StillEligible(p, s.nodes, n) && n in ApplyingNow(s)
  }

  ghost predicate NoLostSlot(p: Plan, s: State) {
    |s.versions| > 0 && (s.seen == Some(|s.versions| - 1) && Ready(Last(s).status) ==> forall n :: Waiting(p, s, n) ==> Served(p, s, n))
  }

  // ----- the invariant -----

  ghost predicate SortedBatches(s: State) {
    && (forall i :: 0 <= i < |s.versions| ==> Ascending(s.versions[i].status.applying))
    && (!s.worker.Idle? ==> Ascending(s.worker.status.applying))
  }

  ghost predicate Progressing(s: State) {
    && s.floor < |s.versions|
    && (s.seen.Some? ==> s.seen.value <= s.floor)
    && (!s.worker.Idle? ==> s.worker.base == s.floor)
  }

  ghost predicate Recorded(s: State) {
    forall k :: k in s.jobs ==>
      && (s.jobs[k].status.Failed? ==> k in s.failures && s.jobs[k].status.at.Some?)
      && (s.jobs[k].status.Complete? ==> s.jobs[k].status.at.Some? && s.jobs[k].status.at.value <= s.clock)
  }

  ghost predicate HeldRecorded(s: State) {
    forall k :: k in s.held && s.held[k].job.status.Failed? ==> k in s.failures
  }

  ghost predicate HasJobFor(jobs: seq<Job>, n: string) { exists i :: 0 <= i < |jobs| && jobs[i].key.node == n }

  /** While the current version is being applied: every waiting node has its job on the list, and done means served. */
  ghost predicate Covering(p: Plan, s: State) {
    s.worker.Applying? && s.worker.base + 1 == |s.versions| && Ready(Last(s).status) ==>
      && (forall n :: Waiting(p, s, n) ==> HasJobFor(s.worker.jobs, n))
      && (forall i :: 0 <= i < |s.worker.jobs| && s.worker.jobs[i].key.node in ApplyingNow(s) ==> s.worker.jobs[i].parallelism > 0)
      && (forall i :: 0 <= i < |s.worker.jobs| && i in s.worker.done && Waiting(p, s, s.worker.jobs[i].key.node)
                      ==> Served(p, s, s.worker.jobs[i].key.node))
  }

  ghost predicate Tended(cfg: Config, p: Plan, s: State) {
    && NamedByHost(s.nodes) && SortedBatches(s) && Progressing(s) && Recorded(s) && HeldRecorded(s) && Covering(p, s) && NoLostSlot(p, s)
  }

  /**
   * Versions are not handled in reverse, added nodes are named by their hostname, and an
   * out-of-turn check that finds the job unfinished is made on a version that
   * already lists the node, if the current one does.
   */
  ghost predicate Orderly(s: State, step: Step) {
    && (step.Generate? ==> s.floor <= step.base)
    && (step.AddNode? ==> Hostname(step.node) == step.node.name)
    && (step.ActOnJob? && step.key in s.held && s.held[step.key].version < |s.versions| && |s.versions| > 0 ==>
          s.held[step.key].job.status.Active? && step.key.node in ApplyingNow(s)
          ==> step.key.node in s.versions[s.held[step.key].version].status.applying)
  }

  // ----- what can be carried along -----

  /** Jobs and failures of this hash only get better for the nodes still waiting. */
  ghost predicate ServiceKept(p: Plan, s: State, t: State) {
    forall n :: Waiting(p, t, n) && Served(p, s, n) ==> Served(p, t, n)
  }

  lemma CarryCovering(p: Plan, s: State, t: State)
    requires Covering(p, s) && NoLostSlot(p, s) && ServiceKept(p, s, t) && t.versions == s.versions
    requires forall n :: Waiting(p, t, n) ==> Waiting(p, s, n)
    requires t.worker.Applying? ==> s.worker == t.worker
    requires t.seen == s.seen || t.seen.None?
    ensures Covering(p, t) && NoLostSlot(p, t)
  {
  }

  /** After a new version nothing has been applied for it yet. */
  lemma NewVersionTended(p: Plan, s: State, t: State)
    requires Progressing(s) && |s.versions| > 0 && |t.versions| == |s.versions| + 1 && t.seen == s.seen && t.worker == s.worker && t.floor == s.floor
    ensures NoLostSlot(p, t) && Covering(p, t) && Progressing(t)
  {
  }

  lemma SelectedHostsAscend(nodes: map<string, Node>, r: seq<Node>)
    requires NodesOk(nodes) && NamedByHost(nodes) && Elements(r) <= nodes.Values && SortedBy(r, NameOf)
    ensures Ascending(Hostnames(r))
  {
    forall i, j | 0 <= i < j < |r| ensures Less(Hostnames(r)[i], Hostnames(r)[j]) {
      assert r[i] in Elements(r) && r[j] in Elements(r);
      var a :| a in nodes && nodes[a] == r[i];
      var b :| b in nodes && nodes[b] == r[j];
      assert Less(NameOf(r[i]), NameOf(r[j]));
    }
  }

  /** When hostnames are node names, every batch is strictly sorted. */
  lemma GeneratedAscends(cfg: Config, p: Plan, nodes: map<string, Node>, selected: Result<seq<Node>>, now: int)
    requires NodesOk(nodes) && NamedByHost(nodes) && Ascending(p.status.applying)
    requires selected.Ok? ==> Elements(selected.value) <= nodes.Values && SortedBy(selected.value, NameOf)
    ensures var g := GeneratingHandler(cfg, p, selected, now); g.Ok? ==> Ascending(g.value.status.applying)
  {
    if !Ready(p.status) { EarlyCalm(p, "NotReady", NotValidAndResolved, now); }
    else if selected.Ok? { SelectedHostsAscend(nodes, selected.value); }
  }

  // ----- generating -----

  lemma JobsForCover(cfg: Config, p: Plan, nodes: seq<Node>, n: Node)
    requires n in nodes
    ensures HasJobFor(JobsFor(cfg, p, nodes), n.name)
  {
    var i :| 0 <= i < |nodes| && nodes[i] == n;
    assert JobsFor(cfg, p, nodes)[i] == NewJob(cfg, p, n);
    assert JobsFor(cfg, p, nodes)[i].key.node == n.name;
  }

  lemma PlannedJobs(cfg: Config, p: Plan, nodes: seq<Node>, now: int)
    requires p.status.applying != [] && nodes != []
    ensures Planned(cfg, p, nodes, now).jobs == JobsFor(cfg, p, nodes)
  {
  }

  lemma GeneratedCovers(cfg: Config, p: Plan, selected: Result<seq<Node>>, now: int, n: Node)
    requires Ready(p.status) && Hostname(n) in p.status.applying && (selected.Ok? ==> n in selected.value)
    ensures var g := GeneratingHandler(cfg, p, selected, now); g.Ok? ==> HasJobFor(g.value.jobs, n.name)
  {
    if selected.Ok? {
      JobsForCover(cfg, p, selected.value, n);
      PlannedJobs(cfg, p, selected.value, now);
    }
  }

  lemma GeneratedUnpaused(cfg: Config, p: Plan, nodes: map<string, Node>, selected: Result<seq<Node>>, now: int, i: nat)
    requires NodesOk(nodes) && NamedByHost(nodes)
    requires selected.Ok? ==> Elements(selected.value) <= nodes.Values
    ensures var g := GeneratingHandler(cfg, p, selected, now);
            g.Ok? && i < |g.value.jobs| && g.value.jobs[i].key.node in p.status.applying ==> g.value.jobs[i].parallelism > 0
  {
    GeneratedShape(cfg, p, selected, now);
    if selected.Ok? && i < |selected.value| {
      var n := selected.value[i];
      assert n in Elements(selected.value);
      var a :| a in nodes && nodes[a] == n;
    }
  }

  lemma WaitingCovered(cfg: Config, p: Plan, s: State, selected: Result<seq<Node>>, n: string)
    requires Plans(p, s) && NodesOk(s.nodes) && NamedByHost(s.nodes) && Ready(Last(s).status) && Waiting(p, s, n)
    requires selected.Ok? ==> IsSelection(cfg, Last(s), s.nodes.Values, selected.value)
    ensures var g := GeneratingHandler(cfg, Last(s), selected, s.clock); g.Ok? ==> HasJobFor(g.value.jobs, n)
  {
    assert SamePlan(p, Last(s));
    EligibleAlike(p, Last(s), s.nodes[n]);
    if selected.Ok? { KeptIsSelected(cfg, Last(s), s.nodes.Values, selected.value, s.nodes[n]); }
    GeneratedCovers(cfg, Last(s), selected, s.clock, s.nodes[n]);
  }

  lemma GenerateCovering(cfg: Config, p: Plan, s: State, base: nat, selected: Result<seq<Node>>)
    requires Safe(cfg, p, s) && NamedByHost(s.nodes) && base < |s.versions|
    requires selected.Ok? ==> IsSelection(cfg, s.versions[base], s.nodes.Values, selected.value)
    requires s.worker.Idle?
    ensures Covering(p, Started(cfg, s, base, selected))
  {
    var v, t := s.versions[base], Started(cfg, s, base, selected);
    if t.worker.Applying? && base + 1 == |s.versions| && Ready(v.status) {
      forall n | Waiting(p, t, n) ensures HasJobFor(t.worker.jobs, n) {
        assert Waiting(p, s, n);
        WaitingCovered(cfg, p, s, selected, n);
      }
      forall i | 0 <= i < |t.worker.jobs| && t.worker.jobs[i].key.node in ApplyingNow(t) ensures t.worker.jobs[i].parallelism > 0 {
        GeneratedUnpaused(cfg, v, s.nodes, selected, s.clock, i);
      }
    }
  }

  /** Starting a pass leaves everything but the worker alone. */
  lemma StartTended(cfg: Config, p: Plan, s: State, base: nat, t: State)
    requires Tended(cfg, p, s) && s.floor <= base < |s.versions| && Covering(p, t)
    requires t == s || t == s.(floor := base, worker := t.worker)
    requires t != s ==> !t.worker.Idle? && t.worker.base == base && Ascending(t.worker.status.applying)
    ensures Tended(cfg, p, t)
  {
    assert forall n :: Waiting(p, t, n) <==> Waiting(p, s, n);
    assert forall n :: Served(p, t, n) <==> Served(p, s, n);
  }

  lemma StartAscends(cfg: Config, s: State, base: nat, selected: Result<seq<Node>>)
    requires NodesOk(s.nodes) && NamedByHost(s.nodes) && base < |s.versions| && Ascending(s.versions[base].status.applying)
    requires selected.Ok? ==> IsSelection(cfg, s.versions[base], s.nodes.Values, selected.value)
    ensures var t := Started(cfg, s, base, selected);
            && (t == s || t == s.(floor := base, worker := t.worker))
            && (t != s ==> !t.worker.Idle? && t.worker.base == base && Ascending(t.worker.status.applying))
  {
    GeneratedAscends(cfg, s.versions[base], s.nodes, selected, s.clock);
  }

  lemma GenerateTended(cfg: Config, p: Plan, s: State, base: nat, selected: Result<seq<Node>>)
    requires Safe(cfg, p, s) && Tended(cfg, p, s) && s.floor <= base < |s.versions| && s.worker.Idle?
    requires selected.Ok? ==> IsSelection(cfg, s.versions[base], s.nodes.Values, selected.value)
    ensures Tended(cfg, p, Started(cfg, s, base, selected))
  {
    GenerateCovering(cfg, p, s, base, selected);
    StartAscends(cfg, s, base, selected);
    StartTended(cfg, p, s, base, Started(cfg, s, base, selected));
  }

  // ----- applying -----

  lemma ApplyOneServes(p: Plan, s: State, i: nat, t: State)
    requires Covering(p, s) && NoLostSlot(p, s) && Progressing(s) && s.worker.Applying? && i < |s.worker.jobs|
    requires s.worker.jobs[i].key == OwnKey(p, s.worker.jobs[i].key.node)
    requires t == s.(jobs := Upsert(s.jobs, s.worker.jobs[i]), worker := s.worker.(done := s.worker.done + {i}))
    ensures Covering(p, t) && NoLostSlot(p, t)
  {
    assert forall n :: Waiting(p, t, n) <==> Waiting(p, s, n);
    if s.worker.base + 1 == |s.versions| && Ready(Last(s).status) {
      var m := s.worker.jobs[i].key.node;
      assert Waiting(p, s, m) ==> Served(p, t, m);
      assert forall n :: n != m && Served(p, s, n) ==> Served(p, t, n);
    }
  }

  lemma ApplyOneTended(cfg: Config, p: Plan, s: State, i: nat, t: State)
    requires Objects(cfg, p, s) && Tended(cfg, p, s) && s.worker.Applying? && i < |s.worker.jobs|
    requires t == s.(jobs := Upsert(s.jobs, s.worker.jobs[i]), worker := s.worker.(done := s.worker.done + {i}))
    ensures Tended(cfg, p, t)
  {
    assert ObjectOk(cfg, p, s, s.worker.jobs[i]);
    ApplyOneServes(p, s, i, t);
  }

  lemma ApplyDoneTended(cfg: Config, p: Plan, s: State, t: State)
    requires Tended(cfg, p, s) && s.worker.Applying? && forall i :: 0 <= i < |s.worker.jobs| ==> i in s.worker.done
    requires t == s.(seen := Some(s.worker.base), worker := Writing(s.worker.base, s.worker.at, s.worker.status))
    ensures Tended(cfg, p, t)
  {
    if s.worker.base + 1 == |s.versions| && Ready(Last(s).status) {
      forall n | Waiting(p, t, n) ensures Served(p, t, n) {
        assert Waiting(p, s, n) && HasJobFor(s.worker.jobs, n);
        var i :| 0 <= i < |s.worker.jobs| && s.worker.jobs[i].key.node == n;
        assert Served(p, s, n);
      }
    }
  }

  // ----- the job handler -----

  /** When a handler call deletes a job of this hash, its node is gone, is done, was not listed, or the job failed. */
  lemma OwnJobDeleted(cfg: Config, p: Plan, v: Plan, key: JobKey, job: Job, nodes: map<string, Node>, d: int, lag: int, pw: bool, nw: bool)
    requires SamePlan(p, v) && Identified(cfg, p, key, job) && DelayInRange(cfg, p) && LABEL_HOSTNAME !in p.spec.postCompleteLabels
    requires 0 <= lag <= 59 * SECOND
    requires job.status.Complete? ==> job.status.at.Some? && job.status.at.value <= d
    ensures var o := HandleJob(cfg, job, map[v.name := v], nodes, d, d + lag, pw, nw);
            o.deletes ==>
              || key.node !in nodes || job.status.Failed?
              || (job.status.Active? && !FoundBySearch(v.status.applying, key.node))
              || (job.status.Complete? && o.node.Some? && !Eligible(p, o.node.value))
  {
    if job.status.Complete? && key.node in nodes {
      if p.spec.postCompleteDelay.Some? { TtlOutlivesDelay(cfg, p.spec.postCompleteDelay.value); }
      CompletedNodeKeeps(cfg, p, v, nodes[key.node], d - job.status.at.value);
    }
  }

  /** A job of a node that stays to be done is not deleted, unless it has failed. */
  lemma SparedOutcome(cfg: Config, p: Plan, v: Plan, key: JobKey, job: Job, nodes: map<string, Node>, d: int, lag: int, pw: bool, nw: bool)
    requires SamePlan(p, v) && Identified(cfg, p, key, job) && DelayInRange(cfg, p) && LABEL_HOSTNAME !in p.spec.postCompleteLabels
    requires 0 <= lag <= 59 * SECOND && Ascending(v.status.applying) && key.node in nodes
    requires job.status.Complete? ==> job.status.at.Some? && job.status.at.value <= d
    requires job.status.Active? ==> key.node in v.status.applying
    ensures var o := HandleJob(cfg, job, map[v.name := v], nodes, d, d + lag, pw, nw);
            o.deletes ==> job.status.Failed? || (o.node.Some? && !Eligible(p, o.node.value))
  {
    OwnJobDeleted(cfg, p, v, key, job, nodes, d, lag, pw, nw);
    SearchDecidesMembership(v.status.applying, key.node);
  }

  /** What a deletion by a handler call implies for a node that is listed. */
  ghost predicate Spares(p: Plan, s: State, key: JobKey, o: Outcome) {
    |s.versions| > 0 &&
    (o.deletes && key.hash == p.status.latestHash && key.node in s.nodes && key.node in ApplyingNow(s)
     ==> key in s.failures || (o.node.Some? && !Eligible(p, o.node.value)))
  }

  lemma ActSpares(cfg: Config, p: Plan, s: State, key: JobKey, lag: int, nodeWrites: bool)
    requires |s.versions| > 0 && key in s.held && s.held[key].version < |s.versions| && 0 <= lag <= 59 * SECOND
    requires DelayInRange(cfg, p) && LABEL_HOSTNAME !in p.spec.postCompleteLabels
    requires var r := s.held[key]; var v := s.versions[r.version];
             && SamePlan(p, v) && KnownJob(cfg, p, key, r.job) && Ascending(v.status.applying)
             && (r.job.status.Failed? ==> key in s.failures)
             && (r.job.status.Complete? ==> r.job.status.at.Some? && r.job.status.at.value <= s.clock)
             && (r.job.status.Active? && key.node in ApplyingNow(s) ==> key.node in v.status.applying)
    ensures Spares(p, s, key, JobOutcome(cfg, s, key, lag, nodeWrites))
  {
    var r := s.held[key];
    if key.hash == p.status.latestHash && key.node in s.nodes && key.node in ApplyingNow(s) {
      SparedOutcome(cfg, p, s.versions[r.version], key, r.job, s.nodes, s.clock, lag, r.version + 1 == |s.versions|, nodeWrites);
    }
  }

  /** Deleting one job leaves every other node's service, and that of a node whose job failed. */
  lemma DeleteKeepsService(p: Plan, s: State, t: State, key: JobKey)
    requires |s.versions| > 0 && t.failures == s.failures && (t.jobs == s.jobs || t.jobs == s.jobs - {key})
    requires t.jobs != s.jobs && key.hash == p.status.latestHash && StillEligible(p, t.nodes, key.node) && key.node in ApplyingNow(s)
             ==> key in s.failures
    ensures forall n :: StillEligible(p, t.nodes, n) && n in ApplyingNow(s) && Served(p, s, n) ==> Served(p, t, n)
  {
  }

  /** A deletion that spares listed nodes leaves their service. */
  lemma SparedServes(p: Plan, s: State, key: JobKey, lag: int, o: Outcome)
    requires key in s.held && s.held[key].version < |s.versions| && Spares(p, s, key, o)
    requires o.node.Some? ==> o.node.value.name == key.node && key.node in s.nodes
    ensures var t := AfterOutcome(s, key, lag, o);
            forall n :: StillEligible(p, t.nodes, n) && n in ApplyingNow(s) && Served(p, s, n) ==> Served(p, t, n)
  {
    DeleteKeepsService(p, s, AfterOutcome(s, key, lag, o), key);
  }

  lemma OutcomeShrinks(cfg: Config, p: Plan, s: State, key: JobKey, lag: int, o: Outcome)
    requires NamedByHost(s.nodes) && key in s.held && s.held[key].version < |s.versions|
    requires o.node.Some? ==> NodeWriteOk(cfg, p, s, key, o.node.value)
    ensures var t := AfterOutcome(s, key, lag, o);
            NamedByHost(t.nodes) && forall n :: StillEligible(p, t.nodes, n) ==> StillEligible(p, s.nodes, n)
  {
  }

  lemma OutcomeRecorded(s: State, key: JobKey, lag: nat, o: Outcome)
    requires Recorded(s) && HeldRecorded(s) && key in s.held && s.held[key].version < |s.versions|
    ensures var t := AfterOutcome(s, key, lag, o);
            Recorded(t) && HeldRecorded(t) && t.worker == s.worker && t.seen == s.seen && t.floor == s.floor
  {
  }

  lemma OutcomeTended(cfg: Config, p: Plan, s: State, key: JobKey, lag: nat, o: Outcome)
    requires Tended(cfg, p, s) && WritesFailure(s, key, o) && Spares(p, s, key, o)
    requires o.node.Some? ==> NodeWriteOk(cfg, p, s, key, o.node.value)
    ensures Tended(cfg, p, AfterOutcome(s, key, lag, o))
  {
    OutcomeRepeats(s, key, lag, o);
    SparedServes(p, s, key, lag, o);
    OutcomeShrinks(cfg, p, s, key, lag, o);
    OutcomeRecorded(s, key, lag, o);
    AfterAct(cfg, p, s, AfterOutcome(s, key, lag, o));
  }

  lemma HeldSpares(cfg: Config, p: Plan, s: State, key: JobKey, lag: int, nodeWrites: bool)
    requires Safe(cfg, p, s) && Tended(cfg, p, s) && DelayInRange(cfg, p) && LABEL_HOSTNAME !in p.spec.postCompleteLabels
    requires Enabled(cfg, s, ActOnJob(key, lag, nodeWrites)) && Orderly(s, ActOnJob(key, lag, nodeWrites))
    ensures Spares(p, s, key, JobOutcome(cfg, s, key, lag, nodeWrites))
  {
    assert SamePlan(p, s.versions[s.held[key].version]) && KnownJob(cfg, p, key, s.held[key].job);
    ActSpares(cfg, p, s, key, lag, nodeWrites);
  }

  lemma ActTended(cfg: Config, p: Plan, s: State, key: JobKey, lag: int, nodeWrites: bool)
    requires Safe(cfg, p, s) && Tended(cfg, p, s) && DelayInRange(cfg, p) && LABEL_HOSTNAME !in p.spec.postCompleteLabels
    requires Enabled(cfg, s, ActOnJob(key, lag, nodeWrites)) && Orderly(s, ActOnJob(key, lag, nodeWrites))
    requires OldJobsSettled(cfg, p, s, ActOnJob(key, lag, nodeWrites))
    ensures Tended(cfg, p, ActedOn(cfg, s, key, lag, nodeWrites))
  {
    ActFacts(cfg, p, s, key, lag, nodeWrites);
    HeldSpares(cfg, p, s, key, lag, nodeWrites);
    OutcomeTended(cfg, p, s, key, lag, JobOutcome(cfg, s, key, lag, nodeWrites));
  }

  lemma AfterAct(cfg: Config, p: Plan, s: State, t: State)
    requires Tended(cfg, p, s) && s.versions <= t.versions && |t.versions| <= |s.versions| + 1 && t.worker == s.worker
    requires t.seen == s.seen && t.floor == s.floor && Recorded(t) && HeldRecorded(t) && NamedByHost(t.nodes)
    requires |t.versions| > 0 && ApplyingNow(t) == ApplyingNow(s)
    requires forall n :: StillEligible(p, t.nodes, n) ==> StillEligible(p, s.nodes, n)
    requires forall n :: StillEligible(p, t.nodes, n) && n in ApplyingNow(s) && Served(p, s, n) ==> Served(p, t, n)
    ensures Tended(cfg, p, t)
  {
    if |t.versions| > |s.versions| { NewVersionTended(p, s, t); }
    else {
      assert t.versions == s.versions;
      CarryCovering(p, s, t);
    }
  }

  // ----- the remaining steps -----

  lemma RepeatTended(cfg: Config, p: Plan, s: State, t: State, v: Plan)
    requires Tended(cfg, p, s) && t == s.(versions := s.versions + [v]) && v.status.applying == ApplyingNow(s)
    ensures Tended(cfg, p, t)
  {
    NewVersionTended(p, s, t);
  }

  lemma WriteTended(cfg: Config, p: Plan, s: State, t: State)
    requires Tended(cfg, p, s) && s.worker.Writing?
    requires t == s.(worker := Idle) || t == s.(versions := s.versions + [Last(s).(status := s.worker.status)], worker := Idle)
    ensures Tended(cfg, p, t)
  {
    assert t.versions == s.versions ==> forall n :: Waiting(p, t, n) <==> Waiting(p, s, n);
  }

  lemma FinishTended(cfg: Config, p: Plan, s: State, key: JobKey, t: State)
    requires Tended(cfg, p, s) && key in s.jobs && s.jobs[key].status.Active?
    requires || t == s.(jobs := s.jobs[key := s.jobs[key].(status := Complete(Some(s.clock)))], completions := s.completions[key := s.clock])
             || t == s.(jobs := s.jobs[key := s.jobs[key].(status := Failed(Some(s.clock)))], failures := s.failures + {key})
    ensures Tended(cfg, p, t)
  {
    assert forall n :: Served(p, s, n) ==> Served(p, t, n);
    CarryCovering(p, s, t);
  }

  lemma AddNodeTended(cfg: Config, p: Plan, s: State, n: Node, t: State)
    requires Tended(cfg, p, s) && n.name !in s.nodes && t == s.(nodes := s.nodes[n.name := n]) && Hostname(n) == n.name
    requires forall i :: 0 <= i < |s.versions| ==> Hostname(n) !in s.versions[i].status.applying
    ensures Tended(cfg, p, t)
  {
    assert forall m :: Served(p, s, m) ==> Served(p, t, m);
    CarryCovering(p, s, t);
  }

  lemma QuietTended(cfg: Config, p: Plan, s: State, t: State)
    requires Tended(cfg, p, s) && t.versions == s.versions && t.nodes == s.nodes && t.jobs == s.jobs && t.failures == s.failures
    requires t.clock >= s.clock && (t.worker == s.worker || t.worker.Idle?)
    requires (t.seen == s.seen && t.floor == s.floor) || (t.seen.None? && t.floor == 0 && t.worker.Idle?)
    requires forall k :: k in t.held ==> (k in s.held && t.held[k] == s.held[k]) || (k in s.jobs && t.held[k].job == s.jobs[k])
    ensures Tended(cfg, p, t)
  {
    assert forall n :: Served(p, s, n) ==> Served(p, t, n);
    CarryCovering(p, s, t);
  }

  lemma WorkerStepTended(cfg: Config, p: Plan, s: State, step: Step)
    requires Objects(cfg, p, s) && Tended(cfg, p, s) && Enabled(cfg, s, step)
    requires step.ApplyOne? || step.ApplyDone? || step.WriteStatus?
    ensures Tended(cfg, p, Do(cfg, s, step))
  {
    var t := Do(cfg, s, step);
    if step.ApplyOne? { ApplyOneTended(cfg, p, s, step.index, t); }
    else if step.ApplyDone? { ApplyDoneTended(cfg, p, s, t); }
    else { WriteTended(cfg, p, s, t); }
  }

  lemma OtherStepTended(cfg: Config, p: Plan, s: State, step: Step)
    requires Tended(cfg, p, s) && Enabled(cfg, s, step) && Orderly(s, step)
    requires step.ApplyFails? || step.BeginJob? || step.CompleteJob? || step.FailJob? || step.Restart? || step.Tick?
             || step.SetConcurrency? || step.AddNode?
    ensures Tended(cfg, p, Do(cfg, s, step))
  {
    var t := Do(cfg, s, step);
    if step.CompleteJob? || step.FailJob? { FinishTended(cfg, p, s, step.key, t); }
    else if step.SetConcurrency? { RepeatTended(cfg, p, s, t, Last(s).(spec := Last(s).spec.(concurrency := step.concurrency))); }
    else if step.AddNode? { AddNodeTended(cfg, p, s, step.node, t); }
    else { QuietTended(cfg, p, s, t); }
  }

  lemma SyncTended(cfg: Config, p: Plan, s: State, step: Step)
    requires Tended(cfg, p, s) && step.SyncStatus? && Enabled(cfg, s, step)
    ensures Tended(cfg, p, Do(cfg, s, step))
  {
    var v := s.versions[step.base];
    StatusHandlerKeeps(cfg, v, step.secrets, step.poll, s.clock);
    var r := StatusHandler(cfg, v, step.secrets, step.poll, s.clock);
    if r.Ok? && r.value != v.status && step.base + 1 == |s.versions| {
      RepeatTended(cfg, p, s, Do(cfg, s, step), v.(status := r.value));
    }
  }

  lemma StepTended(cfg: Config, p: Plan, s: State, step: Step)
    requires Safe(cfg, p, s) && Tended(cfg, p, s) && Steady(cfg, p, s, step) && Orderly(s, step)
    requires DelayInRange(cfg, p) && LABEL_HOSTNAME !in p.spec.postCompleteLabels
    ensures Tended(cfg, p, Do(cfg, s, step))
  {
    if step.SyncStatus? { SyncTended(cfg, p, s, step); }
    else if step.Generate? { GenerateTended(cfg, p, s, step.base, step.selected); }
    else if step.ActOnJob? { ActTended(cfg, p, s, step.key, step.lag, step.nodeWrites); }
    else if step.ApplyOne? || step.ApplyDone? || step.WriteStatus? { WorkerStepTended(cfg, p, s, step); }
    else { OtherStepTended(cfg, p, s, step); }
  }

  // ----- whole runs -----

  ghost predicate OrderlyNext(cfg: Config, p: Plan, s: State, t: State) {
    exists step :: Steady(cfg, p, s, step) && Timely(p, s, step) && Orderly(s, step) && t == Do(cfg, s, step)
  }

  ghost function OrderlyStep(cfg: Config, p: Plan): (State, State) -> bool { (s, t) => OrderlyNext(cfg, p, s, t) }

  ghost predicate IsOrderlyRollout(cfg: Config, p: Plan, run: seq<State>) {
    && Follows(run, OrderlyStep(cfg, p)) && Start(cfg, p, run[0])
    && LABEL_HOSTNAME !in p.spec.postCompleteLabels && DelayInRange(cfg, p)
    && run[0].floor == 0 && NamedByHost(run[0].nodes) && Ascending(p.status.applying) && Recorded(run[0])
  }

  ghost predicate WellRun(cfg: Config, p: Plan, s: State) { Safe(cfg, p, s) && Tended(cfg, p, s) }

  lemma OrderlyNextKeeps(cfg: Config, p: Plan, s: State, t: State)
    requires WellRun(cfg, p, s) && OrderlyNext(cfg, p, s, t)
    requires LABEL_HOSTNAME !in p.spec.postCompleteLabels && DelayInRange(cfg, p)
    ensures WellRun(cfg, p, t)
  {
    var step :| Steady(cfg, p, s, step) && Timely(p, s, step) && Orderly(s, step) && t == Do(cfg, s, step);
    StepSafe(cfg, p, s, step);
    StepTended(cfg, p, s, step);
  }

  lemma OrderlyRolloutKeeps(cfg: Config, p: Plan, run: seq<State>, j: nat)
    requires IsOrderlyRollout(cfg, p, run) && j < |run|
    ensures WellRun(cfg, p, run[j])
  {
    var inv := (s: State) => WellRun(cfg, p, s);
    forall s, t | inv(s) && OrderlyStep(cfg, p)(s, t) ensures inv(t) { OrderlyNextKeeps(cfg, p, s, t); }
    HoldsThroughout(run, OrderlyStep(cfg, p), inv, j);
  }

  /** No slot of the current version is ever lost, in any orderly rollout. */
  lemma NoSlotLost(cfg: Config, p: Plan, run: seq<State>, j: nat)
    requires IsOrderlyRollout(cfg, p, run) && j < |run|
    ensures NoLostSlot(p, run[j])
  {
    OrderlyRolloutKeeps(cfg, p, run, j);
  }

  // ----- why the out-of-turn check must not use an older version -----

  /** A handler about to judge an unfinished job of a node that waits for it. */
  ghost predicate Judging(cfg: Config, p: Plan, s: State, n: string, lag: int) {
    && WellRun(cfg, p, s) && Waiting(p, s, n)
    && s.seen == Some(|s.versions| - 1) && Ready(Last(s).status)
    && OwnKey(p, n) in s.held && OwnKey(p, n) in s.jobs && OwnKey(p, n) !in s.failures
    && s.held[OwnKey(p, n)].job.status.Active? && 0 <= lag <= 59 * SECOND
  }

  lemma JudgedOutcome(cfg: Config, p: Plan, v: Plan, key: JobKey, job: Job, nodes: map<string, Node>, d: int, t: int, pw: bool, nw: bool)
    requires SamePlan(p, v) && Identified(cfg, p, key, job) && job.status.Active? && key.node in nodes
    ensures HandleJob(cfg, job, map[v.name := v], nodes, d, t, pw, nw)
            == Ignored.(wakesPlan := true, deletes := !FoundBySearch(v.status.applying, key.node))
  {
  }

  /** Forgetting the only service a waiting node has is exactly what loses the slot. */
  lemma SlotKeptIff(p: Plan, s: State, n: string, t: State, listed: bool)
    requires NoLostSlot(p, s) && Waiting(p, s, n) && s.seen == Some(|s.versions| - 1) && Ready(Last(s).status)
    requires OwnKey(p, n) !in s.failures
    requires t.versions == s.versions && t.nodes == s.nodes && t.seen == s.seen && t.failures == s.failures
    requires t.jobs == if listed then s.jobs else s.jobs - {OwnKey(p, n)}
    ensures NoLostSlot(p, t) <==> listed
  {
    assert forall m :: Waiting(p, t, m) <==> Waiting(p, s, m);
    if listed {
      assert forall m :: Served(p, t, m) <==> Served(p, s, m);
    } else {
      assert Waiting(p, t, n) && !Served(p, t, n);
    }
  }

  lemma JudgedState(cfg: Config, p: Plan, s: State, n: string, lag: int, nodeWrites: bool)
    requires Plans(p, s) && SortedBatches(s) && n in s.nodes && OwnKey(p, n) in s.held
    requires var r := s.held[OwnKey(p, n)];
             r.version < |s.versions| && Identified(cfg, p, OwnKey(p, n), r.job) && r.job.status.Active?
    ensures var k := OwnKey(p, n);
            ActedOn(cfg, s, k, lag, nodeWrites)
            == s.(jobs := if n in s.versions[s.held[k].version].status.applying then s.jobs else s.jobs - {k},
                  held := s.held - {k}, clock := s.clock + lag)
  {
    var k := OwnKey(p, n);
    var r := s.held[k];
    var v := s.versions[r.version];
    assert SamePlan(p, v);
    JudgedOutcome(cfg, p, v, k, r.job, s.nodes, s.clock, s.clock + lag, r.version + 1 == |s.versions|, nodeWrites);
    SearchDecidesMembership(v.status.applying, n);
  }

  /** The call keeps the slot exactly when the version it read lists the node: the guard of the deleting branch. */
  lemma StaleJudgementLosesSlot(cfg: Config, p: Plan, s: State, n: string, lag: int, nodeWrites: bool)
    requires Judging(cfg, p, s, n, lag)
    ensures var k := OwnKey(p, n);
            NoLostSlot(p, ActedOn(cfg, s, k, lag, nodeWrites)) <==> n in s.versions[s.held[k].version].status.applying
  {
    var k := OwnKey(p, n);
    assert KnownJob(cfg, p, k, s.held[k].job);
    JudgedState(cfg, p, s, n, lag, nodeWrites);
    SlotKeptIff(p, s, n, ActedOn(cfg, s, k, lag, nodeWrites), n in s.versions[s.held[k].version].status.applying);
  }
}
