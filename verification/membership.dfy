/** The two ways of asking whether a node is listed: the linear test that unpauses jobs, and the job handler's binary search. */
module Membership {
  import opened Types
  import opened Labels
  import opened Text
  import opened Sequences
  import opened Allocator
  import opened Jobs
  import opened Handlers
  import opened Rollout
  import opened Batch
  import opened Completion
  import opened Safety
  import opened Slots

  // ----- sorted in every state, whatever is edited -----

  lemma ComputedAscends(cfg: Config, s: State, w: Worker, selected: Result<seq<Node>>)
    requires NodesOk(s.nodes) && NamedByHost(s.nodes) && SortedBatches(s) && Computes(cfg, s, w, selected)
    ensures Ascending(w.status.applying)
  {
    if selected.Ok? { assert Elements(selected.value) <= s.nodes.Values; }
    GeneratedAscends(cfg, s.versions[w.base], s.nodes, selected, s.clock);
  }

  lemma SortedNext(cfg: Config, s: State, t: State)
    requires Consistent(s) && NamedByHost(s.nodes) && SortedBatches(s) && BatchEffect(cfg, s, t)
    ensures SortedBatches(t)
  {
    if !t.worker.Idle? && exists selected :: Computes(cfg, s, t.worker, selected) {
      var selected :| Computes(cfg, s, t.worker, selected);
      ComputedAscends(cfg, s, t.worker, selected);
    }
    forall i | 0 <= i < |t.versions| ensures Ascending(t.versions[i].status.applying) {
      if i < |s.versions| { assert t.versions[i] == s.versions[i]; }
    }
  }

  ghost predicate NamedThroughout(run: seq<State>) { forall i :: 0 <= i < |run| ==> NamedByHost(run[i].nodes) }

  lemma {:induction false} RunSorted(cfg: Config, run: seq<State>, j: nat)
    requires Effects(cfg, run) && NamedThroughout(run) && j < |run| && SortedBatches(run[0])
    ensures SortedBatches(run[j])
  {
    if j > 0 {
      RunSorted(cfg, run, j - 1);
      assert EffectAt(cfg, run, j - 1) && NamedByHost(run[j - 1].nodes);
      SortedNext(cfg, run[j - 1], run[j]);
    }
  }

  /** A job with the labels of its plan, its node and its version, not yet finished. */
  ghost predicate InProgress(cfg: Config, v: Plan, nodes: map<string, Node>, n: string, job: Job) {
    && n in nodes && job.status.Active?
    && LABEL_CONTROLLER in job.labels && job.labels[LABEL_CONTROLLER] == cfg.controller
    && LABEL_PLAN in job.labels && job.labels[LABEL_PLAN] == v.name
    && LABEL_VERSION in job.labels && job.labels[LABEL_VERSION] == v.status.latestVersion
    && LABEL_NODE in job.labels && job.labels[LABEL_NODE] == n
  }

  lemma InProgressOutcome(cfg: Config, v: Plan, nodes: map<string, Node>, n: string, job: Job, d: int, t: int, pw: bool, nw: bool)
    requires InProgress(cfg, v, nodes, n, job)
    ensures HandleJob(cfg, job, map[v.name := v], nodes, d, t, pw, nw).deletes <==> !FoundBySearch(v.status.applying, n)
  {
  }

  /**
   * When nodes are named by their hostnames, over any run and any edits: every batch is
   * sorted, the binary search finds exactly the listed names, and the handler deletes a
   * job in progress exactly when a job generated for its node would be paused.
   */
  lemma TestsAgree(cfg: Config, run: seq<State>, j: nat, n: string, job: Job, d: int, t: int, pw: bool, nw: bool)
    requires IsCleanRun(cfg, run) && NamedThroughout(run) && j < |run| && Ascending(ApplyingNow(run[0]))
    ensures |run[j].versions| > 0 && Ascending(ApplyingNow(run[j]))
    ensures FoundBySearch(ApplyingNow(run[j]), n) <==> n in ApplyingNow(run[j])
    ensures var v := Last(run[j]);
            InProgress(cfg, v, run[j].nodes, n, job) ==>
              (HandleJob(cfg, job, map[v.name := v], run[j].nodes, d, t, pw, nw).deletes
               <==> NewJob(cfg, v, run[j].nodes[n]).parallelism == 0)
  {
    RunEffects(cfg, run);
    RunSorted(cfg, run, j);
    RunConsistent(cfg, run, j);
    SearchDecidesMembership(ApplyingNow(run[j]), n);
    if InProgress(cfg, Last(run[j]), run[j].nodes, n, job) { InProgressOutcome(cfg, Last(run[j]), run[j].nodes, n, job, d, t, pw, nw); }
  }

  // ----- why hostnames must be node names -----

  /** Two nodes in name order, the first with a hostname beyond the second's name, the second named by its host. */
  ghost predicate Crossed(a: Node, b: Node) { Less(a.name, b.name) && Less(b.name, Hostname(a)) && Hostname(b) == b.name }

  lemma CrossedSelection(cfg: Config, p: Plan, a: Node, b: Node)
    requires Crossed(a, b) && Eligible(p, a) && Eligible(p, b) && p.spec.concurrency >= 2
    ensures IsSelection(cfg, p, {a, b}, [a, b])
  {
    LessIrreflexive(a.name);
    assert EligibleNodes(p, {a, b}) == {a, b} && Elements([a, b]) == {a, b};
    assert |{a, b}| == 2 && KeptNodes(p, {a, b}) <= {a, b};
    SubsetSize(KeptNodes(p, {a, b}), {a, b});
  }

  lemma CrossedSearch(a: Node, b: Node)
    requires Crossed(a, b)
    ensures !FoundBySearch([Hostname(a), Hostname(b)], b.name)
  {
    var s := [Hostname(a), Hostname(b)];
    LessIrreflexive(b.name);
    LessAsymmetric(b.name, Hostname(a));
    assert SearchFrom(s, b.name, 0, 2) == SearchFrom(s, b.name, 0, 1) == SearchFrom(s, b.name, 0, 0);
  }

  /**
   * Otherwise the tests part: any plan that selects two such nodes writes an unsorted batch,
   * and then the handler deletes the second node's job, which the plan had unpaused.
   */
  lemma UnsortedBatchDropsListedNode(cfg: Config, p: Plan, a: Node, b: Node, d: int, t: int, pw: bool, nw: bool)
    requires Crossed(a, b) && Eligible(p, a) && Eligible(p, b) && p.spec.concurrency >= 2
    ensures IsSelection(cfg, p, {a, b}, [a, b]) && !Ascending(Hostnames([a, b]))
    ensures var q := p.(status := p.status.(applying := Hostnames([a, b])));
            && NewJob(cfg, q, b).parallelism == 1
            && HandleJob(cfg, NewJob(cfg, q, b), map[q.name := q], map[a.name := a, b.name := b], d, t, pw, nw).deletes
  {
    CrossedSelection(cfg, p, a, b);
    CrossedSearch(a, b);
    var hosts := Hostnames([a, b]);
    assert hosts == [Hostname(a), Hostname(b)];
    LessAsymmetric(b.name, Hostname(a));
    assert !Less(hosts[0], hosts[1]);
    var q := p.(status := p.status.(applying := hosts));
    NewJobIdentity(cfg, q, b);
    assert hosts[1] in hosts;
    InProgressOutcome(cfg, q, map[a.name := a, b.name := b], b.name, NewJob(cfg, q, b), d, t, pw, nw);
  }
}
