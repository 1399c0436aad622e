/**
 * Jobs of an older hash. The job handler tells jobs apart by their version only, so a
 * completed job of the current version but an older hash labels its node with that hash
 * again on every event, also a node that carries the latest one.
 */
module Reopening {
  import opened Types
  import opened Labels
  import opened Text
  import opened Allocator
  import opened Jobs
  import opened Handlers
  import opened Rollout
  import opened Batch
  import opened Safety

  /** What eligibility asks of the labels other than the plan's own. */
  ghost predicate Matches(p: Plan, labels: LabelSet) {
    p.spec.nodeSelector.Ok? && Selects(p.spec.nodeSelector.value, labels) && LABEL_HOSTNAME in labels
  }

  /**
   * For a node that carries the latest hash: a call takes it off exactly when it gets as far as labelling
   * for a job of another hash, and makes the node eligible again exactly when, besides, that hash
   * is not "disabled" and the labels it writes still match.
   */
  lemma ReopensIff(cfg: Config, p: Plan, key: JobKey, job: Job, nodes: map<string, Node>, d: int, t: int, pw: bool, nw: bool)
    requires OwnLabels(p.name, key, job) && key.node in nodes && PlanLabel(p, nodes[key.node]) == Some(p.status.latestHash)
    ensures var o := HandleJob(cfg, job, map[p.name := p], nodes, d, t, pw, nw);
            var relabelled := Relabels(cfg, p, job, nodes, d, nw) && key.hash != p.status.latestHash;
            && (relabelled <==> o.node.Some? && PlanLabel(p, o.node.value) != Some(p.status.latestHash))
            && (relabelled && key.hash != "disabled" && Matches(p, CompletedLabels(cfg, p, nodes[key.node].labels, key.hash))
                <==> o.node.Some? && Eligible(p, o.node.value))
  {
    var o := HandleJob(cfg, job, map[p.name := p], nodes, d, t, pw, nw);
    WrittenLabels(cfg, p, key, job, nodes, d, t, pw, nw);
    PlanLabelIsJobHash(cfg, p, nodes[key.node].labels, key.hash);
    if o.node.Some? { EligibleMeans(p, o.node.value); }
  }

  /** The job the controller made for a node when the plan had the same version and another hash, now completed. */
  function OldJob(cfg: Config, p: Plan, hash: string, n: Node, at: int): Job {
    NewJob(cfg, p.(status := p.status.(latestHash := hash)), n).(status := Complete(Some(at)))
  }

  lemma OldJobRelabels(cfg: Config, p: Plan, hash: string, n: Node, at: int, nodes: map<string, Node>, now: int)
    requires n.name in nodes && at + DelayOf(p.spec) <= now
    ensures OwnLabels(p.name, JobKey(n.name, hash), OldJob(cfg, p, hash, n, at))
    ensures Relabels(cfg, p, OldJob(cfg, p, hash, n, at), nodes, now, true)
  {
    NewJobIdentity(cfg, p.(status := p.status.(latestHash := hash)), n);
  }

  /** A rollout starts on a finished node that still has its completed job of an older hash and the same version. */
  ghost predicate Remains(cfg: Config, p: Plan, s: State, n: string, hash: string, at: int) {
    && Start(cfg, p, s) && n in s.nodes && PlanLabel(p, s.nodes[n]) == Some(p.status.latestHash)
    && hash != p.status.latestHash && hash != "disabled" && LABEL_HOSTNAME !in p.spec.postCompleteLabels
    && Matches(p, CompletedLabels(cfg, p, s.nodes[n].labels, hash))
    && JobKey(n, hash) in s.jobs && s.jobs[JobKey(n, hash)] == OldJob(cfg, p, hash, s.nodes[n], at)
  }

  lemma ReadsOldJob(cfg: Config, s: State, key: JobKey, wait: nat) returns (t: State)
    requires |s.versions| > 0 && NodesOk(s.nodes) && key in s.jobs && s.held == map[]
    ensures Leads(AnyStep(cfg), s, t) && t == s.(clock := s.clock + wait, held := map[key := Read(|s.versions| - 1, s.jobs[key])])
  {
    var s1 := s.(clock := s.clock + wait);
    StepLeads(cfg, s, Tick(wait), s1);
    t := s1.(held := s1.held[key := Read(|s.versions| - 1, s1.jobs[key])]);
    StepLeads(cfg, s1, BeginJob(key), t);
    LeadsJoin(AnyStep(cfg), s, s1, t);
  }

  lemma WrittenNodesOk(nodes: map<string, Node>, n: string, m: Node)
    requires NodesOk(nodes) && n in nodes && m.name == n && Hostname(m) == Hostname(nodes[n])
    ensures NodesOk(nodes[n := m])
  {
  }

  /** The call for the old job, once its delay has passed. */
  lemma OldJobActs(cfg: Config, p: Plan, s: State, n: string, hash: string, at: int)
    requires s.versions == [p] && n in s.nodes && s.nodes[n].name == n && NodesOk(s.nodes)
    requires JobKey(n, hash) in s.held && s.held[JobKey(n, hash)] == Read(0, OldJob(cfg, p, hash, s.nodes[n], at))
    requires at + DelayOf(p.spec) <= s.clock && LABEL_HOSTNAME !in p.spec.postCompleteLabels
    requires PlanLabel(p, s.nodes[n]) == Some(p.status.latestHash) && hash != p.status.latestHash && hash != "disabled"
    requires Matches(p, CompletedLabels(cfg, p, s.nodes[n].labels, hash))
    ensures var t := ActedOn(cfg, s, JobKey(n, hash), 0, true); NodesOk(t.nodes) && n in t.nodes && Eligible(p, t.nodes[n])
  {
    var key := JobKey(n, hash);
    var job := s.held[key].job;
    OldJobRelabels(cfg, p, hash, s.nodes[n], at, s.nodes, s.clock);
    ReopensIff(cfg, p, key, job, s.nodes, s.clock, s.clock + 0, true, true);
    WrittenLabels(cfg, p, key, job, s.nodes, s.clock, s.clock + 0, true, true);
    WriteKeepsHostname(cfg, p, p, s.nodes[n], hash, s.clock - at);
    WrittenNodesOk(s.nodes, n, JobOutcome(cfg, s, key, 0, true).node.value);
  }

  /** A completed job's call writes no status. */
  lemma OldJobLeavesPlan(cfg: Config, p: Plan, s: State, key: JobKey)
    requires key in s.held && s.held[key].version < |s.versions| && s.held[key].job.status.Complete?
    ensures ActedOn(cfg, s, key, 0, true).versions == s.versions
  {
    var r := s.held[key];
    var v := s.versions[r.version];
    OutcomeStatus(cfg, r.job, map[v.name := v], s.nodes, s.clock, s.clock + 0, r.version + 1 == |s.versions|, true);
  }

  lemma ReopensNow(cfg: Config, p: Plan, s: State, n: string, hash: string, at: int) returns (t: State)
    requires s.versions == [p] && n in s.nodes && s.nodes[n].name == n && NodesOk(s.nodes)
    requires JobKey(n, hash) in s.held && s.held[JobKey(n, hash)] == Read(0, OldJob(cfg, p, hash, s.nodes[n], at))
    requires at + DelayOf(p.spec) <= s.clock && LABEL_HOSTNAME !in p.spec.postCompleteLabels
    requires PlanLabel(p, s.nodes[n]) == Some(p.status.latestHash) && hash != p.status.latestHash && hash != "disabled"
    requires Matches(p, CompletedLabels(cfg, p, s.nodes[n].labels, hash))
    ensures Leads(AnyStep(cfg), s, t) && t.versions == s.versions && n in t.nodes && Eligible(p, t.nodes[n])
  {
    var key := JobKey(n, hash);
    OldJobActs(cfg, p, s, n, hash, at);
    OldJobLeavesPlan(cfg, p, s, key);
    t := ActedOn(cfg, s, key, 0, true);
    StepLeads(cfg, s, ActOnJob(key, 0, true), t);
  }

  /** From every such start three ordinary steps make the finished node eligible again. */
  lemma OldJobReopensNode(cfg: Config, p: Plan, s: State, n: string, hash: string, at: int) returns (t: State)
    requires Remains(cfg, p, s, n, hash, at)
    ensures Leads(AnyStep(cfg), s, t) && t.versions == s.versions
    ensures !Eligible(p, s.nodes[n]) && n in t.nodes && Eligible(p, t.nodes[n])
  {
    EligibleMeans(p, s.nodes[n]);
    var u := ReadsOldJob(cfg, s, JobKey(n, hash), Max(0, at + DelayOf(p.spec) - s.clock));
    t := ReopensNow(cfg, p, u, n, hash, at);
    LeadsJoin(AnyStep(cfg), s, u, t);
  }
}
