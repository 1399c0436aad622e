/**
 * Why generated jobs must be applied in time: selecting nodes and applying their jobs is
 * not one transaction. A job applied after its node was finished leads to a job
 * that runs outside the batch, and ordinary runs get into that position.
 */
module Overtaking {
  import opened Types
  import opened Labels
  import opened Text
  import opened Sequences
  import opened Conditions
  import opened Allocator
  import opened Jobs
  import opened Handlers
  import opened Rollout
  import opened Batch
  import opened Completion
  import opened Safety
  import opened Slots
  import opened Progress

  ghost predicate Continues(cfg: Config, p: Plan, s: State, t: State) { Leads(SteadyStep(cfg, p), s, t) }

  lemma ContinueOne(cfg: Config, p: Plan, s: State, step: Step, t: State)
    requires Steady(cfg, p, s, step) && Timely(p, s, step) && t == Do(cfg, s, step)
    ensures Continues(cfg, p, s, t)
  {
    assert SteadyNext(cfg, p, s, t);
    LeadsOne(SteadyStep(cfg, p), s, t);
  }

  lemma OrderlyIsSteady(cfg: Config, p: Plan, s: State, t: State)
    requires OrderlyNext(cfg, p, s, t)
    ensures SteadyNext(cfg, p, s, t)
  {
  }

  lemma ReachesContinues(cfg: Config, p: Plan, s: State, t: State)
    requires Reaches(cfg, p, s, t)
    ensures Continues(cfg, p, s, t)
  {
    forall u, v | OrderlyStep(cfg, p)(u, v) ensures SteadyStep(cfg, p)(u, v) { OrderlyIsSteady(cfg, p, u, v); }
    LeadsWider(OrderlyStep(cfg, p), SteadyStep(cfg, p), s, t);
  }

  /** The safety property alone: every running job of the hash is on a listed host. */
  ghost predicate OnlyListedRun(p: Plan, s: State) {
    |s.versions| > 0 &&
    forall k :: k in s.jobs && k.hash == p.status.latestHash && Running(s.jobs[k])
                ==> k.node in s.nodes && Hostname(s.nodes[k.node]) in ApplyingNow(s)
  }

  lemma SafeContinuations(cfg: Config, p: Plan, s: State, t: State)
    requires Safe(cfg, p, s) && Continues(cfg, p, s, t) && LABEL_HOSTNAME !in p.spec.postCompleteLabels
    ensures Safe(cfg, p, t)
  {
    var inv := (s: State) => Safe(cfg, p, s);
    forall s, t | inv(s) && SteadyStep(cfg, p)(s, t) ensures inv(t) { SteadyNextSafe(cfg, p, s, t); }
    LeadsKeeps(SteadyStep(cfg, p), inv, s, t);
  }

  // ----- from an untimely apply to a job outside the batch -----

  /** A job of the hash that runs on a node which is not eligible any more. */
  ghost predicate Straggles(p: Plan, s: State, n: string) {
    OwnKey(p, n) in s.jobs && Running(s.jobs[OwnKey(p, n)]) && n in s.nodes && !StillEligible(p, s.nodes, n)
  }

  lemma StragglerNotSelected(cfg: Config, p: Plan, s: State, r: seq<Node>, n: string)
    requires Plans(p, s) && NodesOk(s.nodes) && IsSelection(cfg, Last(s), s.nodes.Values, r) && n in s.nodes && !StillEligible(p, s.nodes, n)
    ensures Hostname(s.nodes[n]) !in Hostnames(r)
    ensures !OnList(JobsFor(cfg, Last(s), r), 0, OwnKey(p, n))
  {
    SelectedNodes(cfg, p, s, r);
    forall i | 0 <= i < |r| ensures Hostnames(r)[i] != Hostname(s.nodes[n]) && JobsFor(cfg, Last(s), r)[i].key.node != n {
      assert r[i].name in s.nodes && r[i].name != n;
    }
  }

  /** The jobs are applied, or were before; either way the straggler goes on running. */
  lemma StragglerUntouched(cfg: Config, p: Plan, s: State, r: seq<Node>, st: PlanStatus, n: string) returns (t: State)
    requires Plans(p, s) && NodesOk(s.nodes) && IsSelection(cfg, Last(s), s.nodes.Values, r) && Straggles(p, s, n)
    ensures Reaches(cfg, p, Selecting(cfg, s, r, st), t)
    ensures t == s.(floor := t.floor, jobs := t.jobs, seen := t.seen, worker := Writing(|s.versions| - 1, s.clock, st))
    ensures SameAt(s.jobs, t.jobs, OwnKey(p, n))
  {
    if s.seen != Some(|s.versions| - 1) {
      t := ApplySelected(cfg, p, s, r, st);
      StragglerNotSelected(cfg, p, s, r, n);
    } else {
      t := Selecting(cfg, s, r, st);
      LeadsNowhere(OrderlyStep(cfg, p), t);
    }
  }

  lemma StragglerSurvives(cfg: Config, p: Plan, s: State, r: seq<Node>, st: PlanStatus, n: string) returns (t: State)
    requires Plans(p, s) && NodesOk(s.nodes) && IsSelection(cfg, Last(s), s.nodes.Values, r) && Straggles(p, s, n)
    ensures Reaches(cfg, p, Selecting(cfg, s, r, st), t)
    ensures |t.versions| > 0 && t.nodes == s.nodes && Last(t).status == st
    ensures OwnKey(p, n) in t.jobs && Running(t.jobs[OwnKey(p, n)])
  {
    var u := StragglerUntouched(cfg, p, s, r, st, n);
    t := WritePhase(cfg, p, u);
    LeadsJoin(OrderlyStep(cfg, p), Selecting(cfg, s, r, st), u, t);
  }

  /** One more pass takes the straggler's host off the list and leaves its job running. */
  lemma NextPassUnlists(cfg: Config, p: Plan, s: State, n: string) returns (t: State)
    requires Able(cfg, p, s) && s.worker.Idle? && Straggles(p, s, n)
    ensures Continues(cfg, p, s, t) && !OnlyListedRun(p, t)
  {
    var r := PickSelection(cfg, p, s);
    var st := PassStatus(Last(s), r, s.clock);
    PassStatusFacts(Last(s), r, s.clock);
    SelectPhase(cfg, p, s, r);
    var s1 := Selecting(cfg, s, r, st);
    ContinueOne(cfg, p, s, Generate(|s.versions| - 1, Ok(r)), s1);
    t := StragglerSurvives(cfg, p, s, r, st, n);
    ReachesContinues(cfg, p, s1, t);
    LeadsJoin(SteadyStep(cfg, p), s, s1, t);
    StragglerNotSelected(cfg, p, s, r, n);
    assert OwnKey(p, n).node == n && Hostname(t.nodes[n]) !in ApplyingNow(t);
  }

  /** An untimely apply makes a straggler. */
  lemma LateApplyStraggles(cfg: Config, p: Plan, s: State, i: nat, t: State)
    requires s.worker.Applying? && i < |s.worker.jobs| && ObjectOk(cfg, p, s, s.worker.jobs[i]) && !Timely(p, s, ApplyOne(i))
    requires t == s.(jobs := Upsert(s.jobs, s.worker.jobs[i]), worker := s.worker.(done := s.worker.done + {i}))
    ensures Straggles(p, t, s.worker.jobs[i].key.node)
  {
    var j := s.worker.jobs[i];
    assert j.key == OwnKey(p, j.key.node);
  }

  /** After an untimely apply the worker gives up, and its next pass unlists the running job's host. */
  lemma LateApplyEscapes(cfg: Config, p: Plan, s: State, i: nat) returns (t: State)
    requires Safe(cfg, p, s) && Able(cfg, p, s) && Enabled(cfg, s, ApplyOne(i)) && !Timely(p, s, ApplyOne(i))
    ensures Continues(cfg, p, Do(cfg, s, ApplyOne(i)), t) && !OnlyListedRun(p, t)
  {
    var s1 := s.(jobs := Upsert(s.jobs, s.worker.jobs[i]), worker := s.worker.(done := s.worker.done + {i}));
    assert ObjectOk(cfg, p, s, s.worker.jobs[i]);
    LateApplyStraggles(cfg, p, s, i, s1);
    var s2 := s1.(worker := Idle);
    ContinueOne(cfg, p, s1, ApplyFails, s2);
    t := NextPassUnlists(cfg, p, s2, s.worker.jobs[i].key.node);
    LeadsJoin(SteadyStep(cfg, p), s1, s2, t);
  }

  /**
   * Applying one job is safe for the rest of the rollout exactly when it is timely: its
   * node is still eligible, or the job is paused or already finished.
   */
  lemma TimelyIsExact(cfg: Config, p: Plan, s: State, i: nat)
    requires Safe(cfg, p, s) && Able(cfg, p, s) && Enabled(cfg, s, ApplyOne(i)) && LABEL_HOSTNAME !in p.spec.postCompleteLabels
    ensures Timely(p, s, ApplyOne(i)) <==>
            forall t :: Continues(cfg, p, Do(cfg, s, ApplyOne(i)), t) ==> OnlyListedRun(p, t)
  {
    if Timely(p, s, ApplyOne(i)) {
      StepSafe(cfg, p, s, ApplyOne(i));
      forall t | Continues(cfg, p, Do(cfg, s, ApplyOne(i)), t) ensures OnlyListedRun(p, t) {
        SafeContinuations(cfg, p, Do(cfg, s, ApplyOne(i)), t);
      }
    } else {
      var t := LateApplyEscapes(cfg, p, s, i);
    }
  }

  // ----- a rollout that gets there -----

  /** The start of a rollout in which node `n` is listed and to be done, and a pass can be made. */
  ghost predicate Listed(cfg: Config, p: Plan, s: State, n: string) {
    && Start(cfg, p, s) && Able(cfg, p, s) && StillEligible(p, s.nodes, n) && Hostname(s.nodes[n]) in p.status.applying
    && LABEL_HOSTNAME !in p.spec.postCompleteLabels
  }

  /** The worker has selected these nodes and applied none of their jobs. */
  function Selected(cfg: Config, p: Plan, r: seq<Node>, at: int, st: PlanStatus): Worker { Applying(0, at, JobsFor(cfg, p, r), {}, st) }

  lemma SelectsFirst(cfg: Config, p: Plan, s: State, r: seq<Node>)
    requires s.versions == [p] && Able(cfg, p, s) && s.worker.Idle? && s.seen == None && IsSelection(cfg, p, s.nodes.Values, r)
    ensures Continues(cfg, p, s, s.(floor := 0, worker := Selected(cfg, p, r, s.clock, PassStatus(p, r, s.clock))))
  {
    SelectPhase(cfg, p, s, r);
    ContinueOne(cfg, p, s, Generate(0, Ok(r)), s.(floor := 0, worker := Selected(cfg, p, r, s.clock, PassStatus(p, r, s.clock))));
  }

  /** The worker applies one job and gives up; the job succeeds. */
  lemma AppliesAndSucceeds(cfg: Config, p: Plan, s: State, i: nat) returns (t: State)
    requires |s.versions| > 0 && s.worker.Applying? && i < |s.worker.jobs| && i !in s.worker.done
    requires var j := s.worker.jobs[i]; j.key !in s.jobs && Running(j) && StillEligible(p, s.nodes, j.key.node)
    ensures Continues(cfg, p, s, t)
    ensures var j := s.worker.jobs[i];
            t == s.(jobs := s.jobs[j.key := j.(status := Complete(Some(s.clock)))], worker := Idle,
                    completions := s.completions[j.key := s.clock])
  {
    var j := s.worker.jobs[i];
    var s1 := s.(jobs := s.jobs[j.key := j], worker := s.worker.(done := s.worker.done + {i}));
    ContinueOne(cfg, p, s, ApplyOne(i), s1);
    var s2 := s1.(worker := Idle);
    ContinueOne(cfg, p, s1, ApplyFails, s2);
    LeadsJoin(SteadyStep(cfg, p), s, s1, s2);
    t := s2.(jobs := s2.jobs[j.key := j.(status := Complete(Some(s.clock)))], completions := s2.completions[j.key := s.clock]);
    ContinueOne(cfg, p, s2, CompleteJob(j.key), t);
    LeadsJoin(SteadyStep(cfg, p), s, s2, t);
    assert t.jobs == s.jobs[j.key := j.(status := Complete(Some(s.clock)))];
  }

  /** Longer than both the delay and the lifetime of a job. */
  function Long(cfg: Config, p: Plan): nat { Max(0, Max(DelayOf(p.spec), TtlSeconds(cfg, p.spec.postCompleteDelay) * SECOND)) }

  /** A call for the completed job that old labels its node and deletes it. */
  lemma ExpiredOutcome(cfg: Config, p: Plan, key: JobKey, job: Job, nodes: map<string, Node>, at: int, now: int)
    requires Identified(cfg, p, key, job) && job.status == Complete(Some(at)) && now == at + Long(cfg, p)
    requires key.node in nodes && LABEL_HOSTNAME !in p.spec.postCompleteLabels
    ensures var o := HandleJob(cfg, job, map[p.name := p], nodes, now, now, true, true);
            o.deletes && o.status.None? && o.node.Some? && o.node.value.name == nodes[key.node].name && !Eligible(p, o.node.value)
  {
    CompletedNodeKeeps(cfg, p, p, nodes[key.node], Long(cfg, p));
  }

  /** Time passes, and the completed job is read. */
  lemma ReadLong(cfg: Config, p: Plan, s: State, key: JobKey) returns (t: State)
    requires s.versions == [p] && key in s.jobs && s.held == map[]
    ensures Continues(cfg, p, s, t)
    ensures t == s.(clock := s.clock + Long(cfg, p), held := map[key := Read(0, s.jobs[key])])
  {
    var s1 := s.(clock := s.clock + Long(cfg, p));
    ContinueOne(cfg, p, s, Tick(Long(cfg, p)), s1);
    t := s1.(held := s1.held[key := Read(0, s1.jobs[key])]);
    ContinueOne(cfg, p, s1, BeginJob(key), t);
    LeadsJoin(SteadyStep(cfg, p), s, s1, t);
  }

  lemma HandlesExpired(cfg: Config, p: Plan, s: State, n: string, at: int) returns (t: State)
    requires var k := OwnKey(p, n);
             s.versions == [p] && k in s.held && s.held[k].version == 0 && Identified(cfg, p, k, s.held[k].job)
             && s.held[k].job.status == Complete(Some(at))
    requires s.clock == at + Long(cfg, p) && n in s.nodes && s.nodes[n].name == n && LABEL_HOSTNAME !in p.spec.postCompleteLabels
    ensures Continues(cfg, p, s, t) && t.versions == s.versions && t.worker == s.worker
    ensures OwnKey(p, n) !in t.jobs && n in t.nodes && !StillEligible(p, t.nodes, n) && t.nodes == s.nodes[n := t.nodes[n]] && t.nodes[n].uid == s.nodes[n].uid
  {
    var k := OwnKey(p, n);
    t := ActedOn(cfg, s, k, 0, true);
    ExpiredOutcome(cfg, p, k, s.held[k].job, s.nodes, at, s.clock);
    ContinueOne(cfg, p, s, ActOnJob(k, 0, true), t);
  }

  /** The first pass's job succeeds while a second pass selects the same nodes. */
  lemma SelectsTwice(cfg: Config, p: Plan, s: State, r: seq<Node>, i: nat) returns (t: State)
    requires Start(cfg, p, s) && Able(cfg, p, s) && IsSelection(cfg, p, s.nodes.Values, r) && i < |r|
    requires r[i].name in s.nodes && StillEligible(p, s.nodes, r[i].name) && Hostname(r[i]) in p.status.applying
    ensures Continues(cfg, p, s, t)
    ensures var j := NewJob(cfg, p, r[i]);
            t == s.(floor := 0, worker := Selected(cfg, p, r, s.clock, PassStatus(p, r, s.clock)),
                    jobs := s.jobs[j.key := j.(status := Complete(Some(s.clock)))], completions := s.completions[j.key := s.clock])
  {
    var w := Selected(cfg, p, r, s.clock, PassStatus(p, r, s.clock));
    var s1 := s.(floor := 0, worker := w);
    SelectsFirst(cfg, p, s, r);
    var s2 := AppliesAndSucceeds(cfg, p, s1, i);
    LeadsJoin(SteadyStep(cfg, p), s, s1, s2);
    t := s2.(floor := 0, worker := w);
    SelectsFirst(cfg, p, s2, r);
    LeadsJoin(SteadyStep(cfg, p), s, s2, t);
  }

  /** The overtaken position: the worker is about to apply the job of a node that has been finished in the meantime. */
  lemma GetsOvertaken(cfg: Config, p: Plan, s: State, n: string) returns (t: State, i: nat)
    requires Listed(cfg, p, s, n)
    ensures Continues(cfg, p, s, t) && t.versions == s.versions && Enabled(cfg, t, ApplyOne(i)) && !Timely(p, t, ApplyOne(i))
    ensures n in t.nodes && !StillEligible(p, t.nodes, n) && t.nodes == s.nodes[n := t.nodes[n]] && t.nodes[n].uid == s.nodes[n].uid
  {
    var r := PickSelection(cfg, p, s);
    ListedIsSelected(cfg, p, s, r, n);
    i :| 0 <= i < |r| && r[i] == s.nodes[n];
    NewJobIdentity(cfg, p, s.nodes[n]);
    var s1 := SelectsTwice(cfg, p, s, r, i);
    var s2 := ReadLong(cfg, p, s1, OwnKey(p, n));
    LeadsJoin(SteadyStep(cfg, p), s, s1, s2);
    t := HandlesExpired(cfg, p, s2, n, s.clock);
    LeadsJoin(SteadyStep(cfg, p), s, s2, t);
  }

  lemma StillAble(cfg: Config, p: Plan, s: State, n: string, t: State)
    requires Able(cfg, p, s) && ApplyingNow(s) != [] && t.versions == s.versions && NodesOk(t.nodes)
    requires n in s.nodes && n in t.nodes && t.nodes == s.nodes[n := t.nodes[n]] && !StillEligible(p, t.nodes, n) && t.nodes[n].uid == s.nodes[n].uid
    ensures Able(cfg, p, t)
  {
    LabelledRanks(cfg, p, s.nodes, n, t.nodes);
    LabelledImages(cfg, p, s.nodes, n, t.nodes);
  }

  /**
   * Every rollout that starts with a listed node to be done and can make passes has a run with one
   * untimely apply, and no other untimely step, that ends with a job of the current
   * hash running on a host that is not listed.
   */
  lemma LateApplyEscapesBatch(cfg: Config, p: Plan, s: State, n: string) returns (u: State, i: nat, t: State)
    requires Listed(cfg, p, s, n)
    ensures Continues(cfg, p, s, u) && Enabled(cfg, u, ApplyOne(i)) && Continues(cfg, p, Do(cfg, u, ApplyOne(i)), t)
    ensures !OnlyListedRun(p, t)
  {
    u, i := GetsOvertaken(cfg, p, s, n);
    SafeContinuations(cfg, p, s, u);
    StillAble(cfg, p, s, n, u);
    t := LateApplyEscapes(cfg, p, u, i);
  }
}
