/** Runs in which a slot is lost: an out-of-turn check on an older version, and a version recorded while the plan is not ready. */
module Staleness {
  import opened Types
  import opened Labels
  import opened Text
  import opened Sequences
  import opened Conditions
  import opened Allocator
  import opened Jobs
  import opened Handlers
  import opened Rollout
  import opened Batch
  import opened Completion
  import opened Safety
  import opened Slots
  import opened Progress

  // ----- a stale read -----

  /** An orderly rollout about to list its first nodes. */
  ghost predicate Opening(cfg: Config, p: Plan, s: State) {
    && IsOrderlyRollout(cfg, p, [s]) && Able(cfg, p, s) && p.status.applying == [] && p.spec.concurrency >= 1
    && (exists n :: StillEligible(p, s.nodes, n)) && (forall n :: OwnKey(p, n) !in s.failures)
  }

  lemma SomeoneSelected(cfg: Config, p: Plan, s: State, r: seq<Node>)
    requires Plans(p, s) && IsSelection(cfg, Last(s), s.nodes.Values, r) && Last(s).spec.concurrency >= 1
    requires exists n :: StillEligible(p, s.nodes, n)
    ensures r != []
  {
    var n :| StillEligible(p, s.nodes, n);
    assert SamePlan(p, Last(s));
    EligibleAlike(p, Last(s), s.nodes[n]);
    EmptySelectionIff(cfg, Last(s), s.nodes, r);
    assert s.nodes[n] in EligibleNodes(Last(s), s.nodes.Values);
  }

  /** The first pass's jobs are created and not yet finished. */
  lemma FirstApply(cfg: Config, p: Plan, s: State, r: seq<Node>, st: PlanStatus) returns (t: State)
    requires s.versions == [p] && Plans(p, s) && NodesOk(s.nodes) && IsSelection(cfg, p, s.nodes.Values, r) && s.seen == None
    requires forall n :: OwnKey(p, n) !in s.jobs
    ensures Reaches(cfg, p, Selecting(cfg, s, r, st), t)
    ensures t == s.(floor := 0, jobs := t.jobs, seen := Some(0), worker := Writing(0, s.clock, st))
    ensures forall i :: 0 <= i < |r| ==> OwnKey(p, r[i].name) in t.jobs && t.jobs[OwnKey(p, r[i].name)].status.Active?
  {
    t := ApplySelected(cfg, p, s, r, st);
    forall i | 0 <= i < |r| ensures OwnKey(p, r[i].name) in t.jobs && t.jobs[OwnKey(p, r[i].name)].status.Active? {
      assert JobsFor(cfg, p, r)[i].key == OwnKey(p, r[i].name);
    }
  }

  lemma FirstPass(cfg: Config, p: Plan, s: State, r: seq<Node>) returns (t: State)
    requires Start(cfg, p, s) && Able(cfg, p, s) && Progressing(s) && IsSelection(cfg, p, s.nodes.Values, r)
    ensures Reaches(cfg, p, s, t)
    ensures t == s.(floor := 0, jobs := t.jobs, seen := Some(0), worker := Writing(0, s.clock, PassStatus(p, r, s.clock)))
    ensures forall i :: 0 <= i < |r| ==> OwnKey(p, r[i].name) in t.jobs && t.jobs[OwnKey(p, r[i].name)].status.Active?
  {
    var st := PassStatus(p, r, s.clock);
    StartPhase(cfg, p, s, r);
    t := FirstApply(cfg, p, s, r, st);
    LeadsJoin(OrderlyStep(cfg, p), s, Selecting(cfg, s, r, st), t);
  }

  /** A job event reads the plan before the pass's status is written. */
  lemma ReadsEarly(cfg: Config, p: Plan, s: State, key: JobKey) returns (t: State)
    requires s.versions == [p] && s.worker.Writing? && s.worker.base == 0 && s.held == map[] && key in s.jobs && s.worker.status != p.status
    ensures Reaches(cfg, p, s, t)
    ensures t == s.(versions := [p, p.(status := s.worker.status)], held := map[key := Read(0, s.jobs[key])], worker := Idle)
  {
    var s1 := s.(held := s.held[key := Read(0, s.jobs[key])]);
    ReachOne(cfg, p, s, BeginJob(key), s1);
    t := WritePhase(cfg, p, s1);
    LeadsJoin(OrderlyStep(cfg, p), s, s1, t);
  }

  /** The second pass applies and records the version that lists the nodes. */
  lemma SecondPass(cfg: Config, p: Plan, s: State) returns (t: State)
    requires Able(cfg, p, s) && Progressing(s) && s.worker.Idle? && s.seen != Some(|s.versions| - 1)
    ensures Reaches(cfg, p, s, t) && StatusesKept(s.jobs, t.jobs)
    ensures t == s.(floor := t.floor, jobs := t.jobs, seen := Some(|s.versions| - 1), worker := t.worker)
  {
    var r := PickSelection(cfg, p, s);
    var st := PassStatus(Last(s), r, s.clock);
    StartPhase(cfg, p, s, r);
    t := ApplySelected(cfg, p, s, r, st);
    LeadsJoin(OrderlyStep(cfg, p), s, Selecting(cfg, s, r, st), t);
  }

  lemma AbleAgain(cfg: Config, p: Plan, s: State, t: State)
    requires Able(cfg, p, s) && Plans(p, t) && t.nodes == s.nodes && Ready(Last(t).status) && ApplyingNow(t) != []
    ensures Able(cfg, p, t)
  {
  }

  /** The first selection lists somebody, in a status that differs and is ready. */
  lemma FirstSelection(cfg: Config, p: Plan, s: State) returns (r: seq<Node>, n: string)
    requires Opening(cfg, p, s)
    ensures IsSelection(cfg, p, s.nodes.Values, r) && r != [] && r[0].name == n && StillEligible(p, s.nodes, n)
    ensures var st := PassStatus(p, r, s.clock); n in st.applying && st != p.status && Ready(st)
  {
    r := PickSelection(cfg, p, s);
    SomeoneSelected(cfg, p, s, r);
    SelectedNames(cfg, p, s, r);
    PassStatusFacts(p, r, s.clock);
    n := r[0].name;
    assert Hostnames(r)[0] == n;
  }

  /** The first half: the job was read before the version that lists its node was written. */
  lemma ReadBeforeListed(cfg: Config, p: Plan, s: State) returns (t: State, n: string)
    requires Opening(cfg, p, s) && WellRun(cfg, p, s)
    ensures Reaches(cfg, p, s, t) && t.worker.Idle? && t.nodes == s.nodes && t.failures == s.failures
    ensures t.seen == Some(0) && |t.versions| == 2 && t.versions[0] == p && StillEligible(p, s.nodes, n) && n in ApplyingNow(t)
    ensures Ready(Last(t).status)
    ensures var k := OwnKey(p, n); k in t.jobs && k in t.held && t.held[k].version == 0 && t.held[k].job.status.Active?
  {
    var r;
    r, n := FirstSelection(cfg, p, s);
    var s1 := FirstPass(cfg, p, s, r);
    t := ReadsEarly(cfg, p, s1, OwnKey(p, n));
    LeadsJoin(OrderlyStep(cfg, p), s, s1, t);
  }

  /**
   * From every such opening an orderly run leads to a handler call on a job that was read too early: the
   * call deletes the job of a node that is listed, applied and recorded, and the slot is lost.
   */
  lemma StaleReadLosesSlot(cfg: Config, p: Plan, s: State) returns (u: State, n: string)
    requires Opening(cfg, p, s)
    ensures Reaches(cfg, p, s, u) && Judging(cfg, p, u, n, 0) && Enabled(cfg, u, ActOnJob(OwnKey(p, n), 0, true))
    ensures !NoLostSlot(p, Do(cfg, u, ActOnJob(OwnKey(p, n), 0, true)))
  {
    OrderlyRolloutKeeps(cfg, p, [s], 0);
    var s1;
    s1, n := ReadBeforeListed(cfg, p, s);
    ReachKeeps(cfg, p, s, s1);
    AbleAgain(cfg, p, s, s1);
    u := SecondPass(cfg, p, s1);
    LeadsJoin(OrderlyStep(cfg, p), s, s1, u);
    ReachKeeps(cfg, p, s, u);
    StaleJudgementLosesSlot(cfg, p, u, n, 0, true);
  }

  // ----- a plan that is not ready -----

  lemma UnreadyStarts(cfg: Config, p: Plan, s: State, selected: Result<seq<Node>>)
    requires s.versions == [p] && !Ready(p.status) && s.seen == None
    ensures var t := Started(cfg, s, 0, selected); t == s.(floor := 0, worker := Applying(0, s.clock, [], {}, t.worker.status))
  {
  }

  lemma UnreadyRecords(cfg: Config, p: Plan, s: State, r: seq<Node>) returns (t: State)
    requires s.versions == [p] && s.worker.Idle? && !Ready(p.status) && s.seen == None && s.floor == 0 && p.spec.nodeSelector.Ok?
    requires IsSelection(cfg, p, s.nodes.Values, r)
    ensures Reaches(cfg, p, s, t) && t == s.(seen := Some(0), worker := t.worker)
  {
    UnreadyStarts(cfg, p, s, Ok(r));
    var s1 := Started(cfg, s, 0, Ok(r));
    ReachOne(cfg, p, s, Generate(0, Ok(r)), s1);
    t := s1.(seen := Some(0), worker := Writing(0, s.clock, s1.worker.status));
    ReachOne(cfg, p, s1, ApplyDone, t);
    LeadsJoin(OrderlyStep(cfg, p), s, s1, t);
  }

  /** While a plan is not ready, a pass records its version without applying anything, so a listed node can be left without a job. */
  lemma UnreadyPlanLosesSlot(cfg: Config, p: Plan, s: State, n: string) returns (t: State)
    requires Start(cfg, p, s) && !Ready(p.status) && DistinctRanks(cfg, p, s.nodes) && s.floor == 0
    requires StillEligible(p, s.nodes, n) && n in p.status.applying && OwnKey(p, n) !in s.failures
    ensures Reaches(cfg, p, s, t) && t.seen == Some(|t.versions| - 1) && Waiting(p, t, n) && !Served(p, t, n)
  {
    StartPlans(cfg, p, s, n);
    var r := PickSelection(cfg, p, s);
    t := UnreadyRecords(cfg, p, s, r);
    StillUnserved(p, s, n, t);
  }

  lemma StartPlans(cfg: Config, p: Plan, s: State, n: string)
    requires Start(cfg, p, s)
    ensures Plans(p, s) && OwnKey(p, n) !in s.jobs
  {
  }

  lemma StillUnserved(p: Plan, s: State, n: string, t: State)
    requires Waiting(p, s, n) && !Served(p, s, n) && t == s.(seen := t.seen, worker := t.worker)
    ensures Waiting(p, t, n) && !Served(p, t, n)
  {
  }
}
