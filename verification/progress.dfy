/**
 * Progress: while jobs succeed, plan passes, job completions and job handling never
 * undo each other's work, one of them always helps, and the rollout ends with every
 * matching node labelled and Complete true.
 */
module Progress {
  import opened Types
  import opened Labels
  import opened Text
  import opened Sequences
  import opened Conditions
  import opened Allocator
  import opened Jobs
  import opened Handlers
  import opened Rollout
  import opened Batch
  import opened Completion
  import opened Safety
  import opened Slots
  import Rounds

  // ----- sums over finite sets -----

  ghost function Sum(e: set<string>, f: string -> nat): nat
    decreases |e|
  {
    if e == {} then 0 else var x :| x in e; f(x) + Sum(e - {x}, f)
  }

  lemma {:induction false} SumRemove(e: set<string>, f: string -> nat, y: string)
    requires y in e
    ensures Sum(e, f) == f(y) + Sum(e - {y}, f)
    decreases |e|
  {
    var x :| x in e && Sum(e, f) == f(x) + Sum(e - {x}, f);
    if x != y {
      SumRemove(e - {x}, f, y);
      SumRemove(e - {y}, f, x);
      assert e - {x} - {y} == e - {y} - {x};
    }
  }

  lemma {:induction false} SumLess(e: set<string>, f: string -> nat, g: string -> nat)
    requires forall x :: x in e ==> f(x) <= g(x)
    ensures Sum(e, f) <= Sum(e, g)
    ensures (exists x :: x in e && f(x) < g(x)) ==> Sum(e, f) < Sum(e, g)
    decreases |e|
  {
    if e != {} {
      var x :| x in e;
      if y :| y in e && f(y) < g(y) { x := y; }
      SumRemove(e, f, x);
      SumRemove(e, g, x);
      SumLess(e - {x}, f, g);
    }
  }

  // ----- reachability by orderly steps -----

  ghost predicate Reaches(cfg: Config, p: Plan, s: State, t: State) { Leads(OrderlyStep(cfg, p), s, t) }

  lemma ReachOne(cfg: Config, p: Plan, s: State, step: Step, t: State)
    requires Steady(cfg, p, s, step) && Timely(p, s, step) && Orderly(s, step) && t == Do(cfg, s, step)
    ensures Reaches(cfg, p, s, t)
  {
    assert OrderlyNext(cfg, p, s, t);
    LeadsOne(OrderlyStep(cfg, p), s, t);
  }

  ghost predicate InScope(cfg: Config, p: Plan) { LABEL_HOSTNAME !in p.spec.postCompleteLabels && DelayInRange(cfg, p) }

  lemma ReachKeeps(cfg: Config, p: Plan, s: State, t: State)
    requires WellRun(cfg, p, s) && InScope(cfg, p) && Reaches(cfg, p, s, t)
    ensures WellRun(cfg, p, t)
  {
    var inv := (s: State) => WellRun(cfg, p, s);
    forall s, t | inv(s) && OrderlyStep(cfg, p)(s, t) ensures inv(t) { OrderlyNextKeeps(cfg, p, s, t); }
    LeadsKeeps(OrderlyStep(cfg, p), inv, s, t);
  }

  // ----- one plan pass -----

  /** `t` is `s` with some jobs applied. */
  ghost predicate OnlyJobs(s: State, t: State) {
    s.worker.Applying? && t.worker.Applying?
    && t == s.(jobs := t.jobs, worker := s.worker.(done := t.worker.done))
  }

  ghost predicate OnList(jobs: seq<Job>, i: nat, k: JobKey) { exists j :: i <= j < |jobs| && jobs[j].key == k }

  ghost predicate SameAt(a: map<JobKey, Job>, b: map<JobKey, Job>, k: JobKey) {
    (k in a <==> k in b) && (k in a && k in b ==> a[k] == b[k])
  }

  ghost predicate StatusesKept(a: map<JobKey, Job>, b: map<JobKey, Job>) {
    forall k :: k in a ==> k in b && b[k].status == a[k].status
  }

  ghost predicate Upserted(jobs: seq<Job>, i: nat, b: map<JobKey, Job>) {
    forall j :: i <= j < |jobs| ==> jobs[j].key in b && b[jobs[j].key].parallelism == jobs[j].parallelism
  }

  ghost predicate NewActive(a: map<JobKey, Job>, b: map<JobKey, Job>) { forall k :: k in b && k !in a ==> b[k].status.Active? }

  /** The objects from index `i` on have been upserted, everything else is as before. */
  ghost predicate AppliedFrom(s: State, t: State, i: nat) {
    && OnlyJobs(s, t)
    && StatusesKept(s.jobs, t.jobs) && NewActive(s.jobs, t.jobs)
    && Upserted(s.worker.jobs, i, t.jobs)
    && (forall k :: !OnList(s.worker.jobs, i, k) ==> SameAt(s.jobs, t.jobs, k))
  }

  ghost predicate DistinctJobs(jobs: seq<Job>) { forall i, j :: 0 <= i < j < |jobs| ==> jobs[i].key != jobs[j].key }

  ghost predicate StillToApply(p: Plan, s: State, i: nat) {
    && s.worker.Applying? && i <= |s.worker.jobs| && DistinctJobs(s.worker.jobs)
    && (forall j :: 0 <= j < i ==> j in s.worker.done) && (forall j :: i <= j ==> j !in s.worker.done)
    && (forall j :: 0 <= j < |s.worker.jobs| ==> StillEligible(p, s.nodes, s.worker.jobs[j].key.node) && s.worker.jobs[j].status.Active?)
  }

  lemma UpsertThenApplied(s: State, s1: State, t: State, i: nat)
    requires s.worker.Applying? && i < |s.worker.jobs| && DistinctJobs(s.worker.jobs) && s.worker.jobs[i].status.Active?
    requires s1 == s.(jobs := Upsert(s.jobs, s.worker.jobs[i]), worker := s.worker.(done := s.worker.done + {i}))
    requires AppliedFrom(s1, t, i + 1)
    ensures AppliedFrom(s, t, i)
  {
    var jobs, key := s.worker.jobs, s.worker.jobs[i].key;
    forall k | !OnList(jobs, i, k) ensures SameAt(s.jobs, t.jobs, k) {
      assert k != key && !OnList(jobs, i + 1, k);
      assert SameAt(s.jobs, s1.jobs, k);
    }
    assert !OnList(jobs, i + 1, key);
    assert SameAt(s1.jobs, t.jobs, key);
  }

  lemma {:induction false} ApplyAll(cfg: Config, p: Plan, s: State, i: nat) returns (t: State)
    requires Enabled(cfg, s, Tick(0)) && StillToApply(p, s, i)
    ensures Reaches(cfg, p, s, t) && AppliedFrom(s, t, i) && StillToApply(p, t, |s.worker.jobs|)
    decreases |s.worker.jobs| - i
  {
    if i == |s.worker.jobs| {
      t := s;
      LeadsNowhere(OrderlyStep(cfg, p), s);
    } else {
      var s1 := s.(jobs := Upsert(s.jobs, s.worker.jobs[i]), worker := s.worker.(done := s.worker.done + {i}));
      ReachOne(cfg, p, s, ApplyOne(i), s1);
      t := ApplyAll(cfg, p, s1, i + 1);
      LeadsJoin(OrderlyStep(cfg, p), s, s1, t);
      UpsertThenApplied(s, s1, t, i);
    }
  }

  ghost predicate DistinctRanks(cfg: Config, p: Plan, nodes: map<string, Node>) {
    forall a, b :: a in nodes && b in nodes && a != b ==> Rank(cfg, p, nodes[a]) != Rank(cfg, p, nodes[b])
  }

  /** A pass from the current version gets as far as a batch: neither readiness, selector, window nor a missing image stops it. */
  ghost predicate Able(cfg: Config, p: Plan, s: State) {
    && Plans(p, s) && NodesOk(s.nodes) && DistinctRanks(cfg, p, s.nodes)
    && Ready(Last(s).status) && p.spec.nodeSelector.Ok? && (ApplyingNow(s) == [] ==> !OutsideWindow(p.spec, s.clock))
    && (forall n :: StillEligible(p, s.nodes, n) ==> !NeedsWindowsImage(cfg, s.nodes[n]))
  }

  /** The plan has a positive limit and no window, no job of it has failed, and nobody is in the middle of anything. */
  ghost predicate Fit(cfg: Config, p: Plan, s: State) {
    && InScope(cfg, p) && Able(cfg, p, s) && s.worker.Idle? && s.held == map[]
    && Last(s).spec.concurrency >= 1 && p.spec.window.None?
    && (forall n :: OwnKey(p, n) !in s.failures)
  }

  ghost predicate Healthy(cfg: Config, p: Plan, s: State) { WellRun(cfg, p, s) && Fit(cfg, p, s) }

  lemma PickSelection(cfg: Config, p: Plan, s: State) returns (r: seq<Node>)
    requires Plans(p, s) && NodesOk(s.nodes) && DistinctRanks(cfg, p, s.nodes) && p.spec.nodeSelector.Ok?
    ensures IsSelection(cfg, Last(s), s.nodes.Values, r)
  {
    var v := Last(s);
    assert SamePlan(p, v);
    var listing := ListSet(s.nodes.Values);
    forall a, b | a in s.nodes.Values && b in s.nodes.Values && a != b ensures NameOf(a) != NameOf(b) && RankOf(cfg, v)(a) != RankOf(cfg, v)(b) {
      var i :| i in s.nodes && s.nodes[i] == a;
      var j :| j in s.nodes && s.nodes[j] == b;
    }
    r := SelectionExists(cfg, v, listing);
  }

  /** The selected nodes are nodes of the cluster, eligible and distinct. */
  lemma SelectedNodes(cfg: Config, p: Plan, s: State, r: seq<Node>)
    requires Plans(p, s) && NodesOk(s.nodes) && IsSelection(cfg, Last(s), s.nodes.Values, r)
    ensures forall i :: 0 <= i < |r| ==> StillEligible(p, s.nodes, r[i].name) && s.nodes[r[i].name] == r[i]
    ensures forall i, j :: 0 <= i < j < |r| ==> r[i].name != r[j].name
  {
    assert SamePlan(p, Last(s));
    forall i | 0 <= i < |r| ensures StillEligible(p, s.nodes, r[i].name) && s.nodes[r[i].name] == r[i] {
      assert r[i] in Elements(r) && r[i] in EligibleNodes(Last(s), s.nodes.Values);
      var a :| a in s.nodes && s.nodes[a] == r[i];
      EligibleAlike(p, Last(s), r[i]);
    }
    forall i, j | 0 <= i < j < |r| ensures r[i].name != r[j].name { LessIrreflexive(NameOf(r[i])); }
  }

  lemma ListedIsSelected(cfg: Config, p: Plan, s: State, r: seq<Node>, n: string)
    requires Plans(p, s) && IsSelection(cfg, Last(s), s.nodes.Values, r)
    requires StillEligible(p, s.nodes, n) && Hostname(s.nodes[n]) in ApplyingNow(s)
    ensures s.nodes[n] in r && Hostname(s.nodes[n]) in Hostnames(r)
  {
    assert SamePlan(p, Last(s));
    EligibleAlike(p, Last(s), s.nodes[n]);
    KeptIsSelected(cfg, Last(s), s.nodes.Values, r, s.nodes[n]);
    HostnamesHas(r, s.nodes[n]);
  }

  /** With nodes named by their hosts, the hosts of the selection are the names of the selected nodes. */
  lemma SelectedNames(cfg: Config, p: Plan, s: State, r: seq<Node>)
    requires Plans(p, s) && NodesOk(s.nodes) && NamedByHost(s.nodes) && IsSelection(cfg, Last(s), s.nodes.Values, r)
    ensures forall i :: 0 <= i < |r| ==> StillEligible(p, s.nodes, r[i].name) && s.nodes[r[i].name] == r[i] && Hostnames(r)[i] == r[i].name
    ensures forall n :: StillEligible(p, s.nodes, n) && n in ApplyingNow(s) ==> n in Hostnames(r) && s.nodes[n] in r
  {
    SelectedNodes(cfg, p, s, r);
    forall n | StillEligible(p, s.nodes, n) && n in ApplyingNow(s) ensures n in Hostnames(r) && s.nodes[n] in r {
      ListedIsSelected(cfg, p, s, r, n);
    }
  }

  /** The status a pass computes when nothing stops it. */
  function PassStatus(v: Plan, r: seq<Node>, now: int): PlanStatus {
    if r == [] then v.status.(applying := [], conditions := SetError(v.status.conditions, COMPLETE, "Complete", None, now))
    else if v.status.applying == Hostnames(r) then v.status
    else v.status.(applying := Hostnames(r), conditions := Mark(v.status.conditions, COMPLETE, False, NO_MESSAGE, "SyncJob", now))
  }

  lemma GeneratesFreely(cfg: Config, v: Plan, r: seq<Node>, now: int)
    requires Ready(v.status) && (v.status.applying == [] ==> !OutsideWindow(v.spec, now)) && forall n :: n in r ==> !NeedsWindowsImage(cfg, n)
    ensures GeneratingHandler(cfg, v, Ok(r), now) == Ok(Generated(JobsFor(cfg, v, r), PassStatus(v, r, now)))
  {
  }

  lemma PassGenerates(cfg: Config, p: Plan, s: State, r: seq<Node>)
    requires Able(cfg, p, s) && IsSelection(cfg, Last(s), s.nodes.Values, r)
    ensures GeneratingHandler(cfg, Last(s), Ok(r), s.clock) == Ok(Generated(JobsFor(cfg, Last(s), r), PassStatus(Last(s), r, s.clock)))
  {
    SelectedNodes(cfg, p, s, r);
    assert SamePlan(p, Last(s));
    GeneratesFreely(cfg, Last(s), r, s.clock);
  }

  lemma PassStatusFacts(v: Plan, r: seq<Node>, now: int)
    ensures var st := PassStatus(v, r, now);
            && st.applying == Hostnames(r)
            && (Ready(v.status) ==> Ready(st))
            && (IsTrue(st.conditions, COMPLETE) <==> r == [] || (v.status.applying == Hostnames(r) && IsTrue(v.status.conditions, COMPLETE)))
  {
    MarkComplete(v.status.conditions, True, NO_MESSAGE, ReasonFor("Complete", None), now);
    MarkComplete(v.status.conditions, False, NO_MESSAGE, "SyncJob", now);
  }

  /** The effect of a pass that selected `r` and computed `st`: apply unless already seen, write the status. */
  ghost predicate PassedWith(cfg: Config, s: State, r: seq<Node>, st: PlanStatus, t: State) {
    && |s.versions| > 0 && |t.versions| > 0
    && t.nodes == s.nodes && t.failures == s.failures && t.held == s.held && t.worker.Idle?
    && Last(t) == Last(s).(status := st)
    && StatusesKept(s.jobs, t.jobs)
    && (s.seen == Some(|s.versions| - 1) ==> t.jobs == s.jobs)
    && (s.seen != Some(|s.versions| - 1) ==> Upserted(JobsFor(cfg, Last(s), r), 0, t.jobs))
  }

  /** The effect of one whole pass. */
  ghost predicate Passed(cfg: Config, p: Plan, s: State, r: seq<Node>, t: State) {
    |s.versions| > 0 && PassedWith(cfg, s, r, PassStatus(Last(s), r, s.clock), t)
  }

  /** The worker has the jobs of this selection before it, none of them applied. */
  ghost predicate AboutToApply(cfg: Config, p: Plan, s: State, r: seq<Node>, st: PlanStatus) {
    && |s.versions| > 0 && s.worker == Applying(|s.versions| - 1, s.clock, JobsFor(cfg, Last(s), r), {}, st)
    && (forall i :: 0 <= i < |r| ==> StillEligible(p, s.nodes, r[i].name))
    && (forall i, j :: 0 <= i < j < |r| ==> r[i].name != r[j].name)
  }

  lemma ApplyPhase(cfg: Config, p: Plan, s: State, r: seq<Node>, st: PlanStatus) returns (t: State)
    requires AboutToApply(cfg, p, s, r, st)
    ensures Reaches(cfg, p, s, t)
    ensures StatusesKept(s.jobs, t.jobs) && NewActive(s.jobs, t.jobs) && Upserted(JobsFor(cfg, Last(s), r), 0, t.jobs)
    ensures forall k :: !OnList(JobsFor(cfg, Last(s), r), 0, k) ==> SameAt(s.jobs, t.jobs, k)
    ensures t == s.(jobs := t.jobs, seen := Some(|s.versions| - 1), worker := Writing(|s.versions| - 1, s.clock, st))
  {
    assert StillToApply(p, s, 0);
    var u := ApplyAll(cfg, p, s, 0);
    t := u.(seen := Some(|s.versions| - 1), worker := Writing(|s.versions| - 1, s.clock, st));
    ReachOne(cfg, p, u, ApplyDone, t);
    LeadsJoin(OrderlyStep(cfg, p), s, u, t);
  }

  lemma WritePhase(cfg: Config, p: Plan, s: State) returns (t: State)
    requires |s.versions| > 0 && s.worker.Writing? && s.worker.base + 1 == |s.versions|
    ensures Reaches(cfg, p, s, t)
    ensures t == s.(versions := t.versions, worker := Idle) && |t.versions| > 0 && Last(t) == Last(s).(status := s.worker.status)
    ensures t.versions == s.versions || t.versions == s.versions + [Last(t)]
  {
    t := Do(cfg, s, WriteStatus);
    ReachOne(cfg, p, s, WriteStatus, t);
  }

  /** The state once a pass has selected `r` and computed `st`. */
  ghost function Selecting(cfg: Config, s: State, r: seq<Node>, st: PlanStatus): State
    requires |s.versions| > 0
  {
    var base := |s.versions| - 1;
    s.(floor := base,
       worker := if s.seen == Some(base) then Writing(base, s.clock, st) else Applying(base, s.clock, JobsFor(cfg, Last(s), r), {}, st))
  }

  lemma SelectedToApply(cfg: Config, p: Plan, s: State, r: seq<Node>, st: PlanStatus)
    requires Plans(p, s) && NodesOk(s.nodes) && IsSelection(cfg, Last(s), s.nodes.Values, r)
    requires s.seen != Some(|s.versions| - 1)
    ensures AboutToApply(cfg, p, Selecting(cfg, s, r, st), r, st)
  {
    SelectedNodes(cfg, p, s, r);
    ToApply(cfg, p, s, r, st);
  }

  lemma ToApply(cfg: Config, p: Plan, s: State, r: seq<Node>, st: PlanStatus)
    requires |s.versions| > 0 && s.seen != Some(|s.versions| - 1)
    requires forall i :: 0 <= i < |r| ==> StillEligible(p, s.nodes, r[i].name)
    requires forall i, j :: 0 <= i < j < |r| ==> r[i].name != r[j].name
    ensures AboutToApply(cfg, p, Selecting(cfg, s, r, st), r, st)
  {
  }

  lemma SelectingStarts(cfg: Config, s: State, r: seq<Node>, st: PlanStatus)
    requires |s.versions| > 0 && GeneratingHandler(cfg, Last(s), Ok(r), s.clock) == Ok(Generated(JobsFor(cfg, Last(s), r), st))
    ensures Started(cfg, s, |s.versions| - 1, Ok(r)) == Selecting(cfg, s, r, st)
  {
  }

  /** Selecting is a step of the machine. */
  lemma SelectPhase(cfg: Config, p: Plan, s: State, r: seq<Node>)
    requires Able(cfg, p, s) && IsSelection(cfg, Last(s), s.nodes.Values, r) && s.worker.Idle?
    ensures var step := Generate(|s.versions| - 1, Ok(r));
            Steady(cfg, p, s, step) && Do(cfg, s, step) == Selecting(cfg, s, r, PassStatus(Last(s), r, s.clock))
  {
    PassGenerates(cfg, p, s, r);
    SelectingStarts(cfg, s, r, PassStatus(Last(s), r, s.clock));
    SelectSteady(cfg, p, s, r);
  }

  lemma SelectSteady(cfg: Config, p: Plan, s: State, r: seq<Node>)
    requires Plans(p, s) && p.spec.nodeSelector.Ok? && IsSelection(cfg, Last(s), s.nodes.Values, r) && s.worker.Idle?
    ensures Steady(cfg, p, s, Generate(|s.versions| - 1, Ok(r)))
  {
    assert SamePlan(p, Last(s));
  }

  lemma StartPhase(cfg: Config, p: Plan, s: State, r: seq<Node>)
    requires Able(cfg, p, s) && Progressing(s) && IsSelection(cfg, Last(s), s.nodes.Values, r) && s.worker.Idle?
    ensures Reaches(cfg, p, s, Selecting(cfg, s, r, PassStatus(Last(s), r, s.clock)))
  {
    SelectPhase(cfg, p, s, r);
    ReachOne(cfg, p, s, Generate(|s.versions| - 1, Ok(r)), Selecting(cfg, s, r, PassStatus(Last(s), r, s.clock)));
  }

  /** The selected jobs are applied and the version recorded. */
  lemma ApplySelected(cfg: Config, p: Plan, s: State, r: seq<Node>, st: PlanStatus) returns (t: State)
    requires Plans(p, s) && NodesOk(s.nodes) && IsSelection(cfg, Last(s), s.nodes.Values, r) && s.seen != Some(|s.versions| - 1)
    ensures Reaches(cfg, p, Selecting(cfg, s, r, st), t)
    ensures StatusesKept(s.jobs, t.jobs) && NewActive(s.jobs, t.jobs) && Upserted(JobsFor(cfg, Last(s), r), 0, t.jobs)
    ensures forall k :: !OnList(JobsFor(cfg, Last(s), r), 0, k) ==> SameAt(s.jobs, t.jobs, k)
    ensures t == s.(floor := |s.versions| - 1, jobs := t.jobs, seen := Some(|s.versions| - 1), worker := Writing(|s.versions| - 1, s.clock, st))
  {
    SelectedToApply(cfg, p, s, r, st);
    t := ApplyPhase(cfg, p, Selecting(cfg, s, r, st), r, st);
  }

  /** From the selection on: apply the jobs unless this version was applied before, then write. */
  lemma FinishPass(cfg: Config, p: Plan, s: State, r: seq<Node>, st: PlanStatus) returns (t: State)
    requires Plans(p, s) && NodesOk(s.nodes) && IsSelection(cfg, Last(s), s.nodes.Values, r)
    ensures Reaches(cfg, p, Selecting(cfg, s, r, st), t) && PassedWith(cfg, s, r, st, t)
  {
    if s.seen != Some(|s.versions| - 1) {
      var u := ApplySelected(cfg, p, s, r, st);
      t := WritePhase(cfg, p, u);
      LeadsJoin(OrderlyStep(cfg, p), Selecting(cfg, s, r, st), u, t);
    } else {
      t := WritePhase(cfg, p, Selecting(cfg, s, r, st));
    }
  }

  lemma Pass(cfg: Config, p: Plan, s: State, r: seq<Node>) returns (t: State)
    requires Healthy(cfg, p, s) && IsSelection(cfg, Last(s), s.nodes.Values, r)
    ensures Reaches(cfg, p, s, t) && Passed(cfg, p, s, r, t)
  {
    var st := PassStatus(Last(s), r, s.clock);
    StartPhase(cfg, p, s, r);
    t := FinishPass(cfg, p, s, r, st);
    LeadsJoin(OrderlyStep(cfg, p), s, Selecting(cfg, s, r, st), t);
  }

  // ----- the measure -----

  ghost function ToDo(p: Plan, s: State): set<string> { set n | n in s.nodes && Eligible(p, s.nodes[n]) }

  /** How far a node is from being done: unlisted, listed, running, completed. */
  ghost function Phase(p: Plan, s: State, n: string): nat {
    var k := OwnKey(p, n);
    if |s.versions| == 0 || n !in ApplyingNow(s) then 10
    else if k in s.jobs && !s.jobs[k].status.Active? then 2
    else if k in s.jobs && s.jobs[k].parallelism > 0 then 4
    else 6
  }

  ghost function PhaseOf(p: Plan, s: State): string -> nat { n => Phase(p, s, n) }

  /** Listed hosts that no longer need their slot. */
  ghost function Stale(p: Plan, s: State): set<string> {
    if |s.versions| == 0 then {} else set h | h in ApplyingNow(s) && !StillEligible(p, s.nodes, h)
  }

  ghost predicate Completed(s: State) { |s.versions| > 0 && IsTrue(Last(s).status.conditions, COMPLETE) }

  ghost function Work(p: Plan, s: State): nat {
    Sum(ToDo(p, s), PhaseOf(p, s)) + |Stale(p, s)| + if Completed(s) then 0 else 1
  }

  /** Every matching node that is not disabled carries the hash, nothing is listed, and Complete is true. */
  ghost predicate Goal(p: Plan, s: State) {
    ToDo(p, s) == {} && |s.versions| > 0 && ApplyingNow(s) == [] && Completed(s)
  }

  // ----- a pass -----

  ghost predicate RunsOrDone(p: Plan, jobs: map<JobKey, Job>, n: string) {
    OwnKey(p, n) in jobs && (jobs[OwnKey(p, n)].parallelism > 0 || !jobs[OwnKey(p, n)].status.Active?)
  }

  lemma ServedRuns(p: Plan, s: State, n: string)
    requires NoLostSlot(p, s) && s.seen == Some(|s.versions| - 1) && Ready(Last(s).status) && Waiting(p, s, n) && OwnKey(p, n) !in s.failures
    ensures RunsOrDone(p, s.jobs, n)
  {
    assert Served(p, s, n);
  }

  /** After the pass the listed node's job is unpaused or finished. */
  lemma ListedRuns(cfg: Config, p: Plan, s: State, r: seq<Node>, st: PlanStatus, t: State, n: string)
    requires Plans(p, s) && NodesOk(s.nodes) && NamedByHost(s.nodes) && NoLostSlot(p, s) && Ready(Last(s).status)
    requires IsSelection(cfg, Last(s), s.nodes.Values, r) && PassedWith(cfg, s, r, st, t)
    requires Waiting(p, s, n) && OwnKey(p, n) !in s.failures
    ensures RunsOrDone(p, t.jobs, n)
  {
    if s.seen == Some(|s.versions| - 1) { ServedRuns(p, s, n); } else { ListedUnpaused(cfg, p, s, r, t.jobs, n); }
  }

  lemma ListedUnpaused(cfg: Config, p: Plan, s: State, r: seq<Node>, jobs: map<JobKey, Job>, n: string)
    requires Plans(p, s) && NodesOk(s.nodes) && IsSelection(cfg, Last(s), s.nodes.Values, r)
    requires StillEligible(p, s.nodes, n) && Hostname(s.nodes[n]) in ApplyingNow(s) && Upserted(JobsFor(cfg, Last(s), r), 0, jobs)
    ensures OwnKey(p, n) in jobs && jobs[OwnKey(p, n)].parallelism > 0
  {
    ListedIsSelected(cfg, p, s, r, n);
    var i :| 0 <= i < |r| && r[i] == s.nodes[n];
    assert SamePlan(p, Last(s));
    assert JobsFor(cfg, Last(s), r)[i].key == OwnKey(p, n);
  }

  lemma PhaseDrops(p: Plan, s: State, t: State, n: string)
    requires |s.versions| > 0 && |t.versions| > 0 && StatusesKept(s.jobs, t.jobs)
    requires n in ApplyingNow(s) ==>
               n in ApplyingNow(t) && RunsOrDone(p, t.jobs, n)
    ensures Phase(p, t, n) <= Phase(p, s, n)
    ensures n !in ApplyingNow(s) && n in ApplyingNow(t) ==> Phase(p, t, n) <= 6
    ensures n in ApplyingNow(s) && Phase(p, s, n) == 6 ==> Phase(p, t, n) < 6
  {
  }

  lemma PassPhase(cfg: Config, p: Plan, s: State, r: seq<Node>, t: State, n: string)
    requires Healthy(cfg, p, s) && IsSelection(cfg, Last(s), s.nodes.Values, r) && Passed(cfg, p, s, r, t)
    requires StillEligible(p, s.nodes, n)
    ensures Phase(p, t, n) <= Phase(p, s, n)
    ensures n !in ApplyingNow(s) && n in Hostnames(r) ==> Phase(p, t, n) < Phase(p, s, n)
    ensures Phase(p, s, n) == 6 ==> Phase(p, t, n) < 6
  {
    PassStatusFacts(Last(s), r, s.clock);
    if n in ApplyingNow(s) {
      SelectedNames(cfg, p, s, r);
      ListedRuns(cfg, p, s, r, PassStatus(Last(s), r, s.clock), t, n);
    }
    PhaseDrops(p, s, t, n);
  }

  lemma PassSum(cfg: Config, p: Plan, s: State, r: seq<Node>, t: State)
    requires Healthy(cfg, p, s) && IsSelection(cfg, Last(s), s.nodes.Values, r) && Passed(cfg, p, s, r, t)
    ensures ToDo(p, t) == ToDo(p, s) && Sum(ToDo(p, s), PhaseOf(p, t)) <= Sum(ToDo(p, s), PhaseOf(p, s))
    ensures (exists n :: n in ToDo(p, s) && Phase(p, t, n) < Phase(p, s, n)) ==>
              Sum(ToDo(p, s), PhaseOf(p, t)) < Sum(ToDo(p, s), PhaseOf(p, s))
  {
    var e := ToDo(p, s);
    forall n | n in e ensures PhaseOf(p, t)(n) <= PhaseOf(p, s)(n) { PassPhase(cfg, p, s, r, t, n); }
    SumLess(e, PhaseOf(p, t), PhaseOf(p, s));
    if n :| n in e && Phase(p, t, n) < Phase(p, s, n) { assert PhaseOf(p, t)(n) < PhaseOf(p, s)(n); }
  }

  lemma PassLeavesNoStale(cfg: Config, p: Plan, s: State, r: seq<Node>, t: State)
    requires Healthy(cfg, p, s) && IsSelection(cfg, Last(s), s.nodes.Values, r) && Passed(cfg, p, s, r, t)
    ensures Stale(p, t) == {}
  {
    PassStatusFacts(Last(s), r, s.clock);
    SelectedNames(cfg, p, s, r);
  }

  lemma PassWork(cfg: Config, p: Plan, s: State, r: seq<Node>, t: State)
    requires Healthy(cfg, p, s) && IsSelection(cfg, Last(s), s.nodes.Values, r) && Passed(cfg, p, s, r, t)
    ensures Work(p, t) <= Work(p, s)
    ensures Stale(p, s) != {} || (r == [] && !Completed(s)) ==> Work(p, t) < Work(p, s)
    ensures (exists n :: n in ToDo(p, s) && Phase(p, t, n) < Phase(p, s, n)) ==> Work(p, t) < Work(p, s)
  {
    PassSum(cfg, p, s, r, t);
    PassLeavesNoStale(cfg, p, s, r, t);
    PassFlag(cfg, p, s, r, t);
  }

  /** Complete only turns false in a pass that admits a node. */
  lemma PassFlag(cfg: Config, p: Plan, s: State, r: seq<Node>, t: State)
    requires Healthy(cfg, p, s) && IsSelection(cfg, Last(s), s.nodes.Values, r) && Passed(cfg, p, s, r, t)
    ensures r == [] ==> Completed(t)
    ensures Completed(s) && !Completed(t) ==> Sum(ToDo(p, s), PhaseOf(p, t)) + 2 <= Sum(ToDo(p, s), PhaseOf(p, s))
  {
    PassStatusFacts(Last(s), r, s.clock);
    SelectedNames(cfg, p, s, r);
    if Completed(s) && !Completed(t) {
      assert ApplyingNow(s) == [];
      var n := r[0].name;
      var e := ToDo(p, s);
      assert n == Hostnames(r)[0] && n in e;
      PassPhase(cfg, p, s, r, t, n);
      SumRemove(e, PhaseOf(p, s), n);
      SumRemove(e, PhaseOf(p, t), n);
      forall m | m in e - {n} ensures PhaseOf(p, t)(m) <= PhaseOf(p, s)(m) { PassPhase(cfg, p, s, r, t, m); }
      SumLess(e - {n}, PhaseOf(p, t), PhaseOf(p, s));
      assert Phase(p, s, n) == 10 && Phase(p, t, n) <= 6 by { assert n in ApplyingNow(t); }
    }
  }

  lemma PassFit(cfg: Config, p: Plan, s: State, r: seq<Node>, t: State)
    requires Fit(cfg, p, s) && Passed(cfg, p, s, r, t)
    requires Plans(p, t) && NodesOk(t.nodes)
    ensures Fit(cfg, p, t)
  {
    PassStatusFacts(Last(s), r, s.clock);
  }

  lemma PassHealthy(cfg: Config, p: Plan, s: State, r: seq<Node>, t: State)
    requires Healthy(cfg, p, s) && Passed(cfg, p, s, r, t) && Reaches(cfg, p, s, t)
    ensures Healthy(cfg, p, t)
  {
    ReachKeeps(cfg, p, s, t);
    PassFit(cfg, p, s, r, t);
  }

  // ----- a job completes -----

  /** The job of a listed node succeeds. */
  lemma Finish(cfg: Config, p: Plan, s: State, n: string) returns (t: State)
    requires |s.versions| > 0 && Phase(p, s, n) == 4
    ensures Reaches(cfg, p, s, t) && Finished(p, s, n, t)
  {
    var k := OwnKey(p, n);
    t := s.(jobs := s.jobs[k := s.jobs[k].(status := Complete(Some(s.clock)))], completions := s.completions[k := s.clock]);
    ReachOne(cfg, p, s, CompleteJob(k), t);
  }

  ghost predicate Finished(p: Plan, s: State, n: string, t: State) {
    var k := OwnKey(p, n);
    && k in s.jobs && s.jobs[k].status.Active?
    && t == s.(jobs := s.jobs[k := s.jobs[k].(status := Complete(Some(s.clock)))], completions := s.completions[k := s.clock])
  }

  lemma FinishFit(cfg: Config, p: Plan, s: State, n: string, t: State)
    requires Fit(cfg, p, s) && Finished(p, s, n, t)
    requires Plans(p, t) && NodesOk(t.nodes)
    ensures Fit(cfg, p, t)
  {
  }

  lemma FinishHealthy(cfg: Config, p: Plan, s: State, n: string, t: State)
    requires Healthy(cfg, p, s) && Finished(p, s, n, t) && Reaches(cfg, p, s, t)
    ensures Healthy(cfg, p, t)
  {
    ReachKeeps(cfg, p, s, t);
    FinishFit(cfg, p, s, n, t);
  }

  lemma FinishWork(p: Plan, s: State, n: string, t: State)
    requires |s.versions| > 0 && StillEligible(p, s.nodes, n) && Phase(p, s, n) == 4 && Finished(p, s, n, t)
    ensures Work(p, t) < Work(p, s)
  {
    assert ToDo(p, t) == ToDo(p, s) && n in ToDo(p, s) && Stale(p, t) == Stale(p, s);
    forall m ensures PhaseOf(p, t)(m) <= PhaseOf(p, s)(m) { assert m != n ==> OwnKey(p, m) != OwnKey(p, n); }
    assert PhaseOf(p, t)(n) < PhaseOf(p, s)(n);
    SumLess(ToDo(p, s), PhaseOf(p, t), PhaseOf(p, s));
  }

  // ----- a completed job is handled -----

  /** The node of a completed job is labelled; the job stays or goes. */
  ghost predicate Labelled(p: Plan, s: State, n: string, t: State) {
    && |s.versions| > 0 && n in s.nodes && n in t.nodes
    && t.versions == s.versions && t.worker == s.worker && t.held == s.held && t.failures == s.failures
    && t.nodes == s.nodes[n := t.nodes[n]] && !Eligible(p, t.nodes[n]) && t.nodes[n].uid == s.nodes[n].uid
    && (t.jobs == s.jobs || t.jobs == s.jobs - {OwnKey(p, n)})
  }

  lemma HandledOutcome(cfg: Config, p: Plan, v: Plan, key: JobKey, job: Job, nodes: map<string, Node>, d: int)
    requires SamePlan(p, v) && Identified(cfg, p, key, job) && LABEL_HOSTNAME !in p.spec.postCompleteLabels
    requires job.status.Complete? && job.status.at.Some? && job.status.at.value + DelayOf(p.spec) <= d && key.node in nodes
    ensures var o := HandleJob(cfg, job, map[v.name := v], nodes, d, d, true, true);
            && o.status.None? && o.node.Some? && !Eligible(p, o.node.value)
            && o.node.value.name == nodes[key.node].name && o.node.value.uid == nodes[key.node].uid
  {
    CompletedNodeKeeps(cfg, p, v, nodes[key.node], d - job.status.at.value);
  }

  /** A completed job whose delay has passed is held together with the current plan. */
  ghost predicate Due(cfg: Config, p: Plan, s: State, n: string) {
    && |s.versions| > 0 && SamePlan(p, Last(s)) && n in s.nodes && s.nodes[n].name == n
    && OwnKey(p, n) in s.held && s.held[OwnKey(p, n)].version + 1 == |s.versions|
    && var j := s.held[OwnKey(p, n)].job;
       && Identified(cfg, p, OwnKey(p, n), j) && j.status.Complete? && j.status.at.Some?
       && j.status.at.value + DelayOf(p.spec) <= s.clock
  }

  lemma DueOutcome(cfg: Config, p: Plan, s: State, n: string)
    requires Due(cfg, p, s, n) && LABEL_HOSTNAME !in p.spec.postCompleteLabels
    ensures var t := ActedOn(cfg, s, OwnKey(p, n), 0, true);
            && n in t.nodes && t.nodes == s.nodes[n := t.nodes[n]] && !Eligible(p, t.nodes[n]) && t.nodes[n].uid == s.nodes[n].uid
            && t.versions == s.versions && t.worker == s.worker && t.held == s.held - {OwnKey(p, n)} && t.failures == s.failures
            && (t.jobs == s.jobs || t.jobs == s.jobs - {OwnKey(p, n)})
  {
    HandledOutcome(cfg, p, Last(s), OwnKey(p, n), s.held[OwnKey(p, n)].job, s.nodes, s.clock);
  }

  lemma DueReaches(cfg: Config, p: Plan, s: State, n: string)
    requires Due(cfg, p, s, n)
    ensures Reaches(cfg, p, s, ActedOn(cfg, s, OwnKey(p, n), 0, true))
  {
    ReachOne(cfg, p, s, ActOnJob(OwnKey(p, n), 0, true), ActedOn(cfg, s, OwnKey(p, n), 0, true));
  }

  /** Waiting out the delay and handling the job labels its node. */
  lemma Handle(cfg: Config, p: Plan, s: State, n: string) returns (t: State)
    requires Healthy(cfg, p, s) && StillEligible(p, s.nodes, n) && Phase(p, s, n) == 2
    ensures Reaches(cfg, p, s, t) && Labelled(p, s, n, t)
  {
    CompletedIsDue(cfg, p, s, n);
    var u := ReadLater(cfg, p, s, OwnKey(p, n), DelayOf(p.spec));
    t := ActedOn(cfg, u, OwnKey(p, n), 0, true);
    DueOutcome(cfg, p, u, n);
    DueReaches(cfg, p, u, n);
    LeadsJoin(OrderlyStep(cfg, p), s, u, t);
    assert t.held == map[];
  }

  lemma CompletedIsDue(cfg: Config, p: Plan, s: State, n: string)
    requires Healthy(cfg, p, s) && StillEligible(p, s.nodes, n) && Phase(p, s, n) == 2
    ensures OwnKey(p, n) in s.jobs
    ensures var k := OwnKey(p, n);
            Due(cfg, p, s.(clock := s.clock + DelayOf(p.spec), held := map[k := Read(|s.versions| - 1, s.jobs[k])]), n)
  {
    var k := OwnKey(p, n);
    assert KnownJob(cfg, p, k, s.jobs[k]) && SamePlan(p, Last(s));
    assert s.jobs[k].status.Complete? && s.jobs[k].status.at.value <= s.clock;
  }

  lemma ReadLater(cfg: Config, p: Plan, s: State, k: JobKey, wait: nat) returns (t: State)
    requires |s.versions| > 0 && k in s.jobs && s.held == map[]
    ensures Reaches(cfg, p, s, t) && t == s.(clock := s.clock + wait, held := map[k := Read(|s.versions| - 1, s.jobs[k])])
  {
    var s1 := s.(clock := s.clock + wait);
    ReachOne(cfg, p, s, Tick(wait), s1);
    t := s1.(held := s1.held[k := Read(|s.versions| - 1, s1.jobs[k])]);
    ReachOne(cfg, p, s1, BeginJob(k), t);
    LeadsJoin(OrderlyStep(cfg, p), s, s1, t);
  }

  lemma LabelledFit(cfg: Config, p: Plan, s: State, n: string, t: State)
    requires Fit(cfg, p, s) && Labelled(p, s, n, t)
    requires Plans(p, t) && NodesOk(t.nodes)
    ensures Fit(cfg, p, t)
  {
    LabelledRanks(cfg, p, s.nodes, n, t.nodes);
    LabelledImages(cfg, p, s.nodes, n, t.nodes);
  }

  lemma LabelledRanks(cfg: Config, p: Plan, nodes: map<string, Node>, n: string, nodes': map<string, Node>)
    requires DistinctRanks(cfg, p, nodes) && n in nodes && n in nodes' && nodes' == nodes[n := nodes'[n]] && nodes'[n].uid == nodes[n].uid
    ensures DistinctRanks(cfg, p, nodes')
  {
    assert forall m :: m in nodes' ==> m in nodes && Rank(cfg, p, nodes'[m]) == Rank(cfg, p, nodes[m]);
  }

  lemma LabelledImages(cfg: Config, p: Plan, nodes: map<string, Node>, n: string, nodes': map<string, Node>)
    requires n in nodes && n in nodes' && nodes' == nodes[n := nodes'[n]] && !Eligible(p, nodes'[n])
    requires forall m :: StillEligible(p, nodes, m) ==> !NeedsWindowsImage(cfg, nodes[m])
    ensures forall m :: StillEligible(p, nodes', m) ==> !NeedsWindowsImage(cfg, nodes'[m])
  {
    assert forall m :: StillEligible(p, nodes', m) ==> m != n && StillEligible(p, nodes, m);
  }

  lemma LabelledHealthy(cfg: Config, p: Plan, s: State, n: string, t: State)
    requires Healthy(cfg, p, s) && Labelled(p, s, n, t) && Reaches(cfg, p, s, t)
    ensures Healthy(cfg, p, t)
  {
    ReachKeeps(cfg, p, s, t);
    LabelledFit(cfg, p, s, n, t);
  }

  lemma LabelledPhase(p: Plan, s: State, n: string, t: State, m: string)
    requires Labelled(p, s, n, t) && m != n
    ensures Phase(p, t, m) == Phase(p, s, m)
  {
    assert OwnKey(p, m) != OwnKey(p, n);
  }

  lemma LabelledStale(p: Plan, s: State, n: string, t: State)
    requires Labelled(p, s, n, t) && StillEligible(p, s.nodes, n)
    ensures ToDo(p, t) == ToDo(p, s) - {n} && |Stale(p, t)| <= |Stale(p, s)| + 1
  {
    StaleAtMostOneMore(Stale(p, s), Stale(p, t), n);
  }

  lemma LabelledWork(p: Plan, s: State, n: string, t: State)
    requires Labelled(p, s, n, t) && StillEligible(p, s.nodes, n) && Phase(p, s, n) == 2
    ensures Work(p, t) < Work(p, s)
  {
    var e := ToDo(p, s);
    LabelledStale(p, s, n, t);
    SumRemove(e, PhaseOf(p, s), n);
    forall m | m in e - {n} ensures PhaseOf(p, t)(m) <= PhaseOf(p, s)(m) { LabelledPhase(p, s, n, t, m); }
    SumLess(e - {n}, PhaseOf(p, t), PhaseOf(p, s));
  }

  lemma StaleAtMostOneMore(a: set<string>, b: set<string>, n: string)
    requires b <= a + {n}
    ensures |b| <= |a| + 1
  {
    SubsetSize(b, a + {n});
  }

  // ----- progress -----

  ghost predicate PassMove(cfg: Config, p: Plan, s: State, t: State) {
    exists r :: |s.versions| > 0 && IsSelection(cfg, Last(s), s.nodes.Values, r) && Passed(cfg, p, s, r, t)
  }

  ghost predicate FinishMove(p: Plan, s: State, t: State) {
    exists n :: StillEligible(p, s.nodes, n) && Phase(p, s, n) == 4 && Finished(p, s, n, t)
  }

  ghost predicate HandleMove(p: Plan, s: State, t: State) {
    exists n :: StillEligible(p, s.nodes, n) && Phase(p, s, n) == 2 && Labelled(p, s, n, t)
  }

  /** Successes and their handling always get something done. */
  lemma JobMoveHelps(cfg: Config, p: Plan, s: State, t: State)
    requires Healthy(cfg, p, s) && JobMove(cfg, p, s, t)
    ensures Healthy(cfg, p, t) && Work(p, t) < Work(p, s)
  {
    if FinishMove(p, s, t) {
      var n :| StillEligible(p, s.nodes, n) && Phase(p, s, n) == 4 && Finished(p, s, n, t);
      FinishHealthy(cfg, p, s, n, t);
      FinishWork(p, s, n, t);
    } else {
      var n :| StillEligible(p, s.nodes, n) && Phase(p, s, n) == 2 && Labelled(p, s, n, t);
      LabelledHealthy(cfg, p, s, n, t);
      LabelledWork(p, s, n, t);
    }
  }

  /** No move ever increases the remaining work, and a healthy rollout stays healthy. */
  lemma MovesNeverRegress(cfg: Config, p: Plan, s: State, t: State)
    requires Healthy(cfg, p, s) && (PlanMove(cfg, p, s, t) || JobMove(cfg, p, s, t))
    ensures Healthy(cfg, p, t) && Work(p, t) <= Work(p, s)
  {
    if PlanMove(cfg, p, s, t) {
      var r :| IsSelection(cfg, Last(s), s.nodes.Values, r) && Passed(cfg, p, s, r, t);
      PassHealthy(cfg, p, s, r, t);
      PassWork(cfg, p, s, r, t);
    } else {
      JobMoveHelps(cfg, p, s, t);
    }
  }

  /** A pass helps unless it finds the batch as it should be, with every listed node's job running or done. */
  lemma PassHelpsOr(cfg: Config, p: Plan, s: State, r: seq<Node>, t: State) returns (n: string)
    requires Healthy(cfg, p, s) && IsSelection(cfg, Last(s), s.nodes.Values, r) && Passed(cfg, p, s, r, t)
    requires !Goal(p, s) && Work(p, t) >= Work(p, s)
    ensures StillEligible(p, s.nodes, n) && (Phase(p, s, n) == 4 || Phase(p, s, n) == 2)
  {
    PassWork(cfg, p, s, r, t);
    SelectedNames(cfg, p, s, r);
    if r == [] {
      NothingLeft(cfg, p, s, r);
      n := "";
    } else {
      n := r[0].name;
      assert n == Hostnames(r)[0] && n in ToDo(p, s);
      PassPhase(cfg, p, s, r, t, n);
    }
  }

  lemma NothingLeft(cfg: Config, p: Plan, s: State, r: seq<Node>)
    requires Healthy(cfg, p, s) && IsSelection(cfg, Last(s), s.nodes.Values, r) && r == []
    requires Stale(p, s) == {} && Completed(s)
    ensures Goal(p, s)
  {
    EmptySelectionIff(cfg, Last(s), s.nodes, r);
    assert SamePlan(p, Last(s));
    forall n ensures n !in ToDo(p, s) {
      if n in s.nodes {
        EligibleAlike(p, Last(s), s.nodes[n]);
        assert s.nodes[n] in s.nodes.Values && s.nodes[n] !in EligibleNodes(Last(s), s.nodes.Values);
      }
    }
  }

  /** Until the goal is reached, some move strictly decreases the remaining work. */
  lemma SomeMoveHelps(cfg: Config, p: Plan, s: State) returns (t: State)
    requires Healthy(cfg, p, s) && !Goal(p, s)
    ensures (PlanMove(cfg, p, s, t) || JobMove(cfg, p, s, t)) && Healthy(cfg, p, t) && Work(p, t) < Work(p, s)
  {
    if Busy(p, s) {
      t := JobMoveExists(cfg, p, s);
      JobMoveHelps(cfg, p, s, t);
    } else {
      t := PlanMoveExists(cfg, p, s);
      MovesNeverRegress(cfg, p, s, t);
      IdlePassHelps(cfg, p, s, t);
    }
  }

  // ----- rounds -----

  /** Some node's job runs, or has completed and waits to be handled. */
  ghost predicate Busy(p: Plan, s: State) {
    exists n :: StillEligible(p, s.nodes, n) && (Phase(p, s, n) == 4 || Phase(p, s, n) == 2)
  }

  ghost predicate PlanMove(cfg: Config, p: Plan, s: State, t: State) { Reaches(cfg, p, s, t) && PassMove(cfg, p, s, t) }

  ghost predicate JobMove(cfg: Config, p: Plan, s: State, t: State) {
    Reaches(cfg, p, s, t) && (FinishMove(p, s, t) || HandleMove(p, s, t))
  }

  /** Plan passes on one side, successes of jobs and their handling on the other. */
  ghost function Turns(cfg: Config, p: Plan): Rounds.System<State> {
    Rounds.System((s, t) => PlanMove(cfg, p, s, t), (s, t) => JobMove(cfg, p, s, t), s => Healthy(cfg, p, s), s => Busy(p, s),
                  s => Goal(p, s), s => Work(p, s))
  }

  /** A pass helps whenever no job runs or waits to be handled. */
  lemma IdlePassHelps(cfg: Config, p: Plan, s: State, t: State)
    requires Healthy(cfg, p, s) && PlanMove(cfg, p, s, t) && !Goal(p, s) && !Busy(p, s)
    ensures Work(p, t) < Work(p, s)
  {
    var r :| IsSelection(cfg, Last(s), s.nodes.Values, r) && Passed(cfg, p, s, r, t);
    if Work(p, t) >= Work(p, s) { var n := PassHelpsOr(cfg, p, s, r, t); }
  }

  lemma {:induction false} SumZero(e: set<string>, f: string -> nat)
    requires Sum(e, f) == 0 && forall n :: n in e ==> f(n) > 0
    ensures e == {}
  {
  }

  /** There is no work left exactly at the goal. */
  lemma GoalIff(p: Plan, s: State)
    requires |s.versions| > 0
    ensures Goal(p, s) <==> Work(p, s) == 0
  {
    if Goal(p, s) {
      assert Stale(p, s) == {} && Sum({}, PhaseOf(p, s)) == 0;
    }
    var a := ApplyingNow(s);
    assert a != [] ==> a[0] in Stale(p, s) || a[0] in ToDo(p, s);
    if Work(p, s) == 0 { SumZero(ToDo(p, s), PhaseOf(p, s)); }
  }

  lemma TurnsAreDiligent(cfg: Config, p: Plan)
    ensures Rounds.Diligent(Turns(cfg, p))
  {
    forall s, t | Healthy(cfg, p, s) && PlanMove(cfg, p, s, t) ensures Healthy(cfg, p, t) && Work(p, t) <= Work(p, s) {
      MovesNeverRegress(cfg, p, s, t);
    }
    forall s, t | Healthy(cfg, p, s) && JobMove(cfg, p, s, t) ensures Healthy(cfg, p, t) && Work(p, t) < Work(p, s) {
      JobMoveHelps(cfg, p, s, t);
    }
    forall s, t | Healthy(cfg, p, s) && PlanMove(cfg, p, s, t) && !Goal(p, s) && !Busy(p, s) ensures Work(p, t) < Work(p, s) {
      IdlePassHelps(cfg, p, s, t);
    }
    forall s | Healthy(cfg, p, s) ensures Goal(p, s) <==> Work(p, s) == 0 { GoalIff(p, s); }
  }

  /** A round that starts short of the goal strictly decreases the remaining work, however its moves are ordered. */
  lemma RoundShrinksWork(cfg: Config, p: Plan, moves: seq<State>)
    requires Rounds.Round(Turns(cfg, p), moves) && Healthy(cfg, p, moves[0]) && !Goal(p, moves[0])
    ensures Healthy(cfg, p, moves[|moves| - 1]) && Work(p, moves[|moves| - 1]) < Work(p, moves[0])
  {
    TurnsAreDiligent(cfg, p);
    Rounds.RoundShrinks(Turns(cfg, p), moves);
  }

  /** Once reached, the goal stays reached. */
  lemma GoalStays(cfg: Config, p: Plan, moves: seq<State>, j: nat)
    requires Rounds.Moves(Turns(cfg, p), moves) && j < |moves| && Healthy(cfg, p, moves[0]) && Goal(p, moves[0])
    ensures Goal(p, moves[j])
  {
    TurnsAreDiligent(cfg, p);
    Rounds.MovesShrink(Turns(cfg, p), moves, 0, j);
    GoalIff(p, moves[0]);
    GoalIff(p, moves[j]);
  }

  /**
   * Progress. Whatever the rounds look like, after as many of them as there was work at
   * the start every matching node carries the hash and Complete is true.
   */
  lemma RoundsEndAtGoal(cfg: Config, p: Plan, rounds: seq<seq<State>>, s: State, t: State)
    requires Healthy(cfg, p, s) && Rounds.Schedule(Turns(cfg, p), rounds, s, t) && |rounds| >= Work(p, s)
    ensures Healthy(cfg, p, t) && Goal(p, t)
  {
    TurnsAreDiligent(cfg, p);
    Rounds.ScheduleShrinks(Turns(cfg, p), rounds, s, t);
    GoalIff(p, t);
  }

  lemma JobMoveExists(cfg: Config, p: Plan, s: State) returns (t: State)
    requires Healthy(cfg, p, s) && Busy(p, s)
    ensures JobMove(cfg, p, s, t) && Healthy(cfg, p, t)
  {
    var n :| StillEligible(p, s.nodes, n) && (Phase(p, s, n) == 4 || Phase(p, s, n) == 2);
    if Phase(p, s, n) == 4 { t := Finish(cfg, p, s, n); } else { t := Handle(cfg, p, s, n); }
    assert JobMove(cfg, p, s, t);
    JobMoveHelps(cfg, p, s, t);
  }

  lemma PlanMoveExists(cfg: Config, p: Plan, s: State) returns (t: State)
    requires Healthy(cfg, p, s)
    ensures PlanMove(cfg, p, s, t)
  {
    var r := PickSelection(cfg, p, s);
    t := Pass(cfg, p, s, r);
  }

  /** A round can be had from every healthy state. */
  lemma RoundExists(cfg: Config, p: Plan, s: State) returns (moves: seq<State>)
    requires Healthy(cfg, p, s)
    ensures Rounds.Round(Turns(cfg, p), moves) && moves[0] == s
  {
    if Busy(p, s) {
      var t := JobMoveExists(cfg, p, s);
      var u := PlanMoveExists(cfg, p, t);
      moves := [s, t, u];
      Rounds.LongRound(Turns(cfg, p), s, t, u);
    } else {
      var u := PlanMoveExists(cfg, p, s);
      moves := [s, u];
      Rounds.ShortRound(Turns(cfg, p), s, u);
    }
  }

  /** From any healthy state the rollout can be driven to its goal, by real steps of the controller and its jobs. */
  lemma {:induction false} RolloutCompletes(cfg: Config, p: Plan, s: State) returns (t: State)
    requires Healthy(cfg, p, s)
    ensures Reaches(cfg, p, s, t) && Healthy(cfg, p, t) && Goal(p, t)
    decreases Work(p, s)
  {
    if Goal(p, s) {
      t := s;
      LeadsNowhere(OrderlyStep(cfg, p), s);
    } else {
      var u := SomeMoveHelps(cfg, p, s);
      t := RolloutCompletes(cfg, p, u);
      LeadsJoin(OrderlyStep(cfg, p), s, u, t);
    }
  }

  /** What the goal means for the nodes: whoever matches and is not disabled carries the hash. */
  lemma GoalLabelsEveryMatch(p: Plan, s: State, n: string)
    requires Goal(p, s) && n in s.nodes && p.spec.nodeSelector.Ok? && Meets(p.spec.nodeSelector.value, s.nodes[n].labels)
    requires LABEL_HOSTNAME in s.nodes[n].labels
    ensures LabelPlanName(p.name) in s.nodes[n].labels
    ensures s.nodes[n].labels[LabelPlanName(p.name)] == p.status.latestHash || s.nodes[n].labels[LabelPlanName(p.name)] == "disabled"
  {
    assert n !in ToDo(p, s);
    EligibleMeans(p, s.nodes[n]);
    SelectsMeets(p.spec.nodeSelector.value, s.nodes[n].labels);
  }
}
