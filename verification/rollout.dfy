/**
 * The rollout protocol as a state machine. A plan's resource versions are the list of
 * everything ever written, so a stale read is an old index and a status write
 * succeeds only on the last one.
 */
module Rollout {
  import opened Types
  import opened Labels
  import opened Text
  import opened Sequences
  import opened Conditions
  import opened Allocator
  import opened Jobs
  import opened Handlers

  /**
   * The plan worker between steps: it holds nothing, is applying generated jobs one
   * by one, or is about to write the status it computed from version `base` at time `at`.
   */
  datatype Worker =
    | Idle
    | Applying(base: nat, at: int, jobs: seq<Job>, done: set<nat>, status: PlanStatus)
    | Writing(base: nat, at: int, status: PlanStatus)

  /** What a job worker read before it acts: a plan version and a copy of the job. */
  datatype Read = Read(version: nat, job: Job)

  /**
   * `seen` is the version last applied by this process, `floor` the newest version it
   * has generated from; `failures` and `completions` remember what jobs did.
   */
  datatype State = State(
    versions: seq<Plan>,
    nodes: map<string, Node>,
    jobs: map<JobKey, Job>,
    seen: Option<nat>,
    floor: nat,
    worker: Worker,
    held: map<JobKey, Read>,
    clock: int,
    failures: set<JobKey>,
    completions: map<JobKey, int>)

  datatype Step =
    | SyncStatus(base: nat, secrets: map<string, Secret>, poll: Result<string>)
    | Generate(base: nat, selected: Result<seq<Node>>)
    | ApplyOne(index: nat)
    | ApplyFails
    | ApplyDone
    | WriteStatus
    | BeginJob(key: JobKey)
    | ActOnJob(key: JobKey, lag: int, nodeWrites: bool)
    | CompleteJob(key: JobKey)
    | FailJob(key: JobKey)
    | Restart
    | Tick(elapsed: nat)
    | SetConcurrency(concurrency: int)
    | AddNode(node: Node)
    | EditPlan(spec: PlanSpec)
    | EditNodes(nodes: map<string, Node>)

  ghost predicate NodesOk(nodes: map<string, Node>) {
    && (forall n :: n in nodes ==> nodes[n].name == n)
    && (forall a, b :: a in nodes && b in nodes && a != b ==> Hostname(nodes[a]) != Hostname(nodes[b]))
  }

  function Last(s: State): Plan
    requires |s.versions| > 0
  {
    s.versions[|s.versions| - 1]
  }

  function ApplyingNow(s: State): seq<string>
    requires |s.versions| > 0
  {
    Last(s).status.applying
  }

  ghost predicate Enabled(cfg: Config, s: State, step: Step) {
    && |s.versions| > 0
    && match step
       case SyncStatus(base, _, _) => s.worker.Idle? && base < |s.versions|
       case Generate(base, selected) =>
         && s.worker.Idle? && base < |s.versions|
         && selected.Err? == s.versions[base].spec.nodeSelector.Err?
         && (selected.Ok? ==> IsSelection(cfg, s.versions[base], s.nodes.Values, selected.value))
       case ApplyOne(i) => s.worker.Applying? && i < |s.worker.jobs| && i !in s.worker.done
       case ApplyFails => s.worker.Applying?
       case ApplyDone => s.worker.Applying? && forall i :: 0 <= i < |s.worker.jobs| ==> i in s.worker.done
       case WriteStatus => s.worker.Writing?
       case BeginJob(key) => key in s.jobs && key !in s.held
       case ActOnJob(key, lag, _) => key in s.held && s.held[key].version < |s.versions| && 0 <= lag <= 59 * SECOND
       case CompleteJob(key) => key in s.jobs && s.jobs[key].status.Active? && s.jobs[key].parallelism > 0
       case FailJob(key) => key in s.jobs && s.jobs[key].status.Active?
       case AddNode(n) =>
         && n.name !in s.nodes
         && (forall m :: m in s.nodes ==> Hostname(s.nodes[m]) != Hostname(n))
         && (forall i :: 0 <= i < |s.versions| ==> Hostname(n) !in s.versions[i].status.applying)
       case EditNodes(nodes) => NodesOk(nodes)
       case _ => true
  }

  /** `UpdateStatus`: an unchanged status is not written, and an outdated base is a conflict. */
  function Publish(s: State, base: nat, st: PlanStatus): State
    requires base < |s.versions|
  {
    if st == s.versions[base].status || base + 1 != |s.versions| then s
    else s.(versions := s.versions + [s.versions[base].(status := st)])
  }

  /** Server-side apply of one job: create it, or bring its spec in line and keep its status. */
  function Upsert(jobs: map<JobKey, Job>, j: Job): map<JobKey, Job> {
    jobs[j.key := if j.key in jobs then j.(status := jobs[j.key].status) else j]
  }

  function JobOutcome(cfg: Config, s: State, key: JobKey, lag: int, nodeWrites: bool): Outcome
    requires key in s.held && s.held[key].version < |s.versions|
  {
    var r := s.held[key];
    var p := s.versions[r.version];
    HandleJob(cfg, r.job, map[p.name := p], s.nodes, s.clock, s.clock + lag, r.version + 1 == |s.versions|, nodeWrites)
  }

  /** The state once a handler call has had this outcome. */
  function AfterOutcome(s: State, key: JobKey, lag: int, o: Outcome): State
    requires key in s.held && s.held[key].version < |s.versions|
  {
    var s1 := if o.status.Some? then Publish(s, s.held[key].version, o.status.value) else s;
    s1.(nodes := if o.node.Some? then s.nodes[o.node.value.name := o.node.value] else s.nodes,
        jobs := if o.deletes then s.jobs - {key} else s.jobs,
        held := s.held - {key},
        clock := s.clock + lag)
  }

  function ActedOn(cfg: Config, s: State, key: JobKey, lag: int, nodeWrites: bool): State
    requires key in s.held && s.held[key].version < |s.versions|
  {
    AfterOutcome(s, key, lag, JobOutcome(cfg, s, key, lag, nodeWrites))
  }

  function Started(cfg: Config, s: State, base: nat, selected: Result<seq<Node>>): State
    requires base < |s.versions|
  {
    match GeneratingHandler(cfg, s.versions[base], selected, s.clock)
    case Err(_) => s
    case Ok(g) =>
      s.(floor := base,
         worker := if s.seen == Some(base) then Writing(base, s.clock, g.status)
                   else Applying(base, s.clock, g.jobs, {}, g.status))
  }

  function Synced(cfg: Config, s: State, base: nat, secrets: map<string, Secret>, poll: Result<string>): State
    requires base < |s.versions|
  {
    match StatusHandler(cfg, s.versions[base], secrets, poll, s.clock)
    case Err(_) => s
    case Ok(st) => Publish(s, base, st)
  }

  function Do(cfg: Config, s: State, step: Step): State
    requires Enabled(cfg, s, step)
  {
    match step
    case SyncStatus(base, secrets, poll) => Synced(cfg, s, base, secrets, poll)
    case Generate(base, selected) => Started(cfg, s, base, selected)
    case ApplyOne(i) => s.(jobs := Upsert(s.jobs, s.worker.jobs[i]), worker := s.worker.(done := s.worker.done + {i}))
    case ApplyFails => s.(worker := Idle)
    case ApplyDone =>
      s.(seen := Some(s.worker.base), worker := Writing(s.worker.base, s.worker.at, s.worker.status))
    case WriteStatus =>
      if s.worker.base < |s.versions| then Publish(s, s.worker.base, s.worker.status).(worker := Idle) else s.(worker := Idle)
    case BeginJob(key) => s.(held := s.held[key := Read(|s.versions| - 1, s.jobs[key])])
    case ActOnJob(key, lag, nodeWrites) => ActedOn(cfg, s, key, lag, nodeWrites)
    case CompleteJob(key) =>
      s.(jobs := s.jobs[key := s.jobs[key].(status := Complete(Some(s.clock)))], completions := s.completions[key := s.clock])
    case FailJob(key) =>
      s.(jobs := s.jobs[key := s.jobs[key].(status := Failed(Some(s.clock)))], failures := s.failures + {key})
    case Restart => s.(seen := None, floor := 0, worker := Idle, held := map[])
    case Tick(elapsed) => s.(clock := s.clock + elapsed)
    case SetConcurrency(c) => s.(versions := s.versions + [Last(s).(spec := Last(s).spec.(concurrency := c))])
    case AddNode(n) => s.(nodes := s.nodes[n.name := n])
    case EditPlan(spec) => s.(versions := s.versions + [Last(s).(spec := spec)])
    case EditNodes(nodes) => s.(nodes := nodes)
  }

  // ----- runs -----

  ghost predicate Next(cfg: Config, s: State, t: State) { exists step :: Enabled(cfg, s, step) && t == Do(cfg, s, step) }

  ghost predicate Linked(run: seq<State>, i: nat, next: (State, State) -> bool) {
    i + 1 < |run| && next(run[i], run[i + 1])
  }

  /** A run of some step relation. */
  ghost predicate Follows(run: seq<State>, next: (State, State) -> bool) {
    |run| > 0 && forall i :: 0 <= i < |run| - 1 ==> Linked(run, i, next)
  }

  ghost predicate Inductive(next: (State, State) -> bool, inv: State -> bool) {
    forall s, t :: inv(s) && next(s, t) ==> inv(t)
  }

  /** An inductive predicate that holds at some moment holds from then on. */
  lemma {:induction false} HoldsFrom(run: seq<State>, next: (State, State) -> bool, inv: State -> bool, i: nat, j: nat)
    requires Follows(run, next) && i <= j < |run| && Inductive(next, inv) && inv(run[i])
    ensures inv(run[j])
    decreases j - i
  {
    if i < j {
      HoldsFrom(run, next, inv, i, j - 1);
      assert Linked(run, j - 1, next);
    }
  }

  lemma HoldsThroughout(run: seq<State>, next: (State, State) -> bool, inv: State -> bool, j: nat)
    requires Follows(run, next) && j < |run| && Inductive(next, inv) && inv(run[0])
    ensures inv(run[j])
  {
    HoldsFrom(run, next, inv, 0, j);
  }

  // ----- reachability -----

  ghost predicate Path(run: seq<State>, next: (State, State) -> bool, s: State, t: State) {
    Follows(run, next) && run[0] == s && run[|run| - 1] == t
  }

  /** Some run of the relation leads from `s` to `t`. */
  ghost predicate Leads(next: (State, State) -> bool, s: State, t: State) { exists run :: Path(run, next, s, t) }

  lemma LeadsNowhere(next: (State, State) -> bool, s: State)
    ensures Leads(next, s, s)
  {
    assert Path([s], next, s, s);
  }

  lemma LeadsOne(next: (State, State) -> bool, s: State, t: State)
    requires next(s, t)
    ensures Leads(next, s, t)
  {
    assert Linked([s, t], 0, next);
    assert Path([s, t], next, s, t);
  }

  lemma LeadsJoin(next: (State, State) -> bool, s: State, t: State, u: State)
    requires Leads(next, s, t) && Leads(next, t, u)
    ensures Leads(next, s, u)
  {
    var a :| Path(a, next, s, t);
    var b :| Path(b, next, t, u);
    var run := a + b[1..];
    forall i | 0 <= i < |run| - 1 ensures Linked(run, i, next) {
      if i < |a| - 1 { assert Linked(a, i, next); }
      else { assert Linked(b, i - (|a| - 1), next); }
    }
    assert Path(run, next, s, u);
  }

  /** A run of a relation is a run of every wider one. */
  lemma LeadsWider(next: (State, State) -> bool, wider: (State, State) -> bool, s: State, t: State)
    requires Leads(next, s, t) && forall u, v :: next(u, v) ==> wider(u, v)
    ensures Leads(wider, s, t)
  {
    var run :| Path(run, next, s, t);
    forall i | 0 <= i < |run| - 1 ensures Linked(run, i, wider) { assert Linked(run, i, next); }
    assert Path(run, wider, s, t);
  }

  lemma LeadsKeeps(next: (State, State) -> bool, inv: State -> bool, s: State, t: State)
    requires Leads(next, s, t) && Inductive(next, inv) && inv(s)
    ensures inv(t)
  {
    var run :| Path(run, next, s, t);
    HoldsThroughout(run, next, inv, |run| - 1);
  }
}
