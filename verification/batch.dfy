/**
 * What every step keeps under arbitrary edits of the plan and the nodes: the batch
 * limit, one entry per host, and a Complete condition that is never true while a
 * node is being worked on.
 */
module Batch {
  import opened Types
  import opened Text
  import opened Sequences
  import opened Conditions
  import opened Allocator
  import opened Jobs
  import opened Handlers
  import opened Rollout

  ghost predicate StatusOk(st: PlanStatus) {
    NoDuplicates(st.applying) && (IsTrue(st.conditions, COMPLETE) ==> st.applying == [])
  }

  // ----- the status handler -----

  /** The draft has not turned Complete true, on either side of the shared array. */
  ghost predicate Calm(d: Draft, cs: seq<Condition>) {
    && (IsTrue(d.mine, COMPLETE) ==> IsTrue(cs, COMPLETE))
    && (IsTrue(d.shared, COMPLETE) ==> IsTrue(cs, COMPLETE))
    && (d.attached ==> d.shared == d.mine)
  }

  lemma CalmCreate(d: Draft, cs: seq<Condition>, kind: string, now: int)
    requires Calm(d, cs)
    ensures Calm(Edit(d, kind, Create, now), cs)
  {
    FindUpdate(d.mine, kind, Create, now, COMPLETE);
  }

  lemma CalmMark(d: Draft, cs: seq<Condition>, kind: string, s: Truth, message: Message, reason: string, now: int)
    requires Calm(d, cs) && (kind != COMPLETE || s != True)
    ensures Calm(MarkDraft(d, kind, s, message, reason, now), cs)
  {
    MarkDraftWhole(d, kind, s, message, reason, now);
    FindMark(d.mine, kind, s, message, reason, now, COMPLETE);
  }

  lemma CalmValidated(p: Plan, secrets: map<string, Secret>, now: int)
    ensures Calm(ValidatedDraft(p, secrets, now), p.status.conditions)
  {
    var d := NewDraft(p.status.conditions);
    CalmCreate(d, p.status.conditions, COMPLETE, now);
    CalmCreate(Edit(d, COMPLETE, Create, now), p.status.conditions, VALIDATED, now);
    var e := Edit(Edit(d, COMPLETE, Create, now), VALIDATED, Create, now);
    var v := Validate(p.spec, secrets);
    CalmMark(e, p.status.conditions, VALIDATED, if v.None? then True else False, if v.None? then NO_MESSAGE else v.value,
             ReasonFor(if v.Some? then "Error" else "PlanIsValid", v), now);
  }

  lemma CalmResolved(cfg: Config, p: Plan, d: Draft, latest: string, reason: string, secrets: map<string, Secret>, now: int)
    requires Calm(d, p.status.conditions)
    ensures var r := Resolved(cfg, p, d, latest, reason, secrets, now);
            r.Ok? ==> r.value.applying == p.status.applying
                      && (IsTrue(r.value.conditions, COMPLETE) ==> IsTrue(p.status.conditions, COMPLETE))
  {
    var a := Announce(d, p.status, latest, now);
    CalmMark(d, p.status.conditions, COMPLETE, False, NO_MESSAGE, "Resolved", now);
    CalmMark(a, p.status.conditions, LATEST_RESOLVED, True, NO_MESSAGE, reason, now);
  }

  ghost predicate Unalarming(p: Plan, r: Result<PlanStatus>) {
    r.Ok? ==> r.value.applying == p.status.applying && (IsTrue(r.value.conditions, COMPLETE) ==> IsTrue(p.status.conditions, COMPLETE))
  }

  lemma CalmUnresolvable(cfg: Config, p: Plan, d: Draft, secrets: map<string, Secret>, now: int)
    requires Calm(d, p.status.conditions)
    ensures Unalarming(p, DigestStatus(cfg, p.spec, p.status.(conditions :=
              SetErrorDraft(d, LATEST_RESOLVED, "Error", Some(CannotResolve), now).mine), secrets))
  {
    CalmMark(d, p.status.conditions, LATEST_RESOLVED, False, CannotResolve, ReasonFor("Error", Some(CannotResolve)), now);
  }

  /** The status handler never touches `Applying` and never turns Complete true. */
  lemma StatusHandlerKeeps(cfg: Config, p: Plan, secrets: map<string, Secret>, poll: Result<string>, now: int)
    ensures Unalarming(p, StatusHandler(cfg, p, secrets, poll, now))
  {
    var d0 := ValidatedDraft(p, secrets, now);
    CalmValidated(p, secrets, now);
    if Validate(p.spec, secrets).None? {
      var d := Edit(d0, LATEST_RESOLVED, Create, now);
      CalmCreate(d0, p.status.conditions, LATEST_RESOLVED, now);
      if p.spec.version == "" && p.spec.channel == "" {
        CalmUnresolvable(cfg, p, d, secrets, now);
      } else if p.spec.version != "" {
        CalmResolved(cfg, p, d, MungeVersion(p.spec.version), "Version", secrets, now);
      } else if poll.Ok? {
        CalmResolved(cfg, p, d, MungeVersion(poll.value), "Channel", secrets, now);
      }
    }
  }

  // ----- the generating handler -----

  lemma HostsOfSelectionDistinct(nodes: map<string, Node>, r: seq<Node>)
    requires NodesOk(nodes) && Elements(r) <= nodes.Values && SortedBy(r, NameOf)
    ensures NoDuplicates(Hostnames(r))
  {
    SortedIsUnique(r, NameOf);
    forall i, j | 0 <= i < j < |r| ensures Hostnames(r)[i] != Hostnames(r)[j] {
      assert r[i] in Elements(r) && r[j] in Elements(r) && r[i] != r[j];
      var a :| a in nodes && nodes[a] == r[i];
      var b :| b in nodes && nodes[b] == r[j];
    }
  }

  lemma {:induction false} HostsCount(nodes: map<string, Node>, kept: set<Node>, hosts: set<string>)
    requires NodesOk(nodes) && kept <= nodes.Values
    requires forall n :: n in kept ==> Hostname(n) in hosts
    ensures |kept| <= |hosts|
    decreases kept
  {
    if kept != {} {
      var n :| n in kept;
      forall m | m in kept - {n} ensures Hostname(m) in hosts - {Hostname(n)} {
        var a :| a in nodes && nodes[a] == n;
        var b :| b in nodes && nodes[b] == m;
      }
      HostsCount(nodes, kept - {n}, hosts - {Hostname(n)});
    }
  }

  lemma {:induction false} ElementsAtMost<T>(s: seq<T>)
    ensures |Elements(s)| <= |s|
  {
    if s != [] {
      ElementsAtMost(s[1..]);
      assert s == [s[0]] + s[1..];
      assert Elements(s) == {s[0]} + Elements(s[1..]);
    }
  }

  /** A batch only grows up to the limit; above the limit it can only shrink. */
  lemma SelectionBounded(cfg: Config, p: Plan, nodes: map<string, Node>, r: seq<Node>)
    requires NodesOk(nodes) && IsSelection(cfg, p, nodes.Values, r)
    ensures |r| <= Max(|p.status.applying|, p.spec.concurrency)
  {
    HostsCount(nodes, KeptNodes(p, nodes.Values), Elements(p.status.applying));
    ElementsAtMost(p.status.applying);
  }

  /** What a generating pass may put in a status: no double hosts, a bounded batch, an honest Complete. */
  lemma GeneratedOk(cfg: Config, p: Plan, nodes: map<string, Node>, selected: Result<seq<Node>>, now: int)
    requires StatusOk(p.status) && NodesOk(nodes)
    requires selected.Ok? ==> IsSelection(cfg, p, nodes.Values, selected.value)
    ensures var r := GeneratingHandler(cfg, p, selected, now);
            r.Ok? ==> && StatusOk(r.value.status)
                      && |r.value.status.applying| <= Max(|p.status.applying|, p.spec.concurrency)
                      && r.value.status == p.status.(applying := r.value.status.applying, conditions := r.value.status.conditions)
  {
    if !Ready(p.status) {
      EarlyCalm(p, "NotReady", NotValidAndResolved, now);
    } else if selected.Ok? {
      var r := selected.value;
      if p.status.applying == [] && OutsideWindow(p.spec, now) { EarlyCalm(p, "Waiting", NotWithinWindow, now); }
      SyncedOk(p, nodes, r, now);
      SelectionBounded(cfg, p, nodes, r);
    }
  }

  lemma SyncedOk(p: Plan, nodes: map<string, Node>, r: seq<Node>, now: int)
    requires NodesOk(nodes) && SortedBy(r, NameOf) && Elements(r) <= EligibleNodes(p, nodes.Values)
    ensures StatusOk(p.status.(applying := Hostnames(r), conditions := Mark(p.status.conditions, COMPLETE, False, NO_MESSAGE, "SyncJob", now)))
  {
    FindMark(p.status.conditions, COMPLETE, False, NO_MESSAGE, "SyncJob", now, COMPLETE);
    HostsOfSelectionDistinct(nodes, r);
  }

  lemma EarlyCalm(p: Plan, reason: string, message: Message, now: int)
    ensures var g := EarlyReturn(p, reason, message, now);
            && g.status.applying == p.status.applying && g.jobs == []
            && (IsTrue(g.status.conditions, COMPLETE) ==> IsTrue(p.status.conditions, COMPLETE))
  {
    CalmMark(NewDraft(p.status.conditions), p.status.conditions, COMPLETE, False, message, ReasonFor(reason, Some(message)), now);
  }

  // ----- the invariant -----

  ghost predicate WorkerOk(s: State) {
    !s.worker.Idle? ==> s.worker.base < |s.versions| && StatusOk(s.worker.status)
  }

  ghost predicate Consistent(s: State) {
    && |s.versions| > 0
    && NodesOk(s.nodes)
    && WorkerOk(s)
    && (forall i :: 0 <= i < |s.versions| ==> StatusOk(s.versions[i].status))
    && (forall k :: k in s.held ==> s.held[k].version < |s.versions|)
  }

  /** A fresh plan, or a persisted one read by a controller that just started. */
  ghost predicate Init(s: State) {
    && |s.versions| == 1
    && StatusOk(s.versions[0].status)
    && NodesOk(s.nodes)
    && s.worker.Idle?
    && s.held == map[]
    && s.seen == None
  }

  /** The largest limit so far is at most `cap`, counting the batch the run started with. */
  ghost predicate Capped(s: State, cap: int) {
    && |s.versions| > 0
    && |s.versions[0].status.applying| <= cap
    && forall i :: 0 <= i < |s.versions| ==> s.versions[i].spec.concurrency <= cap
  }

  ghost predicate BatchesWithin(s: State, cap: int) {
    && (forall i :: 0 <= i < |s.versions| ==> |s.versions[i].status.applying| <= cap)
    && (!s.worker.Idle? ==> |s.worker.status.applying| <= cap)
  }

  lemma PublishKeeps(s: State, base: nat, st: PlanStatus, cap: int)
    requires Consistent(s) && base < |s.versions| && StatusOk(st)
    ensures Consistent(Publish(s, base, st))
    ensures BatchesWithin(s, cap) && |st.applying| <= cap ==> BatchesWithin(Publish(s, base, st), cap)
  {
  }

  lemma OutcomeStatus(cfg: Config, job: Job, plans: map<string, Plan>, nodes: map<string, Node>, d: int, t: int, pw: bool, nw: bool)
    ensures var o := HandleJob(cfg, job, plans, nodes, d, t, pw, nw);
            o.status.Some? ==>
              && LABEL_PLAN in job.labels && job.labels[LABEL_PLAN] in plans && job.status.Failed?
              && var p := plans[job.labels[LABEL_PLAN]];
                 && o.status.value.applying == p.status.applying
                 && o.status.value == p.status.(conditions := o.status.value.conditions)
                 && IsFalse(o.status.value.conditions, COMPLETE)
  {
    if LABEL_PLAN in job.labels && job.labels[LABEL_PLAN] in plans && LABEL_NODE in job.labels {
      var p := plans[job.labels[LABEL_PLAN]];
      var m := JobFailedOn(job.labels[LABEL_NODE]);
      FindMark(p.status.conditions, COMPLETE, False, m, ReasonFor("JobFailed", Some(m)), d, COMPLETE);
    }
  }

  /** A worker that drops its work or carries it on. */
  ghost predicate WorkerCarries(s: State, t: State) {
    !t.worker.Idle? ==> !s.worker.Idle? && t.worker.base == s.worker.base && t.worker.status == s.worker.status && t.worker.at == s.worker.at
  }

  /** Steps that write no status: at most the spec of a new version differs, and reads are of the last version. */
  ghost predicate Uneventful(s: State, t: State) {
    && |s.versions| > 0 && WorkerCarries(s, t)
    && (t.versions == s.versions || exists spec :: t.versions == s.versions + [Last(s).(spec := spec)])
    && (forall k :: k in t.held ==> t.held[k].version + 1 == |s.versions| || (k in s.held && t.held[k] == s.held[k]))
  }

  lemma UneventfulStep(cfg: Config, s: State, step: Step)
    requires Enabled(cfg, s, step)
    requires !step.SyncStatus? && !step.Generate? && !step.WriteStatus? && !step.ActOnJob?
    ensures Uneventful(s, Do(cfg, s, step))
  {
  }

  lemma UneventfulKeeps(s: State, t: State, cap: int)
    requires Consistent(s) && Uneventful(s, t) && NodesOk(t.nodes)
    ensures Consistent(t)
    ensures BatchesWithin(s, cap) ==> BatchesWithin(t, cap)
  {
    assert StatusOk(Last(s).status);
    assert BatchesWithin(s, cap) ==> |Last(s).status.applying| <= cap;
  }

  /**
   * Every step keeps the invariant and the cap, whatever is edited in between, as
   * long as hostnames stay unique.
   */
  lemma StepKeeps(cfg: Config, s: State, step: Step, cap: int)
    requires Consistent(s) && Enabled(cfg, s, step) && NodesOk(Do(cfg, s, step).nodes)
    ensures Consistent(Do(cfg, s, step))
    ensures BatchesWithin(s, cap) && Capped(Do(cfg, s, step), cap) ==> BatchesWithin(Do(cfg, s, step), cap)
  {
    if step.SyncStatus? { SyncKeeps(cfg, s, step.base, step.secrets, step.poll, cap); }
    else if step.Generate? { GenerateKeeps(cfg, s, step.base, step.selected, cap); }
    else if step.WriteStatus? { PublishKeeps(s, s.worker.base, s.worker.status, cap); }
    else if step.ActOnJob? { 
      ActStatus(cfg, s, step.key, step.lag, step.nodeWrites);
      OutcomeKeeps(s, step.key, step.lag, JobOutcome(cfg, s, step.key, step.lag, step.nodeWrites), cap);
     }
    else {
      UneventfulStep(cfg, s, step);
      UneventfulKeeps(s, Do(cfg, s, step), cap);
    }
  }

  lemma SyncKeeps(cfg: Config, s: State, base: nat, secrets: map<string, Secret>, poll: Result<string>, cap: int)
    requires Consistent(s) && base < |s.versions|
    ensures Consistent(Synced(cfg, s, base, secrets, poll))
    ensures BatchesWithin(s, cap) ==> BatchesWithin(Synced(cfg, s, base, secrets, poll), cap)
  {
    StatusHandlerKeeps(cfg, s.versions[base], secrets, poll, s.clock);
    var r := StatusHandler(cfg, s.versions[base], secrets, poll, s.clock);
    assert StatusOk(s.versions[base].status);
    if r.Ok? { PublishKeeps(s, base, r.value, cap); }
  }

  lemma GenerateKeeps(cfg: Config, s: State, base: nat, selected: Result<seq<Node>>, cap: int)
    requires Consistent(s) && base < |s.versions|
    requires selected.Ok? ==> IsSelection(cfg, s.versions[base], s.nodes.Values, selected.value)
    ensures Consistent(Started(cfg, s, base, selected))
    ensures BatchesWithin(s, cap) && Capped(s, cap) ==> BatchesWithin(Started(cfg, s, base, selected), cap)
  {
    assert StatusOk(s.versions[base].status);
    GeneratedOk(cfg, s.versions[base], s.nodes, selected, s.clock);
  }

  /** What a handler call may write to the plan: the status it read, with Complete false. */
  ghost predicate WritesFailure(s: State, key: JobKey, o: Outcome) {
    && key in s.held && s.held[key].version < |s.versions|
    && (o.status.Some? ==>
          && o.status.value == s.versions[s.held[key].version].status.(conditions := o.status.value.conditions)
          && IsFalse(o.status.value.conditions, COMPLETE))
  }

  lemma ActStatus(cfg: Config, s: State, key: JobKey, lag: int, nodeWrites: bool)
    requires key in s.held && s.held[key].version < |s.versions|
    ensures WritesFailure(s, key, JobOutcome(cfg, s, key, lag, nodeWrites))
  {
    var r := s.held[key];
    var p := s.versions[r.version];
    OutcomeStatus(cfg, r.job, map[p.name := p], s.nodes, s.clock, s.clock + lag, r.version + 1 == |s.versions|, nodeWrites);
  }

  lemma OutcomeKeeps(s: State, key: JobKey, lag: int, o: Outcome, cap: int)
    requires Consistent(s) && WritesFailure(s, key, o) && NodesOk(AfterOutcome(s, key, lag, o).nodes)
    ensures Consistent(AfterOutcome(s, key, lag, o))
    ensures BatchesWithin(s, cap) ==> BatchesWithin(AfterOutcome(s, key, lag, o), cap)
  {
    assert StatusOk(s.versions[s.held[key].version].status);
    if o.status.Some? { PublishKeeps(s, s.held[key].version, o.status.value, cap); }
  }

  /** At most one new version, and unless it is the worker's status write it repeats the batch. */
  ghost predicate BatchRepeats(s: State, t: State) {
    && |s.versions| > 0 && s.versions <= t.versions && |t.versions| <= |s.versions| + 1
    && (|t.versions| > |s.versions| ==> ApplyingNow(t) == ApplyingNow(s))
  }

  lemma UneventfulRepeats(s: State, t: State)
    requires Uneventful(s, t)
    ensures BatchRepeats(s, t)
  {
  }

  lemma SyncRepeats(cfg: Config, s: State, base: nat, secrets: map<string, Secret>, poll: Result<string>)
    requires |s.versions| > 0 && base < |s.versions|
    ensures BatchRepeats(s, Synced(cfg, s, base, secrets, poll))
  {
    StatusHandlerKeeps(cfg, s.versions[base], secrets, poll, s.clock);
  }

  /** A handler call repeats the batch and the plan up to its conditions. */
  ghost predicate PlanRepeats(s: State, t: State) {
    && BatchRepeats(s, t) && t.worker == s.worker
    && (|t.versions| > |s.versions| ==>
          ApplyingNow(t) == ApplyingNow(s) && Last(t) == Last(s).(status := Last(s).status.(conditions := Last(t).status.conditions)))
  }

  lemma OutcomeRepeats(s: State, key: JobKey, lag: int, o: Outcome)
    requires |s.versions| > 0 && WritesFailure(s, key, o)
    ensures PlanRepeats(s, AfterOutcome(s, key, lag, o))
  {
  }

  lemma ActRepeatsBatch(cfg: Config, s: State, key: JobKey, lag: int, nodeWrites: bool)
    requires |s.versions| > 0 && key in s.held && s.held[key].version < |s.versions|
    ensures PlanRepeats(s, ActedOn(cfg, s, key, lag, nodeWrites))
  {
    ActStatus(cfg, s, key, lag, nodeWrites);
    OutcomeRepeats(s, key, lag, JobOutcome(cfg, s, key, lag, nodeWrites));
  }

  /** A freshly computed status, and the selection it comes from. */
  ghost predicate Computes(cfg: Config, s: State, w: Worker, selected: Result<seq<Node>>) {
    && !w.Idle? && w.base < |s.versions|
    && (selected.Ok? ==> IsSelection(cfg, s.versions[w.base], s.nodes.Values, selected.value))
    && var g := GeneratingHandler(cfg, s.versions[w.base], selected, s.clock);
       g.Ok? && w.status == g.value.status && w.at == s.clock
  }

  /** What a transition may do to the batch and to the status waiting to be written. */
  ghost predicate BatchEffect(cfg: Config, s: State, t: State) {
    && |s.versions| > 0 && s.versions <= t.versions && |t.versions| <= |s.versions| + 1
    && (|| BatchRepeats(s, t)
        || (s.worker.Writing? && s.worker.base + 1 == |s.versions| && t.worker.Idle?
            && |t.versions| > |s.versions| && Last(t) == Last(s).(status := s.worker.status)))
    && (WorkerCarries(s, t) || (t.versions == s.versions && exists selected :: Computes(cfg, s, t.worker, selected)))
  }

  lemma WriteEffect(cfg: Config, s: State)
    requires |s.versions| > 0 && Enabled(cfg, s, WriteStatus)
    ensures BatchEffect(cfg, s, Do(cfg, s, WriteStatus))
  {
  }

  lemma StartEffect(cfg: Config, s: State, base: nat, selected: Result<seq<Node>>)
    requires base < |s.versions| && s.worker.Idle? && (selected.Ok? ==> IsSelection(cfg, s.versions[base], s.nodes.Values, selected.value))
    ensures BatchEffect(cfg, s, Started(cfg, s, base, selected))
  {
    var t := Started(cfg, s, base, selected);
    if !t.worker.Idle? { assert Computes(cfg, s, t.worker, selected); }
  }

  lemma StepEffect(cfg: Config, s: State, step: Step)
    requires Consistent(s) && Enabled(cfg, s, step)
    ensures BatchEffect(cfg, s, Do(cfg, s, step))
  {
    if step.SyncStatus? { SyncRepeats(cfg, s, step.base, step.secrets, step.poll); }
    else if step.Generate? { StartEffect(cfg, s, step.base, step.selected); }
    else if step.WriteStatus? { WriteEffect(cfg, s); }
    else if step.ActOnJob? { ActRepeatsBatch(cfg, s, step.key, step.lag, step.nodeWrites); }
    else {
      UneventfulStep(cfg, s, step);
      UneventfulRepeats(s, Do(cfg, s, step));
    }
  }

  lemma NextEffect(cfg: Config, s: State, t: State)
    requires Consistent(s) && Next(cfg, s, t)
    ensures BatchEffect(cfg, s, t)
  {
    var step :| Enabled(cfg, s, step) && t == Do(cfg, s, step);
    StepEffect(cfg, s, step);
  }

  // ----- runs under arbitrary edits -----

  /** Any step, by anybody, that leaves hostnames unique. */
  ghost function AnyStep(cfg: Config): (State, State) -> bool { (s, t) => Next(cfg, s, t) && NodesOk(t.nodes) }

  /** One such step is a run. */
  lemma StepLeads(cfg: Config, s: State, step: Step, t: State)
    requires Enabled(cfg, s, step) && t == Do(cfg, s, step) && NodesOk(t.nodes)
    ensures Leads(AnyStep(cfg), s, t)
  {
    assert Next(cfg, s, t);
    LeadsOne(AnyStep(cfg), s, t);
  }

  ghost predicate IsCleanRun(cfg: Config, run: seq<State>) { Follows(run, AnyStep(cfg)) && Init(run[0]) }

  lemma NextKeeps(cfg: Config, s: State, t: State, cap: int)
    requires Consistent(s) && Next(cfg, s, t) && NodesOk(t.nodes)
    ensures Consistent(t) && s.versions <= t.versions
    ensures BatchesWithin(s, cap) && Capped(t, cap) ==> BatchesWithin(t, cap)
  {
    var step :| Enabled(cfg, s, step) && t == Do(cfg, s, step);
    StepKeeps(cfg, s, step, cap);
    StepEffect(cfg, s, step);
  }

  lemma RunConsistent(cfg: Config, run: seq<State>, j: nat)
    requires IsCleanRun(cfg, run) && j < |run|
    ensures Consistent(run[j])
  {
    var inv := (s: State) => Consistent(s);
    forall s, t | inv(s) && AnyStep(cfg)(s, t) ensures inv(t) { NextKeeps(cfg, s, t, 0); }
    HoldsThroughout(run, AnyStep(cfg), inv, j);
  }

  lemma RunEffect(cfg: Config, run: seq<State>, j: nat)
    requires IsCleanRun(cfg, run) && j + 1 < |run|
    ensures Consistent(run[j]) && BatchEffect(cfg, run[j], run[j + 1])
  {
    RunConsistent(cfg, run, j);
    assert Linked(run, j, AnyStep(cfg));
    NextEffect(cfg, run[j], run[j + 1]);
  }

  /** A run seen as effects on the batch alone. */
  ghost predicate EffectAt(cfg: Config, run: seq<State>, i: nat) {
    i + 1 < |run| && Consistent(run[i]) && BatchEffect(cfg, run[i], run[i + 1])
  }

  ghost predicate Effects(cfg: Config, run: seq<State>) { forall i: nat :: i + 1 < |run| ==> EffectAt(cfg, run, i) }

  lemma RunEffects(cfg: Config, run: seq<State>)
    requires IsCleanRun(cfg, run)
    ensures Effects(cfg, run)
  {
    forall i: nat | i + 1 < |run| ensures EffectAt(cfg, run, i) { RunEffect(cfg, run, i); }
  }

  ghost predicate CapImpliesBound(s: State, cap: int) { Consistent(s) && (Capped(s, cap) ==> BatchesWithin(s, cap)) }

  /** The batch never exceeds the largest limit the plan has had so far, over any edits. */
  lemma BatchBound(cfg: Config, run: seq<State>, j: nat, cap: int)
    requires IsCleanRun(cfg, run) && j < |run| && Capped(run[j], cap)
    ensures |ApplyingNow(run[j])| <= cap
  {
    var inv := (s: State) => CapImpliesBound(s, cap);
    forall s, t | inv(s) && AnyStep(cfg)(s, t) ensures inv(t) {
      NextKeeps(cfg, s, t, cap);
      assert Capped(t, cap) ==> Capped(s, cap);
    }
    HoldsThroughout(run, AnyStep(cfg), inv, j);
  }
}
