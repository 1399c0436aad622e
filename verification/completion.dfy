/** Consequences for whole runs: the batch limit, Complete, pinned nodes and the time window. */
module Completion {
  import opened Types
  import opened Labels
  import opened Text
  import opened Sequences
  import opened Conditions
  import opened Allocator
  import opened Jobs
  import opened Handlers
  import opened Rollout
  import opened Batch

  /** A node is admitted exactly when the kept ones leave room and another node is eligible. */
  lemma AdmissionIff(cfg: Config, p: Plan, nodes: map<string, Node>, r: seq<Node>)
    requires IsSelection(cfg, p, nodes.Values, r)
    ensures (exists n :: n in r && Hostname(n) !in p.status.applying)
            <==> |KeptNodes(p, nodes.Values)| < p.spec.concurrency && KeptNodes(p, nodes.Values) != EligibleNodes(p, nodes.Values)
  {
    var kept, all := KeptNodes(p, nodes.Values), EligibleNodes(p, nodes.Values);
    SortedIsUnique(r, NameOf);
    UniqueSize(r);
    assert kept <= all;
    if kept != all {
      assert all == kept + (all - kept);
      assert all - kept != {};
      if |kept| < p.spec.concurrency {
        assert |Elements(r)| > |kept|;
        assert Elements(r) - kept != {};
        var n :| n in Elements(r) - kept;
        assert n in r && Hostname(n) !in p.status.applying;
      } else {
        assert |Elements(r) - kept| == |Elements(r)| - |kept|;
        assert forall n :: n in r ==> n in Elements(r);
      }
    } else {
      assert forall n :: n in r ==> n in Elements(r);
    }
  }

  /** A ready plan that still lists two hosts that are gone, after its limit was lowered to one. */
  function OverLimitPlan(): Plan {
    Plan("p", "u", map[], map[],
         PlanSpec(1, Ok(AllOf([])), "v", "", "", [], None, None, map[], false, None, []),
         PlanStatus([Condition(VALIDATED, True, "PlanIsValid", NO_MESSAGE, At(0)), Condition(LATEST_RESOLVED, True, "Version", NO_MESSAGE, At(0))],
                    "v", "h", ["a", "b"]))
  }

  function UntouchedNode(): Node { Node("d", "d", map[LABEL_HOSTNAME := "d"], false) }

  lemma UntouchedIsEligible()
    ensures Eligible(OverLimitPlan(), UntouchedNode()) && Hostname(UntouchedNode()) !in OverLimitPlan().status.applying
  {
    ReservedKeysDistinct("p");
    EligibleMeans(OverLimitPlan(), UntouchedNode());
  }

  lemma OverLimitIsReady()
    ensures Ready(OverLimitPlan().status)
  {
    var cs := OverLimitPlan().status.conditions;
    assert Find(cs, VALIDATED) == Some(cs[0]);
    assert VALIDATED[0] != LATEST_RESOLVED[0] && cs[1..][0] == cs[1];
    assert Find(cs[1..], LATEST_RESOLVED) == Some(cs[1]);
  }

  lemma AdmittedIsListed(cfg: Config, p: Plan, r: seq<Node>, now: int, n: Node)
    requires Ready(p.status) && n in r && !AnyNeedsWindowsImage(cfg, r) && p.status.applying != []
    ensures var g := GeneratingHandler(cfg, p, Ok(r), now); g.Ok? && Hostname(n) in g.value.status.applying
  {
    HostnamesHas(r, n);
  }

  /** A batch above the current limit can still admit a node: only the kept ones count against the limit. */
  lemma OverLimitStillAdmits(cfg: Config, now: int) returns (r: seq<Node>)
    ensures var p := OverLimitPlan();
            && |p.status.applying| > p.spec.concurrency
            && IsSelection(cfg, p, map["d" := UntouchedNode()].Values, r)
            && var g := GeneratingHandler(cfg, p, Ok(r), now);
               g.Ok? && "d" in g.value.status.applying && "d" !in p.status.applying
  {
    var p, nodes := OverLimitPlan(), map["d" := UntouchedNode()];
    assert nodes["d"] == UntouchedNode();
    assert nodes.Values == Elements([UntouchedNode()]);
    r := SelectionExists(cfg, p, [UntouchedNode()]);
    UntouchedIsEligible();
    OverLimitIsReady();
    assert UntouchedNode() in EligibleNodes(p, nodes.Values);
    assert KeptNodes(p, nodes.Values) == {};
    AdmissionIff(cfg, p, nodes, r);
    var n :| n in r && Hostname(n) !in p.status.applying;
    assert n in Elements(r);
    assert forall m :: m in r ==> m in Elements(r);
    assert |LABEL_OS| != |LABEL_HOSTNAME|;
    AdmittedIsListed(cfg, p, r, now, n);
  }

  /** An empty selection: nothing kept, and no room or nobody left. */
  lemma EmptySelectionIff(cfg: Config, p: Plan, nodes: map<string, Node>, r: seq<Node>)
    requires IsSelection(cfg, p, nodes.Values, r)
    ensures r == [] <==> KeptNodes(p, nodes.Values) == {} && (p.spec.concurrency <= 0 || EligibleNodes(p, nodes.Values) == {})
  {
    if r == [] { assert Elements(r) == {}; }
  }

  /** With a positive limit, the pass that turns Complete true sees no eligible node; and then it does turn true. */
  lemma CompleteMeansNobodyEligible(cfg: Config, p: Plan, nodes: map<string, Node>, r: seq<Node>, now: int)
    requires p.spec.concurrency >= 1 && IsSelection(cfg, p, nodes.Values, r) && Ready(p.status)
    requires StatusOk(p.status) && !IsTrue(p.status.conditions, COMPLETE)
    ensures var g := GeneratingHandler(cfg, p, Ok(r), now);
            EligibleNodes(p, nodes.Values) == {} <==> g.Ok? && IsTrue(g.value.status.conditions, COMPLETE)
  {
    EmptySelectionIff(cfg, p, nodes, r);
    assert KeptNodes(p, nodes.Values) <= EligibleNodes(p, nodes.Values);
    assert r == [] ==> !AnyNeedsWindowsImage(cfg, r);
    PlannedCompletes(cfg, p, r, now);
  }

  /** Without a positive limit a plan with nothing listed completes at once, whoever is still eligible. */
  lemma ZeroLimitCompletesEarly(cfg: Config, p: Plan, nodes: map<string, Node>, r: seq<Node>, now: int)
    requires p.spec.concurrency <= 0 && IsSelection(cfg, p, nodes.Values, r) && Ready(p.status)
    requires p.status.applying == [] && !IsTrue(p.status.conditions, COMPLETE)
    ensures var g := GeneratingHandler(cfg, p, Ok(r), now); g.Ok? && IsTrue(g.value.status.conditions, COMPLETE)
  {
    assert KeptNodes(p, nodes.Values) == {};
    EmptySelectionIff(cfg, p, nodes, r);
    assert !AnyNeedsWindowsImage(cfg, r);
    PlannedCompletes(cfg, p, r, now);
  }

  lemma PlannedCompletes(cfg: Config, p: Plan, r: seq<Node>, now: int)
    requires !IsTrue(p.status.conditions, COMPLETE)
    ensures IsTrue(Planned(cfg, p, r, now).status.conditions, COMPLETE) <==> r == []
  {
    if r == [] { FindMark(p.status.conditions, COMPLETE, True, NO_MESSAGE, ReasonFor("Complete", None), now, COMPLETE); }
    else if p.status.applying == [] && OutsideWindow(p.spec, now) { EarlyCalm(p, "Waiting", NotWithinWindow, now); }
    else { FindMark(p.status.conditions, COMPLETE, False, NO_MESSAGE, "SyncJob", now, COMPLETE); }
  }

  /** In every state of every run, Complete is true only while nothing is being applied. */
  lemma CompleteOnlyWhenNothingApplies(cfg: Config, run: seq<State>, j: nat)
    requires IsCleanRun(cfg, run) && j < |run|
    ensures Consistent(run[j]) && (IsTrue(Last(run[j]).status.conditions, COMPLETE) ==> ApplyingNow(run[j]) == [])
  {
    RunConsistent(cfg, run, j);
  }

  // ----- a node that never gets the hash stays -----

  /** Node `n` is listed, and any status write that could still succeed keeps it listed. */
  ghost predicate Pinned(s: State, n: string, host: string) {
    && |s.versions| > 0
    && host in ApplyingNow(s)
    && (!s.worker.Idle? && s.worker.base + 1 == |s.versions| ==> host in s.worker.status.applying)
  }

  ghost predicate KeepsMatching(s: State, n: string, host: string) {
    |s.versions| > 0 && n in s.nodes && Hostname(s.nodes[n]) == host && Eligible(Last(s), s.nodes[n])
  }

  lemma {:induction false} HostnamesHas(nodes: seq<Node>, n: Node)
    requires n in nodes
    ensures Hostname(n) in Hostnames(nodes)
  {
    var i :| 0 <= i < |nodes| && nodes[i] == n;
    assert Hostnames(nodes)[i] == Hostname(n);
  }

  lemma KeptIsSelected(cfg: Config, p: Plan, nodes: set<Node>, r: seq<Node>, n: Node)
    requires IsSelection(cfg, p, nodes, r)
    requires n in nodes && Eligible(p, n) && Hostname(n) in p.status.applying
    ensures n in r
  {
    assert n in KeptNodes(p, nodes);
    assert n in Elements(r);
  }

  lemma PlannedKeepsListed(cfg: Config, p: Plan, nodes: seq<Node>, now: int, n: Node)
    requires Hostname(n) in p.status.applying && n in nodes
    ensures Hostname(n) in Planned(cfg, p, nodes, now).status.applying
  {
    HostnamesHas(nodes, n);
  }

  lemma GenerateKeepsListed(cfg: Config, p: Plan, selected: Result<seq<Node>>, now: int, n: Node)
    requires Hostname(n) in p.status.applying && (selected.Ok? ==> n in selected.value)
    ensures var g := GeneratingHandler(cfg, p, selected, now); g.Ok? ==> Hostname(n) in g.value.status.applying
  {
    if !Ready(p.status) {
      EarlyCalm(p, "NotReady", NotValidAndResolved, now);
    } else if selected.Ok? {
      PlannedKeepsListed(cfg, p, selected.value, now, n);
    }
  }

  ghost predicate Matching(run: seq<State>, i: nat, j: nat, n: string, host: string) {
    i <= j < |run| && forall k :: i <= k <= j ==> KeepsMatching(run[k], n, host)
  }

  lemma PinnedNext(cfg: Config, s: State, t: State, n: string, host: string)
    requires Consistent(s) && BatchEffect(cfg, s, t) && Pinned(s, n, host) && KeepsMatching(s, n, host)
    ensures Pinned(t, n, host)
  {
    if !t.worker.Idle? && t.worker.base + 1 == |t.versions| && exists selected :: Computes(cfg, s, t.worker, selected) {
      var selected :| Computes(cfg, s, t.worker, selected);
      if t.versions == s.versions {
        if selected.Ok? { KeptIsSelected(cfg, Last(s), s.nodes.Values, selected.value, s.nodes[n]); }
        GenerateKeepsListed(cfg, Last(s), selected, s.clock, s.nodes[n]);
      }
    }
  }

  ghost predicate Admits(s: State, t: State, host: string) {
    |s.versions| > 0 && |t.versions| > 0 && host !in ApplyingNow(s) && host in ApplyingNow(t)
  }

  /** A host is listed by a status write, after which nothing else is waiting to be written. */
  lemma AdmittedIsPinned(cfg: Config, s: State, t: State, n: string, host: string)
    requires BatchEffect(cfg, s, t) && Admits(s, t, host)
    ensures Pinned(t, n, host)
  {
    if |t.versions| == |s.versions| { assert t.versions == s.versions; }
  }

  lemma {:induction false} StaysListed(cfg: Config, run: seq<State>, i: nat, j: nat, n: string, host: string)
    requires Effects(cfg, run) && Matching(run, i, j, n, host)
    requires Pinned(run[i], n, host)
    ensures Pinned(run[j], n, host)
    decreases j
  {
    if i < j {
      StaysListed(cfg, run, i, j - 1, n, host);
      assert EffectAt(cfg, run, j - 1);
      assert KeepsMatching(run[j - 1], n, host);
      PinnedNext(cfg, run[j - 1], run[j], n, host);
    }
  }

  /**
   * A listed node that keeps matching without ever getting the current hash keeps its
   * slot for the rest of the run, and the plan never completes, whatever happens to
   * the concurrency, the other nodes, the jobs or the controller. It holds from the moment the
   * host is listed, and from any later one at which no status that drops it waits to be written.
   */
  lemma UnfinishedNodePinsPlan(cfg: Config, run: seq<State>, i: nat, j: nat, n: string, host: string)
    requires IsCleanRun(cfg, run) && Matching(run, i, j, n, host)
    requires Pinned(run[i], n, host) || (i > 0 && Admits(run[i - 1], run[i], host))
    ensures Pinned(run[j], n, host) && !IsTrue(Last(run[j]).status.conditions, COMPLETE)
  {
    RunEffects(cfg, run);
    if !Pinned(run[i], n, host) {
      assert EffectAt(cfg, run, i - 1);
      AdmittedIsPinned(cfg, run[i - 1], run[i], n, host);
    }
    StaysListed(cfg, run, i, j, n, host);
    CompleteOnlyWhenNothingApplies(cfg, run, j);
  }

  // ----- the time window -----

  /** A status that opens a batch was computed inside the window. */
  ghost predicate OpensInWindow(s: State) {
    !s.worker.Idle? && s.worker.base < |s.versions|
    && s.versions[s.worker.base].status.applying == [] && s.worker.status.applying != []
    ==> !OutsideWindow(s.versions[s.worker.base].spec, s.worker.at)
  }

  lemma GenerateOpensInWindow(cfg: Config, p: Plan, selected: Result<seq<Node>>, now: int)
    ensures var g := GeneratingHandler(cfg, p, selected, now);
            g.Ok? && p.status.applying == [] && g.value.status.applying != [] ==> !OutsideWindow(p.spec, now)
  {
    if !Ready(p.status) { EarlyCalm(p, "NotReady", NotValidAndResolved, now); }
    else if p.status.applying == [] && OutsideWindow(p.spec, now) { EarlyCalm(p, "Waiting", NotWithinWindow, now); }
  }

  /** This transition goes from an empty to a non-empty batch, by a status computed inside the window. */
  ghost predicate OpensBatch(s: State, t: State) {
    && |s.versions| > 0 && |t.versions| > 0 && ApplyingNow(s) == [] && ApplyingNow(t) != []
    && s.worker.Writing? && s.worker.base + 1 == |s.versions| && ApplyingNow(t) == s.worker.status.applying
    && (Last(s).spec.window.Some? ==> Last(s).spec.window.value(s.worker.at))
  }

  lemma WindowNext(cfg: Config, s: State, t: State)
    requires Consistent(s) && OpensInWindow(s) && BatchEffect(cfg, s, t)
    ensures OpensInWindow(t)
    ensures ApplyingNow(s) == [] && ApplyingNow(t) != [] ==> OpensBatch(s, t)
  {
    if !t.worker.Idle? && exists selected :: Computes(cfg, s, t.worker, selected) {
      var selected :| Computes(cfg, s, t.worker, selected);
      GenerateOpensInWindow(cfg, s.versions[t.worker.base], selected, s.clock);
    }
  }

  lemma {:induction false} RunOpensInWindow(cfg: Config, run: seq<State>, j: nat)
    requires Effects(cfg, run) && j < |run| && OpensInWindow(run[0])
    ensures OpensInWindow(run[j])
    decreases j
  {
    if j > 0 {
      RunOpensInWindow(cfg, run, j - 1);
      assert EffectAt(cfg, run, j - 1);
      WindowNext(cfg, run[j - 1], run[j]);
    }
  }

  ghost predicate BatchOpen(s: State) { |s.versions| > 0 && ApplyingNow(s) != [] }

  lemma {:induction false} StretchOpened(cfg: Config, run: seq<State>, j: nat) returns (i: nat)
    requires Effects(cfg, run) && j < |run| && OpensInWindow(run[0]) && !BatchOpen(run[0]) && BatchOpen(run[j])
    ensures i < j && OpensBatch(run[i], run[i + 1]) && forall k :: i < k <= j ==> BatchOpen(run[k])
  {
    RunOpensInWindow(cfg, run, j - 1);
    assert EffectAt(cfg, run, j - 1);
    WindowNext(cfg, run[j - 1], run[j]);
    if BatchOpen(run[j - 1]) {
      i := StretchOpened(cfg, run, j - 1);
    } else {
      i := j - 1;
    }
  }

  /**
   * Every moment with a non-empty batch lies in an unbroken stretch that was opened
   * by a status computed inside the window of the plan as it then was.
   */
  lemma BatchOpenedInWindow(cfg: Config, run: seq<State>, j: nat) returns (i: nat)
    requires IsCleanRun(cfg, run) && j < |run| && !BatchOpen(run[0]) && BatchOpen(run[j])
    ensures i < j && OpensBatch(run[i], run[i + 1]) && forall k :: i < k <= j ==> BatchOpen(run[k])
  {
    RunEffects(cfg, run);
    i := StretchOpened(cfg, run, j);
  }
}
