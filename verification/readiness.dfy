/** What a generating pass does, branch by branch, and from which plan versions work can come at all. */
module Readiness {
  import opened Types
  import opened Labels
  import opened Text
  import opened Sequences
  import opened Conditions
  import opened Allocator
  import opened Jobs
  import opened Handlers
  import opened Rollout
  import opened Batch
  import opened Completion

  // ----- one pass -----

  /** The plan shows valid and resolved. */
  ghost predicate BothTrue(st: PlanStatus) {
    var v, l := Find(st.conditions, VALIDATED), Find(st.conditions, LATEST_RESOLVED);
    v.Some? && v.value.status == True && l.Some? && l.value.status == True
  }

  /** An early return: the by-value status, with Complete false for this reason if the entry existed. */
  ghost predicate HandsBack(p: Plan, g: Generated, reason: string, m: Message) {
    && g.jobs == [] && g.status == p.status.(conditions := g.status.conditions)
    && (if Has(p.status.conditions, COMPLETE) then Shows(g.status.conditions, COMPLETE, False, m, reason)
        else g.status.conditions == p.status.conditions)
  }

  lemma EarlyHandsBack(p: Plan, reason: string, m: Message, now: int)
    requires reason != ""
    ensures HandsBack(p, EarlyReturn(p, reason, m, now), reason, m)
  {
    MarkDraftWhole(NewDraft(p.status.conditions), COMPLETE, False, m, ReasonFor(reason, Some(m)), now);
    SetErrorShows(p.status.conditions, COMPLETE, reason, Some(m), now);
  }

  /** If Validated or LatestResolved is missing or not true, a pass returns no job and keeps the batch, whatever could be selected. */
  lemma UnreadyStartsNothing(cfg: Config, p: Plan, selected: Result<seq<Node>>, now: int)
    requires !BothTrue(p.status)
    ensures var g := GeneratingHandler(cfg, p, selected, now);
            && g.Ok? && HandsBack(p, g.value, "NotReady", NotValidAndResolved)
            && (IsTrue(g.value.status.conditions, COMPLETE) ==> IsTrue(p.status.conditions, COMPLETE))
  {
    EarlyHandsBack(p, "NotReady", NotValidAndResolved, now);
    EarlyCalm(p, "NotReady", NotValidAndResolved, now);
  }

  /** A Windows node without an image for it. */
  ghost predicate Imageless(cfg: Config, n: Node) {
    "kubernetes.io/os" in n.labels && n.labels["kubernetes.io/os"] == "windows" && cfg.windowsImage == ""
  }

  /** A pass of a ready plan fails exactly when the selection does or a selected Windows node has no image. */
  lemma PassFailsIff(cfg: Config, p: Plan, selected: Result<seq<Node>>, now: int)
    requires BothTrue(p.status)
    ensures GeneratingHandler(cfg, p, selected, now).Err? <==>
            selected.Err? || exists n :: n in selected.value && Imageless(cfg, n)
  {
    if selected.Ok? {
      if n :| n in selected.value && Imageless(cfg, n) { assert NeedsWindowsImage(cfg, n); }
      if n :| n in selected.value && NeedsWindowsImage(cfg, n) { assert Imageless(cfg, n); }
    }
  }

  /** With nothing selected the batch is emptied and Complete shows true. */
  lemma EmptyPassCompletes(cfg: Config, p: Plan, now: int)
    requires BothTrue(p.status)
    ensures var g := GeneratingHandler(cfg, p, Ok([]), now);
            g.Ok? && g.value.jobs == [] && g.value.status.applying == [] && Shows(g.value.status.conditions, COMPLETE, True, NO_MESSAGE, "Complete")
  {
    SetErrorShows(p.status.conditions, COMPLETE, "Complete", None, now);
  }

  /** Nothing in progress and the clock outside the window. */
  ghost predicate Closed(p: Plan, now: int) { p.status.applying == [] && p.spec.window.Some? && !p.spec.window.value(now) }

  lemma ClosedPassWaits(cfg: Config, p: Plan, r: seq<Node>, now: int)
    requires BothTrue(p.status) && r != [] && Closed(p, now) && forall n :: n in r ==> !Imageless(cfg, n)
    ensures var g := GeneratingHandler(cfg, p, Ok(r), now); g.Ok? && HandsBack(p, g.value, "Waiting", NotWithinWindow)
  {
    PassFailsIff(cfg, p, Ok(r), now);
    EarlyHandsBack(p, "Waiting", NotWithinWindow, now);
  }

  /** Otherwise there is one job per selected node, in order, and the batch is their hosts; Complete is reset only if that is news. */
  lemma OpenPassLists(cfg: Config, p: Plan, r: seq<Node>, now: int)
    requires BothTrue(p.status) && r != [] && !Closed(p, now) && forall n :: n in r ==> !Imageless(cfg, n)
    ensures var g := GeneratingHandler(cfg, p, Ok(r), now);
            && g.Ok? && |g.value.jobs| == |r| == |g.value.status.applying|
            && (forall i :: 0 <= i < |r| ==>
                  && g.value.jobs[i] == NewJob(cfg, p, r[i])
                  && g.value.status.applying[i] == if LABEL_HOSTNAME in r[i].labels then r[i].labels[LABEL_HOSTNAME] else r[i].name)
            && (if g.value.status.applying == p.status.applying then g.value.status == p.status
                else Shows(g.value.status.conditions, COMPLETE, False, NO_MESSAGE, "SyncJob"))
  {
    PassFailsIff(cfg, p, Ok(r), now);
    FindMark(p.status.conditions, COMPLETE, False, NO_MESSAGE, "SyncJob", now, COMPLETE);
  }

  // ----- whole runs -----

  /** Jobs waiting to be applied come from a version that showed valid and resolved. */
  ghost predicate WorkIsReady(s: State) {
    s.worker.Applying? && s.worker.jobs != [] ==> s.worker.base < |s.versions| && BothTrue(s.versions[s.worker.base].status)
  }

  /** Hosts waiting to be listed come from a version that showed valid and resolved. */
  ghost predicate NewsIsReady(s: State) {
    !s.worker.Idle? && s.worker.base < |s.versions| && (exists h :: h in s.worker.status.applying && h !in s.versions[s.worker.base].status.applying)
    ==> BothTrue(s.versions[s.worker.base].status)
  }

  lemma StartIsReady(cfg: Config, s: State, base: nat, selected: Result<seq<Node>>)
    requires base < |s.versions| && s.worker.Idle?
    ensures WorkIsReady(Started(cfg, s, base, selected))
  {
    if !BothTrue(s.versions[base].status) { UnreadyStartsNothing(cfg, s.versions[base], selected, s.clock); }
  }

  /** Besides a pass, a step leaves the waiting jobs alone or drops them. */
  lemma WorkOnlyBy(cfg: Config, s: State, step: Step)
    requires Enabled(cfg, s, step) && !step.Generate?
    ensures var t := Do(cfg, s, step);
            && s.versions <= t.versions
            && (t.worker.Applying? ==> s.worker.Applying? && t.worker.base == s.worker.base && t.worker.jobs == s.worker.jobs)
  {
  }

  ghost predicate HasWork(s: State) { s.worker.Applying? && s.worker.jobs != [] }

  lemma ReadyNext(cfg: Config, s: State, t: State)
    requires WorkIsReady(s) && Next(cfg, s, t)
    ensures WorkIsReady(t)
  {
    var step :| Enabled(cfg, s, step) && t == Do(cfg, s, step);
    if step.Generate? { StartIsReady(cfg, s, step.base, step.selected); }
    else {
      WorkOnlyBy(cfg, s, step);
      if HasWork(t) { assert t.versions[s.worker.base] == s.versions[s.worker.base]; }
    }
  }

  /** The job appears, or is unpaused. */
  ghost predicate Begins(s: State, t: State, k: JobKey) {
    k in t.jobs && (k !in s.jobs || (s.jobs[k].parallelism <= 0 < t.jobs[k].parallelism))
  }

  lemma BeginsOnlyByApply(cfg: Config, s: State, step: Step, k: JobKey)
    requires Enabled(cfg, s, step) && Begins(s, Do(cfg, s, step), k)
    ensures step.ApplyOne? && HasWork(s)
  {
  }

  /** In every run, with any edits, a job is created or unpaused only for a version that showed valid and resolved. */
  lemma WorkComesFromReadyVersions(cfg: Config, run: seq<State>, i: nat, k: JobKey)
    requires IsCleanRun(cfg, run) && i + 1 < |run| && Begins(run[i], run[i + 1], k)
    ensures var s := run[i];
            s.worker.Applying? && s.worker.base < |s.versions| && BothTrue(s.versions[s.worker.base].status)
  {
    var inv := (s: State) => WorkIsReady(s);
    forall s, t | inv(s) && AnyStep(cfg)(s, t) ensures inv(t) { ReadyNext(cfg, s, t); }
    HoldsThroughout(run, AnyStep(cfg), inv, i);
    assert Linked(run, i, AnyStep(cfg));
    var step :| Enabled(cfg, run[i], step) && run[i + 1] == Do(cfg, run[i], step);
    BeginsOnlyByApply(cfg, run[i], step, k);
  }

  lemma NewsNext(cfg: Config, s: State, t: State)
    requires Consistent(s) && NewsIsReady(s) && BatchEffect(cfg, s, t)
    ensures NewsIsReady(t)
  {
    if !t.worker.Idle? && exists selected :: Computes(cfg, s, t.worker, selected) {
      var selected :| Computes(cfg, s, t.worker, selected);
      var v := s.versions[t.worker.base];
      if !BothTrue(v.status) { UnreadyStartsNothing(cfg, v, selected, s.clock); }
    }
  }

  lemma {:induction false} RunNewsReady(cfg: Config, run: seq<State>, j: nat)
    requires Effects(cfg, run) && j < |run| && NewsIsReady(run[0])
    ensures NewsIsReady(run[j])
  {
    if j > 0 {
      RunNewsReady(cfg, run, j - 1);
      assert EffectAt(cfg, run, j - 1);
      NewsNext(cfg, run[j - 1], run[j]);
    }
  }

  /** In every run, with any edits, a host is listed only by a status computed from a version that showed valid and resolved. */
  lemma HostsComeFromReadyVersions(cfg: Config, run: seq<State>, i: nat, host: string)
    requires IsCleanRun(cfg, run) && i + 1 < |run| && Admits(run[i], run[i + 1], host)
    ensures run[i].worker.Writing? && run[i].worker.base + 1 == |run[i].versions| && BothTrue(Last(run[i]).status)
  {
    RunEffects(cfg, run);
    RunNewsReady(cfg, run, i);
    assert EffectAt(cfg, run, i);
    var s, t := run[i], run[i + 1];
    assert |t.versions| == |s.versions| ==> t.versions == s.versions;
    assert host in s.worker.status.applying && host !in s.versions[s.worker.base].status.applying;
  }
}
