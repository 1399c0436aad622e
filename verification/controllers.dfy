/** The handlers as they run: they mutate a copy of the plan, and their callers decide what is persisted. */
module Controllers {
  import opened Types
  import opened Labels
  import opened Sequences
  import opened Conditions
  import opened Allocator
  import opened Jobs
  import opened Handlers
  import opened Rollout
  import opened Batch
  import Applies
  import opened Objects

  /** A fresh copy of the plan, whose array the by-value status shares. */
  ghost predicate Shares(p: Plan, obj: PlanObject, status: StatusValue)
    reads obj, obj.conditions, obj.original
  {
    && obj.Valid() && obj.conditions == obj.original && obj.Status() == p.status
    && status == StatusValue(obj.conditions, obj.count, obj.latestVersion, obj.latestHash, obj.applying)
  }

  ghost predicate Agrees(r: Result<StatusValue>, spec: Result<PlanStatus>)
    reads if r.Ok? then {r.value.conditions} else {}
  {
    if r.Ok? then spec == Ok(Contents(r.value)) else spec.Err?
  }

  // ----- digest and validation -----

  method CheckSecrets(specs: seq<SecretSpec>, secrets: map<string, Secret>) returns (ok: bool)
    ensures ok <==> SecretsPresent(specs, secrets)
  {
    ok := true;
    for i := 0 to |specs|
      invariant ok <==> SecretsPresent(specs[..i], secrets)
    {
      if !specs[i].ignoreUpdates && specs[i].name !in secrets { ok := false; }
      assert specs[..i + 1] == specs[..i] + [specs[i]];
    }
    assert specs[..|specs|] == specs;
  }

  /** A plan is valid exactly when nothing is wrong with its drain and window settings, its delay is not negative, and every hashed secret exists. */
  method RunValidate(spec: PlanSpec, secrets: map<string, Secret>) returns (err: Option<Message>)
    ensures err.None? <==> spec.fault.None? && DelayOf(spec) >= 0
                           && forall e :: e in spec.secrets && !e.ignoreUpdates ==> e.name in secrets
    ensures spec.fault.Some? ==> err == spec.fault
    ensures spec.fault.None? && DelayOf(spec) < 0 ==> err == Some(DelayIsNegative)
    ensures err == Validate(spec, secrets)
  {
    if spec.fault.Some? { return spec.fault; }
    if spec.postCompleteDelay.Some? && spec.postCompleteDelay.value < 0 { return Some(DelayIsNegative); }
    var ok := CheckSecrets(spec.secrets, secrets);
    err := if ok then None else Some(SecretNotFound);
  }

  lemma {:induction false} DigestPrefix(cfg: Config, specs: seq<SecretSpec>, secrets: map<string, Secret>, i: nat)
    requires i < |specs|
    ensures SecretDigests(cfg, specs[i..], secrets) ==
            if specs[i].ignoreUpdates then SecretDigests(cfg, specs[i + 1..], secrets)
            else if specs[i].name !in secrets then Err(Says(specs[i].name))
            else match SecretDigests(cfg, specs[i + 1..], secrets)
                 case Err(e) => Err(e)
                 case Ok(rest) => Ok(cfg.secretHash(secrets[specs[i].name]) + rest)
  {
    assert specs[i..][1..] == specs[i + 1..];
  }

  /** What is still to be hashed, appended to what has been. */
  ghost predicate Completes(whole: Result<string>, done: string, rest: Result<string>) {
    whole.Ok? == rest.Ok? && (rest.Ok? ==> whole.value == done + rest.value)
  }

  /** The running hash over the secrets; the first missing one is an error. */
  method HashSecrets(cfg: Config, specs: seq<SecretSpec>, secrets: map<string, Secret>) returns (r: Result<string>)
    ensures r.Ok? == SecretDigests(cfg, specs, secrets).Ok?
    ensures r.Ok? ==> r == SecretDigests(cfg, specs, secrets)
  {
    var written := "";
    assert specs[0..] == specs;
    for i := 0 to |specs|
      invariant Completes(SecretDigests(cfg, specs, secrets), written, SecretDigests(cfg, specs[i..], secrets))
    {
      DigestPrefix(cfg, specs, secrets, i);
      if !specs[i].ignoreUpdates {
        if specs[i].name !in secrets { return Err(Says(specs[i].name)); }
        written := written + cfg.secretHash(secrets[specs[i].name]);
      }
    }
    assert specs[|specs|..] == [] && written + "" == written;
    r := Ok(written);
  }

  method RunDigest(cfg: Config, spec: PlanSpec, obj: PlanObject, secrets: map<string, Secret>) returns (r: Result<StatusValue>)
    requires obj.Valid()
    modifies obj`latestHash
    ensures Agrees(r, DigestStatus(cfg, spec, old(obj.Status()), secrets))
    ensures obj.Valid() && (r.Ok? ==> Contents(r.value) == obj.Status())
  {
    var c := obj.Lookup(LATEST_RESOLVED);
    if c.None? || c.value.reason != "Error" {
      var d := HashSecrets(cfg, spec.secrets, secrets);
      if d.Err? { return Err(d.error); }
      obj.latestHash := cfg.sha224(obj.latestVersion + spec.serviceAccount + Concat(spec.digested) + d.value);
    }
    var v := obj.ByValue();
    r := Ok(v);
  }

  // ----- the status handler -----

  /** A new version resets Complete. */
  method RunAnnounce(p: Plan, obj: PlanObject, latest: string, now: int)
    requires obj.Valid() && obj.latestVersion == p.status.latestVersion
    modifies obj`conditions, obj`count, obj.conditions
    ensures obj.Valid() && (fresh(obj.conditions) || obj.conditions == old(obj.conditions))
    ensures obj.Sides() == Announce(old(obj.Sides()), p.status, latest, now)
  {
    var c := obj.Lookup(LATEST_RESOLVED);
    if !(c.Some? && c.value.status == True) || obj.latestVersion != latest {
      obj.Mark(COMPLETE, False, NO_MESSAGE, "Resolved", now);
    }
  }

  method RunResolve(cfg: Config, p: Plan, obj: PlanObject, latest: string, reason: string, secrets: map<string, Secret>, now: int)
    returns (r: Result<StatusValue>)
    requires obj.Valid() && obj.Status() == p.status.(conditions := obj.View())
    modifies obj, obj.conditions
    ensures Agrees(r, Resolved(cfg, p, old(obj.Sides()), latest, reason, secrets, now))
  {
    RunAnnounce(p, obj, latest, now);
    obj.latestVersion := latest;
    obj.SetError(LATEST_RESOLVED, reason, None, now);
    r := RunDigest(cfg, p.spec, obj, secrets);
  }

  /** Make sure Complete and Validated exist, and record the outcome of the validation. */
  method RunValidation(p: Plan, obj: PlanObject, secrets: map<string, Secret>, now: int) returns (err: Option<Message>)
    requires obj.Valid() && obj.Sides() == NewDraft(p.status.conditions)
    modifies obj`conditions, obj`count, obj.conditions
    ensures obj.Valid() && (fresh(obj.conditions) || obj.conditions == old(obj.conditions))
    ensures err == Validate(p.spec, secrets) && obj.Sides() == ValidatedDraft(p, secrets, now)
  {
    obj.Write(COMPLETE, Create, now);
    obj.Write(VALIDATED, Create, now);
    err := RunValidate(p.spec, secrets);
    if err.Some? {
      obj.SetError(VALIDATED, "Error", err, now);
    } else {
      obj.SetError(VALIDATED, "PlanIsValid", None, now);
    }
  }

  /** The time stamp of LatestResolved still throttles the channel. */
  method IsRecent(cfg: Config, obj: PlanObject, now: int) returns (recent: bool)
    requires obj.Valid()
    ensures recent <==> Throttled(cfg, obj.View(), now)
  {
    var c := obj.Lookup(LATEST_RESOLVED);
    recent := c.Some? && c.value.status == True && c.value.lastUpdate.At? && now - c.value.lastUpdate.seconds * SECOND < cfg.pollingInterval;
  }

  /** Resolve the version of a valid plan from its spec or its channel. */
  method RunResolution(cfg: Config, p: Plan, obj: PlanObject, status: StatusValue,
                       secrets: map<string, Secret>, poll: Result<string>, now: int)
    returns (r: Result<StatusValue>)
    requires obj.Valid() && obj.Status() == p.status.(conditions := obj.View())
    requires status.conditions == obj.original && status.count == obj.original.Length
    requires Contents(status) == p.status.(conditions := obj.Sides().shared)
    modifies obj, obj.conditions
    ensures Agrees(r, ResolveValid(cfg, p, old(obj.Sides()), secrets, poll, now))
  {
    obj.Write(LATEST_RESOLVED, Create, now);
    if p.spec.version == "" && p.spec.channel == "" {
      obj.SetError(LATEST_RESOLVED, "Error", Some(CannotResolve), now);
      r := RunDigest(cfg, p.spec, obj, secrets);
    } else if p.spec.version != "" {
      r := RunResolve(cfg, p, obj, MungeVersion(p.spec.version), "Version", secrets, now);
    } else {
      var recent := IsRecent(cfg, obj, now);
      if recent {
        r := Ok(status);
      } else if poll.Err? {
        r := Err(poll.error);
      } else {
        r := RunResolve(cfg, p, obj, MungeVersion(poll.value), "Channel", secrets, now);
      }
    }
  }

  /** The status handler: every branch returns what the specification says, early returns included. */
  method RunStatusHandler(cfg: Config, p: Plan, obj: PlanObject, status: StatusValue,
                          secrets: map<string, Secret>, poll: Result<string>, now: int)
    returns (r: Result<StatusValue>)
    requires Shares(p, obj, status)
    modifies obj, obj.conditions
    ensures Agrees(r, StatusHandler(cfg, p, secrets, poll, now))
  {
    var err := RunValidation(p, obj, secrets, now);
    if err.Some? {
      r := RunDigest(cfg, p.spec, obj, secrets);
    } else {
      r := RunResolution(cfg, p, obj, status, secrets, poll, now);
    }
  }

  // ----- the generating handler -----

  /** The jobs and hostnames of the selected nodes, unless a Windows node lacks its image. */
  method BuildJobs(cfg: Config, p: Plan, nodes: seq<Node>) returns (r: Result<seq<Job>>, names: seq<string>)
    ensures r.Err? <==> AnyNeedsWindowsImage(cfg, nodes)
    ensures r.Ok? ==> r.value == JobsFor(cfg, p, nodes) && names == Hostnames(nodes)
  {
    var objects: seq<Job> := [];
    names := [];
    for i := 0 to |nodes|
      invariant |objects| == i && |names| == i
      invariant forall j :: 0 <= j < i ==> !NeedsWindowsImage(cfg, nodes[j])
      invariant forall j :: 0 <= j < i ==> objects[j] == NewJob(cfg, p, nodes[j]) && names[j] == Hostname(nodes[j])
    {
      if NeedsWindowsImage(cfg, nodes[i]) { return Err(WindowsImageRequired), names; }
      var job := BuildJob(cfg, p, nodes[i]);
      objects := objects + [job];
      names := names + [Hostname(nodes[i])];
    }
    r := Ok(objects);
  }

  datatype Output = Output(jobs: seq<Job>, status: StatusValue)

  ghost predicate AgreesGenerated(r: Result<Output>, spec: Result<Generated>)
    reads if r.Ok? then {r.value.status.conditions} else {}
  {
    if r.Ok? then spec == Ok(Generated(r.value.jobs, Contents(r.value.status))) else spec.Err?
  }

  /** A new batch: list the names and turn Complete false. */
  method ListBatch(p: Plan, obj: PlanObject, names: seq<string>, now: int) returns (v: StatusValue)
    requires obj.Valid() && obj.conditions == obj.original && obj.Status() == p.status
    modifies obj, obj.conditions
    ensures Contents(v) == p.status.(applying := names, conditions := Mark(p.status.conditions, COMPLETE, False, NO_MESSAGE, "SyncJob", now))
  {
    MarkDraftWhole(obj.Sides(), COMPLETE, False, NO_MESSAGE, "SyncJob", now);
    obj.applying := names;
    obj.Mark(COMPLETE, False, NO_MESSAGE, "SyncJob", now);
    v := obj.ByValue();
  }

  /** Nobody left: empty the batch and turn Complete true. */
  method CompletePlan(p: Plan, obj: PlanObject, now: int) returns (v: StatusValue)
    requires obj.Valid() && obj.conditions == obj.original && obj.Status() == p.status
    modifies obj, obj.conditions
    ensures Contents(v) == p.status.(applying := [], conditions := SetError(p.status.conditions, COMPLETE, "Complete", None, now))
  {
    MarkDraftWhole(obj.Sides(), COMPLETE, True, NO_MESSAGE, "Complete", now);
    obj.applying := [];
    obj.SetError(COMPLETE, "Complete", None, now);
    v := obj.ByValue();
  }

  /** Window check, batch update and completion, once the nodes and their jobs are known. */
  method RunPlanned(cfg: Config, p: Plan, obj: PlanObject, status: StatusValue, nodes: seq<Node>, jobs: seq<Job>, names: seq<string>, now: int)
    returns (r: Output)
    requires Shares(p, obj, status) && jobs == JobsFor(cfg, p, nodes) && names == Hostnames(nodes)
    modifies obj, obj.conditions
    ensures Generated(r.jobs, Contents(r.status)) == Planned(cfg, p, nodes, now)
  {
    var v;
    if |names| > 0 {
      if p.spec.window.Some? && |obj.applying| == 0 && !p.spec.window.value(now) {
        obj.SetError(COMPLETE, "Waiting", Some(NotWithinWindow), now);
        return Output([], status);
      }
      if obj.applying != names { v := ListBatch(p, obj, names, now); } else { v := obj.ByValue(); }
    } else {
      v := CompletePlan(p, obj, now);
    }
    r := Output(jobs, v);
  }

  /** The generating handler; `selected` is the selection it made. */
  method RunGeneratingHandler(cfg: Config, p: Plan, obj: PlanObject, status: StatusValue, cache: NodeCache, now: int)
    returns (r: Result<Output>, ghost selected: Result<seq<Node>>)
    requires Shares(p, obj, status)
    requires Unique(cache.nodes) && DistinctNodes(cfg, p, Elements(cache.nodes))
    modifies obj, obj.conditions
    ensures Ready(p.status) ==> (selected.Err? <==> p.spec.nodeSelector.Err?)
                                && (selected.Ok? ==> IsSelection(cfg, p, Elements(cache.nodes), selected.value))
    ensures AgreesGenerated(r, GeneratingHandler(cfg, p, selected, now))
  {
    selected := Err(NO_MESSAGE);
    var validated := obj.Lookup(VALIDATED);
    var resolved := obj.Lookup(LATEST_RESOLVED);
    if !(validated.Some? && validated.value.status == True) || !(resolved.Some? && resolved.value.status == True) {
      obj.SetError(COMPLETE, "NotReady", Some(NotValidAndResolved), now);
      assert Contents(status).conditions == obj.Sides().shared;
      assert EarlyReturn(p, "NotReady", NotValidAndResolved, now) == Generated([], Contents(status));
      return Ok(Output([], status)), selected;
    }
    var chosen := SelectConcurrentNodes(cfg, p, cache);
    selected := chosen;
    if chosen.Err? {
      obj.SetError(COMPLETE, "SelectNodesFailed", Some(chosen.error), now);
      return Err(chosen.error), selected;
    }
    var jobs, names := BuildJobs(cfg, p, chosen.value);
    if jobs.Err? {
      obj.SetError(COMPLETE, "ValidationFailed", Some(jobs.error), now);
      return Err(jobs.error), selected;
    }
    var out := RunPlanned(cfg, p, obj, status, chosen.value, jobs.value, names, now);
    r := Ok(out);
  }

  // ----- the generated wrapper -----

  /** Copy the plan, run the status handler on the copy, and read the status it returned. */
  method ComputeStatus(cfg: Config, p: Plan, secrets: map<string, Secret>, poll: Result<string>, now: int) returns (r: Result<PlanStatus>)
    ensures var spec := StatusHandler(cfg, p, secrets, poll, now); r.Ok? == spec.Ok? && (r.Ok? ==> r == spec)
  {
    var obj := new PlanObject(p.status);
    var status := obj.ByValue();
    var v := RunStatusHandler(cfg, p, obj, status, secrets, poll, now);
    r := if v.Ok? then Ok(Contents(v.value)) else Err(v.error);
  }

  /** The same for the generating handler. */
  method ComputeJobs(cfg: Config, p: Plan, cache: NodeCache, now: int) returns (r: Result<Generated>, ghost selected: Result<seq<Node>>)
    requires Unique(cache.nodes) && DistinctNodes(cfg, p, Elements(cache.nodes))
    ensures Ready(p.status) ==> (selected.Err? <==> p.spec.nodeSelector.Err?)
                                && (selected.Ok? ==> IsSelection(cfg, p, Elements(cache.nodes), selected.value))
    ensures var spec := GeneratingHandler(cfg, p, selected, now); r.Ok? == spec.Ok? && (r.Ok? ==> r == spec)
  {
    var obj := new PlanObject(p.status);
    var status := obj.ByValue();
    var v;
    v, selected := RunGeneratingHandler(cfg, p, obj, status, cache, now);
    r := if v.Ok? then Ok(Generated(v.value.jobs, Contents(v.value.status))) else Err(v.error);
  }

  /** `UpdateStatus` against the list of versions. */
  function PublishedTo(versions: seq<Plan>, base: nat, st: PlanStatus): seq<Plan>
    requires base < |versions|
  {
    if st == versions[base].status || base + 1 != |versions| then versions else versions + [versions[base].(status := st)]
  }

  /** Nothing is written exactly when the status is unchanged or the version outdated; otherwise one version is added, with that status. */
  lemma WritesIffChangedAndCurrent(versions: seq<Plan>, base: nat, st: PlanStatus)
    requires base < |versions|
    ensures PublishedTo(versions, base, st) == versions <==> st == versions[base].status || base + 1 < |versions|
    ensures PublishedTo(versions, base, st) != versions ==>
              && |PublishedTo(versions, base, st)| == |versions| + 1
              && PublishedTo(versions, base, st)[..|versions|] == versions
              && PublishedTo(versions, base, st)[|versions|] == versions[|versions| - 1].(status := st)
  {
    if st != versions[base].status && base + 1 == |versions| {
      assert |PublishedTo(versions, base, st)| != |versions|;
    }
  }

  /** Server-side apply of the first `k` objects. */
  function AppliedPrefix(jobs: map<JobKey, Job>, objects: seq<Job>, k: nat): map<JobKey, Job>
    requires k <= |objects|
  {
    if k == 0 then jobs else Upsert(AppliedPrefix(jobs, objects, k - 1), objects[k - 1])
  }

  /** What the API server and the handler's record hold for one plan. */
  datatype Store = Store(versions: seq<Plan>, jobs: map<JobKey, Job>, seen: Option<nat>)

  /**
   * The store after a generating pass whose handler returned `g` and whose apply got `reach` objects far: an
   * error leaves versions and record as they were.
   */
  function AfterPass(st: Store, base: nat, g: Result<Generated>, reach: nat): Store
    requires base < |st.versions|
  {
    match g
    case Err(_) => st
    case Ok(out) =>
      if st.seen == Some(base) then st.(versions := PublishedTo(st.versions, base, out.status))
      else if reach < |out.jobs| then st.(jobs := AppliedPrefix(st.jobs, out.jobs, reach))
      else Store(PublishedTo(st.versions, base, out.status), AppliedPrefix(st.jobs, out.jobs, |out.jobs|), Some(base))
  }

  /** The plan versions and jobs on the API server, and the handler's record of applied versions by plan key. */
  class PlanController {
    var versions: seq<Plan>
    var jobs: map<JobKey, Job>
    var seen: map<string, nat>

    ghost function StoreOf(key: string): Store
      reads this
    {
      Store(versions, jobs, if key in seen then Some(seen[key]) else None)
    }

    constructor (versions: seq<Plan>, jobs: map<JobKey, Job>)
      ensures this.versions == versions && this.jobs == jobs && this.seen == map[]
    {
      this.versions, this.jobs, this.seen := versions, jobs, map[];
    }

    /** Write a status computed from version `base`, unless it is unchanged or the version is outdated. */
    method UpdateIfChanged(base: nat, st: PlanStatus)
      requires base < |versions|
      modifies this`versions
      ensures versions == PublishedTo(old(versions), base, st)
    {
      if st != versions[base].status && base + 1 == |versions| {
        versions := versions + [versions[base].(status := st)];
      }
    }

    /** `sync` around the status handler: a handler error leaves the persisted status alone. */
    method SyncStatus(cfg: Config, base: nat, secrets: map<string, Secret>, poll: Result<string>, now: int)
      requires base < |versions|
      modifies this`versions
      ensures var r := StatusHandler(cfg, old(versions)[base], secrets, poll, now);
              versions == if r.Ok? then PublishedTo(old(versions), base, r.value) else old(versions)
    {
      var r := ComputeStatus(cfg, versions[base], secrets, poll, now);
      if r.Ok? { UpdateIfChanged(base, r.value); }
    }

    /** `ApplyObjects`, which may stop after `reach` objects with an error. */
    method Apply(objects: seq<Job>, reach: nat) returns (ok: bool)
      modifies this`jobs
      ensures ok <==> reach >= |objects|
      ensures jobs == AppliedPrefix(old(jobs), objects, if ok then |objects| else reach)
    {
      var k := 0;
      while k < |objects| && k < reach
        invariant 0 <= k <= |objects| && k <= reach
        invariant jobs == AppliedPrefix(old(jobs), objects, k)
      {
        var j := objects[k];
        jobs := jobs[j.key := if j.key in jobs then j.(status := jobs[j.key].status) else j];
        k := k + 1;
      }
      ok := k == |objects|;
    }

    /** `Handle` after generation: apply unless this version was applied before, then record it. */
    method ApplyOncePerVersion(key: string, base: nat, objects: seq<Job>, reach: nat) returns (ok: bool)
      modifies this`jobs, this`seen
      ensures var isNew := Applies.IsNew(old(seen), key, base);
              && (ok <==> !isNew || reach >= |objects|)
              && seen == Applies.Record(old(seen), Applies.Handle(key, base, reach >= |objects|))
              && jobs == if !isNew then old(jobs) else AppliedPrefix(old(jobs), objects, if ok then |objects| else reach)
    {
      if !Applies.IsNew(seen, key, base) { return true; }
      ok := Apply(objects, reach);
      if ok { seen := seen[key := base]; }
    }

    /**
     * `sync` around `Handle`: generate, apply once per version, record the version, then write the
     * status. Any error leaves both the versions and the record unchanged, and no call touches another plan's record.
     */
    method SyncGenerate(cfg: Config, key: string, base: nat, deleting: bool, cache: NodeCache, now: int, reach: nat)
      returns (ghost selected: Result<seq<Node>>)
      requires base < |versions|
      requires Unique(cache.nodes) && DistinctNodes(cfg, versions[base], Elements(cache.nodes))
      modifies this
      ensures deleting ==> versions == old(versions) && seen == old(seen) && jobs == old(jobs)
      ensures !deleting && Ready(old(versions)[base].status) ==>
                && (selected.Err? <==> old(versions)[base].spec.nodeSelector.Err?)
                && (selected.Ok? ==> IsSelection(cfg, old(versions)[base], Elements(cache.nodes), selected.value))
      ensures !deleting ==>
                StoreOf(key) == AfterPass(old(StoreOf(key)), base, GeneratingHandler(cfg, old(versions)[base], selected, now), reach)
      ensures seen - {key} == old(seen) - {key}
    {
      selected := Err(NO_MESSAGE);
      if deleting { return; }
      var g;
      g, selected := ComputeJobs(cfg, versions[base], cache, now);
      if g.Err? { return; }
      var ok := ApplyOncePerVersion(key, base, g.value.jobs, reach);
      if ok { UpdateIfChanged(base, g.value.status); }
    }

    /** `Remove`: the plan is gone, and so is the record of it. */
    method Remove(key: string)
      modifies this`seen
      ensures seen == Applies.Record(old(seen), Applies.Forget(key))
    {
      seen := seen - {key};
    }
  }

  // ----- the calls are runs of the protocol -----

  ghost function StateStore(s: State): Store { Store(s.versions, s.jobs, s.seen) }

  ghost function WithStore(s: State, st: Store, floor: nat): State {
    s.(versions := st.versions, jobs := st.jobs, seen := st.seen, floor := floor)
  }

  /** A status sync is a step of the machine. */
  lemma StatusSyncIsPath(cfg: Config, s: State, base: nat, secrets: map<string, Secret>, poll: Result<string>)
    requires base < |s.versions| && s.worker.Idle? && NodesOk(s.nodes)
    ensures var r := StatusHandler(cfg, s.versions[base], secrets, poll, s.clock);
            Leads(AnyStep(cfg), s, s.(versions := if r.Ok? then PublishedTo(s.versions, base, r.value) else s.versions))
  {
    var r := StatusHandler(cfg, s.versions[base], secrets, poll, s.clock);
    StepLeads(cfg, s, SyncStatus(base, secrets, poll), s.(versions := if r.Ok? then PublishedTo(s.versions, base, r.value) else s.versions));
  }

  function Below(k: nat): (r: set<nat>)
    ensures forall i: nat :: i in r <==> i < k
  {
    if k == 0 then {} else Below(k - 1) + {k - 1}
  }

  ghost function AppliedInOrder(s: State, k: nat): State
    requires s.worker.Applying? && k <= |s.worker.jobs|
  {
    s.(jobs := AppliedPrefix(s.jobs, s.worker.jobs, k), worker := s.worker.(done := Below(k)))
  }

  /** The apply loop is one step per object. */
  lemma {:induction false} ApplyLoopIsPath(cfg: Config, s: State, k: nat)
    requires |s.versions| > 0 && NodesOk(s.nodes) && s.worker.Applying? && s.worker.done == {} && k <= |s.worker.jobs|
    ensures Leads(AnyStep(cfg), s, AppliedInOrder(s, k))
  {
    if k == 0 {
      assert AppliedInOrder(s, 0) == s;
      LeadsNowhere(AnyStep(cfg), s);
    } else {
      ApplyLoopIsPath(cfg, s, k - 1);
      assert Below(k - 1) + {k - 1} == Below(k);
      StepLeads(cfg, AppliedInOrder(s, k - 1), ApplyOne(k - 1), AppliedInOrder(s, k));
      LeadsJoin(AnyStep(cfg), s, AppliedInOrder(s, k - 1), AppliedInOrder(s, k));
    }
  }

  lemma WriteIsPath(cfg: Config, s: State)
    requires NodesOk(s.nodes) && s.worker.Writing? && s.worker.base < |s.versions|
    ensures Leads(AnyStep(cfg), s, s.(versions := PublishedTo(s.versions, s.worker.base, s.worker.status), worker := Idle))
  {
    StepLeads(cfg, s, WriteStatus, s.(versions := PublishedTo(s.versions, s.worker.base, s.worker.status), worker := Idle));
  }

  /** A pass over a version not applied before, from the selection on: `reach` objects applied and an error, or all applied, recorded and written. */
  lemma AppliedPassIsPath(cfg: Config, s: State, g: Generated, base: nat, reach: nat)
    requires NodesOk(s.nodes) && base < |s.versions| && s.worker == Applying(base, s.clock, g.jobs, {}, g.status) && s.seen != Some(base)
    ensures Leads(AnyStep(cfg), s, WithStore(s, AfterPass(StateStore(s), base, Ok(g), reach), s.floor).(worker := Idle))
  {
    var k := if reach < |g.jobs| then reach else |g.jobs|;
    var a := AppliedInOrder(s, k);
    ApplyLoopIsPath(cfg, s, k);
    if reach < |g.jobs| {
      StepLeads(cfg, a, ApplyFails, a.(worker := Idle));
      LeadsJoin(AnyStep(cfg), s, a, a.(worker := Idle));
    } else {
      var d := a.(seen := Some(base), worker := Writing(base, s.clock, g.status));
      StepLeads(cfg, a, ApplyDone, d);
      LeadsJoin(AnyStep(cfg), s, a, d);
      WriteIsPath(cfg, d);
      LeadsJoin(AnyStep(cfg), s, d, d.(versions := PublishedTo(d.versions, base, g.status), worker := Idle));
    }
  }

  lemma PassStarts(cfg: Config, s: State, base: nat, selected: Result<seq<Node>>, g: Generated)
    requires base < |s.versions| && GeneratingHandler(cfg, s.versions[base], selected, s.clock) == Ok(g)
    ensures Started(cfg, s, base, selected)
            == s.(floor := base,
                  worker := if s.seen == Some(base) then Writing(base, s.clock, g.status) else Applying(base, s.clock, g.jobs, {}, g.status))
  {
  }

  /** What `SyncGenerate` does to a plan's store is a run of the machine, however far the apply gets and whatever fails. */
  lemma SyncGenerateIsPath(cfg: Config, s: State, base: nat, selected: Result<seq<Node>>, reach: nat)
    requires Enabled(cfg, s, Generate(base, selected)) && NodesOk(s.nodes)
    ensures var g := GeneratingHandler(cfg, s.versions[base], selected, s.clock);
            Leads(AnyStep(cfg), s, WithStore(s, AfterPass(StateStore(s), base, g, reach), if g.Ok? then base else s.floor))
  {
    var g := GeneratingHandler(cfg, s.versions[base], selected, s.clock);
    var s1 := Started(cfg, s, base, selected);
    StepLeads(cfg, s, Generate(base, selected), s1);
    if g.Ok? {
      PassStarts(cfg, s, base, selected, g.value);
      PassContinues(cfg, s, s1, base, g.value, reach);
    }
  }

  lemma PassContinues(cfg: Config, s: State, s1: State, base: nat, g: Generated, reach: nat)
    requires Leads(AnyStep(cfg), s, s1) && s.worker.Idle? && NodesOk(s.nodes) && base < |s.versions|
    requires s1 == s.(floor := base,
                      worker := if s.seen == Some(base) then Writing(base, s.clock, g.status) else Applying(base, s.clock, g.jobs, {}, g.status))
    ensures Leads(AnyStep(cfg), s, WithStore(s, AfterPass(StateStore(s), base, Ok(g), reach), base))
  {
    var t := WithStore(s, AfterPass(StateStore(s), base, Ok(g), reach), base);
    if s.seen == Some(base) { WriteIsPath(cfg, s1); } else { AppliedPassIsPath(cfg, s1, g, base, reach); }
    assert Leads(AnyStep(cfg), s1, t);
    LeadsJoin(AnyStep(cfg), s, s1, t);
  }
}
