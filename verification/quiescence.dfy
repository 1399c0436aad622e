/** A settled plan stays as it is: one pass of both handlers reaches a fixpoint, whatever the clock reads. */
module Quiescence {
  import opened Types
  import opened Labels
  import opened Text
  import opened Sequences
  import opened Conditions
  import opened Allocator
  import opened Jobs
  import opened Handlers
  import opened Rollout
  import opened Batch
  import opened Completion

  // ----- the status handler -----

  /** What the status handler leaves on a valid plan with a static version. */
  ghost predicate Settled(cfg: Config, p: Plan, secrets: map<string, Secret>, st: PlanStatus) {
    && Has(st.conditions, COMPLETE)
    && Shows(st.conditions, VALIDATED, True, NO_MESSAGE, "PlanIsValid")
    && Shows(st.conditions, LATEST_RESOLVED, True, NO_MESSAGE, "Version")
    && st.latestVersion == MungeVersion(p.spec.version)
    && DigestStatus(cfg, p.spec, st, secrets) == Ok(st)
  }

  lemma {:induction false} SecretsDigest(cfg: Config, specs: seq<SecretSpec>, secrets: map<string, Secret>)
    ensures SecretsPresent(specs, secrets) <==> SecretDigests(cfg, specs, secrets).Ok?
  {
    if specs != [] {
      SecretsDigest(cfg, specs[1..], secrets);
      assert SecretsPresent(specs, secrets) <==>
             (!specs[0].ignoreUpdates ==> specs[0].name in secrets) && SecretsPresent(specs[1..], secrets) by {
        assert forall i :: 1 <= i < |specs| ==> specs[i] == specs[1..][i - 1];
        assert forall i :: 0 <= i < |specs[1..]| ==> specs[1..][i] == specs[i + 1];
      }
    }
  }

  lemma CreateNoop(d: Draft, kind: string, now: int)
    requires d.attached && d.shared == d.mine && Has(d.mine, kind)
    ensures Edit(d, kind, Create, now) == d
  {
    UpdateNoop(d.mine, kind, Create, now);
  }

  lemma MarkDraftNoop(d: Draft, kind: string, s: Truth, message: Message, reason: string, now: int)
    requires d.attached && d.shared == d.mine && Shows(d.mine, kind, s, message, reason)
    ensures MarkDraft(d, kind, s, message, reason, now) == d
  {
    MarkDraftWhole(d, kind, s, message, reason, now);
    MarkNoop(d.mine, kind, s, message, reason, now);
  }

  /** The condition list after the validation phase, and what it keeps. */
  lemma ValidatedShows(p: Plan, secrets: map<string, Secret>, now: int)
    requires Validate(p.spec, secrets).None?
    ensures var d := ValidatedDraft(p, secrets, now);
            && Has(d.mine, COMPLETE) && Shows(d.mine, VALIDATED, True, NO_MESSAGE, "PlanIsValid")
            && Find(d.mine, LATEST_RESOLVED) == Find(p.status.conditions, LATEST_RESOLVED)
            && (d.attached ==> d.shared == d.mine)
            && Find(d.shared, LATEST_RESOLVED) == Find(p.status.conditions, LATEST_RESOLVED)
  {
    var cs := p.status.conditions;
    var d1 := Edit(NewDraft(cs), COMPLETE, Create, now);
    var d2 := Edit(d1, VALIDATED, Create, now);
    FindUpdate(cs, COMPLETE, Create, now, COMPLETE);
    FindUpdate(cs, COMPLETE, Create, now, LATEST_RESOLVED);
    FindUpdate(d1.mine, VALIDATED, Create, now, COMPLETE);
    FindUpdate(d1.mine, VALIDATED, Create, now, LATEST_RESOLVED);
    MarkDraftWhole(d2, VALIDATED, True, NO_MESSAGE, "PlanIsValid", now);
    FindMark(d2.mine, VALIDATED, True, NO_MESSAGE, "PlanIsValid", now, COMPLETE);
    FindMark(d2.mine, VALIDATED, True, NO_MESSAGE, "PlanIsValid", now, VALIDATED);
    FindMark(d2.mine, VALIDATED, True, NO_MESSAGE, "PlanIsValid", now, LATEST_RESOLVED);
  }

  /** Announcing a version touches Complete only. */
  lemma AnnounceKeeps(st: PlanStatus, d: Draft, latest: string, now: int)
    requires Has(d.mine, COMPLETE) && (d.attached ==> d.shared == d.mine)
    ensures var a := Announce(d, st, latest, now);
            && Has(a.mine, COMPLETE) && (a.attached ==> a.shared == a.mine)
            && Find(a.mine, VALIDATED) == Find(d.mine, VALIDATED) && Find(a.mine, LATEST_RESOLVED) == Find(d.mine, LATEST_RESOLVED)
  {
    MarkDraftWhole(d, COMPLETE, False, NO_MESSAGE, "Resolved", now);
    FindMark(d.mine, COMPLETE, False, NO_MESSAGE, "Resolved", now, COMPLETE);
    FindMark(d.mine, COMPLETE, False, NO_MESSAGE, "Resolved", now, VALIDATED);
    FindMark(d.mine, COMPLETE, False, NO_MESSAGE, "Resolved", now, LATEST_RESOLVED);
  }

  /** Announcing and resolving: Complete and Validated survive, LatestResolved is marked. */
  lemma ResolvedShows(st: PlanStatus, d: Draft, latest: string, reason: string, now: int)
    requires Has(d.mine, COMPLETE) && Shows(d.mine, VALIDATED, True, NO_MESSAGE, "PlanIsValid") && (d.attached ==> d.shared == d.mine)
    ensures var cs := SetErrorDraft(Announce(d, st, latest, now), LATEST_RESOLVED, reason, None, now).mine;
            && Has(cs, COMPLETE) && Shows(cs, VALIDATED, True, NO_MESSAGE, "PlanIsValid") && Shows(cs, LATEST_RESOLVED, True, NO_MESSAGE, reason)
            && Find(cs, LATEST_RESOLVED) == Some(Marked(OrBlank(Find(d.mine, LATEST_RESOLVED), LATEST_RESOLVED), True, NO_MESSAGE, reason, now))
  {
    var a := Announce(d, st, latest, now);
    AnnounceKeeps(st, d, latest, now);
    MarkDraftWhole(a, LATEST_RESOLVED, True, NO_MESSAGE, reason, now);
    FindMark(a.mine, LATEST_RESOLVED, True, NO_MESSAGE, reason, now, COMPLETE);
    FindMark(a.mine, LATEST_RESOLVED, True, NO_MESSAGE, reason, now, VALIDATED);
    FindMark(a.mine, LATEST_RESOLVED, True, NO_MESSAGE, reason, now, LATEST_RESOLVED);
  }

  /** One call settles a valid plan with a static version, from any status. */
  lemma StatusHandlerSettles(cfg: Config, p: Plan, secrets: map<string, Secret>, poll: Result<string>, now: int)
    requires Validate(p.spec, secrets).None? && p.spec.version != ""
    ensures var r := StatusHandler(cfg, p, secrets, poll, now); r.Ok? && Settled(cfg, p, secrets, r.value)
  {
    var d := ValidatedDraft(p, secrets, now);
    ValidatedShows(p, secrets, now);
    var e := Edit(d, LATEST_RESOLVED, Create, now);
    FindUpdate(d.mine, LATEST_RESOLVED, Create, now, COMPLETE);
    FindUpdate(d.mine, LATEST_RESOLVED, Create, now, VALIDATED);
    ResolvedShows(p.status, e, MungeVersion(p.spec.version), "Version", now);
    SecretsDigest(cfg, p.spec.secrets, secrets);
  }

  /** A settled status is returned unchanged, time stamps included. */
  lemma SettledStays(cfg: Config, p: Plan, secrets: map<string, Secret>, poll: Result<string>, now: int)
    requires Validate(p.spec, secrets).None? && p.spec.version != "" && Settled(cfg, p, secrets, p.status)
    ensures StatusHandler(cfg, p, secrets, poll, now) == Ok(p.status)
  {
    var d := NewDraft(p.status.conditions);
    CreateNoop(d, COMPLETE, now);
    CreateNoop(d, VALIDATED, now);
    MarkDraftNoop(d, VALIDATED, True, NO_MESSAGE, "PlanIsValid", now);
    assert ValidatedDraft(p, secrets, now) == d;
    CreateNoop(d, LATEST_RESOLVED, now);
    MarkDraftNoop(d, LATEST_RESOLVED, True, NO_MESSAGE, "Version", now);
  }

  // ----- the generating handler -----

  /** Selecting again with the selection as the batch selects the same nodes. */
  lemma SelectionIdempotent(cfg: Config, p: Plan, q: Plan, nodes: map<string, Node>, r: seq<Node>)
    requires NodesOk(nodes) && IsSelection(cfg, p, nodes.Values, r)
    requires q == p.(status := p.status.(applying := Hostnames(r), conditions := q.status.conditions))
    ensures IsSelection(cfg, q, nodes.Values, r)
  {
    forall n ensures Eligible(q, n) <==> Eligible(p, n) {}
    assert EligibleNodes(q, nodes.Values) == EligibleNodes(p, nodes.Values);
    forall n | n in nodes.Values && Eligible(q, n) ensures Hostname(n) in Hostnames(r) <==> n in r {
      if Hostname(n) in Hostnames(r) {
        var i :| 0 <= i < |r| && Hostname(r[i]) == Hostname(n);
        assert r[i] in Elements(r);
        var a :| a in nodes && nodes[a] == r[i];
        var b :| b in nodes && nodes[b] == n;
      }
      if n in r { HostnamesHas(r, n); }
    }
    assert KeptNodes(q, nodes.Values) == Elements(r);
    SortedIsUnique(r, NameOf);
    UniqueSize(r);
  }

  lemma SelectionIgnoresConditions(cfg: Config, p: Plan, q: Plan, nodes: set<Node>, r: seq<Node>)
    requires IsSelection(cfg, p, nodes, r) && q == p.(status := p.status.(conditions := q.status.conditions))
    ensures IsSelection(cfg, q, nodes, r)
  {
    forall n ensures Eligible(q, n) <==> Eligible(p, n) {}
    assert EligibleNodes(q, nodes) == EligibleNodes(p, nodes) && KeptNodes(q, nodes) == KeptNodes(p, nodes);
  }

  ghost function After(cfg: Config, p: Plan, r: seq<Node>, now: int): Plan {
    match GeneratingHandler(cfg, p, Ok(r), now)
    case Ok(g) => p.(status := g.status)
    case Err(_) => p
  }

  /** A second generating pass on the outcome of the first changes nothing, on the same side of the window. */
  lemma GeneratingSettles(cfg: Config, p: Plan, nodes: map<string, Node>, r: seq<Node>, q: seq<Node>, now: int, later: int)
    requires NodesOk(nodes) && Ready(p.status) && Has(p.status.conditions, COMPLETE)
    requires IsSelection(cfg, p, nodes.Values, r) && IsSelection(cfg, After(cfg, p, r, now), nodes.Values, q)
    requires OutsideWindow(p.spec, now) == OutsideWindow(p.spec, later)
    requires Ready(After(cfg, p, r, now).status)
    ensures After(cfg, After(cfg, p, r, now), q, later) == After(cfg, p, r, now)
  {
    var p2 := After(cfg, p, r, now);
    if AnyNeedsWindowsImage(cfg, r) {
      SelectionUnique(cfg, p, nodes.Values, r, q);
    } else if r == [] {
      StaysComplete(cfg, p, p2, nodes, q, now, later);
    } else if p.status.applying == [] && OutsideWindow(p.spec, now) {
      StaysWaiting(cfg, p, p2, nodes, r, q, now, later);
    } else {
      StaysSynced(cfg, p, p2, nodes, r, q, later);
    }
  }

  lemma StaysSynced(cfg: Config, p: Plan, p2: Plan, nodes: map<string, Node>, r: seq<Node>, q: seq<Node>, later: int)
    requires NodesOk(nodes) && r != [] && Ready(p2.status) && !AnyNeedsWindowsImage(cfg, r)
    requires p2 == p.(status := p.status.(applying := Hostnames(r), conditions := p2.status.conditions))
    requires IsSelection(cfg, p, nodes.Values, r) && IsSelection(cfg, p2, nodes.Values, q)
    ensures After(cfg, p2, q, later) == p2
  {
    SelectionIdempotent(cfg, p, p2, nodes, r);
    SelectionUnique(cfg, p2, nodes.Values, r, q);
    PlannedRepeats(cfg, p2, r, later);
  }

  lemma PlannedRepeats(cfg: Config, p: Plan, r: seq<Node>, now: int)
    requires r != [] && p.status.applying == Hostnames(r)
    ensures Planned(cfg, p, r, now).status == p.status
  {
  }

  lemma StaysComplete(cfg: Config, p: Plan, p2: Plan, nodes: map<string, Node>, q: seq<Node>, now: int, later: int)
    requires Ready(p2.status) && IsSelection(cfg, p, nodes.Values, []) && IsSelection(cfg, p2, nodes.Values, q)
    requires p2 == p.(status := p.status.(applying := [], conditions := SetError(p.status.conditions, COMPLETE, "Complete", None, now)))
    ensures After(cfg, p2, q, later) == p2
  {
    forall n ensures Eligible(p2, n) <==> Eligible(p, n) {}
    assert EligibleNodes(p2, nodes.Values) == EligibleNodes(p, nodes.Values);
    EmptySelectionIff(cfg, p, nodes, []);
    assert KeptNodes(p2, nodes.Values) == {};
    EmptySelectionIff(cfg, p2, nodes, q);
    MatchesErrorIffNothingToWrite(p.status.conditions, COMPLETE, "Complete", None, now);
    MatchesErrorIffNothingToWrite(p2.status.conditions, COMPLETE, "Complete", None, later);
  }

  lemma StaysWaiting(cfg: Config, p: Plan, p2: Plan, nodes: map<string, Node>, r: seq<Node>, q: seq<Node>, now: int, later: int)
    requires Has(p.status.conditions, COMPLETE) && p.status.applying == [] && r != [] && OutsideWindow(p.spec, later)
    requires p2 == p.(status := EarlyReturn(p, "Waiting", NotWithinWindow, now).status) && Ready(p2.status)
    requires IsSelection(cfg, p, nodes.Values, r) && IsSelection(cfg, p2, nodes.Values, q)
    ensures After(cfg, p2, q, later) == p2
  {
    SelectionIgnoresConditions(cfg, p, p2, nodes.Values, r);
    SelectionUnique(cfg, p2, nodes.Values, r, q);
    var m := NotWithinWindow;
    MarkDraftWhole(NewDraft(p.status.conditions), COMPLETE, False, m, ReasonFor("Waiting", Some(m)), now);
    FindMark(p.status.conditions, COMPLETE, False, m, ReasonFor("Waiting", Some(m)), now, COMPLETE);
    MarkDraftNoop(NewDraft(p2.status.conditions), COMPLETE, False, m, ReasonFor("Waiting", Some(m)), later);
  }

  /** Only Complete and the batch differ. */
  ghost predicate OnlyCompleteDiffers(a: PlanStatus, b: PlanStatus) {
    && b == a.(conditions := b.conditions, applying := b.applying) && Has(b.conditions, COMPLETE)
    && Find(b.conditions, VALIDATED) == Find(a.conditions, VALIDATED)
    && Find(b.conditions, LATEST_RESOLVED) == Find(a.conditions, LATEST_RESOLVED)
  }

  lemma StillSettled(cfg: Config, p: Plan, secrets: map<string, Secret>, a: PlanStatus, b: PlanStatus)
    requires Settled(cfg, p, secrets, a) && OnlyCompleteDiffers(a, b)
    ensures Settled(cfg, p, secrets, b) && Ready(b)
  {
  }

  lemma GeneratingTouchesComplete(cfg: Config, p: Plan, r: seq<Node>, now: int)
    requires Has(p.status.conditions, COMPLETE) && Ready(p.status)
    ensures OnlyCompleteDiffers(p.status, After(cfg, p, r, now).status)
  {
    var cs := p.status.conditions;
    if AnyNeedsWindowsImage(cfg, r) {
    } else if r == [] {
      MarkComplete(cs, True, NO_MESSAGE, ReasonFor("Complete", None), now);
    } else if p.status.applying == [] && OutsideWindow(p.spec, now) {
      var m := NotWithinWindow;
      MarkComplete(cs, False, m, ReasonFor("Waiting", Some(m)), now);
      MarkDraftWhole(NewDraft(cs), COMPLETE, False, m, ReasonFor("Waiting", Some(m)), now);
    } else {
      MarkComplete(cs, False, NO_MESSAGE, "SyncJob", now);
    }
  }

  /** Writing Complete leaves the rest of a settled status settled. */
  lemma GeneratingKeepsSettled(cfg: Config, p: Plan, secrets: map<string, Secret>, r: seq<Node>, now: int)
    requires Settled(cfg, p, secrets, p.status)
    ensures Settled(cfg, p, secrets, After(cfg, p, r, now).status) && Ready(After(cfg, p, r, now).status)
  {
    GeneratingTouchesComplete(cfg, p, r, now);
    StillSettled(cfg, p, secrets, p.status, After(cfg, p, r, now).status);
  }

  /** The plan after the status handler and then the generating handler have both been written. */
  ghost function Resolve(cfg: Config, p: Plan, secrets: map<string, Secret>, now: int): Plan {
    match StatusHandler(cfg, p, secrets, Err(NO_MESSAGE), now)
    case Ok(st) => p.(status := st)
    case Err(_) => p
  }

  /**
   * Quiescence: for a valid plan with a static version, with nodes and secrets unchanged and
   * the clock on the same side of the window, the second pass writes nothing, from
   * any starting status and whatever the clock reads.
   */
  lemma SecondPassWritesNothing(cfg: Config, p: Plan, secrets: map<string, Secret>, nodes: map<string, Node>,
                                r: seq<Node>, q: seq<Node>, t1: int, t2: int, t3: int, t4: int)
    requires Validate(p.spec, secrets).None? && p.spec.version != "" && NodesOk(nodes)
    requires var p1 := Resolve(cfg, p, secrets, t1);
             IsSelection(cfg, p1, nodes.Values, r) && IsSelection(cfg, After(cfg, p1, r, t2), nodes.Values, q)
    requires OutsideWindow(p.spec, t2) == OutsideWindow(p.spec, t4)
    ensures var p2 := After(cfg, Resolve(cfg, p, secrets, t1), r, t2);
            Resolve(cfg, p2, secrets, t3) == p2 && After(cfg, p2, q, t4) == p2
  {
    var p1 := Resolve(cfg, p, secrets, t1);
    StatusHandlerSettles(cfg, p, secrets, Err(NO_MESSAGE), t1);
    var p2 := After(cfg, p1, r, t2);
    GeneratingKeepsSettled(cfg, p1, secrets, r, t2);
    SettledStays(cfg, p2, secrets, Err(NO_MESSAGE), t3);
    GeneratingSettles(cfg, p1, nodes, r, q, t2, t4);
  }

  // ----- the channel's time stamp -----

  datatype Poll = Poll(now: int, answer: Result<string>)

  /** Repeated status handling of a plan that follows a channel; an error keeps the status. */
  function PollAll(cfg: Config, p: Plan, secrets: map<string, Secret>, polls: seq<Poll>): PlanStatus
    decreases |polls|
  {
    if polls == [] then p.status
    else
      match StatusHandler(cfg, p, secrets, polls[0].answer, polls[0].now)
      case Ok(st) => PollAll(cfg, p.(status := st), secrets, polls[1..])
      case Err(_) => PollAll(cfg, p, secrets, polls[1..])
  }

  lemma PollKeepsStamp(cfg: Config, p: Plan, secrets: map<string, Secret>, poll: Result<string>, now: int)
    requires Validate(p.spec, secrets).None? && p.spec.version == "" && p.spec.channel != ""
    requires IsTrue(p.status.conditions, LATEST_RESOLVED) && GetMessage(p.status.conditions, LATEST_RESOLVED) == NO_MESSAGE
    ensures var r := StatusHandler(cfg, p, secrets, poll, now);
            r.Ok? ==> && IsTrue(r.value.conditions, LATEST_RESOLVED) && GetMessage(r.value.conditions, LATEST_RESOLVED) == NO_MESSAGE
                      && GetLastUpdate(r.value.conditions, LATEST_RESOLVED) == GetLastUpdate(p.status.conditions, LATEST_RESOLVED)
  {
    var d := ValidatedDraft(p, secrets, now);
    ValidatedShows(p, secrets, now);
    UpdateNoop(d.mine, LATEST_RESOLVED, Create, now);
    assert Edit(d, LATEST_RESOLVED, Create, now) == d;
    if !Throttled(cfg, d.mine, now) && poll.Ok? { ResolveKeepsStamp(cfg, p, d, MungeVersion(poll.value), secrets, now); }
  }

  lemma ResolveKeepsStamp(cfg: Config, p: Plan, d: Draft, latest: string, secrets: map<string, Secret>, now: int)
    requires Has(d.mine, COMPLETE) && Shows(d.mine, VALIDATED, True, NO_MESSAGE, "PlanIsValid") && (d.attached ==> d.shared == d.mine)
    requires Find(d.mine, LATEST_RESOLVED) == Find(p.status.conditions, LATEST_RESOLVED)
    requires IsTrue(d.mine, LATEST_RESOLVED) && GetMessage(d.mine, LATEST_RESOLVED) == NO_MESSAGE
    ensures var r := Resolved(cfg, p, d, latest, "Channel", secrets, now);
            r.Ok? ==> && IsTrue(r.value.conditions, LATEST_RESOLVED) && GetMessage(r.value.conditions, LATEST_RESOLVED) == NO_MESSAGE
                      && GetLastUpdate(r.value.conditions, LATEST_RESOLVED) == GetLastUpdate(p.status.conditions, LATEST_RESOLVED)
  {
    ResolvedShows(p.status, d, latest, "Channel", now);
  }

  /**
   * However many polls succeed, the stamp the throttle measures from stays where
   * LatestResolved last changed; so once the interval has passed, the channel is
   * asked on every later call.
   */
  lemma {:induction false} ThrottleNeverRearms(cfg: Config, p: Plan, secrets: map<string, Secret>, polls: seq<Poll>, later: int)
    requires Validate(p.spec, secrets).None? && p.spec.version == "" && p.spec.channel != ""
    requires IsTrue(p.status.conditions, LATEST_RESOLVED) && GetMessage(p.status.conditions, LATEST_RESOLVED) == NO_MESSAGE
    ensures var st := PollAll(cfg, p, secrets, polls);
            && GetLastUpdate(st.conditions, LATEST_RESOLVED) == GetLastUpdate(p.status.conditions, LATEST_RESOLVED)
            && (Throttled(cfg, st.conditions, later) <==> Throttled(cfg, p.status.conditions, later))
    decreases |polls|
  {
    if polls != [] {
      PollKeepsStamp(cfg, p, secrets, polls[0].answer, polls[0].now);
      match StatusHandler(cfg, p, secrets, polls[0].answer, polls[0].now)
      case Ok(st) => ThrottleNeverRearms(cfg, p.(status := st), secrets, polls[1..], later);
      case Err(_) => ThrottleNeverRearms(cfg, p, secrets, polls[1..], later);
    }
  }
}
