/** What a reader finds in the status after a call of the status handler, branch by branch. */
module Verdicts {
  import opened Types
  import opened Conditions
  import opened Allocator
  import opened Jobs
  import opened Handlers
  import opened Batch
  import opened Quiescence
  import opened Readiness

  // ----- validity -----

  ghost predicate SecretMissing(specs: seq<SecretSpec>, secrets: map<string, Secret>) {
    exists e :: e in specs && !e.ignoreUpdates && e.name !in secrets
  }

  /** Nothing is wrong with the drain and window settings, the delay is not negative, and every hashed secret exists. */
  ghost predicate Sound(spec: PlanSpec, secrets: map<string, Secret>) {
    spec.fault.None? && DelayOf(spec) >= 0 && !SecretMissing(spec.secrets, secrets)
  }

  /** The first complaint: settings, then the delay, then the secrets. */
  ghost predicate Complaint(spec: PlanSpec, secrets: map<string, Secret>, m: Message) {
    || spec.fault == Some(m)
    || (spec.fault.None? && DelayOf(spec) < 0 && m == DelayIsNegative)
    || (spec.fault.None? && DelayOf(spec) >= 0 && SecretMissing(spec.secrets, secrets) && m == SecretNotFound)
  }

  lemma PresentMeans(specs: seq<SecretSpec>, secrets: map<string, Secret>)
    ensures SecretsPresent(specs, secrets) <==> !SecretMissing(specs, secrets)
  {
    if !SecretsPresent(specs, secrets) {
      var i :| 0 <= i < |specs| && !specs[i].ignoreUpdates && specs[i].name !in secrets;
      assert specs[i] in specs;
    }
  }

  lemma ValidateMeans(spec: PlanSpec, secrets: map<string, Secret>)
    ensures Validate(spec, secrets).None? <==> Sound(spec, secrets)
    ensures forall m :: Validate(spec, secrets) == Some(m) <==> Complaint(spec, secrets, m)
  {
    PresentMeans(spec.secrets, secrets);
  }

  /** Complete and Validated are there, everything else is as it was. */
  lemma BothCreated(cs: seq<Condition>, now: int)
    ensures var d := Edit(Edit(NewDraft(cs), COMPLETE, Create, now), VALIDATED, Create, now);
            && Find(d.mine, LATEST_RESOLVED) == Find(cs, LATEST_RESOLVED)
            && Has(d.mine, VALIDATED) && (d.attached ==> d.shared == d.mine)
            && (Has(cs, COMPLETE) && Has(cs, VALIDATED) ==> d.attached)
  {
    var d1 := Edit(NewDraft(cs), COMPLETE, Create, now);
    FindUpdate(cs, COMPLETE, Create, now, LATEST_RESOLVED);
    FindUpdate(cs, COMPLETE, Create, now, VALIDATED);
    FindUpdate(d1.mine, VALIDATED, Create, now, LATEST_RESOLVED);
    FindUpdate(d1.mine, VALIDATED, Create, now, VALIDATED);
  }

  /** `SetError` on a draft with the entry: recorded, in place if possible, and nothing else touched. */
  lemma DraftShows(d: Draft, kind: string, reason: string, err: Option<Message>, now: int, other: string)
    requires Has(d.mine, kind) && (d.attached ==> d.shared == d.mine) && reason != "" && other != kind
    ensures var e := SetErrorDraft(d, kind, reason, err, now);
            && (err.Some? ==> Shows(e.mine, kind, False, err.value, reason))
            && (err.None? ==> Shows(e.mine, kind, True, NO_MESSAGE, reason))
            && Find(e.mine, other) == Find(d.mine, other)
            && e.attached == d.attached && (e.attached ==> e.shared == e.mine)
  {
    var s, m := if err.None? then True else False, if err.None? then NO_MESSAGE else err.value;
    MarkDraftWhole(d, kind, s, m, reason, now);
    FindMark(d.mine, kind, s, m, reason, now, kind);
    FindMark(d.mine, kind, s, m, reason, now, other);
  }

  /** The validation phase records its outcome and touches nothing but Complete, which it creates, and Validated. */
  lemma ValidationRecorded(p: Plan, secrets: map<string, Secret>, now: int)
    ensures var v, d := Validate(p.spec, secrets), ValidatedDraft(p, secrets, now);
            && (v.Some? ==> Shows(d.mine, VALIDATED, False, v.value, "Error"))
            && (v.None? ==> Shows(d.mine, VALIDATED, True, NO_MESSAGE, "PlanIsValid"))
            && Find(d.mine, LATEST_RESOLVED) == Find(p.status.conditions, LATEST_RESOLVED)
            && (Has(p.status.conditions, COMPLETE) && Has(p.status.conditions, VALIDATED) ==> d.attached && d.shared == d.mine)
  {
    var cs := p.status.conditions;
    var v := Validate(p.spec, secrets);
    BothCreated(cs, now);
    DraftShows(Edit(Edit(NewDraft(cs), COMPLETE, Create, now), VALIDATED, Create, now), VALIDATED,
               if v.Some? then "Error" else "PlanIsValid", v, now, LATEST_RESOLVED);
  }

  /**
   * An invalid plan: the call fails exactly when a hashed secret is missing and the plan had not failed to resolve;
   * otherwise the status says so, with the first complaint, and keeps version and batch.
   */
  lemma InvalidPlanRecorded(cfg: Config, p: Plan, secrets: map<string, Secret>, poll: Result<string>, now: int)
    requires !Sound(p.spec, secrets)
    ensures var r := StatusHandler(cfg, p, secrets, poll, now);
            && (r.Err? <==> SecretMissing(p.spec.secrets, secrets) && GetReason(p.status.conditions, LATEST_RESOLVED) != "Error")
            && (r.Ok? ==>
                  && (forall m :: Complaint(p.spec, secrets, m) ==> Shows(r.value.conditions, VALIDATED, False, m, "Error"))
                  && r.value.latestVersion == p.status.latestVersion && r.value.applying == p.status.applying)
  {
    ValidateMeans(p.spec, secrets);
    ValidationRecorded(p, secrets, now);
    SecretsDigest(cfg, p.spec.secrets, secrets);
    PresentMeans(p.spec.secrets, secrets);
  }

  /** A pass on the status of an invalid plan starts nothing and keeps the batch, whatever could be selected. */
  lemma InvalidPlanStartsNothing(cfg: Config, p: Plan, secrets: map<string, Secret>, poll: Result<string>, now: int,
                                 selected: Result<seq<Node>>, later: int)
    requires !Sound(p.spec, secrets) && StatusHandler(cfg, p, secrets, poll, now).Ok?
    ensures var q := p.(status := StatusHandler(cfg, p, secrets, poll, now).value);
            var g := GeneratingHandler(cfg, q, selected, later);
            g.Ok? && g.value.jobs == [] && g.value.status.applying == p.status.applying
  {
    InvalidPlanRecorded(cfg, p, secrets, poll, now);
    ValidateMeans(p.spec, secrets);
    assert Complaint(p.spec, secrets, Validate(p.spec, secrets).value);
    UnreadyStartsNothing(cfg, p.(status := StatusHandler(cfg, p, secrets, poll, now).value), selected, later);
  }

  // ----- resolving -----

  /** The plan resolved its version less than a polling interval ago, as its LatestResolved entry tells. */
  ghost predicate Recent(cfg: Config, cs: seq<Condition>, now: int) {
    var c := Find(cs, LATEST_RESOLVED);
    c.Some? && c.value.status == True && c.value.lastUpdate.At? && now - c.value.lastUpdate.seconds * SECOND < cfg.pollingInterval
  }

  /** The channel is asked. */
  ghost predicate Polls(cfg: Config, p: Plan, now: int) {
    p.spec.version == "" && p.spec.channel != "" && !Recent(cfg, p.status.conditions, now)
  }

  lemma ThrottledMeans(cfg: Config, p: Plan, secrets: map<string, Secret>, now: int)
    ensures Throttled(cfg, Edit(ValidatedDraft(p, secrets, now), LATEST_RESOLVED, Create, now).mine, now) <==> Recent(cfg, p.status.conditions, now)
  {
    ValidationRecorded(p, secrets, now);
    FindUpdate(ValidatedDraft(p, secrets, now).mine, LATEST_RESOLVED, Create, now, LATEST_RESOLVED);
  }

  /** Announcing and resolving from a draft: Validated stays, LatestResolved is true, and a new version resets Complete. */
  lemma ResolutionRecorded(st: PlanStatus, d: Draft, latest: string, reason: string, now: int)
    requires d.attached ==> d.shared == d.mine
    ensures var cs := SetErrorDraft(Announce(d, st, latest, now), LATEST_RESOLVED, reason, None, now).mine;
            && Find(cs, VALIDATED) == Find(d.mine, VALIDATED)
            && Shows(cs, LATEST_RESOLVED, True, NO_MESSAGE, reason)
            && (latest != st.latestVersion ==> Shows(cs, COMPLETE, False, NO_MESSAGE, "Resolved"))
            && (!IsTrue(d.mine, LATEST_RESOLVED) ==> Find(cs, LATEST_RESOLVED).value.lastUpdate == At(now / SECOND))
  {
    var a := Announce(d, st, latest, now);
    AnnouncementRecorded(st, d, latest, now);
    MarkDraftWhole(a, LATEST_RESOLVED, True, NO_MESSAGE, reason, now);
    FindMark(a.mine, LATEST_RESOLVED, True, NO_MESSAGE, reason, now, COMPLETE);
    FindMark(a.mine, LATEST_RESOLVED, True, NO_MESSAGE, reason, now, VALIDATED);
    FindMark(a.mine, LATEST_RESOLVED, True, NO_MESSAGE, reason, now, LATEST_RESOLVED);
  }

  lemma AnnouncementRecorded(st: PlanStatus, d: Draft, latest: string, now: int)
    requires d.attached ==> d.shared == d.mine
    ensures var a := Announce(d, st, latest, now);
            && (a.attached ==> a.shared == a.mine)
            && Find(a.mine, VALIDATED) == Find(d.mine, VALIDATED) && Find(a.mine, LATEST_RESOLVED) == Find(d.mine, LATEST_RESOLVED)
            && (latest != st.latestVersion ==> Shows(a.mine, COMPLETE, False, NO_MESSAGE, "Resolved"))
  {
    MarkDraftWhole(d, COMPLETE, False, NO_MESSAGE, "Resolved", now);
    FindMark(d.mine, COMPLETE, False, NO_MESSAGE, "Resolved", now, COMPLETE);
    FindMark(d.mine, COMPLETE, False, NO_MESSAGE, "Resolved", now, VALIDATED);
    FindMark(d.mine, COMPLETE, False, NO_MESSAGE, "Resolved", now, LATEST_RESOLVED);
  }

  ghost function Before(p: Plan, secrets: map<string, Secret>, now: int): Draft { Edit(ValidatedDraft(p, secrets, now), LATEST_RESOLVED, Create, now) }

  lemma BeforeMeans(p: Plan, secrets: map<string, Secret>, now: int)
    requires Sound(p.spec, secrets)
    ensures var d := Before(p, secrets, now);
            && Shows(d.mine, VALIDATED, True, NO_MESSAGE, "PlanIsValid")
            && Has(d.mine, LATEST_RESOLVED) && (d.attached ==> d.shared == d.mine)
            && (IsTrue(d.mine, LATEST_RESOLVED) <==> IsTrue(p.status.conditions, LATEST_RESOLVED))
            && (Has(p.status.conditions, COMPLETE) && Has(p.status.conditions, VALIDATED) && Has(p.status.conditions, LATEST_RESOLVED)
                ==> d.shared == d.mine)
  {
    ValidateMeans(p.spec, secrets);
    ValidatedShows(p, secrets, now);
    ValidationRecorded(p, secrets, now);
    var v := ValidatedDraft(p, secrets, now);
    FindUpdate(v.mine, LATEST_RESOLVED, Create, now, VALIDATED);
    FindUpdate(v.mine, LATEST_RESOLVED, Create, now, LATEST_RESOLVED);
  }

  /** A version is resolved: the plan shows valid and resolved, with that version, and a new version is announced on Complete. */
  ghost predicate Announced(p: Plan, r: Result<PlanStatus>, latest: string, reason: string) {
    && r.Ok? && r.value.latestVersion == latest && r.value.applying == p.status.applying
    && Shows(r.value.conditions, VALIDATED, True, NO_MESSAGE, "PlanIsValid")
    && Shows(r.value.conditions, LATEST_RESOLVED, True, NO_MESSAGE, reason)
    && (latest != p.status.latestVersion ==> Shows(r.value.conditions, COMPLETE, False, NO_MESSAGE, "Resolved"))
  }

  lemma ResolvedAnnounces(cfg: Config, p: Plan, latest: string, reason: string, secrets: map<string, Secret>, now: int)
    requires Sound(p.spec, secrets) && reason != "Error"
    ensures var r := Resolved(cfg, p, Before(p, secrets, now), latest, reason, secrets, now);
            && Announced(p, r, latest, reason)
            && (!IsTrue(p.status.conditions, LATEST_RESOLVED) ==> Find(r.value.conditions, LATEST_RESOLVED).value.lastUpdate == At(now / SECOND))
  {
    BeforeMeans(p, secrets, now);
    ResolutionRecorded(p.status, Before(p, secrets, now), latest, reason, now);
    ValidateMeans(p.spec, secrets);
    SecretsDigest(cfg, p.spec.secrets, secrets);
  }

  /** A valid plan with a static version gets that version, with every plus a minus. */
  lemma StaticVersionRecorded(cfg: Config, p: Plan, secrets: map<string, Secret>, poll: Result<string>, now: int)
    requires Sound(p.spec, secrets) && p.spec.version != ""
    ensures Announced(p, StatusHandler(cfg, p, secrets, poll, now), MungeVersion(p.spec.version), "Version")
  {
    ValidateMeans(p.spec, secrets);
    ResolvedAnnounces(cfg, p, MungeVersion(p.spec.version), "Version", secrets, now);
  }

  /** A valid plan with a channel that is asked gets the answer, and fails exactly when the channel does. */
  lemma ChannelVersionRecorded(cfg: Config, p: Plan, secrets: map<string, Secret>, poll: Result<string>, now: int)
    requires Sound(p.spec, secrets) && Polls(cfg, p, now)
    ensures var r := StatusHandler(cfg, p, secrets, poll, now);
            && (r.Ok? <==> poll.Ok?)
            && (poll.Ok? ==> Announced(p, r, MungeVersion(poll.value), "Channel"))
            && (poll.Ok? && !IsTrue(p.status.conditions, LATEST_RESOLVED) ==>
                  Find(r.value.conditions, LATEST_RESOLVED).value.lastUpdate == At(now / SECOND))
  {
    ValidateMeans(p.spec, secrets);
    ThrottledMeans(cfg, p, secrets, now);
    if poll.Ok? { ResolvedAnnounces(cfg, p, MungeVersion(poll.value), "Channel", secrets, now); }
  }

  /** A recently resolved channel is not asked: version, hash and batch stay, and Validated is shown if all entries existed. */
  lemma ThrottledKeepsVersion(cfg: Config, p: Plan, secrets: map<string, Secret>, poll: Result<string>, now: int)
    requires Sound(p.spec, secrets) && p.spec.version == "" && p.spec.channel != "" && Recent(cfg, p.status.conditions, now)
    ensures var r := StatusHandler(cfg, p, secrets, poll, now);
            && r.Ok? && r.value == p.status.(conditions := r.value.conditions)
            && (Has(p.status.conditions, COMPLETE) && Has(p.status.conditions, VALIDATED) ==>
                  Shows(r.value.conditions, VALIDATED, True, NO_MESSAGE, "PlanIsValid"))
  {
    ValidateMeans(p.spec, secrets);
    ThrottledMeans(cfg, p, secrets, now);
    BeforeMeans(p, secrets, now);
  }

  /** A valid plan with neither version nor channel: LatestResolved turns false, and version and hash stay. */
  lemma UnresolvableRecorded(cfg: Config, p: Plan, secrets: map<string, Secret>, poll: Result<string>, now: int)
    requires Sound(p.spec, secrets) && p.spec.version == "" && p.spec.channel == ""
    ensures var r := StatusHandler(cfg, p, secrets, poll, now);
            && r.Ok? && r.value == p.status.(conditions := r.value.conditions)
            && Shows(r.value.conditions, VALIDATED, True, NO_MESSAGE, "PlanIsValid")
            && Shows(r.value.conditions, LATEST_RESOLVED, False, CannotResolve, "Error")
  {
    ValidateMeans(p.spec, secrets);
    BeforeMeans(p, secrets, now);
    DraftShows(Before(p, secrets, now), LATEST_RESOLVED, "Error", Some(CannotResolve), now, VALIDATED);
  }

  /** Whatever the plan looks like, a status with another version has Complete false, reset by the new version. */
  lemma VersionChangeResetsComplete(cfg: Config, p: Plan, secrets: map<string, Secret>, poll: Result<string>, now: int)
    ensures var r := StatusHandler(cfg, p, secrets, poll, now);
            r.Ok? && r.value.latestVersion != p.status.latestVersion ==> Shows(r.value.conditions, COMPLETE, False, NO_MESSAGE, "Resolved")
  {
    if !Sound(p.spec, secrets) { InvalidPlanRecorded(cfg, p, secrets, poll, now); }
    else if p.spec.version != "" { StaticVersionRecorded(cfg, p, secrets, poll, now); }
    else if p.spec.channel == "" { UnresolvableRecorded(cfg, p, secrets, poll, now); }
    else if Polls(cfg, p, now) { ChannelVersionRecorded(cfg, p, secrets, poll, now); }
    else { ThrottledKeepsVersion(cfg, p, secrets, poll, now); }
  }

  /** Every status of a valid plan shows it valid, except that a throttled call cannot record entries that were missing. */
  lemma ValidPlanRecorded(cfg: Config, p: Plan, secrets: map<string, Secret>, poll: Result<string>, now: int)
    requires Sound(p.spec, secrets)
    ensures var r := StatusHandler(cfg, p, secrets, poll, now);
            r.Ok? && (p.spec.version != "" || p.spec.channel == "" || Polls(cfg, p, now)
                      || (Has(p.status.conditions, COMPLETE) && Has(p.status.conditions, VALIDATED)))
            ==> Shows(r.value.conditions, VALIDATED, True, NO_MESSAGE, "PlanIsValid")
  {
    if p.spec.version != "" { StaticVersionRecorded(cfg, p, secrets, poll, now); }
    else if p.spec.channel == "" { UnresolvableRecorded(cfg, p, secrets, poll, now); }
    else if Polls(cfg, p, now) { ChannelVersionRecorded(cfg, p, secrets, poll, now); }
    else { ThrottledKeepsVersion(cfg, p, secrets, poll, now); }
  }

  /** After a first answer of the channel, calls do without it exactly until the interval has passed, counted from that second. */
  lemma FreshAnswerThrottles(cfg: Config, p: Plan, secrets: map<string, Secret>, version: string, now: int, later: int, e: Message)
    requires Sound(p.spec, secrets) && p.spec.version == "" && p.spec.channel != "" && !IsTrue(p.status.conditions, LATEST_RESOLVED)
    ensures var r := StatusHandler(cfg, p, secrets, Ok(version), now);
            r.Ok? &&
            (StatusHandler(cfg, p.(status := r.value), secrets, Err(e), later).Ok? <==> later - now / SECOND * SECOND < cfg.pollingInterval)
  {
    ChannelVersionRecorded(cfg, p, secrets, Ok(version), now);
    var q := p.(status := StatusHandler(cfg, p, secrets, Ok(version), now).value);
    if Polls(cfg, q, later) { ChannelVersionRecorded(cfg, q, secrets, Err(e), later); }
    else { ThrottledKeepsVersion(cfg, q, secrets, Err(e), later); }
  }
}
