/** What the hash of a plan depends on, and what a change of it means for nodes that are done. */
module Digests {
  import opened Types
  import opened Labels
  import opened Text
  import opened Conditions
  import opened Allocator
  import opened Jobs
  import opened Handlers
  import opened Quiescence
  import opened Triggers

  // ----- the parts of the digest -----

  lemma {:induction false} ConcatSplits(a: seq<string>, b: seq<string>)
    ensures Concat(a + b) == Concat(a) + Concat(b)
  {
    if a == [] {
      assert a + b == b;
    } else {
      ConcatSplits(a[1..], b);
      assert (a + b)[0] == a[0] && (a + b)[1..] == a[1..] + b;
      assert a[0] + (Concat(a[1..]) + Concat(b)) == a[0] + Concat(a[1..]) + Concat(b);
    }
  }

  /** One field replaced, the others as they were. */
  lemma ConcatReplaced(fields: seq<string>, i: nat, x: string)
    requires i < |fields|
    ensures Concat(fields[i := x]) == Concat(fields) <==> x == fields[i]
  {
    var before, after := fields[..i], fields[i + 1..];
    assert fields == before + [fields[i]] + after && fields[i := x] == before + [x] + after;
    forall y: string ensures Concat(before + [y] + after) == Concat(before) + (y + Concat(after)) {
      ConcatSplits(before + [y], after);
      ConcatSplits(before, [y]);
      assert Concat([y]) == y + Concat([]);
    }
    SamePrefix(Concat(before), x + Concat(after), fields[i] + Concat(after));
    SameSuffix(x, fields[i], Concat(after));
  }

  /** Contents of the same hashed secret hash to texts of the same length. */
  ghost predicate EvenHashes(cfg: Config) { forall x, y :: |cfg.secretHash(x)| == |cfg.secretHash(y)| }

  lemma SameBlocks(x: string, y: string, u: string, v: string)
    requires |x| == |y|
    ensures x + u == y + v <==> x == y && u == v
  {
    if x + u == y + v {
      assert x == (x + u)[..|x|] && y == (y + v)[..|y|];
      assert u == (x + u)[|x|..] && v == (y + v)[|y|..];
    }
  }

  /** Both digests exist and are equal exactly when the hashed contents are. */
  lemma {:induction false} SecretDigestsIff(cfg: Config, specs: seq<SecretSpec>, a: map<string, Secret>, b: map<string, Secret>)
    requires SecretDigests(cfg, specs, a).Ok? && SecretDigests(cfg, specs, b).Ok?
    requires EvenHashes(cfg) && Injective(cfg.secretHash)
    ensures SecretDigests(cfg, specs, a) == SecretDigests(cfg, specs, b) <==> AgreeOnHashed(specs, a, b)
  {
    if AgreeOnHashed(specs, a, b) { DigestsAgree(cfg, specs, a, b); }
    if specs != [] && SecretDigests(cfg, specs, a) == SecretDigests(cfg, specs, b) {
      var e, rest := specs[0], specs[1..];
      if !e.ignoreUpdates {
        SameBlocks(cfg.secretHash(a[e.name]), cfg.secretHash(b[e.name]),
                   SecretDigests(cfg, rest, a).value, SecretDigests(cfg, rest, b).value);
      }
      SecretDigestsIff(cfg, rest, a, b);
      assert forall i :: 1 <= i < |specs| ==> specs[i] == rest[i - 1];
    }
  }

  // ----- what the hash tells apart -----

  /** The digest is computed: the plan resolved, and every hashed secret is there. */
  ghost predicate Digests(cfg: Config, spec: PlanSpec, st: PlanStatus, secrets: map<string, Secret>) {
    GetReason(st.conditions, LATEST_RESOLVED) != "Error" && DigestStatus(cfg, spec, st, secrets).Ok?
  }

  ghost function HashOf(cfg: Config, spec: PlanSpec, st: PlanStatus, secrets: map<string, Secret>): string
    requires DigestStatus(cfg, spec, st, secrets).Ok?
  {
    DigestStatus(cfg, spec, st, secrets).value.latestHash
  }

  /** Other things equal, the hash changes with the version, and with nothing but it. */
  lemma HashTellsVersions(cfg: Config, spec: PlanSpec, st: PlanStatus, version: string, secrets: map<string, Secret>)
    requires Injective(cfg.sha224) && Digests(cfg, spec, st, secrets)
    ensures Digests(cfg, spec, st.(latestVersion := version), secrets)
    ensures HashOf(cfg, spec, st.(latestVersion := version), secrets) == HashOf(cfg, spec, st, secrets) <==> version == st.latestVersion
  {
    var rest := spec.serviceAccount + Concat(spec.digested) + SecretDigests(cfg, spec.secrets, secrets).value;
    forall v: string ensures v + spec.serviceAccount + Concat(spec.digested) + SecretDigests(cfg, spec.secrets, secrets).value == v + rest {}
    SameSuffix(version, st.latestVersion, rest);
  }

  lemma HashTellsAccounts(cfg: Config, spec: PlanSpec, st: PlanStatus, account: string, secrets: map<string, Secret>)
    requires Injective(cfg.sha224) && Digests(cfg, spec, st, secrets)
    ensures Digests(cfg, spec.(serviceAccount := account), st, secrets)
    ensures HashOf(cfg, spec.(serviceAccount := account), st, secrets) == HashOf(cfg, spec, st, secrets) <==> account == spec.serviceAccount
  {
    var rest := Concat(spec.digested) + SecretDigests(cfg, spec.secrets, secrets).value;
    forall a: string
      ensures st.latestVersion + a + Concat(spec.digested) + SecretDigests(cfg, spec.secrets, secrets).value == st.latestVersion + (a + rest) {}
    SamePrefix(st.latestVersion, account + rest, spec.serviceAccount + rest);
    SameSuffix(account, spec.serviceAccount, rest);
  }

  lemma HashTellsFields(cfg: Config, spec: PlanSpec, st: PlanStatus, i: nat, x: string, secrets: map<string, Secret>)
    requires Injective(cfg.sha224) && Digests(cfg, spec, st, secrets) && i < |spec.digested|
    ensures Digests(cfg, spec.(digested := spec.digested[i := x]), st, secrets)
    ensures HashOf(cfg, spec.(digested := spec.digested[i := x]), st, secrets) == HashOf(cfg, spec, st, secrets) <==> x == spec.digested[i]
  {
    var fields := spec.digested[i := x];
    var d := SecretDigests(cfg, spec.secrets, secrets).value;
    ConcatReplaced(spec.digested, i, x);
    SamePrefix(st.latestVersion + spec.serviceAccount, Concat(fields), Concat(spec.digested));
    SameSuffix(st.latestVersion + spec.serviceAccount + Concat(fields), st.latestVersion + spec.serviceAccount + Concat(spec.digested), d);
  }

  /** The hash tells two secret stores apart exactly when they differ on a secret that counts. */
  lemma HashTellsSecrets(cfg: Config, spec: PlanSpec, st: PlanStatus, a: map<string, Secret>, b: map<string, Secret>)
    requires Injective(cfg.sha224) && Injective(cfg.secretHash) && EvenHashes(cfg)
    requires Digests(cfg, spec, st, a) && Digests(cfg, spec, st, b)
    ensures HashOf(cfg, spec, st, a) == HashOf(cfg, spec, st, b) <==> AgreeOnHashed(spec.secrets, a, b)
  {
    var fixed := st.latestVersion + spec.serviceAccount + Concat(spec.digested);
    SecretDigestsIff(cfg, spec.secrets, a, b);
    SamePrefix(fixed, SecretDigests(cfg, spec.secrets, a).value, SecretDigests(cfg, spec.secrets, b).value);
  }

  /** Secrets are hashed in the order of the plan. */
  lemma {:induction false} SecretDigestsSplit(cfg: Config, first: seq<SecretSpec>, rest: seq<SecretSpec>, secrets: map<string, Secret>)
    ensures var whole, a, b := SecretDigests(cfg, first + rest, secrets), SecretDigests(cfg, first, secrets), SecretDigests(cfg, rest, secrets);
            && (whole.Ok? <==> a.Ok? && b.Ok?)
            && (whole.Ok? ==> whole.value == a.value + b.value)
  {
    if first == [] {
      assert first + rest == rest;
    } else {
      SecretDigestsSplit(cfg, first[1..], rest, secrets);
      assert (first + rest)[0] == first[0] && (first + rest)[1..] == first[1..] + rest;
    }
  }

  /**
   * The parts are hashed one after the other without anything between them, so the hash tells two plans
   * with the same secrets apart exactly when version, account and fields differ once run together.
   */
  lemma HashTellsRunTogether(cfg: Config, spec: PlanSpec, st: PlanStatus, version: string, account: string, fields: seq<string>, secrets: map<string, Secret>)
    requires Injective(cfg.sha224) && Digests(cfg, spec, st, secrets)
    ensures var spec2, st2 := spec.(serviceAccount := account, digested := fields), st.(latestVersion := version);
            && Digests(cfg, spec2, st2, secrets)
            && (HashOf(cfg, spec2, st2, secrets) == HashOf(cfg, spec, st, secrets)
                <==> version + account + Concat(fields) == st.latestVersion + spec.serviceAccount + Concat(spec.digested))
  {
    SameSuffix(version + account + Concat(fields), st.latestVersion + spec.serviceAccount + Concat(spec.digested),
               SecretDigests(cfg, spec.secrets, secrets).value);
  }

  /** So a text moved from the end of the version to the start of the account goes unnoticed, and likewise from the account to the fields. */
  lemma MovedTextGoesUnnoticed(cfg: Config, spec: PlanSpec, st: PlanStatus, x: string, secrets: map<string, Secret>)
    requires Injective(cfg.sha224) && Digests(cfg, spec, st.(latestVersion := st.latestVersion + x), secrets)
    ensures Digests(cfg, spec.(serviceAccount := x + spec.serviceAccount), st, secrets)
    ensures HashOf(cfg, spec.(serviceAccount := x + spec.serviceAccount), st, secrets)
            == HashOf(cfg, spec, st.(latestVersion := st.latestVersion + x), secrets)
    ensures Digests(cfg, spec.(serviceAccount := spec.serviceAccount + x), st, secrets)
    ensures Digests(cfg, spec.(digested := [x] + spec.digested), st, secrets)
    ensures HashOf(cfg, spec.(serviceAccount := spec.serviceAccount + x), st, secrets) == HashOf(cfg, spec.(digested := [x] + spec.digested), st, secrets)
  {
    var v, a, f := st.latestVersion, spec.serviceAccount, Concat(spec.digested);
    var d := SecretDigests(cfg, spec.secrets, secrets).value;
    assert (v + x) + a + f + d == v + (x + a) + f + d;
    ConcatSplits([x], spec.digested);
    assert Concat([x]) == x + Concat([]) == x;
    assert v + (a + x) + f + d == v + a + (x + f) + d;
  }

  // ----- nodes that are done -----

  /** A node that carries some hash of the plan and matches it is to be done exactly when that hash is neither the latest nor "disabled". */
  lemma LabelledEligible(p: Plan, n: Node, hash: string)
    requires PlanLabel(p, n) == Some(hash) && LABEL_HOSTNAME in n.labels
    requires p.spec.nodeSelector.Ok? && Meets(p.spec.nodeSelector.value, n.labels)
    ensures Eligible(p, n) <==> hash != p.status.latestHash && hash != "disabled"
  {
    EligibleMeans(p, n);
    SelectsMeets(p.spec.nodeSelector.value, n.labels);
  }

  lemma StaticHashes(cfg: Config, p: Plan, secrets: map<string, Secret>, poll: Result<string>, now: int)
    requires Validate(p.spec, secrets).None? && p.spec.version != ""
    ensures var r := StatusHandler(cfg, p, secrets, poll, now);
            && r.Ok? && Digests(cfg, p.spec, r.value, secrets) && r.value.latestVersion == MungeVersion(p.spec.version)
            && r.value.latestHash == HashOf(cfg, p.spec, r.value, secrets)
  {
    StatusHandlerSettles(cfg, p, secrets, poll, now);
  }

  lemma HashIgnoresConditions(cfg: Config, spec: PlanSpec, version: string, a: PlanStatus, b: PlanStatus, secrets: map<string, Secret>)
    requires Digests(cfg, spec, a, secrets) && Digests(cfg, spec.(version := version), b, secrets) && a.latestVersion == b.latestVersion
    ensures HashOf(cfg, spec, a, secrets) == HashOf(cfg, spec.(version := version), b, secrets)
  {
  }

  /**
   * A plan with a static version, settled, then given another version: the hash stays the same exactly when the
   * version does, up to `+` and `-`, and a matching node that is done is to be done again exactly when it does not.
   */
  lemma NewVersionReopens(cfg: Config, p: Plan, version: string, secrets: map<string, Secret>, poll: Result<string>, now: int, later: int, n: Node)
    requires Injective(cfg.sha224) && Validate(p.spec, secrets).None? && p.spec.version != "" && version != ""
    requires var r := StatusHandler(cfg, p, secrets, poll, now);
             r.Ok? ==> PlanLabel(p, n) == Some(r.value.latestHash) && r.value.latestHash != "disabled"
    requires p.spec.nodeSelector.Ok? && Meets(p.spec.nodeSelector.value, n.labels) && LABEL_HOSTNAME in n.labels
    ensures var r := StatusHandler(cfg, p, secrets, poll, now);
            r.Ok? &&
            var q := p.(spec := p.spec.(version := version), status := r.value);
            var r2 := StatusHandler(cfg, q, secrets, poll, later);
            && r2.Ok?
            && (r2.value.latestHash == r.value.latestHash <==> MungeVersion(version) == MungeVersion(p.spec.version))
            && !Eligible(p.(status := r.value), n)
            && (Eligible(q.(status := r2.value), n) <==> MungeVersion(version) != MungeVersion(p.spec.version))
  {
    StaticHashes(cfg, p, secrets, poll, now);
    var r := StatusHandler(cfg, p, secrets, poll, now).value;
    var q := p.(spec := p.spec.(version := version), status := r);
    StaticHashes(cfg, q, secrets, poll, later);
    var r2 := StatusHandler(cfg, q, secrets, poll, later).value;
    HashTellsVersions(cfg, p.spec, r, r2.latestVersion, secrets);
    HashIgnoresConditions(cfg, p.spec, version, r.(latestVersion := r2.latestVersion), r2, secrets);
    LabelledEligible(p.(status := r), n, r.latestHash);
    LabelledEligible(q.(status := r2), n, r.latestHash);
  }
}
