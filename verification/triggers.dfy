/** Which plans a secret or node event wakes, and what the digest depends on. */
module Triggers {
  import opened Types
  import opened Labels
  import opened Conditions
  import opened Allocator
  import opened Handlers

  // ----- secrets -----

  /** The plan hashes the contents of this secret. */
  ghost predicate Follows(spec: PlanSpec, secret: string) {
    exists i :: 0 <= i < |spec.secrets| && spec.secrets[i].name == secret && !spec.secrets[i].ignoreUpdates
  }

  /** The nested loops of the secret handler. */
  method OnSecret(plans: seq<Plan>, secret: string) returns (queue: seq<string>)
    ensures forall n :: n in queue <==> exists j :: 0 <= j < |plans| && plans[j].name == n && Follows(plans[j].spec, secret)
  {
    queue := [];
    for j := 0 to |plans|
      invariant forall n :: n in queue <==> exists i :: 0 <= i < j && plans[i].name == n && Follows(plans[i].spec, secret)
    {
      var p := plans[j];
      ghost var before := queue;
      var follows := false;
      for i := 0 to |p.spec.secrets|
        invariant follows <==> exists k :: 0 <= k < i && p.spec.secrets[k].name == secret && !p.spec.secrets[k].ignoreUpdates
        invariant forall n :: n in queue <==> n in before || (follows && n == p.name)
      {
        if secret == p.spec.secrets[i].name {
          if !p.spec.secrets[i].ignoreUpdates {
            queue := queue + [p.name];
            follows := true;
          }
        }
      }
      assert follows <==> Follows(p.spec, secret);
    }
  }

  /** The two stores agree on every secret the plan hashes. */
  ghost predicate AgreeOnHashed(specs: seq<SecretSpec>, a: map<string, Secret>, b: map<string, Secret>) {
    forall i :: 0 <= i < |specs| && !specs[i].ignoreUpdates ==>
      var x := specs[i].name; (x in a <==> x in b) && (x in a && x in b ==> a[x] == b[x])
  }

  lemma {:induction false} DigestsAgree(cfg: Config, specs: seq<SecretSpec>, a: map<string, Secret>, b: map<string, Secret>)
    requires AgreeOnHashed(specs, a, b)
    ensures SecretDigests(cfg, specs, a) == SecretDigests(cfg, specs, b)
  {
    if specs != [] {
      assert forall i :: 0 <= i < |specs[1..]| ==> specs[1..][i] == specs[i + 1];
      DigestsAgree(cfg, specs[1..], a, b);
    }
  }

  /** The hash does not depend on secrets whose updates are ignored. */
  lemma DigestIgnoresUnhashed(cfg: Config, spec: PlanSpec, st: PlanStatus, a: map<string, Secret>, b: map<string, Secret>)
    requires AgreeOnHashed(spec.secrets, a, b)
    ensures DigestStatus(cfg, spec, st, a) == DigestStatus(cfg, spec, st, b)
  {
    DigestsAgree(cfg, spec.secrets, a, b);
  }

  /** Whenever a change of one secret changes a plan's digest, in value or in whether it can be computed, the plan is followed. */
  lemma DigestChangeIsFollowed(cfg: Config, spec: PlanSpec, st: PlanStatus, a: map<string, Secret>, b: map<string, Secret>, secret: string)
    requires a - {secret} == b - {secret}
    requires DigestStatus(cfg, spec, st, a) != DigestStatus(cfg, spec, st, b)
    ensures Follows(spec, secret)
  {
    if !Follows(spec, secret) {
      forall i | 0 <= i < |spec.secrets| && !spec.secrets[i].ignoreUpdates
        ensures var x := spec.secrets[i].name; (x in a <==> x in b) && (x in a && x in b ==> a[x] == b[x])
      {
        SameElsewhere(a, b, secret, spec.secrets[i].name);
      }
      DigestIgnoresUnhashed(cfg, spec, st, a, b);
    }
  }

  lemma SameElsewhere(a: map<string, Secret>, b: map<string, Secret>, secret: string, x: string)
    requires a - {secret} == b - {secret} && x != secret
    ensures (x in a <==> x in b) && (x in a && x in b ==> a[x] == b[x])
  {
    assert x in a <==> x in a - {secret};
    assert x in b <==> x in b - {secret};
    assert x in a ==> (a - {secret})[x] == a[x];
    assert x in b ==> (b - {secret})[x] == b[x];
  }

  /** The secret handler wakes every listed plan whose digest a secret event changes. */
  method OnSecretChange(cfg: Config, plans: seq<Plan>, secret: string, ghost a: map<string, Secret>, ghost b: map<string, Secret>)
    returns (queue: seq<string>)
    requires a - {secret} == b - {secret}
    ensures forall p :: p in plans && DigestStatus(cfg, p.spec, p.status, a) != DigestStatus(cfg, p.spec, p.status, b) ==> p.name in queue
  {
    queue := OnSecret(plans, secret);
    forall p | p in plans && DigestStatus(cfg, p.spec, p.status, a) != DigestStatus(cfg, p.spec, p.status, b)
      ensures p.name in queue
    {
      DigestChangeIsFollowed(cfg, p.spec, p.status, a, b, secret);
    }
  }

  // ----- nodes -----

  /** How many plans the node handler looks at before a selector that does not convert stops it. */
  function Reach(plans: seq<Plan>): (n: nat)
    ensures n <= |plans|
    ensures forall i :: 0 <= i < n ==> plans[i].spec.nodeSelector.Ok?
    ensures n < |plans| ==> plans[n].spec.nodeSelector.Err?
  {
    if plans == [] || plans[0].spec.nodeSelector.Err? then 0 else 1 + Reach(plans[1..])
  }

  /** The node handler wakes, among the plans before the first bad selector, exactly those that select the node. */
  method OnNode(plans: seq<Plan>, labels: LabelSet) returns (queue: seq<string>, fails: bool)
    ensures fails <==> Reach(plans) < |plans|
    ensures forall n :: n in queue <==>
              exists j :: 0 <= j < Reach(plans) && plans[j].name == n && Meets(plans[j].spec.nodeSelector.value, labels)
  {
    queue := [];
    for j := 0 to |plans|
      invariant j <= Reach(plans)
      invariant forall n :: n in queue <==>
                  exists i :: 0 <= i < j && plans[i].name == n && Meets(plans[i].spec.nodeSelector.value, labels)
    {
      if plans[j].spec.nodeSelector.Err? { return queue, true; }
      SelectsMeets(plans[j].spec.nodeSelector.value, labels);
      if Selects(plans[j].spec.nodeSelector.value, labels) { queue := queue + [plans[j].name]; }
    }
    fails := false;
  }
}
