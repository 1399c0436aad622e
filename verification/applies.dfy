/** The record of applied versions: at most one successful apply per version, and plans do not interfere. */
module Applies {
  import opened Types
  import opened Conditions
  import opened Allocator
  import opened Jobs
  import opened Handlers
  import opened Rollout
  import opened Batch

  // ----- one plan: over runs of the machine -----

  /** Any step except a restart, with versions handled in non-decreasing order. */
  ghost predicate ForwardNext(cfg: Config, s: State, t: State) {
    exists step :: Enabled(cfg, s, step) && !step.Restart? && (step.Generate? ==> s.floor <= step.base) && t == Do(cfg, s, step)
  }

  ghost function ForwardStep(cfg: Config): (State, State) -> bool { (s, t) => ForwardNext(cfg, s, t) }

  /** This transition records the version being applied: everything generated from it has been applied. */
  ghost predicate Records(s: State, t: State) { s.worker.Applying? && t.worker.Writing? }

  /** Only versions beyond the recorded one are being applied. */
  ghost predicate Ahead(s: State) {
    && (s.seen.Some? ==> s.seen.value <= s.floor)
    && (s.worker.Applying? ==> s.worker.base == s.floor && s.seen != Some(s.worker.base))
  }

  ghost predicate RecordMoves(s: State, t: State) {
    if Records(s, t) then t.seen == Some(s.worker.base) else t.seen == s.seen
  }

  lemma ForwardKeeps(cfg: Config, s: State, t: State)
    requires Ahead(s) && ForwardNext(cfg, s, t)
    ensures Ahead(t) && RecordMoves(s, t)
  {
    var step :| Enabled(cfg, s, step) && !step.Restart? && (step.Generate? ==> s.floor <= step.base) && t == Do(cfg, s, step);
    RecordOnlyBy(cfg, s, step);
  }

  /** Only a pass and the end of an apply touch the worker's kind, the record and the floor. */
  lemma RecordOnlyBy(cfg: Config, s: State, step: Step)
    requires Enabled(cfg, s, step) && !step.Restart?
    ensures var t := Do(cfg, s, step);
            && (!step.ApplyDone? ==> t.seen == s.seen && !Records(s, t))
            && (step.Generate? ==> t == s || (t.floor == step.base && (t.worker.Applying? ==> t.worker.base == step.base && s.seen != Some(step.base))))
            && (!step.Generate? ==> t.floor == s.floor && (t.worker.Applying? ==> s.worker.Applying? && t.worker.base == s.worker.base))
  {
  }

  ghost predicate AheadOf(s: State, version: nat) { Ahead(s) && s.seen.Some? && version <= s.seen.value }

  lemma AheadNext(cfg: Config, s: State, t: State, version: nat)
    requires AheadOf(s, version) && ForwardNext(cfg, s, t)
    ensures AheadOf(t, version)
  {
    ForwardKeeps(cfg, s, t);
  }

  lemma RunAhead(cfg: Config, run: seq<State>, i: nat)
    requires Follows(run, ForwardStep(cfg)) && Init(run[0]) && i < |run|
    ensures Ahead(run[i])
  {
    var inv := (s: State) => Ahead(s);
    forall s, t | inv(s) && ForwardStep(cfg)(s, t) ensures inv(t) { ForwardKeeps(cfg, s, t); }
    HoldsThroughout(run, ForwardStep(cfg), inv, i);
  }

  /** From a recorded version on, the record is at that version or beyond. */
  lemma RecordGrows(cfg: Config, run: seq<State>, i: nat, j: nat)
    requires Follows(run, ForwardStep(cfg)) && i < j < |run| && Ahead(run[i]) && Records(run[i], run[i + 1])
    ensures AheadOf(run[j], run[i].worker.base)
  {
    var version := run[i].worker.base;
    assert Linked(run, i, ForwardStep(cfg));
    ForwardKeeps(cfg, run[i], run[i + 1]);
    var inv := (s: State) => AheadOf(s, version);
    forall s, t | inv(s) && ForwardStep(cfg)(s, t) ensures inv(t) { AheadNext(cfg, s, t, version); }
    HoldsFrom(run, ForwardStep(cfg), inv, i + 1, j);
  }

  /** For versions handled in order and no restart, each version is applied successfully at most once. */
  lemma AppliedAtMostOnce(cfg: Config, run: seq<State>, i: nat, j: nat)
    requires Follows(run, ForwardStep(cfg)) && Init(run[0]) && i < j && j + 1 < |run|
    requires Records(run[i], run[i + 1]) && Records(run[j], run[j + 1])
    ensures run[i].worker.base < run[j].worker.base
  {
    RunAhead(cfg, run, i);
    RecordGrows(cfg, run, i, j);
  }

  // ----- many plans: the record by plan key -----

  /** A call of `Handle` for a plan key and resource version, where `ok` is whether an apply would succeed, or of `Remove`. */
  datatype Call = Handle(key: string, version: nat, ok: bool) | Forget(key: string)

  predicate IsNew(seen: map<string, nat>, key: string, version: nat) { key !in seen || seen[key] != version }

  /** The record changes when a new version has been applied successfully, and when the plan is gone. */
  function Record(seen: map<string, nat>, c: Call): map<string, nat> {
    match c
    case Handle(key, version, ok) => if IsNew(seen, key, version) && ok then seen[key := version] else seen
    case Forget(key) => seen - {key}
  }

  predicate DoesApply(seen: map<string, nat>, c: Call) { c.Handle? && IsNew(seen, c.key, c.version) && c.ok }

  function RecordAll(seen: map<string, nat>, calls: seq<Call>): map<string, nat>
    decreases |calls|
  {
    if calls == [] then seen else RecordAll(Record(seen, calls[0]), calls[1..])
  }

  /** The calls that applied something, in order. */
  function Applied(seen: map<string, nat>, calls: seq<Call>): seq<Call>
    decreases |calls|
  {
    if calls == [] then []
    else (if DoesApply(seen, calls[0]) then [calls[0]] else []) + Applied(Record(seen, calls[0]), calls[1..])
  }

  function Only(calls: seq<Call>, key: string): seq<Call> {
    if calls == [] then []
    else (if calls[0].key == key then [calls[0]] else []) + Only(calls[1..], key)
  }

  function At(seen: map<string, nat>, key: string): map<string, nat> { if key in seen then map[key := seen[key]] else map[] }

  lemma RecordApart(seen: map<string, nat>, c: Call, key: string)
    ensures c.key == key ==> At(Record(seen, c), key) == Record(At(seen, key), c) && (DoesApply(seen, c) <==> DoesApply(At(seen, key), c))
    ensures c.key != key ==> At(Record(seen, c), key) == At(seen, key)
  {
  }

  lemma OnlyTail(calls: seq<Call>, key: string)
    requires calls != [] && calls[0].key == key
    ensures var mine := Only(calls, key); mine != [] && mine[0] == calls[0] && mine[1..] == Only(calls[1..], key)
  {
  }

  /** What is recorded and applied for one plan depends on that plan's calls alone. */
  lemma {:induction false} PlansDoNotInterfere(seen: map<string, nat>, calls: seq<Call>, key: string)
    ensures At(RecordAll(seen, calls), key) == RecordAll(At(seen, key), Only(calls, key))
    ensures Only(Applied(seen, calls), key) == Applied(At(seen, key), Only(calls, key))
    decreases |calls|
  {
    if calls != [] {
      var c, next := calls[0], Record(seen, calls[0]);
      PlansDoNotInterfere(next, calls[1..], key);
      RecordApart(seen, c, key);
      var rest := Applied(next, calls[1..]);
      if DoesApply(seen, c) { assert ([c] + rest)[0] == c && ([c] + rest)[1..] == rest; } else { assert Applied(seen, calls) == rest; }
      if c.key == key { OnlyTail(calls, key); } else { assert Only(calls, key) == Only(calls[1..], key); }
    }
  }
}
