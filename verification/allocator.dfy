/** `SelectConcurrentNodes`: which nodes a plan works on next. */
module Allocator {
  import opened Types
  import opened Labels
  import opened Text
  import opened Sequences

  function LabelPlanName(plan: string): string { "plan.upgrade.cattle.io/" + plan }

  /** The hash a node carries for the plan, if any. */
  function PlanLabel(p: Plan, n: Node): Option<string> {
    if LabelPlanName(p.name) in n.labels then Some(n.labels[LabelPlanName(p.name)]) else None
  }

  function NodeSelector(p: Plan): Result<Selector> {
    match p.spec.nodeSelector
    case Ok(s) => Ok(Add(s, Exists(LABEL_HOSTNAME)))
    case Err(e) => Err(e)
  }

  /** The node selector plus "the plan's label is neither `disabled` nor the latest hash". */
  function EligibleSelector(p: Plan): Result<Selector> {
    match NodeSelector(p)
    case Ok(s) => Ok(Add(s, NotIn(LabelPlanName(p.name), ["disabled", p.status.latestHash])))
    case Err(e) => Err(e)
  }

  predicate Eligible(p: Plan, n: Node) {
    EligibleSelector(p).Ok? && Selects(EligibleSelector(p).value, n.labels)
  }

  /** What eligibility asks of a node's labels. */
  lemma EligibleMeans(p: Plan, n: Node)
    ensures Eligible(p, n) <==>
            && p.spec.nodeSelector.Ok?
            && Selects(p.spec.nodeSelector.value, n.labels)
            && LABEL_HOSTNAME in n.labels
            && (LabelPlanName(p.name) in n.labels ==>
                  n.labels[LabelPlanName(p.name)] != "disabled" && n.labels[LabelPlanName(p.name)] != p.status.latestHash)
  {
    if p.spec.nodeSelector.Ok? {
      var s := p.spec.nodeSelector.value;
      AddSelects(s, Exists(LABEL_HOSTNAME), n.labels);
      AddSelects(Add(s, Exists(LABEL_HOSTNAME)), NotIn(LabelPlanName(p.name), ["disabled", p.status.latestHash]), n.labels);
    }
  }

  lemma EligibleByLabels(p: Plan, a: Node, b: Node)
    requires a.labels == b.labels
    ensures Eligible(p, a) <==> Eligible(p, b)
  {
  }

  ghost function EligibleNodes(p: Plan, nodes: set<Node>): set<Node> { set n | n in nodes && Eligible(p, n) }

  /** The eligible nodes whose hostname is already listed in `Applying`. */
  ghost function KeptNodes(p: Plan, nodes: set<Node>): set<Node> {
    set n | n in nodes && Eligible(p, n) && Hostname(n) in p.status.applying
  }

  function Rank(cfg: Config, p: Plan, n: Node): string { cfg.sha256(n.uid + p.uid + p.status.latestHash) }

  function RankOf(cfg: Config, p: Plan): Node -> string { n => Rank(cfg, p, n) }

  function NameOf(n: Node): string { n.name }

  ghost predicate DistinctNodes(cfg: Config, p: Plan, nodes: set<Node>) {
    && DistinctKeys(nodes, NameOf)
    && DistinctKeys(nodes, RankOf(cfg, p))
  }

  /**
   * The declarative meaning of the selection: sorted by name, every kept node, only
   * eligible nodes, as many as the limit allows, and the others by smallest rank.
   */
  ghost predicate IsSelection(cfg: Config, p: Plan, nodes: set<Node>, r: seq<Node>) {
    && SortedBy(r, NameOf)
    && KeptNodes(p, nodes) <= Elements(r) <= EligibleNodes(p, nodes)
    && |r| == Max(|KeptNodes(p, nodes)|, Min(p.spec.concurrency, |EligibleNodes(p, nodes)|))
    && forall a, b :: a in Elements(r) - KeptNodes(p, nodes) && b in EligibleNodes(p, nodes) - Elements(r)
                      ==> Less(Rank(cfg, p, a), Rank(cfg, p, b))
  }

  /** There is at most one such list, so the result cannot depend on the order of any listing. */
  lemma SelectionUnique(cfg: Config, p: Plan, nodes: set<Node>, r: seq<Node>, q: seq<Node>)
    requires IsSelection(cfg, p, nodes, r) && IsSelection(cfg, p, nodes, q)
    ensures r == q
  {
    var er, eq := Elements(r), Elements(q);
    SortedIsUnique(r, NameOf);
    SortedIsUnique(q, NameOf);
    UniqueSize(r);
    UniqueSize(q);
    if er != eq {
      if er <= eq { SameSizeSubset(er, eq); }
      if eq <= er { SameSizeSubset(eq, er); }
      var a :| a in er && a !in eq;
      var b :| b in eq && b !in er;
      LessAsymmetric(Rank(cfg, p, a), Rank(cfg, p, b));
    }
    SortedUnique(r, q, NameOf);
  }

  lemma SameSizeSubset<T>(a: set<T>, b: set<T>)
    requires a <= b && |a| == |b|
    ensures a == b
  {
    assert b == a + (b - a);
    assert |b - a| == 0;
  }

  /** Because the hostname label must exist, the In and NotIn queries split the eligible nodes. */
  lemma ApplyingQueriesPartition(p: Plan, n: Node)
    requires EligibleSelector(p).Ok?
    ensures var s := EligibleSelector(p).value;
            var inside := Selects(Add(s, In(LABEL_HOSTNAME, p.status.applying)), n.labels);
            var outside := Selects(Add(s, NotIn(LABEL_HOSTNAME, p.status.applying)), n.labels);
            && (inside <==> Eligible(p, n) && Hostname(n) in p.status.applying)
            && (outside <==> Eligible(p, n) && Hostname(n) !in p.status.applying)
  {
    EligibleMeans(p, n);
    AddSelects(EligibleSelector(p).value, In(LABEL_HOSTNAME, p.status.applying), n.labels);
    AddSelects(EligibleSelector(p).value, NotIn(LABEL_HOSTNAME, p.status.applying), n.labels);
  }

  // ----- the algorithm -----

  function Matching(nodes: seq<Node>, s: Selector): seq<Node> {
    if nodes == [] then []
    else (if Selects(s, nodes[0].labels) then [nodes[0]] else []) + Matching(nodes[1..], s)
  }

  lemma {:induction false} MatchingMeans(nodes: seq<Node>, s: Selector)
    requires Unique(nodes)
    ensures Unique(Matching(nodes, s))
    ensures forall n :: n in Matching(nodes, s) <==> n in nodes && Selects(s, n.labels)
  {
    if nodes != [] {
      MatchingMeans(nodes[1..], s);
      assert nodes == [nodes[0]] + nodes[1..];
      assert nodes[0] !in nodes[1..];
    }
  }

  /** The informer cache. A listing has the matching nodes, in no particular order. */
  class NodeCache {
    const nodes: seq<Node>

    constructor (nodes: seq<Node>)
      ensures this.nodes == nodes
    {
      this.nodes := nodes;
    }

    method List(s: Selector) returns (r: seq<Node>)
      ensures multiset(r) == multiset(Matching(nodes, s))
    {
      r := Matching(nodes, s);
    }
  }

  /** The first `k` of the ranked candidates, and the rest: the split the loop makes. */
  lemma BestCandidates(cfg: Config, p: Plan, candidates: seq<Node>, k: nat, a: Node, b: Node)
    requires SortedBy(candidates, RankOf(cfg, p)) && k <= |candidates|
    requires a in candidates[..k] && b in candidates && b !in candidates[..k]
    ensures Less(Rank(cfg, p, a), Rank(cfg, p, b))
  {
    var i :| 0 <= i < k && candidates[i] == a;
    assert candidates == candidates[..k] + candidates[k..];
    var j :| 0 <= j < |candidates[k..]| && candidates[k..][j] == b;
    assert candidates[k + j] == b;
    assert Less(RankOf(cfg, p)(candidates[i]), RankOf(cfg, p)(candidates[k + j]));
  }

  lemma AppendUnique(kept: seq<Node>, more: seq<Node>)
    requires Unique(kept) && Unique(more) && Elements(kept) !! Elements(more)
    ensures Unique(kept + more)
    ensures Elements(kept + more) == Elements(kept) + Elements(more)
  {
    var all := kept + more;
    forall i, j | 0 <= i < j < |all| ensures all[i] != all[j] {
      if i < |kept| <= j {
        assert all[i] in Elements(kept) && all[j] in Elements(more);
      }
    }
  }

  lemma SortedAssembly(nodes: set<Node>, kept: seq<Node>, best: seq<Node>)
    requires DistinctKeys(nodes, NameOf)
    requires Unique(kept) && Unique(best) && Elements(kept) !! Elements(best)
    requires Elements(kept) <= nodes && Elements(best) <= nodes
    ensures var r := SortBy(kept + best, NameOf);
            SortedBy(r, NameOf) && Elements(r) == Elements(kept) + Elements(best) && |r| == |kept| + |best|
  {
    AppendUnique(kept, best);
    SortBySorts(kept + best, NameOf);
    PermutationKeeps(kept + best, SortBy(kept + best, NameOf));
  }

  lemma AssembledSize(p: Plan, nodes: set<Node>, kept: seq<Node>, candidates: seq<Node>)
    requires Unique(kept) && Unique(candidates)
    requires Elements(kept) == KeptNodes(p, nodes)
    requires Elements(candidates) == EligibleNodes(p, nodes) - KeptNodes(p, nodes)
    ensures |KeptNodes(p, nodes)| == |kept| && |EligibleNodes(p, nodes)| == |kept| + |candidates|
  {
    UniqueSize(kept);
    UniqueSize(candidates);
    assert EligibleNodes(p, nodes) == Elements(kept) + Elements(candidates);
  }

  lemma AssembledRanks(cfg: Config, p: Plan, nodes: set<Node>, candidates: seq<Node>, k: nat, chosen: set<Node>)
    requires SortedBy(candidates, RankOf(cfg, p)) && k <= |candidates|
    requires Elements(candidates) == EligibleNodes(p, nodes) - KeptNodes(p, nodes)
    requires chosen == KeptNodes(p, nodes) + Elements(candidates[..k])
    ensures forall a, b :: a in chosen - KeptNodes(p, nodes) && b in EligibleNodes(p, nodes) - chosen
                           ==> Less(Rank(cfg, p, a), Rank(cfg, p, b))
  {
    forall a, b | a in chosen - KeptNodes(p, nodes) && b in EligibleNodes(p, nodes) - chosen
      ensures Less(Rank(cfg, p, a), Rank(cfg, p, b))
    {
      assert b in Elements(candidates) && b !in Elements(candidates[..k]);
      BestCandidates(cfg, p, candidates, k, a, b);
    }
  }

  /** The best `k` candidates: distinct, eligible and not among the kept. */
  lemma BestMeans(cfg: Config, p: Plan, nodes: set<Node>, candidates: seq<Node>, k: nat)
    requires SortedBy(candidates, RankOf(cfg, p)) && k <= |candidates|
    requires Elements(candidates) == EligibleNodes(p, nodes) - KeptNodes(p, nodes)
    ensures Unique(candidates) && Unique(candidates[..k])
    ensures Elements(candidates[..k]) <= EligibleNodes(p, nodes) - KeptNodes(p, nodes)
  {
    SortedIsUnique(candidates, RankOf(cfg, p));
    assert Elements(candidates[..k]) <= Elements(candidates);
  }

  lemma SelectionFromParts(cfg: Config, p: Plan, nodes: set<Node>, r: seq<Node>, best: set<Node>)
    requires SortedBy(r, NameOf) && Elements(r) == KeptNodes(p, nodes) + best
    requires best <= EligibleNodes(p, nodes) - KeptNodes(p, nodes)
    requires |r| == Max(|KeptNodes(p, nodes)|, Min(p.spec.concurrency, |EligibleNodes(p, nodes)|))
    requires forall a, b :: a in Elements(r) - KeptNodes(p, nodes) && b in EligibleNodes(p, nodes) - Elements(r)
                            ==> Less(Rank(cfg, p, a), Rank(cfg, p, b))
    ensures IsSelection(cfg, p, nodes, r)
  {
    assert KeptNodes(p, nodes) <= EligibleNodes(p, nodes);
  }

  lemma RankedIsSelection(cfg: Config, p: Plan, nodes: set<Node>, kept: seq<Node>, candidates: seq<Node>, k: nat, r: seq<Node>)
    requires Unique(kept) && Elements(kept) == KeptNodes(p, nodes)
    requires SortedBy(candidates, RankOf(cfg, p)) && k <= |candidates|
    requires Elements(candidates) == EligibleNodes(p, nodes) - KeptNodes(p, nodes)
    requires SortedBy(r, NameOf) && Elements(r) == Elements(kept) + Elements(candidates[..k])
    requires |r| == |kept| + k == Max(|kept|, Min(p.spec.concurrency, |kept| + |candidates|))
    ensures IsSelection(cfg, p, nodes, r)
  {
    BestMeans(cfg, p, nodes, candidates, k);
    AssembledSize(p, nodes, kept, candidates);
    AssembledRanks(cfg, p, nodes, candidates, k, Elements(r));
    SelectionFromParts(cfg, p, nodes, r, Elements(candidates[..k]));
  }

  /** Kept nodes followed by the best-ranked candidates, then sorted, is the selection. */
  lemma AssembledIsSelection(cfg: Config, p: Plan, nodes: set<Node>, kept: seq<Node>, candidates: seq<Node>, k: nat)
    requires DistinctKeys(nodes, NameOf)
    requires Unique(kept) && Elements(kept) == KeptNodes(p, nodes)
    requires SortedBy(candidates, RankOf(cfg, p)) && k <= |candidates|
    requires Elements(candidates) == EligibleNodes(p, nodes) - KeptNodes(p, nodes)
    requires |kept| + k == Max(|kept|, Min(p.spec.concurrency, |kept| + |candidates|))
    ensures IsSelection(cfg, p, nodes, SortBy(kept + candidates[..k], NameOf))
  {
    BestMeans(cfg, p, nodes, candidates, k);
    SortedAssembly(nodes, kept, candidates[..k]);
    RankedIsSelection(cfg, p, nodes, kept, candidates, k, SortBy(kept + candidates[..k], NameOf));
  }

  /** A listing of a selector, whatever its order, has the right elements once each. */
  lemma ListingMeans(nodes: seq<Node>, s: Selector, listed: seq<Node>)
    requires Unique(nodes) && multiset(listed) == multiset(Matching(nodes, s))
    ensures Unique(listed)
    ensures forall n :: n in Elements(listed) <==> n in nodes && Selects(s, n.labels)
  {
    MatchingMeans(nodes, s);
    PermutationKeeps(Matching(nodes, s), listed);
    assert forall n :: n in Elements(listed) <==> n in Elements(Matching(nodes, s));
  }

  /** The query for the nodes not yet applying; with nothing applying it is the plain selector. */
  function CandidateSelector(p: Plan, selector: Selector): Selector {
    if |p.status.applying| > 0 then Add(selector, NotIn(LABEL_HOSTNAME, p.status.applying)) else selector
  }

  lemma KeptListing(p: Plan, nodes: seq<Node>, listed: seq<Node>)
    requires Unique(nodes) && EligibleSelector(p).Ok?
    requires multiset(listed) == multiset(Matching(nodes, Add(EligibleSelector(p).value, In(LABEL_HOSTNAME, p.status.applying))))
    ensures Unique(listed) && Elements(listed) == KeptNodes(p, Elements(nodes))
  {
    ListingMeans(nodes, Add(EligibleSelector(p).value, In(LABEL_HOSTNAME, p.status.applying)), listed);
    forall n ensures n in Elements(listed) <==> n in KeptNodes(p, Elements(nodes)) { ApplyingQueriesPartition(p, n); }
  }

  lemma CandidateListing(cfg: Config, p: Plan, nodes: seq<Node>, listed: seq<Node>)
    requires Unique(nodes) && EligibleSelector(p).Ok? && DistinctNodes(cfg, p, Elements(nodes))
    requires multiset(listed) == multiset(Matching(nodes, CandidateSelector(p, EligibleSelector(p).value)))
    ensures SortedBy(SortBy(listed, RankOf(cfg, p)), RankOf(cfg, p))
    ensures Elements(SortBy(listed, RankOf(cfg, p)))
            == EligibleNodes(p, Elements(nodes)) - KeptNodes(p, Elements(nodes))
  {
    ListingMeans(nodes, CandidateSelector(p, EligibleSelector(p).value), listed);
    forall n ensures n in Elements(listed) <==> n in EligibleNodes(p, Elements(nodes)) - KeptNodes(p, Elements(nodes)) {
      ApplyingQueriesPartition(p, n);
    }
    SortBySorts(listed, RankOf(cfg, p));
    PermutationKeeps(listed, SortBy(listed, RankOf(cfg, p)));
  }

  /** The first query: copy every eligible node that is already applying. */
  method ListApplying(p: Plan, cache: NodeCache, selector: Selector) returns (selected: seq<Node>)
    requires Unique(cache.nodes) && EligibleSelector(p) == Ok(selector)
    ensures Unique(selected) && Elements(selected) == KeptNodes(p, Elements(cache.nodes))
  {
    selected := [];
    var applyingNodes := cache.List(Add(selector, In(LABEL_HOSTNAME, p.status.applying)));
    KeptListing(p, cache.nodes, applyingNodes);
    for i := 0 to |applyingNodes|
      invariant selected == applyingNodes[..i]
    {
      selected := selected + [applyingNodes[i]];
    }
  }

  /** Append candidates while there is room. */
  method FillUp(concurrency: int, kept: seq<Node>, candidates: seq<Node>) returns (selected: seq<Node>, i: nat)
    requires |kept| < concurrency
    ensures i <= |candidates| && selected == kept + candidates[..i]
    ensures |selected| == Min(concurrency, |kept| + |candidates|)
  {
    selected, i := kept, 0;
    while i < |candidates| && |selected| < concurrency
      invariant 0 <= i <= |candidates|
      invariant selected == kept + candidates[..i]
      invariant |selected| <= concurrency
    {
      selected := selected + [candidates[i]];
      i := i + 1;
    }
  }

  /** The second query: append candidates in rank order while there is room. */
  method TopUp(cfg: Config, p: Plan, cache: NodeCache, selector: Selector, kept: seq<Node>) returns (selected: seq<Node>)
    requires Unique(cache.nodes) && DistinctNodes(cfg, p, Elements(cache.nodes)) && EligibleSelector(p) == Ok(selector)
    requires Unique(kept) && Elements(kept) == KeptNodes(p, Elements(cache.nodes)) && |kept| < p.spec.concurrency
    ensures IsSelection(cfg, p, Elements(cache.nodes), SortBy(selected, NameOf))
  {
    var candidateNodes := cache.List(CandidateSelector(p, selector));
    CandidateListing(cfg, p, cache.nodes, candidateNodes);
    candidateNodes := SortBy(candidateNodes, RankOf(cfg, p));
    var i;
    selected, i := FillUp(p.spec.concurrency, kept, candidateNodes);
    AssembledIsSelection(cfg, p, Elements(cache.nodes), kept, candidateNodes, i);
  }

  lemma NothingAdded(cfg: Config, p: Plan, nodes: set<Node>, kept: seq<Node>, candidates: seq<Node>)
    requires DistinctKeys(nodes, NameOf) && Unique(kept) && Elements(kept) == KeptNodes(p, nodes) && |kept| >= p.spec.concurrency
    requires SortedBy(candidates, RankOf(cfg, p)) && Elements(candidates) == EligibleNodes(p, nodes) - KeptNodes(p, nodes)
    ensures IsSelection(cfg, p, nodes, SortBy(kept, NameOf))
  {
    AssembledIsSelection(cfg, p, nodes, kept, candidates, 0);
    assert kept + candidates[..0] == kept;
  }

  lemma FullIsSelection(cfg: Config, p: Plan, nodes: seq<Node>, kept: seq<Node>)
    requires Unique(nodes) && DistinctNodes(cfg, p, Elements(nodes)) && EligibleSelector(p).Ok?
    requires Unique(kept) && Elements(kept) == KeptNodes(p, Elements(nodes)) && |kept| >= p.spec.concurrency
    ensures IsSelection(cfg, p, Elements(nodes), SortBy(kept, NameOf))
  {
    var listed := Matching(nodes, CandidateSelector(p, EligibleSelector(p).value));
    CandidateListing(cfg, p, nodes, listed);
    NothingAdded(cfg, p, Elements(nodes), kept, SortBy(listed, RankOf(cfg, p)));
  }

  /**
   * The code's two queries and two sorts. Its contract mentions no order of the
   * cache, and `SelectionUnique` says the contract leaves one possible result.
   */
  method SelectConcurrentNodes(cfg: Config, p: Plan, cache: NodeCache) returns (r: Result<seq<Node>>)
    requires Unique(cache.nodes) && DistinctNodes(cfg, p, Elements(cache.nodes))
    ensures r.Err? <==> p.spec.nodeSelector.Err?
    ensures r.Ok? ==> IsSelection(cfg, p, Elements(cache.nodes), r.value)
    ensures r.Ok? ==> forall n :: n in r.value ==> n in cache.nodes && Meets(p.spec.nodeSelector.value, n.labels) && LABEL_HOSTNAME in n.labels
  {
    var selected: seq<Node> := [];
    var base := NodeSelector(p);
    if base.Err? { return Err(base.error); }
    var selector := Add(base.value, NotIn(LabelPlanName(p.name), ["disabled", p.status.latestHash]));
    if |p.status.applying| > 0 { selected := ListApplying(p, cache, selector); }
    // avoid listing, sorting and appending candidates when the batch is already full
    if |selected| < p.spec.concurrency {
      selected := TopUp(cfg, p, cache, selector, selected);
    } else {
      FullIsSelection(cfg, p, cache.nodes, selected);
    }
    r := Ok(SortBy(selected, NameOf));
    SelectedMeet(cfg, p, Elements(cache.nodes), r.value);
  }

  /** Every selected node meets the plan's own queries. */
  lemma SelectedMeet(cfg: Config, p: Plan, nodes: set<Node>, r: seq<Node>)
    requires IsSelection(cfg, p, nodes, r) && p.spec.nodeSelector.Ok?
    ensures forall n :: n in r ==> n in nodes && Meets(p.spec.nodeSelector.value, n.labels) && LABEL_HOSTNAME in n.labels
  {
    forall n | n in r ensures n in nodes && Meets(p.spec.nodeSelector.value, n.labels) && LABEL_HOSTNAME in n.labels {
      assert n in Elements(r);
      EligibleMeans(p, n);
      SelectsMeets(p.spec.nodeSelector.value, n.labels);
    }
  }

  /** The labels of two plans never coincide, so plans do not see each other's progress. */
  lemma PlanLabelsDiffer(a: string, b: string)
    ensures LabelPlanName(a) == LabelPlanName(b) <==> a == b
    ensures LabelPlanName(a)[..23] == "plan.upgrade.cattle.io/"
  {
    assert LabelPlanName(a)[23..] == a && LabelPlanName(b)[23..] == b;
  }

  /** With an injective hash, ranks tell the nodes of one plan and hash apart, and change with the plan and with the hash. */
  lemma RanksTellApart(cfg: Config, p: Plan, q: Plan, a: Node, b: Node)
    requires Injective(cfg.sha256)
    ensures Rank(cfg, p, a) == Rank(cfg, p, b) <==> a.uid == b.uid
    ensures p.uid == q.uid ==> (Rank(cfg, p, a) == Rank(cfg, q, a) <==> p.status.latestHash == q.status.latestHash)
    ensures p.status.latestHash == q.status.latestHash ==> (Rank(cfg, p, a) == Rank(cfg, q, a) <==> p.uid == q.uid)
  {
    SameSuffix(a.uid, b.uid, p.uid + p.status.latestHash);
    assert a.uid + p.uid + p.status.latestHash == a.uid + (p.uid + p.status.latestHash);
    assert b.uid + p.uid + p.status.latestHash == b.uid + (p.uid + p.status.latestHash);
    SamePrefix(a.uid + p.uid, p.status.latestHash, q.status.latestHash);
    SameSuffix(a.uid + p.uid, a.uid + q.uid, p.status.latestHash);
    SamePrefix(a.uid, p.uid, q.uid);
  }

  // ----- consequences -----

  /** Some selection always exists: the same assembly, from any listing of the nodes. */
  lemma SelectionExists(cfg: Config, p: Plan, nodes: seq<Node>) returns (r: seq<Node>)
    requires Unique(nodes) && DistinctNodes(cfg, p, Elements(nodes)) && EligibleSelector(p).Ok?
    ensures IsSelection(cfg, p, Elements(nodes), r)
  {
    var kept := Matching(nodes, Add(EligibleSelector(p).value, In(LABEL_HOSTNAME, p.status.applying)));
    var listed := Matching(nodes, CandidateSelector(p, EligibleSelector(p).value));
    KeptListing(p, nodes, kept);
    CandidateListing(cfg, p, nodes, listed);
    var candidates := SortBy(listed, RankOf(cfg, p));
    var k := Max(|kept|, Min(p.spec.concurrency, |kept| + |candidates|)) - |kept|;
    AssembledIsSelection(cfg, p, Elements(nodes), kept, candidates, k);
    r := SortBy(kept + candidates[..k], NameOf);
  }
}
