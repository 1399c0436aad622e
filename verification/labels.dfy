/** Kubernetes label selectors, as far as plans use them. */
module Labels {
  type LabelSet = map<string, string>

  datatype Requirement =
    | Exists(key: string)
    | DoesNotExist(key: string)
    | In(key: string, values: seq<string>)
    | NotIn(key: string, values: seq<string>)

  /** `NotIn` also accepts an object that lacks the key; `In` does not. */
  predicate Satisfies(labels: LabelSet, r: Requirement) {
    match r
    case Exists(key) => key in labels
    case DoesNotExist(key) => key !in labels
    case In(key, values) => key in labels && labels[key] in values
    case NotIn(key, values) => key in labels ==> labels[key] !in values
  }

  /** A nil label selector selects nothing, and adding requirements to it keeps it so. */
  datatype Selector = Nothing | AllOf(requirements: seq<Requirement>)

  function Add(s: Selector, r: Requirement): Selector {
    match s
    case Nothing => Nothing
    case AllOf(rs) => AllOf(rs + [r])
  }

  predicate Selects(s: Selector, labels: LabelSet) {
    s.AllOf? && forall r :: r in s.requirements ==> Satisfies(labels, r)
  }

  /** Each query is the opposite of another; in particular an object without the key passes both negative ones. */
  lemma QueriesAreOpposites(labels: LabelSet, key: string, values: seq<string>)
    ensures Satisfies(labels, DoesNotExist(key)) <==> !Satisfies(labels, Exists(key))
    ensures Satisfies(labels, NotIn(key, values)) <==> !Satisfies(labels, In(key, values))
    ensures Satisfies(labels, In(key, values)) ==> Satisfies(labels, Exists(key))
  {
  }

  /** What a selector asks of an object, query by query. */
  ghost predicate Meets(s: Selector, labels: LabelSet) {
    && s != Nothing
    && (forall k :: Exists(k) in s.requirements ==> k in labels)
    && (forall k :: DoesNotExist(k) in s.requirements ==> k !in labels)
    && (forall k, vs :: In(k, vs) in s.requirements ==> k in labels && labels[k] in vs)
    && (forall k, vs :: NotIn(k, vs) in s.requirements ==> k !in labels || labels[k] !in vs)
  }

  lemma SelectsMeets(s: Selector, labels: LabelSet)
    ensures Selects(s, labels) <==> Meets(s, labels)
  {
    if s.AllOf? && Meets(s, labels) {
      forall r | r in s.requirements ensures Satisfies(labels, r) {
        match r
        case Exists(k) =>
        case DoesNotExist(k) =>
        case In(k, vs) =>
        case NotIn(k, vs) =>
      }
    }
  }

  lemma AddSelects(s: Selector, r: Requirement, labels: LabelSet)
    ensures Selects(Add(s, r), labels) <==> Selects(s, labels) && Satisfies(labels, r)
  {
    if s.AllOf? {
      assert r in s.requirements + [r];
      assert forall q :: q in s.requirements ==> q in s.requirements + [r];
    }
  }
}
