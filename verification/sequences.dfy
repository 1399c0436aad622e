/** Facts about lists of nodes up to reordering. */
module Sequences {
  import opened Types
  import opened Text

  ghost function Elements<T>(s: seq<T>): set<T> { set x | x in s }

  ghost predicate Unique<T>(s: seq<T>) { forall i, j :: 0 <= i < j < |s| ==> s[i] != s[j] }

  lemma {:induction false} UniqueSize<T>(s: seq<T>)
    requires Unique(s)
    ensures |Elements(s)| == |s|
  {
    if s != [] {
      var init, last := s[..|s| - 1], s[|s| - 1];
      UniqueSize(init);
      assert s == init + [last];
      assert Elements(s) == Elements(init) + {last};
    }
  }

  /** Every finite set has a listing. */
  lemma {:induction false} ListSet<T>(e: set<T>) returns (r: seq<T>)
    ensures Unique(r) && Elements(r) == e
    decreases |e|
  {
    r := [];
    if e != {} {
      var x :| x in e;
      var rest := ListSet(e - {x});
      r := rest + [x];
      assert forall i :: 0 <= i < |rest| ==> rest[i] in Elements(rest);
      assert Elements(r) == Elements(rest) + {x};
    }
  }

  lemma SubsetSize<T>(a: set<T>, b: set<T>)
    requires a <= b
    ensures |a| <= |b|
  {
    assert b == a + (b - a);
  }

  lemma {:induction false} UniqueCounts<T>(s: seq<T>, x: T)
    requires Unique(s)
    ensures multiset(s)[x] <= 1
  {
    if s != [] {
      var init, last := s[..|s| - 1], s[|s| - 1];
      assert s == init + [last];
      UniqueCounts(init, x);
      if x == last { assert x !in init; }
    }
  }

  /** Reordering a list changes neither its elements nor their being distinct. */
  lemma PermutationKeeps<T>(s: seq<T>, t: seq<T>)
    requires multiset(s) == multiset(t) && Unique(s)
    ensures Elements(s) == Elements(t) && |s| == |t| && Unique(t)
  {
    forall x ensures x in s <==> x in t {
      assert x in s <==> x in multiset(s);
      assert x in t <==> x in multiset(t);
    }
    assert |multiset(s)| == |s| && |multiset(t)| == |t|;
    forall i, j | 0 <= i < j < |t| ensures t[i] != t[j] {
      if t[i] == t[j] {
        var a, b, c := t[..i], t[i + 1..j], t[j + 1..];
        assert t == a + [t[i]] + b + [t[j]] + c;
        assert multiset(t)[t[i]] >= 2;
        UniqueCounts(s, t[i]);
      }
    }
  }

  // ----- sorting by a string key, as `sort.Slice` with a `<` on that key -----

  function Insert(n: Node, s: seq<Node>, key: Node -> string): seq<Node> {
    if s == [] then [n]
    else if Less(key(s[0]), key(n)) then [s[0]] + Insert(n, s[1..], key)
    else [n] + s
  }

  function SortBy(s: seq<Node>, key: Node -> string): seq<Node> {
    if s == [] then [] else Insert(s[0], SortBy(s[1..], key), key)
  }

  ghost predicate SortedBy(s: seq<Node>, key: Node -> string) {
    forall i, j :: 0 <= i < j < |s| ==> Less(key(s[i]), key(s[j]))
  }

  ghost predicate DistinctKeys(s: set<Node>, key: Node -> string) {
    forall a, b :: a in s && b in s && a != b ==> key(a) != key(b)
  }

  lemma {:induction false} InsertAdds(n: Node, s: seq<Node>, key: Node -> string)
    ensures multiset(Insert(n, s, key)) == multiset(s) + multiset{n}
    ensures forall m :: m in Insert(n, s, key) <==> m == n || m in s
  {
    if s != [] {
      assert s == [s[0]] + s[1..];
      InsertAdds(n, s[1..], key);
    }
  }

  lemma ConsSorted(m: Node, t: seq<Node>, key: Node -> string)
    requires SortedBy(t, key) && forall x :: x in t ==> Less(key(m), key(x))
    ensures SortedBy([m] + t, key)
  {
    var r := [m] + t;
    forall i, j | 0 <= i < j < |r| ensures Less(key(r[i]), key(r[j])) { assert r[j] == t[j - 1]; }
  }

  lemma {:induction false} InsertSorts(n: Node, s: seq<Node>, key: Node -> string)
    requires SortedBy(s, key) && forall m :: m in s ==> key(m) != key(n)
    ensures SortedBy(Insert(n, s, key), key)
  {
    if s != [] {
      LessTotal(key(s[0]), key(n));
      SortedHeadLeast(s, key);
      if Less(key(s[0]), key(n)) {
        InsertSorts(n, s[1..], key);
        InsertAdds(n, s[1..], key);
        ConsSorted(s[0], Insert(n, s[1..], key), key);
      } else {
        forall m | m in s ensures Less(key(n), key(m)) {
          if m != s[0] { LessTransitive(key(n), key(s[0]), key(m)); }
        }
        ConsSorted(n, s, key);
      }
    }
  }

  lemma {:induction false} SortBySorts(s: seq<Node>, key: Node -> string)
    requires Unique(s) && DistinctKeys(Elements(s), key)
    ensures SortedBy(SortBy(s, key), key)
    ensures multiset(SortBy(s, key)) == multiset(s)
  {
    if s != [] {
      var rest := SortBy(s[1..], key);
      assert s == [s[0]] + s[1..];
      assert Elements(s[1..]) <= Elements(s);
      SortBySorts(s[1..], key);
      forall m | m in rest ensures key(m) != key(s[0]) {
        assert m in multiset(rest);
        assert m in s[1..];
      }
      InsertSorts(s[0], rest, key);
      InsertAdds(s[0], rest, key);
    }
  }

  /** A strictly sorted list is determined by its elements. */
  lemma {:induction false} SortedUnique(s: seq<Node>, t: seq<Node>, key: Node -> string)
    requires SortedBy(s, key) && SortedBy(t, key)
    requires Elements(s) == Elements(t)
    ensures s == t
  {
    SortedIsUnique(s, key);
    SortedIsUnique(t, key);
    UniqueSize(s);
    UniqueSize(t);
    if s != [] {
      assert s[0] in Elements(t);
      SortedHeadLeast(s, key);
      SortedHeadLeast(t, key);
      assert t[0] in Elements(s);
      if s[0] != t[0] { LessAsymmetric(key(s[0]), key(t[0])); }
      assert Elements(s[1..]) == Elements(s) - {s[0]};
      assert Elements(t[1..]) == Elements(t) - {t[0]};
      SortedUnique(s[1..], t[1..], key);
      assert s == [s[0]] + s[1..] && t == [t[0]] + t[1..];
    }
  }

  lemma SortedIsUnique(s: seq<Node>, key: Node -> string)
    requires SortedBy(s, key)
    ensures Unique(s)
  {
    forall i, j | 0 <= i < j < |s| ensures s[i] != s[j] { LessIrreflexive(key(s[i])); }
  }

  lemma SortedHeadLeast(s: seq<Node>, key: Node -> string)
    requires SortedBy(s, key) && s != []
    ensures forall n :: n in s && n != s[0] ==> Less(key(s[0]), key(n))
    ensures s[0] !in s[1..]
  {
    SortedIsUnique(s, key);
  }
}
