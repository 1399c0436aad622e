/** Go strings as Dafny strings: the order used by `sort` and the substring test. */
module Text {

  /** Go's `<` on strings: lexicographic, which for UTF-8 agrees with code-point order. */
  predicate Less(a: string, b: string) {
    if b == [] then false
    else if a == [] then true
    else a[0] < b[0] || (a[0] == b[0] && Less(a[1..], b[1..]))
  }

  /** The first place where the strings differ decides; a proper prefix comes first. */
  ghost predicate Before(a: string, b: string, i: nat) {
    && i <= |a| && i < |b| && a[..i] == b[..i]
    && (i == |a| || a[i] < b[i])
  }

  lemma {:induction false} LessMeans(a: string, b: string)
    ensures Less(a, b) <==> exists i: nat :: Before(a, b, i)
  {
    if a != [] && b != [] && a[0] == b[0] {
      LessMeans(a[1..], b[1..]);
      if Less(a[1..], b[1..]) {
        var i: nat :| Before(a[1..], b[1..], i);
        assert a[..i + 1] == [a[0]] + a[1..][..i] && b[..i + 1] == [b[0]] + b[1..][..i];
        assert Before(a, b, i + 1);
      }
      if i: nat :| Before(a, b, i) {
        assert i > 0;
        assert a[1..][..i - 1] == a[..i][1..] && b[1..][..i - 1] == b[..i][1..];
        assert Before(a[1..], b[1..], i - 1);
      }
    } else if b != [] {
      assert Before(a, b, 0) <==> a == [] || a[0] < b[0];
      forall i: nat | 0 < i ensures !Before(a, b, i) {
        if i <= |a| && i < |b| { assert a[..i][0] == a[0] && b[..i][0] == b[0]; }
      }
    }
  }

  lemma {:induction false} LessIrreflexive(a: string)
    ensures !Less(a, a)
  {
    if a != [] { LessIrreflexive(a[1..]); }
  }

  lemma {:induction false} LessTransitive(a: string, b: string, c: string)
    requires Less(a, b) && Less(b, c)
    ensures Less(a, c)
  {
    if a != [] && a[0] == b[0] && b[0] == c[0] { LessTransitive(a[1..], b[1..], c[1..]); }
  }

  lemma {:induction false} LessTotal(a: string, b: string)
    ensures Less(a, b) || a == b || Less(b, a)
  {
    if a != [] && b != [] && a[0] == b[0] {
      LessTotal(a[1..], b[1..]);
      if a[1..] == b[1..] {
        assert a == [a[0]] + a[1..] && b == [b[0]] + b[1..];
      }
    }
  }

  lemma LessAsymmetric(a: string, b: string)
    requires Less(a, b)
    ensures !Less(b, a) && a != b
  {
    if Less(b, a) { LessTransitive(a, b, a); }
    LessIrreflexive(a);
  }

  /** A list of names in strictly increasing order. */
  ghost predicate Ascending(s: seq<string>) {
    forall i, j :: 0 <= i < j < |s| ==> Less(s[i], s[j])
  }

  ghost predicate NoDuplicates(s: seq<string>) {
    forall i, j :: 0 <= i < j < |s| ==> s[i] != s[j]
  }

  predicate OccursAt(s: string, sub: string, i: nat) {
    i + |sub| <= |s| && s[i..i + |sub|] == sub
  }

  /** `strings.Contains`. */
  predicate Contains(s: string, sub: string) {
    exists i :: 0 <= i <= |s| && OccursAt(s, sub, i)
  }

  /** A string contains another exactly when it can be cut around it. */
  lemma ContainsMeans(s: string, sub: string)
    ensures Contains(s, sub) <==> exists a: string, b: string :: s == a + sub + b
  {
    if Contains(s, sub) {
      var i :| 0 <= i <= |s| && OccursAt(s, sub, i);
      assert s == s[..i] + sub + s[i + |sub|..];
    }
    if a: string, b: string :| s == a + sub + b {
      assert OccursAt(s, sub, |a|);
    }
  }

  lemma SameSuffix(a: string, b: string, suffix: string)
    ensures a + suffix == b + suffix <==> a == b
  {
    if a + suffix == b + suffix {
      assert |a| == |b| && a == (a + suffix)[..|a|] && b == (b + suffix)[..|b|];
    }
  }

  lemma SamePrefix(prefix: string, a: string, b: string)
    ensures prefix + a == prefix + b <==> a == b
  {
    if prefix + a == prefix + b {
      assert a == (prefix + a)[|prefix|..] && b == (prefix + b)[|prefix|..];
    }
  }

  /** The loop of `sort.SearchStrings` from the interval [lo, hi), on any list. */
  function SearchFrom(s: seq<string>, key: string, lo: nat, hi: nat): (index: nat)
    requires lo <= hi <= |s|
    ensures lo <= index <= hi
    decreases hi - lo
  {
    if lo == hi then lo
    else
      var mid := (lo + hi) / 2;
      if Less(s[mid], key) then SearchFrom(s, key, mid + 1, hi) else SearchFrom(s, key, lo, mid)
  }

  /** The out-of-turn test's way of asking whether `key` is listed. */
  predicate FoundBySearch(s: seq<string>, key: string) {
    var i := SearchFrom(s, key, 0, |s|);
    i < |s| && s[i] == key
  }

  method SearchStrings(s: seq<string>, key: string) returns (index: nat)
    ensures index == SearchFrom(s, key, 0, |s|)
  {
    var lo, hi := 0, |s|;
    while lo < hi
      invariant 0 <= lo <= hi <= |s|
      invariant SearchFrom(s, key, lo, hi) == SearchFrom(s, key, 0, |s|)
    {
      var mid := (lo + hi) / 2;
      if Less(s[mid], key) { lo := mid + 1; } else { hi := mid; }
    }
    index := lo;
  }

  lemma {:induction false} SearchFromFinds(s: seq<string>, key: string, lo: nat, hi: nat, at: nat)
    requires Ascending(s) && lo <= at < hi <= |s| && s[at] == key
    ensures SearchFrom(s, key, lo, hi) == at
    decreases hi - lo
  {
    var mid := (lo + hi) / 2;
    if mid < at {
      assert Less(s[mid], key);
      SearchFromFinds(s, key, mid + 1, hi, at);
    } else {
      if at < mid { LessAsymmetric(key, s[mid]); } else { LessIrreflexive(key); }
      if at < mid { SearchFromFinds(s, key, lo, mid, at); } else { SearchFromStops(s, key, lo, mid); }
    }
  }

  /** Every entry of the interval is below the key, so the search runs to its end. */
  lemma {:induction false} SearchFromStops(s: seq<string>, key: string, lo: nat, hi: nat)
    requires lo <= hi <= |s|
    requires forall i :: lo <= i < hi ==> Less(s[i], key)
    ensures SearchFrom(s, key, lo, hi) == hi
    decreases hi - lo
  {
    if lo < hi { SearchFromStops(s, key, (lo + hi) / 2 + 1, hi); }
  }

  /** On a strictly sorted list the binary search decides membership. */
  lemma SearchDecidesMembership(s: seq<string>, key: string)
    requires Ascending(s)
    ensures FoundBySearch(s, key) <==> key in s
  {
    if key in s {
      var at :| 0 <= at < |s| && s[at] == key;
      SearchFromFinds(s, key, 0, |s|, at);
    }
  }

  /** The search of an interval finds each of its entries where it is. */
  ghost predicate FindsAll(s: seq<string>, lo: nat, hi: nat) {
    lo <= hi <= |s| && forall i :: lo <= i < hi ==> SearchFrom(s, s[i], lo, hi) == i
  }

  /** One step of the search: on which side of the middle an entry is found is decided by the comparison made there. */
  lemma FindsHalves(s: seq<string>, lo: nat, hi: nat)
    requires FindsAll(s, lo, hi) && lo < hi
    ensures var mid := (lo + hi) / 2;
            && FindsAll(s, lo, mid) && FindsAll(s, mid + 1, hi)
            && (forall i :: lo <= i < mid ==> !Less(s[mid], s[i]))
            && (forall i :: mid < i < hi ==> Less(s[mid], s[i]))
  {
    var mid := (lo + hi) / 2;
    forall i | lo <= i < mid ensures !Less(s[mid], s[i]) && SearchFrom(s, s[i], lo, mid) == i { assert SearchFrom(s, s[i], lo, hi) == i; }
    forall i | mid < i < hi ensures Less(s[mid], s[i]) && SearchFrom(s, s[i], mid + 1, hi) == i { assert SearchFrom(s, s[i], lo, hi) == i; }
  }

  ghost predicate AscendingWithin(s: seq<string>, lo: nat, hi: nat) {
    lo <= hi <= |s| && forall i, j :: lo <= i < j < hi ==> Less(s[i], s[j])
  }

  lemma JoinAscending(s: seq<string>, lo: nat, mid: nat, hi: nat)
    requires lo <= mid < hi <= |s| && AscendingWithin(s, lo, mid) && AscendingWithin(s, mid + 1, hi)
    requires (forall i :: lo <= i < mid ==> Less(s[i], s[mid])) && (forall i :: mid < i < hi ==> Less(s[mid], s[i]))
    ensures AscendingWithin(s, lo, hi)
  {
    forall i, j | lo <= i < j < hi ensures Less(s[i], s[j]) {
      if i < mid < j { LessTransitive(s[i], s[mid], s[j]); }
    }
  }

  lemma {:induction false} FindsAllSorted(s: seq<string>, lo: nat, hi: nat)
    requires NoDuplicates(s) && FindsAll(s, lo, hi)
    ensures AscendingWithin(s, lo, hi)
    decreases hi - lo
  {
    if lo < hi {
      var mid := (lo + hi) / 2;
      FindsHalves(s, lo, hi);
      FindsAllSorted(s, lo, mid);
      FindsAllSorted(s, mid + 1, hi);
      forall i | lo <= i < mid ensures Less(s[i], s[mid]) { LessTotal(s[i], s[mid]); }
      JoinAscending(s, lo, mid, hi);
    }
  }

  /** The binary search decides membership of a list without repetitions exactly when the list is sorted. */
  lemma SearchAgreesIffAscending(s: seq<string>)
    requires NoDuplicates(s)
    ensures (forall key :: FoundBySearch(s, key) <==> key in s) <==> Ascending(s)
  {
    if Ascending(s) {
      forall key ensures FoundBySearch(s, key) <==> key in s { SearchDecidesMembership(s, key); }
    } else if forall key :: FoundBySearch(s, key) <==> key in s {
      forall i | 0 <= i < |s| ensures SearchFrom(s, s[i], 0, |s|) == i { assert FoundBySearch(s, s[i]); }
      FindsAllSorted(s, 0, |s|);
      assert false;
    }
  }
}
