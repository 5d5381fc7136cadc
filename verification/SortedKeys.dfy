/** The map keys in string order, as the command builders emit them. */
module SortedKeys {
  import opened Text

  /** `ks` lists `keys` in strictly ascending order. */
  ghost predicate Enumerates(ks: seq<string>, keys: set<string>) {
    && (forall i, j | 0 <= i < j < |ks| :: Less(ks[i], ks[j]))
    && (forall k :: k in ks <==> k in keys)
  }

  lemma {:induction false} LeastFirst(ks: seq<string>, ls: seq<string>, keys: set<string>)
    requires Enumerates(ks, keys) && Enumerates(ls, keys) && ks != []
    ensures ls != [] && ks[0] == ls[0]
  {
    assert ks[0] in ls;
    if ks[0] != ls[0] {
      assert ls[0] in ks;
      LessTransitive(ks[0], ls[0], ks[0]);
      LessIrreflexive(ks[0]);
    }
  }

  /** A set of strings has only one ascending enumeration. */
  lemma {:induction false} EnumerationUnique(ks: seq<string>, ls: seq<string>, keys: set<string>)
    requires Enumerates(ks, keys) && Enumerates(ls, keys)
    ensures ks == ls
  {
    if ks == [] {
      assert forall i | 0 <= i < |ls| :: ls[i] in ks;
    } else {
      LeastFirst(ks, ls, keys);
      EnumerationTail(ks, keys);
      EnumerationTail(ls, keys);
      EnumerationUnique(ks[1..], ls[1..], keys - {ks[0]});
      assert ks == [ks[0]] + ks[1..] && ls == [ls[0]] + ls[1..];
    }
  }

  lemma {:induction false} EnumerationTail(ks: seq<string>, keys: set<string>)
    requires Enumerates(ks, keys) && ks != []
    ensures Enumerates(ks[1..], keys - {ks[0]})
  {
    assert ks == [ks[0]] + ks[1..];
    forall k
      ensures k in ks[1..] <==> k in keys - {ks[0]}
    {
      if k in ks[1..] {
        var i :| 1 <= i < |ks| && ks[i] == k;
        LessIrreflexive(k);
      }
    }
  }

  lemma {:induction false} EnumerationExists(keys: set<string>) returns (ks: seq<string>)
    ensures Enumerates(ks, keys)
    decreases keys
  {
    if keys == {} {
      ks := [];
    } else {
      var k :| k in keys;
      var rest := EnumerationExists(keys - {k});
      var i := 0;
      while i < |rest| && Less(rest[i], k)
        invariant i <= |rest| && forall p | 0 <= p < i :: Less(rest[p], k)
      {
        i := i + 1;
      }
      forall q | i <= q < |rest|
        ensures Less(k, rest[q])
      {
        assert rest[i] in rest;
        LessTotal(rest[i], k);
        if i < q {
          LessTransitive(k, rest[i], rest[q]);
        }
      }
      ks := rest[..i] + [k] + rest[i..];
      forall x
        ensures x in ks <==> x in keys
      {
        assert rest == rest[..i] + rest[i..];
        assert x in ks <==> x in rest || x == k;
      }
      forall p, q | 0 <= p < q < |ks|
        ensures Less(ks[p], ks[q])
      {
        if p < i < q {
          LessTransitive(rest[p], k, rest[q - 1]);
        }
      }
    }
  }

  ghost function KeysInOrder(keys: set<string>): (ks: seq<string>)
    ensures Enumerates(ks, keys)
  {
    assert exists ks :: Enumerates(ks, keys) by {
      var ks := EnumerationExists(keys);
    }
    var ks :| Enumerates(ks, keys);
    ks
  }

  // ----- The insertion sort -----

  predicate Leq(a: string, b: string) {
    !Less(b, a)
  }

  lemma {:induction false} LeqTransitive(a: string, b: string, c: string)
    requires Leq(a, b) && Leq(b, c)
    ensures Leq(a, c)
  {
    if Less(c, a) {
      LessTotal(a, b);
      LessTotal(b, c);
      if a == b || b == c {
      } else {
        LessTransitive(a, b, c);
        LessTransitive(c, a, c);
        LessIrreflexive(c);
      }
    }
  }

  predicate Ascending(s: seq<string>) {
    forall p, q | 0 <= p < q < |s| :: Leq(s[p], s[q])
  }

  /** All pairs are in order, except possibly those whose later element is at `hole`. */
  predicate AscendingBut(s: seq<string>, hole: nat) {
    forall p, q | 0 <= p < q < |s| && q != hole :: Leq(s[p], s[q])
  }

  lemma {:induction false} Swapped(s: seq<string>, j: nat)
    requires 0 < j < |s| && AscendingBut(s, j) && Less(s[j], s[j - 1])
    ensures AscendingBut(s[j - 1 := s[j]][j := s[j - 1]], j - 1)
  {
    var t := s[j - 1 := s[j]][j := s[j - 1]];
    LessAsymmetric(s[j], s[j - 1]);
    forall p, q | 0 <= p < q < |t| && q != j - 1
      ensures Leq(t[p], t[q])
    {
      if q == j {
        assert p < j - 1 ==> Leq(s[p], s[j - 1]);
      } else if p == j - 1 {
        assert Leq(s[j], s[q]);
      } else if p == j {
        assert Leq(s[j - 1], s[q]);
      }
    }
  }

  lemma {:induction false} LessAsymmetric(a: string, b: string)
    requires Less(a, b)
    ensures Leq(a, b)
  {
    if Less(b, a) {
      LessTransitive(a, b, a);
      LessIrreflexive(a);
    }
  }

  lemma {:induction false} HoleFilled(s: seq<string>, j: nat)
    requires j < |s| && AscendingBut(s, j) && (j > 0 ==> Leq(s[j - 1], s[j]))
    ensures Ascending(s)
  {
    hide Less;
    forall p, q | 0 <= p < q < |s|
      ensures Leq(s[p], s[q])
    {
      if q == j && p < j - 1 {
        LeqTransitive(s[p], s[j - 1], s[j]);
      }
    }
  }

  lemma {:induction false} PrefixOfSwap(s: seq<string>, j: nat, n: nat)
    requires 0 < j < n <= |s|
    ensures s[j - 1 := s[j]][j := s[j - 1]][..n] == s[..n][j - 1 := s[j]][j := s[j - 1]]
    ensures multiset(s[j - 1 := s[j]][j := s[j - 1]]) == multiset(s)
  {
  }

  lemma {:induction false} HoleAtEnd(s: seq<string>, i: nat)
    requires i < |s| && Ascending(s[..i])
    ensures AscendingBut(s[..i + 1], i)
  {
    hide Less;
    assert forall p | 0 <= p < i :: s[..i + 1][p] == s[..i][p];
  }

  /** Moves element `i` down to its place among the sorted ones before it. */
  method SinkInto(out: array<string>, i: nat)
    requires i < out.Length && Ascending(out[..i])
    modifies out
    ensures Ascending(out[..i + 1]) && multiset(out[..]) == multiset(old(out[..]))
  {
    hide Less, Ascending, AscendingBut;
    var j := i;
    HoleAtEnd(out[..], i);
    assert out[..][..i] == out[..i] && out[..][..i + 1] == out[..i + 1];
    while j > 0 && Less(out[j], out[j - 1])
      invariant 0 <= j <= i
      invariant AscendingBut(out[..i + 1], j)
      invariant multiset(out[..]) == multiset(old(out[..]))
    {
      ghost var before := out[..];
      assert before[..i + 1] == out[..i + 1];
      Swapped(before[..i + 1], j);
      PrefixOfSwap(before, j, i + 1);
      out[j - 1], out[j] := out[j], out[j - 1];
      assert out[..] == before[j - 1 := before[j]][j := before[j - 1]];
      assert out[..i + 1] == out[..][..i + 1];
      j := j - 1;
    }
    HoleFilled(out[..i + 1], j);
  }

  method InsertionSort(out: array<string>)
    modifies out
    ensures Ascending(out[..]) && multiset(out[..]) == multiset(old(out[..]))
  {
    var i := 1;
    while i < out.Length
      invariant 1 <= i
      invariant Ascending(out[..if i <= out.Length then i else out.Length])
      invariant multiset(out[..]) == multiset(old(out[..]))
    {
      SinkInto(out, i);
      i := i + 1;
    }
    assert i >= out.Length ==> out[..out.Length] == out[..];
  }

  lemma {:induction false} CountOfTwo(s: seq<string>, i: nat, j: nat)
    requires i < j < |s| && s[i] == s[j]
    ensures multiset(s)[s[i]] >= 2
  {
    assert s == s[..j] + s[j..];
    assert s[..j][i] == s[i] && s[j..][0] == s[j];
    assert s[i] in multiset(s[..j]) && s[j] in multiset(s[j..]);
  }

  lemma {:induction false} AscendingEnumerates(s: seq<string>, keys: set<string>)
    requires Ascending(s) && multiset(s) == multiset(keys)
    ensures Enumerates(s, keys)
  {
    forall k
      ensures k in s <==> k in keys
    {
      assert k in s <==> k in multiset(s);
    }
    forall i, j | 0 <= i < j < |s|
      ensures Less(s[i], s[j])
    {
      if s[i] == s[j] {
        CountOfTwo(s, i, j);
      }
      LessTotal(s[i], s[j]);
    }
  }

  /** The keys as the map happens to be walked. */
  method CollectKeys(m: map<string, string>) returns (out: array<string>)
    ensures fresh(out) && multiset(out[..]) == multiset(m.Keys)
  {
    out := new string[|m.Keys|];
    var left, n := m.Keys, 0;
    while left != {}
      invariant left <= m.Keys && n + |left| == |m.Keys|
      invariant multiset(out[..n]) + multiset(left) == multiset(m.Keys)
      decreases left
    {
      var k :| k in left;
      out[n] := k;
      assert out[..n + 1] == out[..n] + [k];
      left, n := left - {k}, n + 1;
    }
    assert out[..n] == out[..];
  }

  /** sortedKeys: whatever order the map is walked in, the result is the one ascending enumeration. */
  method SortedKeys(m: map<string, string>) returns (ks: seq<string>)
    ensures ks == KeysInOrder(m.Keys)
  {
    hide Less, Enumerates, Ascending;
    var out := CollectKeys(m);
    InsertionSort(out);
    ks := out[..];
    AscendingEnumerates(ks, m.Keys);
    EnumerationUnique(ks, KeysInOrder(m.Keys), m.Keys);
  }

  /** `a` and `b` agree up to `i`, where `a` ends or has the smaller character. */
  predicate FirstDifference(a: string, b: string, i: nat) {
    i <= |a| && i < |b| && a[..i] == b[..i] && (i < |a| ==> a[i] < b[i])
  }

  /** The order is the lexicographic one: decided by the first difference, a prefix coming first. */
  lemma {:induction false} LessIff(a: string, b: string)
    ensures Less(a, b) <==> exists i: nat :: FirstDifference(a, b, i)
  {
    if a == "" || b == "" || a[0] != b[0] {
      assert Less(a, b) ==> FirstDifference(a, b, 0);
      assert forall i: nat | FirstDifference(a, b, i) :: i > 0 ==> a[..i][0] == b[..i][0];
    } else {
      LessIff(a[1..], b[1..]);
      if Less(a[1..], b[1..]) {
        var i: nat :| FirstDifference(a[1..], b[1..], i);
        assert a[..i + 1] == [a[0]] + a[1..][..i] && b[..i + 1] == [b[0]] + b[1..][..i];
        assert FirstDifference(a, b, i + 1);
      }
      if i: nat :| FirstDifference(a, b, i) {
        assert i > 0 && a[1..][..i - 1] == a[..i][1..] && b[1..][..i - 1] == b[..i][1..];
        assert FirstDifference(a[1..], b[1..], i - 1);
      }
    }
  }
}
