/** The in-place sorting networks of the C++ utilities (two to five elements). */
module SortNetworks {

  /** Ascending order. */
  ghost predicate Sorted(s: seq<int>) {
    forall i, j :: 0 <= i < j < |s| ==> s[i] <= s[j]
  }

  /** Two sorted sequences with the same elements are equal: a sorted permutation is unique. */
  lemma {:induction false} SortedUnique(s: seq<int>, t: seq<int>)
    requires Sorted(s) && Sorted(t) && multiset(s) == multiset(t)
    ensures s == t
    decreases |s|
  {
    assert |s| == |multiset(s)| == |multiset(t)| == |t|;
    if |s| > 0 {
      SortedHeads(s, t);
      SameTails(s, t);
      SortedUnique(s[1..], t[1..]);
      assert s == [s[0]] + s[1..] && t == [t[0]] + t[1..];
    }
  }

  /** The smallest element of a sorted sequence comes first, so equal multisets give equal heads. */
  lemma SortedHeads(s: seq<int>, t: seq<int>)
    requires Sorted(s) && Sorted(t) && multiset(s) == multiset(t) && |s| > 0 && |t| > 0
    ensures s[0] == t[0]
  {
    assert s[0] in multiset(t) && t[0] in multiset(s);
    var k :| 0 <= k < |t| && t[k] == s[0];
    var m :| 0 <= m < |s| && s[m] == t[0];
    assert t[0] <= t[k] && s[0] <= s[m];
  }

  /** Removing equal heads leaves sorted tails with equal multisets. */
  lemma SameTails(s: seq<int>, t: seq<int>)
    requires Sorted(s) && Sorted(t) && multiset(s) == multiset(t) && |s| > 0 && |t| > 0 && s[0] == t[0]
    ensures Sorted(s[1..]) && Sorted(t[1..]) && multiset(s[1..]) == multiset(t[1..])
  {
    assert s == [s[0]] + s[1..] && t == [t[0]] + t[1..];
    assert multiset(s) == multiset([s[0]]) + multiset(s[1..]);
    assert multiset(t) == multiset([t[0]]) + multiset(t[1..]);
    calc {
      multiset(s[1..]);
      multiset(s) - multiset{s[0]};
      multiset(t) - multiset{t[0]};
      multiset(t[1..]);
    }
  }

  /**
   * sort(a, b): the two elements end up in ascending order; they are swapped only when the first
   * is larger. The two references of the C++ code are two slots of one array here.
   */
  method SortPair(a: array<int>, i: int, j: int)
    requires 0 <= i < a.Length && 0 <= j < a.Length && i != j
    modifies a
    ensures a[i] <= a[j]
    ensures old(a[i]) > old(a[j]) ==> a[i] == old(a[j]) && a[j] == old(a[i])
    ensures old(a[i]) <= old(a[j]) ==> a[i] == old(a[i]) && a[j] == old(a[j])
    ensures forall k :: 0 <= k < a.Length && k != i && k != j ==> a[k] == old(a[k])
    ensures multiset(a[..]) == old(multiset(a[..]))
  {
    if a[i] > a[j] {
      a[i], a[j] := a[j], a[i];
    }
  }

  /** The two-element array sort delegates to the pair swap. */
  method Sort2(a: array<int>)
    requires a.Length == 2
    modifies a
    ensures Sorted(a[..])
    ensures multiset(a[..]) == old(multiset(a[..]))
    ensures old(a[0]) <= old(a[1]) ==> a[..] == old(a[..])
  {
    SortPair(a, 0, 1);
  }

  method Sort3(a: array<int>)
    requires a.Length == 3
    modifies a
    ensures Sorted(a[..])
    ensures multiset(a[..]) == old(multiset(a[..]))
  {
    SortPair(a, 1, 2);
    SortPair(a, 0, 2);
    SortPair(a, 0, 1);
  }

  method Sort4(a: array<int>)
    requires a.Length == 4
    modifies a
    ensures Sorted(a[..])
    ensures multiset(a[..]) == old(multiset(a[..]))
  {
    SortPair(a, 0, 1);
    SortPair(a, 2, 3);
    SortPair(a, 0, 2);
    SortPair(a, 1, 3);
    SortPair(a, 1, 2);
  }

  /** The first four comparators of the five-element network: a[0] <= a[1] and a[2] <= a[3] <= a[4]. */
  method Sort5Front(a: array<int>)
    requires a.Length == 5
    modifies a
    ensures a[0] <= a[1] && a[2] <= a[3] <= a[4]
    ensures multiset(a[..]) == old(multiset(a[..]))
  {
    SortPair(a, 0, 1);
    SortPair(a, 3, 4);
    SortPair(a, 2, 4);
    SortPair(a, 2, 3);
  }

  /** The remaining five comparators sort any array the front stage has prepared. */
  method Sort5Back(a: array<int>)
    requires a.Length == 5
    requires a[0] <= a[1] && a[2] <= a[3] <= a[4]
    modifies a
    ensures a[0] <= a[1] <= a[2] <= a[3] <= a[4]
    ensures multiset(a[..]) == old(multiset(a[..]))
  {
    SortPair(a, 0, 3);
    assert a[0] <= a[1] && a[0] <= a[4] && a[2] <= a[3];
    SortPair(a, 0, 2);
    assert a[0] <= a[1] && a[0] <= a[2] <= a[3] && a[0] <= a[4];
    SortPair(a, 1, 4);
    assert a[0] <= a[1] && a[2] <= a[3] <= a[4] && a[1] <= a[4];
    SortPair(a, 1, 3);
    SortPair(a, 1, 2);
  }

  method Sort5(a: array<int>)
    requires a.Length == 5
    modifies a
    ensures Sorted(a[..])
    ensures multiset(a[..]) == old(multiset(a[..]))
  {
    Sort5Front(a);
    Sort5Back(a);
  }
}
