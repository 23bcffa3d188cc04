/**
 * `Array.prototype.sort()` with no comparator on an array of strings: ascending in the
 * lexicographic order of characters, a proper prefix coming first.
 */
module JsSort {
  import opened JsArray

  /** `a < b` in JavaScript's default string order. */
  predicate Below(a: string, b: string)
    decreases |a|
  {
    if |a| == 0 then |b| > 0
    else if |b| == 0 then false
    else if a[0] != b[0] then a[0] < b[0]
    else Below(a[1..], b[1..])
  }

  lemma {:induction false} BelowIrreflexive(a: string)
    ensures !Below(a, a)
    decreases |a|
  {
    if |a| > 0 {
      BelowIrreflexive(a[1..]);
    }
  }

  lemma {:induction false} BelowTransitive(a: string, b: string, c: string)
    requires Below(a, b) && Below(b, c)
    ensures Below(a, c)
    decreases |a|
  {
    if |a| > 0 && a[0] == b[0] && b[0] == c[0] {
      BelowTransitive(a[1..], b[1..], c[1..]);
    }
  }

  /** Any two different strings are ordered one way, and only one way. */
  lemma {:induction false} BelowTotal(a: string, b: string)
    ensures a != b <==> Below(a, b) || Below(b, a)
    ensures !(Below(a, b) && Below(b, a))
    decreases |a|
  {
    if |a| == 0 || |b| == 0 {
      BelowIrreflexive(a);
    } else if a[0] == b[0] {
      BelowTotal(a[1..], b[1..]);
      assert a == [a[0]] + a[1..] && b == [b[0]] + b[1..];
    }
  }

  /** `a` comes no later than `b`. */
  predicate Precedes(a: string, b: string)
  {
    a == b || Below(a, b)
  }

  /** Ascending: every element comes no later than every one after it. */
  predicate Sorted(s: seq<string>)
  {
    forall i, j :: 0 <= i < j < |s| ==> Precedes(s[i], s[j])
  }

  /** `x` placed before the first element it is below. */
  function Insert(x: string, s: seq<string>): (r: seq<string>)
    ensures |r| == |s| + 1
    ensures multiset(r) == multiset(s) + multiset{x}
    decreases |s|
  {
    if |s| == 0 then [x]
    else if Below(x, s[0]) then [x] + s
    else
      var t := Insert(x, s[1..]);
      assert s == [s[0]] + s[1..];
      [s[0]] + t
  }

  lemma {:induction false} InsertSorted(x: string, s: seq<string>)
    requires Sorted(s)
    ensures Sorted(Insert(x, s))
    decreases |s|
  {
    if |s| > 0 && !Below(x, s[0]) {
      var t := Insert(x, s[1..]);
      assert Sorted(s[1..]) by {
        forall i, j | 0 <= i < j < |s[1..]| ensures Precedes(s[1..][i], s[1..][j]) {
          assert s[1..][i] == s[i + 1] && s[1..][j] == s[j + 1];
        }
      }
      InsertSorted(x, s[1..]);
      BelowTotal(x, s[0]);
      forall k | 0 <= k < |t| ensures Precedes(s[0], t[k]) {
        InsertFrom(x, s[1..], k);
        if t[k] != x {
          var m :| 0 <= m < |s[1..]| && s[1..][m] == t[k];
          assert s[m + 1] == t[k];
        }
      }
      ConsSorted(s[0], t);
    } else if |s| > 0 {
      forall k | 0 <= k < |s| ensures Precedes(x, s[k]) {
        if k > 0 && Below(s[0], s[k]) {
          BelowTransitive(x, s[0], s[k]);
        }
      }
      ConsSorted(x, s);
    }
  }

  /** Every element of the insertion is `x` or an element of `s`. */
  lemma InsertFrom(x: string, s: seq<string>, k: nat)
    requires k < |Insert(x, s)|
    ensures Insert(x, s)[k] == x || Insert(x, s)[k] in s
  {
    assert Insert(x, s)[k] in multiset(s) + multiset{x};
  }

  /** A head that comes no later than any element of a sorted tail keeps it sorted. */
  lemma ConsSorted(h: string, t: seq<string>)
    requires Sorted(t)
    requires forall k :: 0 <= k < |t| ==> Precedes(h, t[k])
    ensures Sorted([h] + t)
  {
    var r := [h] + t;
    forall i, j | 0 <= i < j < |r| ensures Precedes(r[i], r[j]) {
      assert r[j] == t[j - 1];
      if i > 0 {
        assert r[i] == t[i - 1];
      }
    }
  }

  /** Insertion sort, standing for the engine's sort: only its result matters here. */
  function Sort(xs: seq<string>): (r: seq<string>)
    ensures |r| == |xs|
    ensures multiset(r) == multiset(xs)
    decreases |xs|
  {
    if |xs| == 0 then []
    else
      assert xs == [xs[0]] + xs[1..];
      Insert(xs[0], Sort(xs[1..]))
  }

  lemma {:induction false} SortSorted(xs: seq<string>)
    ensures Sorted(Sort(xs))
    decreases |xs|
  {
    if |xs| > 0 {
      SortSorted(xs[1..]);
      InsertSorted(xs[0], Sort(xs[1..]));
    }
  }

  /** A sequence with no repeats has every multiplicity at most one. */
  lemma {:induction false} NoDuplicatesMultiset(s: seq<string>)
    ensures NoDuplicates(s) <==> forall x :: multiset(s)[x] <= 1
    decreases |s|
  {
    if |s| > 0 {
      var t := s[1..];
      NoDuplicatesMultiset(t);
      assert s == [s[0]] + t;
      assert multiset(s) == multiset{s[0]} + multiset(t);
      if NoDuplicates(s) {
        assert NoDuplicates(t) by {
          forall i, j | 0 <= i < j < |t| ensures t[i] != t[j] {
            assert t[i] == s[i + 1] && t[j] == s[j + 1];
          }
        }
        assert s[0] !in t by {
          forall k | 0 <= k < |t| ensures t[k] != s[0] {
            assert t[k] == s[k + 1];
          }
        }
      }
      if forall x :: multiset(s)[x] <= 1 {
        assert forall x :: multiset(t)[x] <= 1 by {
          forall x ensures multiset(t)[x] <= 1 {
            assert multiset(s)[x] == (if x == s[0] then 1 else 0) + multiset(t)[x];
          }
        }
        assert multiset(s)[s[0]] == 1 + multiset(t)[s[0]];
        assert s[0] !in t;
        forall i, j | 0 <= i < j < |s| ensures s[i] != s[j] {
          if i == 0 {
            assert s[j] == t[j - 1];
          } else {
            assert s[i] == t[i - 1] && s[j] == t[j - 1];
          }
        }
      }
    }
  }

  /**
   * Sorting a duplicate-free array gives a strictly ascending array with exactly the same
   * elements.
   */
  lemma SortDistinct(xs: seq<string>)
    requires NoDuplicates(xs)
    ensures forall i, j :: 0 <= i < j < |Sort(xs)| ==> Below(Sort(xs)[i], Sort(xs)[j])
    ensures NoDuplicates(Sort(xs))
    ensures forall c :: c in Sort(xs) <==> c in xs
  {
    var r := Sort(xs);
    SortSorted(xs);
    NoDuplicatesMultiset(xs);
    NoDuplicatesMultiset(r);
    forall c ensures c in r <==> c in xs {
      assert c in multiset(r) <==> c in multiset(xs);
    }
  }
}
