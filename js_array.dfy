/** The array idioms the source leans on: `[...new Set(xs)]`, `filter(x => x !== v)` and `join`. */
module JsArray {

  /** Index of the first occurrence of `x` in `s` (`s.indexOf(x)`). */
  function IndexOf<T(==)>(s: seq<T>, x: T): (k: nat)
    requires x in s
    ensures k < |s| && s[k] == x
    ensures forall j :: 0 <= j < k ==> s[j] != x
  {
    if s[0] == x then 0 else 1 + IndexOf(s[1..], x)
  }

  /** `xs` with no element twice. */
  predicate NoDuplicates<T(==)>(xs: seq<T>)
  {
    forall i, j :: 0 <= i < j < |xs| ==> xs[i] != xs[j]
  }

  /**
   * `[...new Set(xs)]`: a `Set` keeps insertion order, so every element is kept at its
   * first occurrence and later copies are skipped.
   */
  function Dedup<T(==)>(xs: seq<T>): (r: seq<T>)
    ensures NoDuplicates(r)
    ensures forall i :: 0 <= i < |r| ==> r[i] in xs
    ensures forall i :: 0 <= i < |xs| ==> xs[i] in r
    decreases |xs|
  {
    if |xs| == 0 then []
    else
      var d := Dedup(xs[..|xs| - 1]);
      var x := xs[|xs| - 1];
      if x in d then d else d + [x]
  }

  /** The elements of `Dedup(xs)` come in the order of their first occurrences in `xs`. */
  lemma {:induction false} DedupFirstOccurrenceOrder<T>(xs: seq<T>)
    ensures forall i, j :: 0 <= i < j < |Dedup(xs)| ==> IndexOf(xs, Dedup(xs)[i]) < IndexOf(xs, Dedup(xs)[j])
    decreases |xs|
  {
    if |xs| > 0 {
      var p := xs[..|xs| - 1];
      var x := xs[|xs| - 1];
      assert xs == p + [x];
      DedupFirstOccurrenceOrder(p);
      var d := Dedup(p);
      var r := Dedup(xs);
      assert r == if x in d then d else d + [x];
      forall i, j | 0 <= i < j < |r| ensures IndexOf(xs, r[i]) < IndexOf(xs, r[j]) {
        assert r[i] == d[i] && r[i] in p;
        IndexOfPrefix(p, [x], r[i]);
        if j < |d| {
          assert r[j] == d[j] && r[j] in p;
          IndexOfPrefix(p, [x], r[j]);
        } else {
          assert r[j] == x && x !in p;
          IndexOfLast(p, x);
        }
      }
    }
  }

  lemma IndexOfPrefix<T>(p: seq<T>, q: seq<T>, y: T)
    requires y in p
    ensures IndexOf(p + q, y) == IndexOf(p, y)
  {
    if p[0] != y {
      assert (p + q)[1..] == p[1..] + q;
      IndexOfPrefix(p[1..], q, y);
    }
  }

  lemma IndexOfLast<T>(p: seq<T>, x: T)
    requires x !in p
    ensures IndexOf(p + [x], x) == |p|
  {
    if |p| > 0 {
      assert (p + [x])[1..] == p[1..] + [x];
      IndexOfLast(p[1..], x);
    }
  }

  /** `xs.filter(item => item !== v)`. */
  function Remove<T(==)>(xs: seq<T>, v: T): (r: seq<T>)
    ensures v !in r
    ensures forall i :: 0 <= i < |xs| && xs[i] != v ==> multiset(r)[xs[i]] == multiset(xs)[xs[i]]
    ensures forall i :: 0 <= i < |r| ==> r[i] in xs
    decreases |xs|
  {
    if |xs| == 0 then []
    else
      var rest := Remove(xs[..|xs| - 1], v);
      assert xs == xs[..|xs| - 1] + [xs[|xs| - 1]];
      if xs[|xs| - 1] == v then rest else rest + [xs[|xs| - 1]]
  }

  /** Filtering distributes over concatenation, so the kept elements stay in their relative order. */
  lemma {:induction false} RemoveAppend<T>(a: seq<T>, b: seq<T>, v: T)
    ensures Remove(a + b, v) == Remove(a, v) + Remove(b, v)
    decreases |b|
  {
    if |b| > 0 {
      var b' := b[..|b| - 1];
      assert (a + b)[..|a + b| - 1] == a + b';
      assert (a + b)[|a + b| - 1] == b[|b| - 1];
      RemoveAppend(a, b', v);
    } else {
      assert a + b == a;
    }
  }

  /** A list without `v` is left as it is. */
  lemma {:induction false} RemoveAbsent<T>(xs: seq<T>, v: T)
    requires v !in xs
    ensures Remove(xs, v) == xs
    decreases |xs|
  {
    if |xs| > 0 {
      var p, x := xs[..|xs| - 1], xs[|xs| - 1];
      assert xs == p + [x];
      assert v !in p by {
        forall k | 0 <= k < |p| ensures p[k] != v {
          assert p[k] == xs[k];
        }
      }
      RemoveAbsent(p, v);
      assert x != v by {
        assert xs[|xs| - 1] == x;
      }
      assert Remove(xs, v) == Remove(p, v) + [x];
    }
  }

  /** `xs.map(f)`: `f` applied to every element, in order. */
  function Map<A, B>(f: A -> B, xs: seq<A>): (r: seq<B>)
    ensures |r| == |xs|
    decreases |xs|
  {
    if |xs| == 0 then [] else Map(f, xs[..|xs| - 1]) + [f(xs[|xs| - 1])]
  }

  /** Element `i` of the result depends on element `i` of the input alone. */
  lemma {:induction false} MapPointwise<A, B>(f: A -> B, xs: seq<A>)
    ensures forall i :: 0 <= i < |xs| ==> Map(f, xs)[i] == f(xs[i])
    decreases |xs|
  {
    if |xs| > 0 {
      var p := xs[..|xs| - 1];
      MapPointwise(f, p);
      forall i | 0 <= i < |xs| ensures Map(f, xs)[i] == f(xs[i]) {
        if i < |p| {
          assert Map(f, xs)[i] == Map(f, p)[i] && xs[i] == p[i];
        }
      }
    }
  }

  /** Mapping distributes over concatenation. */
  lemma {:induction false} MapAppend<A, B>(f: A -> B, a: seq<A>, b: seq<A>)
    ensures Map(f, a + b) == Map(f, a) + Map(f, b)
    decreases |b|
  {
    if |b| == 0 {
      assert a + b == a;
    } else {
      var b' := b[..|b| - 1];
      assert (a + b)[..|a + b| - 1] == a + b';
      assert (a + b)[|a + b| - 1] == b[|b| - 1];
      MapAppend(f, a, b');
    }
  }

  /** One more element maps to one more result. */
  lemma MapSnoc<A, B>(f: A -> B, xs: seq<A>, i: nat)
    requires i < |xs|
    ensures Map(f, xs[..i + 1]) == Map(f, xs[..i]) + [f(xs[i])]
  {
    assert xs[..i + 1][..i] == xs[..i];
  }

  /** `xs.join(sep)`. */
  function Join(xs: seq<string>, sep: string): (r: string)
    decreases |xs|
  {
    if |xs| == 0 then ""
    else if |xs| == 1 then xs[0]
    else Join(xs[..|xs| - 1], sep) + sep + xs[|xs| - 1]
  }

  /** Joining one more element puts the separator between it and what came before. */
  lemma JoinSnoc(xs: seq<string>, x: string, sep: string)
    ensures |xs| == 0 ==> Join(xs + [x], sep) == x
    ensures |xs| > 0 ==> Join(xs + [x], sep) == Join(xs, sep) + sep + x
  {
    assert (xs + [x])[..|xs|] == xs;
  }

  function SumLengths(xs: seq<string>): nat
  {
    if |xs| == 0 then 0 else SumLengths(xs[..|xs| - 1]) + |xs[|xs| - 1]|
  }

  /** The joined string holds every element and one separator between each neighbouring pair. */
  lemma {:induction false} JoinLength(xs: seq<string>, sep: string)
    ensures |xs| > 0 ==> |Join(xs, sep)| == SumLengths(xs) + (|xs| - 1) * |sep|
    ensures |xs| == 0 ==> Join(xs, sep) == ""
    decreases |xs|
  {
    if |xs| > 1 {
      var p := xs[..|xs| - 1];
      JoinLength(p, sep);
      assert |Join(xs, sep)| == |Join(p, sep)| + |sep| + |xs[|xs| - 1]|;
      assert SumLengths(xs) == SumLengths(p) + |xs[|xs| - 1]|;
      MulStep(|p| - 1, |sep|);
    } else if |xs| == 1 {
      assert SumLengths(xs) == SumLengths(xs[..0]) + |xs[0]|;
    }
  }

  lemma MulStep(n: nat, k: nat)
    ensures (n + 1) * k == n * k + k
  {
  }

  /** Joining splits at any interior point: `join(a ++ b) == join(a) + sep + join(b)`. */
  lemma {:induction false} JoinSplit(a: seq<string>, b: seq<string>, sep: string)
    requires |a| > 0 && |b| > 0
    ensures Join(a + b, sep) == Join(a, sep) + sep + Join(b, sep)
    decreases |b|
  {
    if |b| == 1 {
      assert (a + b)[..|a + b| - 1] == a;
    } else {
      var b' := b[..|b| - 1];
      assert (a + b)[..|a + b| - 1] == a + b';
      JoinSplit(a, b', sep);
    }
  }
}
