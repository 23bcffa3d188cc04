/**
 * What the activation panels share: the smallest and largest entry of a tensor
 * (`tensor.min()`, `tensor.max()`) and the content a panel's canvas shows.
 */
module Raster {

  /** What a visualiser canvas currently shows. */
  datatype Panel =
    | Untouched                                          // never painted since mount
    | Transparent                                        // bitmap reset by assigning its width or height
    | Black                                              // filled with the black placeholder
    | Image(rows: nat, cols: nat, values: seq<real>)     // a normalised map, row-major

  function Min(s: seq<real>): (m: real)
    requires |s| > 0
    ensures exists i :: 0 <= i < |s| && s[i] == m
    ensures forall i :: 0 <= i < |s| ==> m <= s[i]
    decreases |s|
  {
    if |s| == 1 then s[0]
    else
      var m' := Min(s[..|s| - 1]);
      if s[|s| - 1] < m' then s[|s| - 1] else m'
  }

  function Max(s: seq<real>): (m: real)
    requires |s| > 0
    ensures exists i :: 0 <= i < |s| && s[i] == m
    ensures forall i :: 0 <= i < |s| ==> s[i] <= m
    decreases |s|
  {
    if |s| == 1 then s[0]
    else
      var m' := Max(s[..|s| - 1]);
      if s[|s| - 1] > m' then s[|s| - 1] else m'
  }

  /** `(x - min) / (max - min)` for every entry, with no guard against a zero range. */
  function MinMaxScaled(s: seq<real>): (r: seq<real>)
    requires |s| > 0 && Min(s) < Max(s)
    ensures |r| == |s|
    ensures forall i :: 0 <= i < |s| ==> 0.0 <= r[i] <= 1.0
    ensures forall i :: 0 <= i < |s| ==> (r[i] == 0.0 <==> s[i] == Min(s))
    ensures forall i :: 0 <= i < |s| ==> (r[i] == 1.0 <==> s[i] == Max(s))
  {
    var lo, hi := Min(s), Max(s);
    var r := seq(|s|, i requires 0 <= i < |s| => Scale(s[i], lo, hi));
    assert forall i :: 0 <= i < |s| ==> r[i] == Scale(s[i], lo, hi);
    r
  }

  /** One entry of the min–max scaling: it lands in [0, 1], at 0 exactly for `lo` and at 1 exactly for `hi`. */
  function Scale(x: real, lo: real, hi: real): (q: real)
    requires lo <= x <= hi && lo < hi
    ensures 0.0 <= q <= 1.0
    ensures q == 0.0 <==> x == lo
    ensures q == 1.0 <==> x == hi
  {
    QuotientBounds(x - lo, hi - lo);
    (x - lo) / (hi - lo)
  }

  /** A part `n` of a positive whole `d`, as a fraction of it. */
  lemma QuotientBounds(n: real, d: real)
    requires 0.0 <= n <= d && 0.0 < d
    ensures 0.0 <= n / d <= 1.0
    ensures n / d == 0.0 <==> n == 0.0
    ensures n / d == 1.0 <==> n == d
  {
    var q := n / d;
    assert q * d == n;
    if q < 0.0 {
      assert false;
    }
    assert (1.0 - q) * d == d - n;
  }
}
