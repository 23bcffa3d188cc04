/**
 * The convolutional-layer panel grid: feature-map indices chunked into rows of `columns`,
 * the first `featureMaps` channels of a `[1, H, W, C]` activation, each min–max scaled on its own,
 * and a black fill for every panel when there are no activations.
 */
module Conv2DLayer {
  import opened Wrappers
  import opened Protocol
  import opened Raster

  /** `wrapLimit || featureMaps`: an absent or zero wrap limit means one row for all maps. */
  function Columns(featureMaps: nat, wrapLimit: Option<int>): (c: int)
    ensures wrapLimit.Some? && wrapLimit.value != 0 ==> c == wrapLimit.value
    ensures wrapLimit.None? || wrapLimit.value == 0 ==> c == featureMaps
  {
    if wrapLimit.Some? && wrapLimit.value != 0 then wrapLimit.value else featureMaps
  }

  /** `[lo, lo + 1, ..., hi - 1]`. */
  function Range(lo: nat, hi: nat): (r: seq<nat>)
    requires lo <= hi
    ensures |r| == hi - lo && forall i :: 0 <= i < |r| ==> r[i] == lo + i
    decreases hi - lo
  {
    if lo == hi then [] else [lo] + Range(lo + 1, hi)
  }

  /** The rows laid end to end. */
  function Concat(rows: seq<seq<nat>>): seq<nat>
    decreases |rows|
  {
    if |rows| == 0 then [] else Concat(rows[..|rows| - 1]) + rows[|rows| - 1]
  }

  /** Well-formed rows of width `columns`: all nonempty, all but the last full, the last not over full. */
  predicate Chunked(rows: seq<seq<nat>>, columns: int)
  {
    (forall r :: 0 <= r < |rows| ==> |rows[r]| > 0)
    && (columns > 0 ==> forall r :: 0 <= r < |rows| ==> |rows[r]| <= columns)
    && (columns > 0 ==> forall r :: 0 <= r < |rows| - 1 ==> |rows[r]| == columns)
    && (columns <= 0 ==> |rows| <= 1)
  }

  /** `Concat(rows)` has as many entries as the rows hold; with full rows, `columns` per row. */
  lemma {:induction false} ConcatLength(rows: seq<seq<nat>>, columns: int)
    requires Chunked(rows, columns) && columns > 0 && |rows| > 0
    ensures |Concat(rows)| == (|rows| - 1) * columns + |rows[|rows| - 1]|
    decreases |rows|
  {
    if |rows| > 1 {
      var p := rows[..|rows| - 1];
      assert Chunked(p, columns);
      ConcatLength(p, columns);
      assert |p[|p| - 1]| == columns;
      NextMultiple(|p| - 1, columns);
    } else {
      assert Concat(rows) == Concat(rows[..0]) + rows[0];
    }
  }

  lemma NextMultiple(n: int, c: int)
    ensures (n + 1) * c == n * c + c
  {
  }

  /** What the grouping loop keeps: the rows so far chunk `0..i-1`. */
  predicate Grouped(rows: seq<seq<nat>>, columns: int, i: nat)
  {
    Concat(rows) == Range(0, i)
    && Chunked(rows, columns)
    && (i == 0 <==> rows == [])
  }

  /** Starting a new row `[i]` when there is none or the last one is full. */
  lemma StartRow(rows: seq<seq<nat>>, columns: int, i: nat)
    requires Grouped(rows, columns, i)
    requires |rows| == 0 || |rows[|rows| - 1]| == columns
    ensures Grouped(rows + [[i]], columns, i + 1)
  {
    var rows' := rows + [[i]];
    assert rows'[..|rows|] == rows;
    assert Concat(rows') == Concat(rows) + [i];
    assert Range(0, i + 1) == Range(0, i) + [i];
    forall r | 0 <= r < |rows'| ensures |rows'[r]| > 0 {
      if r < |rows| {
        assert rows'[r] == rows[r];
      }
    }
  }

  /** Pushing `i` onto a last row that is not yet full. */
  lemma ExtendRow(rows: seq<seq<nat>>, columns: int, i: nat)
    requires Grouped(rows, columns, i)
    requires |rows| > 0 && |rows[|rows| - 1]| != columns
    ensures var p := rows[..|rows| - 1];
            Grouped(p + [rows[|rows| - 1] + [i]], columns, i + 1)
  {
    var last := rows[|rows| - 1];
    var p := rows[..|rows| - 1];
    var rows' := p + [last + [i]];
    assert rows == p + [last];
    assert rows'[..|p|] == p;
    assert Concat(rows') == Concat(p) + last + [i];
    assert Range(0, i + 1) == Range(0, i) + [i];
    forall r | 0 <= r < |rows'| ensures |rows'[r]| > 0 && (columns > 0 ==> |rows'[r]| <= columns)
                                   && (columns > 0 && r < |rows'| - 1 ==> |rows'[r]| == columns) {
      if r < |p| {
        assert rows'[r] == rows[r];
      }
    }
  }

  /** Chunked rows of `0..n-1` number `ceil(n / columns)`: the bounds that say so without division. */
  lemma RowBounds(rows: seq<seq<nat>>, columns: int, n: nat)
    requires Grouped(rows, columns, n) && columns > 0 && n > 0
    ensures (|rows| - 1) * columns < n <= |rows| * columns
  {
    ConcatLength(rows, columns);
    NextMultiple(|rows| - 1, columns);
  }

  /**
   * The `reduce` that groups feature indices: start a new row when there is none or the last
   * is full (`lastRow.length === columns`), otherwise push onto the last row.
   */
  method GroupFeatureMaps(featureMaps: nat, columns: int) returns (rows: seq<seq<nat>>)
    ensures Concat(rows) == Range(0, featureMaps)
    ensures Chunked(rows, columns)
    ensures featureMaps == 0 <==> rows == []
    ensures columns > 0 && featureMaps > 0 ==> (|rows| - 1) * columns < featureMaps <= |rows| * columns
  {
    rows := [];
    var i := 0;
    while i < featureMaps
      invariant 0 <= i <= featureMaps
      invariant Grouped(rows, columns, i)
    {
      if |rows| == 0 || |rows[|rows| - 1]| == columns {
        StartRow(rows, columns, i);
        rows := rows + [[i]];
      } else {
        ExtendRow(rows, columns, i);
        var lastRow := rows[|rows| - 1];
        rows := rows[..|rows| - 1] + [lastRow + [i]];
      }
      i := i + 1;
    }
    if columns > 0 && featureMaps > 0 {
      RowBounds(rows, columns, featureMaps);
    }
  }

  lemma ProductOrder(a: int, b: int, c: int)
    requires c > 0 && a * c < b * c
    ensures a < b
  {
  }

  /** The number of rows is `ceil(featureMaps / columns)`. */
  lemma RowCountIsCeiling(featureMaps: nat, columns: int, count: nat)
    requires columns > 0 && featureMaps > 0
    requires (count - 1) * columns < featureMaps <= count * columns
    ensures count == (featureMaps + columns - 1) / columns
  {
    var q := (featureMaps + columns - 1) / columns;
    var r := (featureMaps + columns - 1) % columns;
    assert featureMaps + columns - 1 == q * columns + r && 0 <= r < columns;
    assert (count - 1) * columns == count * columns - columns;
    assert (q + 1) * columns == q * columns + columns;
    assert count * columns < (q + 1) * columns;
    ProductOrder(count, q + 1, columns);
    assert q * columns < (count + 1) * columns;
    ProductOrder(q, count + 1, columns);
  }

  /** A `[1, H, W, C]` activation whose values hold every entry. */
  predicate IsFeatureTensor(t: Tensor)
  {
    |t.shape| == 4 && t.shape[0] == 1 && |t.values| == t.shape[1] * t.shape[2] * t.shape[3]
  }

  function Pixels(t: Tensor): nat
    requires IsFeatureTensor(t)
  {
    t.shape[1] * t.shape[2]
  }

  lemma EntryInRange(pixels: nat, channels: nat, p: nat, k: nat)
    requires p < pixels && k < channels
    ensures p * channels + k < pixels * channels
  {
    assert p * channels + k < p * channels + channels == (p + 1) * channels;
    assert (p + 1) * channels <= pixels * channels;
  }

  /** Channel `k` as an H x W map, row-major: the `k`-th tensor of the `unstack` along axis 3, squeezed. */
  function ChannelMap(t: Tensor, k: nat): (m: seq<real>)
    requires IsFeatureTensor(t) && k < t.shape[3]
    ensures |m| == Pixels(t)
    ensures forall p :: 0 <= p < |m| ==> p * t.shape[3] + k < |t.values| && m[p] == t.values[p * t.shape[3] + k]
  {
    assert |t.values| == Pixels(t) * t.shape[3];
    forall p | 0 <= p < Pixels(t) ensures p * t.shape[3] + k < |t.values| {
      EntryInRange(Pixels(t), t.shape[3], p, k);
    }
    seq(Pixels(t), p requires 0 <= p < Pixels(t) => t.values[p * t.shape[3] + k])
  }

  /** Every rendered channel (the first `featureMaps`, as the slice keeps) has a nonzero range. */
  predicate Drawable(t: Tensor, featureMaps: nat)
  {
    IsFeatureTensor(t) && featureMaps <= t.shape[3] && Pixels(t) > 0
    && forall k :: 0 <= k < featureMaps ==> Min(ChannelMap(t, k)) < Max(ChannelMap(t, k))
  }

  /** The picture panel `k` gets from an activation. */
  function MapImage(t: Tensor, featureMaps: nat, k: nat): (img: Panel)
    requires Drawable(t, featureMaps) && k < featureMaps
    ensures img.Image? && img.rows == t.shape[1] && img.cols == t.shape[2] && |img.values| == Pixels(t)
    ensures forall p :: 0 <= p < |img.values| ==> 0.0 <= img.values[p] <= 1.0
    ensures forall p :: 0 <= p < |img.values| ==> (img.values[p] == 0.0 <==> ChannelMap(t, k)[p] == Min(ChannelMap(t, k)))
    ensures forall p :: 0 <= p < |img.values| ==> (img.values[p] == 1.0 <==> ChannelMap(t, k)[p] == Max(ChannelMap(t, k)))
  {
    Image(t.shape[1], t.shape[2], MinMaxScaled(ChannelMap(t, k)))
  }

  /** The component's canvases, one per feature map. */
  class Conv2DPanels {
    const featureMaps: nat
    const canvases: array<Panel>

    constructor (featureMaps: nat)
      ensures this.featureMaps == featureMaps && canvases.Length == featureMaps && fresh(canvases)
      ensures forall k :: 0 <= k < featureMaps ==> canvases[k] == Untouched
    {
      this.featureMaps := featureMaps;
      canvases := new Panel[featureMaps](_ => Untouched);
    }

    /** The effect: draw each sliced channel into its canvas, or fill every canvas black when there are no activations. */
    method Render(activations: Option<Tensor>)
      requires canvases.Length == featureMaps
      requires activations.Some? ==> Drawable(activations.value, featureMaps)
      modifies canvases
      ensures activations.None? ==> forall k :: 0 <= k < featureMaps ==> canvases[k] == Black
      ensures activations.Some? ==>
                forall k :: 0 <= k < featureMaps ==> canvases[k] == MapImage(activations.value, featureMaps, k)
    {
      if activations.Some? {
        Draw(activations.value);
      } else {
        FillBlack();
      }
    }

    /** The `featureMaps.forEach` loop: channel `i` scaled into canvas `i`. */
    method Draw(t: Tensor)
      requires canvases.Length == featureMaps && Drawable(t, featureMaps)
      modifies canvases
      ensures forall k :: 0 <= k < featureMaps ==> canvases[k] == MapImage(t, featureMaps, k)
    {
      for i := 0 to featureMaps
        invariant forall k :: 0 <= k < i ==> canvases[k] == MapImage(t, featureMaps, k)
      {
        canvases[i] := MapImage(t, featureMaps, i);
      }
    }

    /** The placeholder loop: every canvas filled black. */
    method FillBlack()
      requires canvases.Length == featureMaps
      modifies canvases
      ensures forall k :: 0 <= k < featureMaps ==> canvases[k] == Black
    {
      for i := 0 to featureMaps
        invariant forall k :: 0 <= k < i ==> canvases[k] == Black
      {
        canvases[i] := Black;
      }
    }
  }
}
