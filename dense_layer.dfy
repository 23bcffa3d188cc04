/**
 * The fully-connected-layer panel: one canvas sized ten pixels per neuron cell, showing the
 * activations reshaped to `height` x `width` and min–max scaled with a guard for a zero range.
 */
module DenseLayer {
  import opened Wrappers
  import opened Protocol
  import opened Raster

  /** Canvas pixels per neuron cell. */
  const CellPixels: nat := 10

  /** `[width ?? numNeurons, height ?? 1]`: only a missing prop falls back. */
  function LayerDims(width: Option<nat>, height: Option<nat>, numNeurons: nat): (d: (nat, nat))
    ensures d.0 == (if width.Some? then width.value else numNeurons)
    ensures d.1 == (if height.Some? then height.value else 1)
  {
    (width.GetOr(numNeurons), height.GetOr(1))
  }

  /** The canvas attributes before any effect: `width ? width * 10 : 10`, likewise for height (zero is falsy). */
  function InitialSize(width: Option<nat>, height: Option<nat>): (size: (nat, nat))
    ensures size.0 == (if width.Some? && width.value != 0 then width.value * CellPixels else 10)
    ensures size.1 == (if height.Some? && height.value != 0 then height.value * CellPixels else 10)
  {
    (if width.Some? && width.value != 0 then width.value * CellPixels else 10,
     if height.Some? && height.value != 0 then height.value * CellPixels else 10)
  }

  /** `reshape([rows, cols])`: row `y` holds entries `y * cols .. y * cols + cols - 1`. */
  function Reshape(s: seq<real>, rows: nat, cols: nat): (m: seq<seq<real>>)
    requires |s| == rows * cols
    ensures |m| == rows
    ensures forall y :: 0 <= y < rows ==> |m[y]| == cols
    ensures forall y, x :: 0 <= y < rows && 0 <= x < cols ==> Offset(y, cols, x) < |s| && m[y][x] == s[Offset(y, cols, x)]
  {
    var m := seq(rows, y requires 0 <= y < rows => Row(s, rows, cols, y));
    forall y, x | 0 <= y < rows && 0 <= x < cols ensures Offset(y, cols, x) < |s| && m[y][x] == s[Offset(y, cols, x)] {
      RowInside(rows, cols, y);
      assert m[y] == s[y * cols..y * cols + cols];
    }
    m
  }

  /** Where cell (y, x) of a row-major grid with `cols` columns sits in the flat list. */
  function Offset(y: nat, cols: nat, x: nat): nat
  {
    y * cols + x
  }

  function Row(s: seq<real>, rows: nat, cols: nat, y: nat): (row: seq<real>)
    requires |s| == rows * cols && y < rows
    ensures |row| == cols
  {
    RowInside(rows, cols, y);
    s[y * cols..y * cols + cols]
  }

  lemma RowInside(rows: nat, cols: nat, y: nat)
    requires y < rows
    ensures y * cols + cols <= rows * cols
  {
    assert y * cols + cols == (y + 1) * cols;
  }

  /** Reshaping loses nothing: laying the rows end to end gives the values back. */
  lemma {:induction false} ReshapeRoundTrip(s: seq<real>, rows: nat, cols: nat)
    requires |s| == rows * cols
    ensures Flatten(Reshape(s, rows, cols)) == s
  {
    var m := Reshape(s, rows, cols);
    FlattenPrefix(s, rows, cols, rows);
    assert m[..rows] == m;
    assert s[..rows * cols] == s;
  }

  lemma {:induction false} FlattenPrefix(s: seq<real>, rows: nat, cols: nat, k: nat)
    requires |s| == rows * cols && k <= rows
    ensures k * cols <= |s|
    ensures Flatten(Reshape(s, rows, cols)[..k]) == s[..k * cols]
    decreases k
  {
    var m := Reshape(s, rows, cols);
    if k == 0 {
      assert m[..0] == [];
    } else {
      FlattenPrefix(s, rows, cols, k - 1);
      RowInside(rows, cols, k - 1);
      assert (k - 1) * cols + cols == k * cols;
      assert m[..k][..k - 1] == m[..k - 1];
      assert m[k - 1] == s[(k - 1) * cols..k * cols];
      assert s[..k * cols] == s[..(k - 1) * cols] + s[(k - 1) * cols..k * cols];
    }
  }

  function Flatten(m: seq<seq<real>>): seq<real>
    decreases |m|
  {
    if |m| == 0 then [] else Flatten(m[..|m| - 1]) + m[|m| - 1]
  }

  /**
   * `tf.where(range == 0, zerosLike(x), (x - min) / range)`: a constant tensor becomes all zeros
   * (nothing is divided), any other is min–max scaled into [0, 1].
   */
  function GuardedScaled(s: seq<real>): (r: seq<real>)
    ensures |r| == |s|
    ensures forall i :: 0 <= i < |s| ==> 0.0 <= r[i] <= 1.0
    ensures |s| > 0 && Min(s) == Max(s) ==> forall i :: 0 <= i < |s| ==> r[i] == 0.0
    ensures |s| > 0 && Min(s) < Max(s) ==>
              forall i :: 0 <= i < |s| ==> (r[i] == 0.0 <==> s[i] == Min(s)) && (r[i] == 1.0 <==> s[i] == Max(s))
  {
    if |s| == 0 then []
    else if Min(s) == Max(s) then seq(|s|, _ => 0.0)
    else MinMaxScaled(s)
  }

  /** Neurons along the last axis (`activations.shape[activations.shape.length - 1]`). */
  function NumNeurons(t: Tensor): nat
    requires |t.shape| > 0
  {
    t.shape[|t.shape| - 1]
  }

  /** The component's one canvas: its size attributes and what it shows. */
  class DenseCanvas {
    const width: Option<nat>
    const height: Option<nat>
    var canvasWidth: nat
    var canvasHeight: nat
    var image: Panel

    /** Mount: the size attributes written in the markup. */
    constructor (width: Option<nat>, height: Option<nat>)
      ensures this.width == width && this.height == height
      ensures (canvasWidth, canvasHeight) == InitialSize(width, height) && image == Untouched
    {
      this.width := width;
      this.height := height;
      var size := InitialSize(width, height);
      canvasWidth := size.0;
      canvasHeight := size.1;
      image := Untouched;
    }

    /**
     * The effect. Without activations the canvas is filled black at its current size. With them
     * it is resized to ten pixels per cell (which wipes it), then shows the scaled grid when the
     * reshape fits; a reshape that does not fit throws and leaves the wiped canvas. The image is
     * kept flat, row-major: by `Reshape` cell (y, x) of the grid is entry `Offset(y, cols, x)`, and
     * by `ReshapeRoundTrip` the flat list is the reshaped grid laid row after row, so it is the
     * same picture.
     */
    method Render(activations: Option<Tensor>)
      requires activations.Some? ==> |activations.value.shape| > 0
      modifies this
      ensures activations.None? ==>
                canvasWidth == old(canvasWidth) && canvasHeight == old(canvasHeight) && image == Black
      ensures activations.Some? ==>
                var t := activations.value;
                var d := LayerDims(width, height, NumNeurons(t));
                canvasWidth == d.0 * CellPixels && canvasHeight == d.1 * CellPixels
                && image == (if |t.values| == d.0 * d.1 then Image(d.1, d.0, GuardedScaled(t.values)) else Transparent)
    {
      if activations.None? {
        image := Black;
        return;
      }
      var t := activations.value;
      var dims := LayerDims(width, height, NumNeurons(t));
      canvasWidth := dims.0 * CellPixels;
      canvasHeight := dims.1 * CellPixels;
      image := Transparent;
      if |t.values| != dims.0 * dims.1 {
        return;
      }
      image := Image(dims.1, dims.0, GuardedScaled(t.values));
    }
  }
}
