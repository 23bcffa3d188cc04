/**
 * The inference worker: it validates incoming messages, loads the network once,
 * and answers a predict request with every layer's output and then the predicted digit.
 */
module PredictionWorker {
  import opened Wrappers
  import opened Protocol

  /** Side of the pooling window and stride of the downsampling average pool. */
  const Pool: nat := 10
  /** Side of the network's input image. */
  const Grid: nat := 28
  /** Length of the flattened network input (`reshape([1, 784])`). */
  const InputLength: nat := 784

  // ---------------------------------------------------------------- validation

  /** The shape check every message passes before the worker acts on it. */
  function IsWorkerMessage(raw: Raw): (ok: bool)
    ensures !raw.Record? ==> !ok
    ensures raw.Record? && raw.typ == Some("init") ==> ok
    ensures raw.Record? && raw.typ == Some("predict") ==> (ok <==> raw.data.Present? && raw.jobId.Present?)
    ensures raw.Record? && raw.typ != Some("init") && raw.typ != Some("predict") ==> !ok
  {
    match raw
    case NotAnObject => false
    case Null => false
    case Record(typ, data, jobId) =>
      if typ == Some("init") then true
      else if typ == Some("predict") then data.Present? && jobId.Present?
      else false
  }

  /** Every request the page posts passes the worker's check. */
  lemma PageRequestsAreWorkerMessages(r: Request)
    ensures IsWorkerMessage(Encode(r))
  {
  }

  // -------------------------------------------------------------- downsampling

  /**
   * The frame can be read as a 280 x 280 single-channel image (`as4D(1, 280, 280, 1)`
   * needs exactly 78400 pixels; an `ImageData` holds four bytes per pixel).
   */
  predicate Reshapable(img: ImageData)
  {
    img.width * img.height == CanvasSize * CanvasSize && |img.data| == 4 * (CanvasSize * CanvasSize)
  }

  /** Pixel (y, x) of the 280 x 280 view: the red byte, as `fromPixels(imageData, 1)` keeps it. */
  function Red(img: ImageData, y: nat, x: nat): (v: Byte)
    requires Reshapable(img) && y < CanvasSize && x < CanvasSize
  {
    img.data[4 * (CanvasSize * y + x)]
  }

  /** Sum of the `k` pixels of row `y` starting at column `x0`. */
  function RowSum(img: ImageData, y: nat, x0: nat, k: nat): (s: int)
    requires Reshapable(img) && y < CanvasSize && x0 + k <= CanvasSize
    ensures 0 <= s <= 255 * k
  {
    if k == 0 then 0 else RowSum(img, y, x0, k - 1) + Red(img, y, x0 + k - 1)
  }

  /** Sum over the first `k` rows of the 10 x 10 block feeding output cell (i, j). */
  function BlockSum(img: ImageData, i: nat, j: nat, k: nat): (s: int)
    requires Reshapable(img) && i < Grid && j < Grid && k <= Pool
    ensures 0 <= s <= 255 * Pool * k
  {
    if k == 0 then 0 else BlockSum(img, i, j, k - 1) + RowSum(img, Pool * i + k - 1, Pool * j, Pool)
  }

  /** The mean of the 10 x 10 block of rows 10i..10i+9, columns 10j..10j+9 (one `avgPool` window). */
  function BlockMean(img: ImageData, i: nat, j: nat): real
    requires Reshapable(img) && i < Grid && j < Grid
  {
    BlockSum(img, i, j, Pool) as real / (Pool * Pool) as real
  }

  /**
   * `avgPool` with a 10 x 10 window and stride, divided by 255 and flattened row-major
   * into the 784-entry network input. Every entry lies in [0, 1].
   */
  function Downsample(img: ImageData): (v: seq<real>)
    requires Reshapable(img)
    ensures |v| == InputLength
    ensures forall i: nat, j: nat :: i < Grid && j < Grid ==> v[Grid * i + j] == BlockMean(img, i, j) / 255.0
    ensures forall k :: 0 <= k < |v| ==> 0.0 <= v[k] <= 1.0
  {
    var v := seq(InputLength, k requires 0 <= k < InputLength => Cell(img, k));
    forall i: nat, j: nat | i < Grid && j < Grid ensures v[Grid * i + j] == BlockMean(img, i, j) / 255.0 {
      CellIndex(i, j);
    }
    v
  }

  /** Entry `k` of the flattened input: the mean of block (k / 28, k % 28), divided by 255. */
  function Cell(img: ImageData, k: nat): (c: real)
    requires Reshapable(img) && k < InputLength
    ensures 0.0 <= c <= 1.0
  {
    var i, j := k / Grid, k % Grid;
    assert i < Grid;
    MeanBounds(img, i, j);
    BlockMean(img, i, j) / 255.0
  }

  lemma CellIndex(i: nat, j: nat)
    requires i < Grid && j < Grid
    ensures Grid * i + j < InputLength
    ensures (Grid * i + j) / Grid == i && (Grid * i + j) % Grid == j
  {
  }

  lemma MeanBounds(img: ImageData, i: nat, j: nat)
    requires Reshapable(img) && i < Grid && j < Grid
    ensures 0.0 <= BlockMean(img, i, j) / 255.0 <= 1.0
  {
    var sum := BlockSum(img, i, j, Pool);
    assert 0 <= sum <= 25500;
    assert 0.0 <= sum as real <= 25500.0;
  }

  // ---------------------------------------------------------------- the layers

  /**
   * The outputs collected by chaining `layers` from `input`: the first layer reads the input,
   * every later one reads its predecessor's output.
   */
  function Forward(layers: seq<Layer>, input: Tensor): (outs: seq<Tensor>)
    ensures |outs| == |layers|
    decreases |layers|
  {
    if |layers| == 0 then []
    else
      var prev := Forward(layers[..|layers| - 1], input);
      prev + [layers[|layers| - 1](Output(prev, input))]
  }

  /** The value of `x` after the loop: the last collected output, or the input when there are no layers. */
  function Output(outs: seq<Tensor>, input: Tensor): Tensor
  {
    if |outs| == 0 then input else outs[|outs| - 1]
  }

  /** `outputs[0] = layer_0(input)` and `outputs[k] = layer_k(outputs[k - 1])`. */
  lemma {:induction false} ForwardChain(layers: seq<Layer>, input: Tensor)
    ensures |layers| > 0 ==> Forward(layers, input)[0] == layers[0](input)
    ensures forall k :: 0 < k < |layers| ==> Forward(layers, input)[k] == layers[k](Forward(layers, input)[k - 1])
    decreases |layers|
  {
    if |layers| > 0 {
      var p := layers[..|layers| - 1];
      ForwardChain(p, input);
      ForwardPrefix(layers, |layers| - 1, input);
    }
  }

  /** Running a prefix of the layers gives a prefix of the outputs. */
  lemma {:induction false} ForwardPrefix(layers: seq<Layer>, n: nat, input: Tensor)
    requires n <= |layers|
    ensures Forward(layers[..n], input) == Forward(layers, input)[..n]
    decreases |layers|
  {
    if n < |layers| {
      var p := layers[..|layers| - 1];
      assert layers[..n] == p[..n];
      ForwardPrefix(p, n, input);
    } else {
      assert layers[..n] == layers;
    }
  }

  /** The worker's loop: `x = layer.apply(x); outputs.push(x)` for every layer in order. */
  method RunLayers(layers: seq<Layer>, input: Tensor) returns (x: Tensor, outputs: seq<Tensor>)
    ensures |outputs| == |layers|
    ensures outputs == Forward(layers, input)
    ensures x == Output(outputs, input)
  {
    x := input;
    outputs := [];
    for i := 0 to |layers|
      invariant outputs == Forward(layers[..i], input)
      invariant x == Output(outputs, input)
    {
      assert layers[..i + 1][..i] == layers[..i];
      x := layers[i](x);
      outputs := outputs + [x];
    }
    assert layers[..|layers|] == layers;
  }

  // ------------------------------------------------------------------- argMax

  /** Index of the first maximal entry (ties go to the lowest index, as `argMax` does). */
  function ArgMax(s: seq<real>): (k: nat)
    requires |s| > 0
    ensures k < |s|
    ensures forall j :: 0 <= j < |s| ==> s[j] <= s[k]
    ensures forall j :: 0 <= j < k ==> s[j] < s[k]
    decreases |s|
  {
    if |s| == 1 then 0
    else
      var k := ArgMax(s[..|s| - 1]);
      if s[|s| - 1] > s[k] then |s| - 1 else k
  }

  /**
   * The entries `argMax(-1).dataSync()[0]` looks at: the first run of the last axis.
   * `None` when that axis is missing or empty, where the library call throws.
   */
  function FirstRow(t: Tensor): (row: Option<seq<real>>)
    ensures row.Some? <==> |t.shape| > 0 && 0 < t.shape[|t.shape| - 1] <= |t.values|
    ensures row.Some? ==> |row.value| == t.shape[|t.shape| - 1] && row.value == t.values[..|row.value|]
  {
    if |t.shape| > 0 && 0 < t.shape[|t.shape| - 1] <= |t.values| then Some(t.values[..t.shape[|t.shape| - 1]])
    else None
  }

  // ------------------------------------------------------------- the handlers

  /**
   * What one predict request posts, given the loaded layers. A frame that cannot be reshaped
   * makes the library throw before anything is posted; a final output with no last axis lets
   * the activations out and then throws before the prediction.
   */
  function PredictReplies(layers: Model, img: ImageData, jobId: int): (r: seq<Reply>)
  {
    if !Reshapable(img) then []
    else
      var input := Tensor([1, InputLength], Downsample(img));
      var outs := Forward(layers, input);
      [Activations(Some(outs), jobId)]
      + match FirstRow(Output(outs, input))
        case Some(row) => [Prediction(ArgMax(row), jobId)]
        case None => []
  }

  /** The worker's state change and posts for one message. */
  datatype Outcome = Outcome(model: Option<Model>, posted: seq<Reply>, loads: nat)

  /**
   * One `onmessage` call. `loaded` is what `loadLayersModel` would resolve to
   * (`None`: it rejects, the handler throws and posts nothing).
   */
  function Respond(model: Option<Model>, raw: Raw, loaded: Option<Model>): Outcome
  {
    if !IsWorkerMessage(raw) then Outcome(model, [], 0)
    else if raw.typ == Some("init") then
      if model.Some? then Outcome(model, [ModelReady], 0)
      else if loaded.Some? then Outcome(loaded, [ModelReady], 1)
      else Outcome(None, [], 1)
    else if raw.data.value.Some? && model.Some? then
      Outcome(model, PredictReplies(model.value, raw.data.value.value, raw.jobId.value), 0)
    else Outcome(model, [], 0)
  }

  /** A message that fails the check changes nothing and posts nothing. */
  lemma InvalidMessageIgnored(model: Option<Model>, raw: Raw, loaded: Option<Model>)
    requires !IsWorkerMessage(raw)
    ensures Respond(model, raw, loaded).model == model
    ensures Respond(model, raw, loaded).posted == [] && Respond(model, raw, loaded).loads == 0
  {
  }

  /** `init` with a model present does not load again, but still posts `modelReady`. */
  lemma InitNeverReloads(model: Option<Model>, raw: Raw, loaded: Option<Model>)
    requires model.Some? && raw.Record? && raw.typ == Some("init")
    ensures Respond(model, raw, loaded).model == model
    ensures Respond(model, raw, loaded).loads == 0
    ensures Respond(model, raw, loaded).posted == [ModelReady]
  {
  }

  /** Two `init` messages on a fresh worker load once and post `modelReady` twice. */
  lemma InitTwice(raw1: Raw, raw2: Raw, loaded1: Option<Model>, loaded2: Option<Model>)
    requires raw1.Record? && raw1.typ == Some("init") && raw2.Record? && raw2.typ == Some("init")
    requires loaded1.Some?
    ensures var o1 := Respond(None, raw1, loaded1);
            var o2 := Respond(o1.model, raw2, loaded2);
            o1.loads + o2.loads == 1 && o1.posted + o2.posted == [ModelReady, ModelReady] && o2.model == loaded1
  {
  }

  /** A predict request without a loaded model, or whose `data` is falsy, changes and posts nothing. */
  lemma PredictNeedsModelAndData(model: Option<Model>, raw: Raw, loaded: Option<Model>)
    requires raw.Record? && raw.typ == Some("predict")
    requires model.None? || !raw.data.Present? || raw.data.value.None?
    ensures Respond(model, raw, loaded).posted == [] && Respond(model, raw, loaded).model == model
  {
  }

  /**
   * An accepted predict posts `activations` (one output per layer, in layer order) and then
   * `prediction`, both carrying the request's `jobId`, and the prediction is an index of a
   * maximal entry of the final output's first row.
   */
  lemma {:induction false} PredictPostsActivationsThenPrediction(layers: Model, img: ImageData, jobId: int)
    requires Reshapable(img)
    requires FirstRow(Output(Forward(layers, Tensor([1, InputLength], Downsample(img))), Tensor([1, InputLength], Downsample(img)))).Some?
    ensures var r := PredictReplies(layers, img, jobId);
            var input := Tensor([1, InputLength], Downsample(img));
            var row := FirstRow(Output(Forward(layers, input), input)).value;
            |r| == 2
            && r[0].Activations? && r[0].jobId == jobId && r[0].data == Some(Forward(layers, input))
            && |r[0].data.value| == |layers|
            && r[1].Prediction? && r[1].jobId == jobId
            && r[1].digit < |row| && forall j :: 0 <= j < |row| ==> row[j] <= row[r[1].digit]
  {
  }

  // ------------------------------------------------------------------ the worker

  /** The worker context: the module-level `model` slot and the messages posted so far. */
  class Worker {
    var model: Option<Model>
    var posted: seq<Reply>
    ghost var loads: nat

    constructor ()
      ensures model == None && posted == [] && loads == 0
    {
      model := None;
      posted := [];
      loads := 0;
    }

    /** `loadModelAndWeights`: load only when no model is set; post `modelReady` once the load is done. */
    method LoadModelAndWeights(loaded: Option<Model>)
      modifies this
      ensures old(model).Some? ==> model == old(model) && loads == old(loads) && posted == old(posted) + [ModelReady]
      ensures old(model).None? ==> model == loaded && loads == old(loads) + 1
      ensures old(model).None? ==> posted == old(posted) + (if loaded.Some? then [ModelReady] else [])
    {
      if model.None? {
        loads := loads + 1;
        if loaded.None? {
          return;
        }
        model := loaded;
      }
      posted := posted + [ModelReady];
    }

    /** The `predict` branch with the model set and a truthy frame. */
    method Predict(layers: Model, img: ImageData, jobId: int)
      modifies this`posted
      ensures posted == old(posted) + PredictReplies(layers, img, jobId)
    {
      if !Reshapable(img) {
        return;
      }
      var normalized := Downsample(img);
      var input := Tensor([1, InputLength], normalized);
      var x, outputs := RunLayers(layers, input);
      posted := posted + [Activations(Some(outputs), jobId)];
      var row := FirstRow(x);
      if row.None? {
        return;
      }
      var finalPrediction := ArgMax(row.value);
      posted := posted + [Prediction(finalPrediction, jobId)];
    }

    /** `self.onmessage`. */
    method OnMessage(raw: Raw, loaded: Option<Model>)
      modifies this
      ensures model == Respond(old(model), raw, loaded).model
      ensures posted == old(posted) + Respond(old(model), raw, loaded).posted
      ensures loads == old(loads) + Respond(old(model), raw, loaded).loads
    {
      if !IsWorkerMessage(raw) {
        return;
      }
      if raw.typ == Some("init") {
        LoadModelAndWeights(loaded);
      } else if raw.data.value.Some? && model.Some? {
        Predict(model.value, raw.data.value.value, raw.jobId.value);
      }
    }
  }
}
