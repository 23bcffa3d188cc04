/**
 * Values exchanged between the MNIST page and the prediction worker:
 * the pixel snapshot, tensors, layers and the messages of both directions.
 */
module Protocol {
  import opened Wrappers

  /** One entry of the `Uint8ClampedArray` behind an `ImageData`. */
  type Byte = x: int | 0 <= x < 256

  /** Side of the drawing surface and of every snapshot taken from it. */
  const CanvasSize: nat := 280

  /** A snapshot of the canvas: `width * height` pixels of four bytes (RGBA), row-major. */
  datatype ImageData = ImageData(width: nat, height: nat, data: seq<Byte>)

  /** A tensor: its shape and its values in row-major order. */
  datatype Tensor = Tensor(shape: seq<nat>, values: seq<real>)

  /** A trained layer, treated as an uninterpreted function from tensor to tensor. */
  type Layer = Tensor -> Tensor

  /** The loaded network: its layers in order (`model.layers`). */
  type Model = seq<Layer>

  /** Messages the page posts to the worker. */
  datatype Request = InitRequest | PredictRequest(frame: ImageData, jobId: int)

  /** Presence of a key in a JavaScript object (`'key' in obj`) and the value it holds. */
  datatype Slot<T> = Absent | Present(value: T)

  /**
   * Whatever arrives as `event.data` in the worker. `Record.typ` is `None` when `type`
   * is missing or not a string; `Record.data` holds `Present(None)` for a key whose value is falsy.
   */
  datatype Raw =
    | NotAnObject
    | Null
    | Record(typ: Option<string>, data: Slot<Option<ImageData>>, jobId: Slot<int>)

  /**
   * Messages the worker posts back. `Activations.data` is `None` when the payload is
   * not an array (the page checks `Array.isArray`); the worker itself always sends an array.
   */
  datatype Reply =
    | ModelReady
    | Activations(data: Option<seq<Tensor>>, jobId: int)
    | Prediction(digit: int, jobId: int)

  /** The structured clone of a page request, as the worker receives it. */
  function Encode(r: Request): (raw: Raw)
    ensures raw.Record?
    ensures r.InitRequest? ==> raw.typ == Some("init")
    ensures r.PredictRequest? ==>
              raw.typ == Some("predict") && raw.data == Present(Some(r.frame)) && raw.jobId == Present(r.jobId)
  {
    match r
    case InitRequest => Record(Some("init"), Absent, Absent)
    case PredictRequest(frame, jobId) => Record(Some("predict"), Present(Some(frame)), Present(jobId))
  }
}
