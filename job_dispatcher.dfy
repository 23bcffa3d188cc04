/**
 * The MNIST page's side of the pipeline: a job counter that only `handleClear` advances,
 * predict requests tagged with the current counter, and a result handler that drops every
 * result whose tag is not the current counter.
 */
module JobDispatcher {
  import opened Wrappers
  import opened Protocol
  import StrokeCapture

  /** Positions in the activations list of the five layers the page shows. */
  const Conv1Layer: nat := 3
  const Conv2Layer: nat := 6
  const Conv3Layer: nat := 9
  const Dense1Layer: nat := 13
  const OutputLayer: nat := 15

  /** The page's state: the job counter, the loading flag, the sent requests and six display slots. */
  datatype Page = Page(
    jobId: nat,
    loading: bool,
    sent: seq<Request>,
    prediction: Option<int>,
    conv1: Option<Tensor>,
    conv2: Option<Tensor>,
    conv3: Option<Tensor>,
    dense1: Option<Tensor>,
    output: Option<Tensor>)

  /** No prediction and no activations on display. */
  predicate Blank(p: Page)
  {
    p.prediction.None? && p.conv1.None? && p.conv2.None? && p.conv3.None? && p.dense1.None? && p.output.None?
  }

  /** The page once its mount effect has run: counter 0, loading, and one `init` request sent. */
  function Mounted(): (p: Page)
    ensures p.jobId == 0 && p.loading && p.sent == [InitRequest] && Blank(p)
  {
    Page(0, true, [InitRequest], None, None, None, None, None, None)
  }

  /** `handleClear`: advance the counter and blank every slot at once, without waiting for the worker. */
  function Cleared(p: Page): Page
  {
    p.(jobId := p.jobId + 1, prediction := None, conv1 := None, conv2 := None, conv3 := None,
       dense1 := None, output := None)
  }

  /**
   * `handleDraw`: nothing while the model loads or when no 2D context gives a snapshot;
   * otherwise one predict request tagged with the current counter.
   */
  function Drawn(p: Page, frame: Option<ImageData>): Page
  {
    if p.loading || frame.None? then p
    else p.(sent := p.sent + [PredictRequest(frame.value, p.jobId)])
  }

  /**
   * The five `setXActivations(tf.tensor(data[k]))` calls in order. Reading past the end of
   * `data` makes `tf.tensor` throw, leaving the earlier writes in place; since the indices
   * increase, a slot is written exactly when its index is inside `data`.
   */
  function Filled(p: Page, data: seq<Tensor>): Page
  {
    p.(conv1 := if Conv1Layer < |data| then Some(data[Conv1Layer]) else p.conv1,
       conv2 := if Conv2Layer < |data| then Some(data[Conv2Layer]) else p.conv2,
       conv3 := if Conv3Layer < |data| then Some(data[Conv3Layer]) else p.conv3,
       dense1 := if Dense1Layer < |data| then Some(data[Dense1Layer]) else p.dense1,
       output := if OutputLayer < |data| then Some(data[OutputLayer]) else p.output)
  }

  /** `worker.onmessage`: the stale filter, then the switch on `type`. */
  function Delivered(p: Page, m: Reply): Page
  {
    match m
    case ModelReady => p.(loading := false)
    case Activations(data, jobId) =>
      if jobId != p.jobId then p
      else if data.None? then p
      else Filled(p, data.value)
    case Prediction(digit, jobId) =>
      if jobId != p.jobId then p
      else p.(prediction := Some(digit))
  }

  /** Everything that can happen to the page. */
  datatype Action = Clear | Draw(frame: Option<ImageData>) | Deliver(m: Reply)

  function Step(p: Page, a: Action): Page
  {
    match a
    case Clear => Cleared(p)
    case Draw(frame) => Drawn(p, frame)
    case Deliver(m) => Delivered(p, m)
  }

  function Run(p: Page, actions: seq<Action>): Page
    decreases |actions|
  {
    if |actions| == 0 then p else Run(Step(p, actions[0]), actions[1..])
  }

  function Clears(actions: seq<Action>): nat
    decreases |actions|
  {
    if |actions| == 0 then 0 else (if actions[0].Clear? then 1 else 0) + Clears(actions[1..])
  }

  /** `jobId` of a result; `modelReady` carries none. */
  predicate Tagged(m: Reply, tag: int)
  {
    !m.ModelReady? && m.jobId == tag
  }

  /** A clear advances the counter by exactly one, blanks the display and touches nothing else. */
  lemma ClearAdvancesAndBlanks(p: Page)
    ensures Cleared(p).jobId == p.jobId + 1 && Blank(Cleared(p))
    ensures Cleared(p).loading == p.loading && Cleared(p).sent == p.sent
  {
  }

  /** A draw sends at most one request, tagged with the unchanged counter, and only once the model is ready. */
  lemma DrawSendsCurrentTag(p: Page, frame: Option<ImageData>)
    ensures Drawn(p, frame).jobId == p.jobId
    ensures p.loading ==> Drawn(p, frame) == p
    ensures !p.loading && frame.Some? ==> Drawn(p, frame).sent == p.sent + [PredictRequest(frame.value, p.jobId)]
    ensures Drawn(p, frame).(sent := p.sent) == p
  {
  }

  /** A result whose tag is not the current counter changes nothing at all. */
  lemma StaleResultDropped(p: Page, m: Reply)
    requires !m.ModelReady? && m.jobId != p.jobId
    ensures Delivered(p, m) == p
  {
  }

  /** `modelReady` is taken whatever the counter, and only clears the loading flag. */
  lemma ModelReadyAccepted(p: Page)
    ensures Delivered(p, ModelReady) == p.(loading := false)
  {
  }

  /** A current activations array fills the five slots from layers 3, 6, 9, 13 and 15; a non-array changes nothing. */
  lemma CurrentActivationsFill(p: Page, data: Option<seq<Tensor>>)
    ensures data.None? ==> Delivered(p, Activations(data, p.jobId)) == p
    ensures data.Some? && |data.value| > OutputLayer ==>
              var q := Delivered(p, Activations(data, p.jobId));
              q.conv1 == Some(data.value[3]) && q.conv2 == Some(data.value[6]) && q.conv3 == Some(data.value[9])
              && q.dense1 == Some(data.value[13]) && q.output == Some(data.value[15])
              && q.prediction == p.prediction && q.jobId == p.jobId && q.loading == p.loading && q.sent == p.sent
  {
  }

  /** A current prediction replaces the displayed digit and nothing else. */
  lemma CurrentPredictionShown(p: Page, digit: int)
    ensures Delivered(p, Prediction(digit, p.jobId)) == p.(prediction := Some(digit))
  {
  }

  /** The counter moves only on clears, by one each, so it strictly increases along any run with a clear. */
  lemma {:induction false} CounterCountsClears(p: Page, actions: seq<Action>)
    ensures Run(p, actions).jobId == p.jobId + Clears(actions)
    decreases |actions|
  {
    if |actions| > 0 {
      CounterCountsClears(Step(p, actions[0]), actions[1..]);
    }
  }

  /** Once the model is ready the page never goes back to loading. */
  lemma {:induction false} ReadyStaysReady(p: Page, actions: seq<Action>)
    requires !p.loading
    ensures !Run(p, actions).loading
    decreases |actions|
  {
    if |actions| > 0 {
      ReadyStaysReady(Step(p, actions[0]), actions[1..]);
    }
  }

  /** Requests are only ever appended, and no predict request carries a tag ahead of the counter. */
  predicate TagsNotAhead(p: Page)
  {
    forall i :: 0 <= i < |p.sent| && p.sent[i].PredictRequest? ==> p.sent[i].jobId <= p.jobId
  }

  lemma {:induction false} SentTagsNeverAhead(p: Page, actions: seq<Action>)
    requires TagsNotAhead(p)
    ensures TagsNotAhead(Run(p, actions))
    ensures p.sent <= Run(p, actions).sent
    decreases |actions|
  {
    if |actions| > 0 {
      var q := Step(p, actions[0]);
      assert TagsNotAhead(q) && p.sent <= q.sent;
      SentTagsNeverAhead(q, actions[1..]);
    }
  }

  /** A result tagged with a counter value that a later clear superseded never alters the page. */
  lemma {:induction false} SupersededResultDropped(p: Page, actions: seq<Action>, m: Reply)
    requires Clears(actions) > 0
    requires Tagged(m, p.jobId)
    ensures Delivered(Run(p, actions), m) == Run(p, actions)
  {
    CounterCountsClears(p, actions);
    StaleResultDropped(Run(p, actions), m);
  }

  /** The page component: the refs and state hooks of `MNIST`, and the `DrawingCanvas` behind `canvasRef`. */
  class Dispatcher {
    var jobId: nat
    var loading: bool
    var sent: seq<Request>
    var prediction: Option<int>
    var conv1: Option<Tensor>
    var conv2: Option<Tensor>
    var conv3: Option<Tensor>
    var dense1: Option<Tensor>
    var output: Option<Tensor>
    const canvas: StrokeCapture.Canvas?

    ghost function Snapshot(): Page
      reads this
    {
      Page(jobId, loading, sent, prediction, conv1, conv2, conv3, dense1, output)
    }

    /** Mount: the state hooks' initial values, and the effect that posts `init`. */
    constructor (canvas: StrokeCapture.Canvas?)
      ensures Snapshot() == Mounted() && this.canvas == canvas
    {
      jobId := 0;
      loading := true;
      prediction := None;
      conv1, conv2, conv3, dense1, output := None, None, None, None, None;
      sent := [InitRequest];
      this.canvas := canvas;
    }

    /** `handleClear`: invalidate the current job, wipe the strokes and blank the display. */
    method HandleClear()
      requires canvas != null ==> canvas.Valid()
      modifies this, canvas
      ensures Snapshot() == Cleared(old(Snapshot()))
      ensures canvas != null ==> canvas.Valid() && StrokeCapture.LinesOf(canvas.shapes) == {}
    {
      jobId := jobId + 1;
      if canvas != null {
        canvas.Clear();
      }
      conv1 := None;
      conv2 := None;
      conv3 := None;
      dense1 := None;
      output := None;
      prediction := None;
    }

    /** `handleDraw`, given the 280 x 280 snapshot of the stage (`None`: no 2D context). */
    method HandleDraw(frame: Option<ImageData>)
      modifies this
      ensures Snapshot() == Drawn(old(Snapshot()), frame)
    {
      if loading {
        return;
      }
      if frame.None? {
        return;
      }
      sent := sent + [PredictRequest(frame.value, jobId)];
    }

    /** `worker.onmessage`. */
    method OnMessage(m: Reply)
      modifies this
      ensures Snapshot() == Delivered(old(Snapshot()), m)
    {
      if !m.ModelReady? && m.jobId != jobId {
        return;
      }
      match m {
        case ModelReady =>
          loading := false;
        case Activations(data, _) =>
          if data.Some? {
            var d := data.value;
            if Conv1Layer >= |d| { return; }
            conv1 := Some(d[Conv1Layer]);
            if Conv2Layer >= |d| { return; }
            conv2 := Some(d[Conv2Layer]);
            if Conv3Layer >= |d| { return; }
            conv3 := Some(d[Conv3Layer]);
            if Dense1Layer >= |d| { return; }
            dense1 := Some(d[Dense1Layer]);
            if OutputLayer >= |d| { return; }
            output := Some(d[OutputLayer]);
          }
        case Prediction(digit, _) =>
          prediction := Some(digit);
      }
    }
  }
}
