/**
 * The page and the worker together: a request the page sends is answered by the worker,
 * and the answers are delivered back to the page in the order they were posted.
 */
module Pipeline {
  import opened Wrappers
  import opened Protocol
  import opened PredictionWorker
  import opened JobDispatcher

  /** Deliver the worker's posts to the page, first to last. */
  function DeliverAll(p: Page, ms: seq<Reply>): Page
    decreases |ms|
  {
    if |ms| == 0 then p else DeliverAll(Delivered(p, ms[0]), ms[1..])
  }

  /** What the worker posts for the last request the page sent. */
  function Answer(model: Option<Model>, p: Page, loaded: Option<Model>): seq<Reply>
    requires |p.sent| > 0
  {
    Respond(model, Encode(p.sent[|p.sent| - 1]), loaded).posted
  }

  /** The prediction the worker computes for a frame. */
  function Digit(layers: Model, img: ImageData): Option<int>
  {
    if !Reshapable(img) then None
    else
      var input := Tensor([1, InputLength], Downsample(img));
      match FirstRow(Output(Forward(layers, input), input))
      case Some(row) => Some(ArgMax(row))
      case None => None
  }

  /** Delivering a predict request's answer to a page whose counter matches it. */
  lemma {:induction false} AnswerApplied(p: Page, layers: Model, img: ImageData)
    requires Reshapable(img) && Digit(layers, img).Some?
    ensures var q := DeliverAll(p, PredictReplies(layers, img, p.jobId));
            var outs := Forward(layers, Tensor([1, InputLength], Downsample(img)));
            q == Filled(p, outs).(prediction := Digit(layers, img))
  {
    var input := Tensor([1, InputLength], Downsample(img));
    var outs := Forward(layers, input);
    var r := PredictReplies(layers, img, p.jobId);
    assert r == [Activations(Some(outs), p.jobId), Prediction(Digit(layers, img).value, p.jobId)];
    var p1 := Delivered(p, r[0]);
    assert p1 == Filled(p, outs);
    assert r[1..] == [r[1]];
    assert DeliverAll(p1, r[1..]) == DeliverAll(Delivered(p1, r[1]), []);
  }

  /**
   * Draw once the model is ready: the worker answers job 0 with the activations and a digit,
   * and the page shows both, every displayed layer taken from the activations.
   */
  lemma ScenarioDrawAndShow(layers: Model, img: ImageData, loaded: Option<Model>)
    requires Reshapable(img) && Digit(layers, img).Some?
    requires |layers| > OutputLayer
    ensures var ready := Delivered(Mounted(), ModelReady);
            var drawn := Drawn(ready, Some(img));
            var shown := DeliverAll(drawn, Answer(Some(layers), drawn, loaded));
            var outs := Forward(layers, Tensor([1, InputLength], Downsample(img)));
            drawn.sent == [InitRequest, PredictRequest(img, 0)]
            && shown.prediction == Digit(layers, img)
            && shown.conv1 == Some(outs[Conv1Layer]) && shown.conv2 == Some(outs[Conv2Layer])
            && shown.conv3 == Some(outs[Conv3Layer]) && shown.dense1 == Some(outs[Dense1Layer])
            && shown.output == Some(outs[OutputLayer])
  {
    var ready := Delivered(Mounted(), ModelReady);
    var drawn := Drawn(ready, Some(img));
    assert drawn.jobId == 0 && drawn.sent[|drawn.sent| - 1] == PredictRequest(img, 0);
    var raw := Encode(PredictRequest(img, 0));
    assert IsWorkerMessage(raw);
    assert Answer(Some(layers), drawn, loaded) == PredictReplies(layers, img, 0);
    AnswerApplied(drawn, layers, img);
    var outs := Forward(layers, Tensor([1, InputLength], Downsample(img)));
    assert |outs| > OutputLayer;
  }

  /** Results tagged with another job leave the page as it was, however many arrive. */
  lemma {:induction false} StaleRepliesDropped(p: Page, ms: seq<Reply>, tag: int)
    requires tag != p.jobId
    requires forall i :: 0 <= i < |ms| ==> Tagged(ms[i], tag)
    ensures DeliverAll(p, ms) == p
    decreases |ms|
  {
    if |ms| > 0 {
      assert Tagged(ms[0], tag);
      StaleResultDropped(p, ms[0]);
      StaleRepliesDropped(p, ms[1..], tag);
    }
  }

  /** Every post answering a predict request carries the request's tag. */
  lemma PredictRepliesTagged(layers: Model, img: ImageData, jobId: int)
    ensures forall i :: 0 <= i < |PredictReplies(layers, img, jobId)| ==> Tagged(PredictReplies(layers, img, jobId)[i], jobId)
  {
  }

  /** Draw and clear before the answer comes: the answer is dropped and the page stays blank. */
  lemma ScenarioClearBeforeAnswer(layers: Model, img: ImageData, loaded: Option<Model>)
    ensures var ready := Delivered(Mounted(), ModelReady);
            var drawn := Drawn(ready, Some(img));
            var answer := Answer(Some(layers), drawn, loaded);
            var cleared := Cleared(drawn);
            DeliverAll(cleared, answer) == cleared && Blank(cleared) && cleared.jobId == 1
  {
    var ready := Delivered(Mounted(), ModelReady);
    var drawn := Drawn(ready, Some(img));
    var answer := Answer(Some(layers), drawn, loaded);
    assert answer == PredictReplies(layers, img, 0);
    PredictRepliesTagged(layers, img, 0);
    StaleRepliesDropped(Cleared(drawn), answer, 0);
  }

  /** Two frames drawn under the same job: the later answer overwrites the earlier one. */
  lemma ScenarioLaterFrameWins(p: Page, layers: Model, img1: ImageData, img2: ImageData)
    requires Reshapable(img1) && Digit(layers, img1).Some?
    requires Reshapable(img2) && Digit(layers, img2).Some?
    requires |layers| > OutputLayer
    ensures var q := DeliverAll(DeliverAll(p, PredictReplies(layers, img1, p.jobId)), PredictReplies(layers, img2, p.jobId));
            var outs := Forward(layers, Tensor([1, InputLength], Downsample(img2)));
            q.prediction == Digit(layers, img2) && q.output == Some(outs[OutputLayer]) && q.conv1 == Some(outs[Conv1Layer])
  {
    AnswerApplied(p, layers, img1);
    var p1 := DeliverAll(p, PredictReplies(layers, img1, p.jobId));
    AnswerApplied(p1, layers, img2);
  }

  /** A predict request reaching a worker with no model does nothing and posts nothing. */
  lemma ScenarioPredictBeforeModel(img: ImageData, jobId: int, loaded: Option<Model>)
    ensures Respond(None, Encode(PredictRequest(img, jobId)), loaded).posted == []
    ensures Respond(None, Encode(PredictRequest(img, jobId)), loaded).model.None?
  {
    PredictNeedsModelAndData(None, Encode(PredictRequest(img, jobId)), loaded);
  }
}
