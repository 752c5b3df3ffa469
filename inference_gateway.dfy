/**
 * The request handler of Deployment/main.py (`predict_audio`, lines 63-91): refuse when no
 * model is loaded, otherwise run the extractor and the model and turn the score into a labelled
 * result, catching every failure into an error record.
 */
module InferenceGateway {
  import opened Results
  import opened AudioConfig
  import opened FeatureExtractor

  datatype Label = Anomaly | Normal

  /** The loaded Keras model; `predict` stands for `float(model.predict(X, verbose=0)[0][0])`. */
  datatype Model = Model(predict: Tensor4 -> Result<real>)

  /** What one call of the endpoint produces. */
  datatype Response =
    | ModelNotLoaded(detail: string)
      // HTTPException(status_code=500, detail="Model not loaded")
    | Predicted(prediction: Label, confidence: real, rawScore: real)
      // {"status": "success", "prediction", "confidence" (a percentage), "raw_score"}
    | Failed(message: string)
      // {"status": "error", "message": str(e)}

  /** Scores strictly above this are anomalies. */
  const THRESHOLD: real := 0.5

  const NOT_LOADED_DETAIL: string := "Model not loaded"

  /** The `prediction` string sent to the client. */
  function LabelText(l: Label): (t: string)
    ensures t == "ANOMALY" <==> l == Anomaly
    ensures t == "NORMAL" <==> l == Normal
  {
    match l
    case Anomaly => "ANOMALY"
    case Normal => "NORMAL"
  }

  /** The HTTP status of a response: the error record is sent with 200, like a success. */
  function StatusCode(r: Response): (code: nat)
    ensures code == 500 <==> r.ModelNotLoaded?
    ensures code == 200 <==> !r.ModelNotLoaded?
  {
    if r.ModelNotLoaded? then 500 else 200
  }

  /** The `status` field of a 200 response. */
  function Status(r: Response): (s: string)
    requires !r.ModelNotLoaded?
    ensures s == "success" <==> r.Predicted?
    ensures s == "error" <==> r.Failed?
  {
    if r.Predicted? then "success" else "error"
  }

  function Max(a: real, b: real): (m: real) {
    if a < b then b else a
  }

  /**
   * The labelling rule: the label and the probability of that label (a fraction).
   * The confidence is the larger of `p` and `1 - p`, whatever `p` is.
   */
  function Classify(p: real): (v: (Label, real))
    ensures v.0 == Anomaly <==> p > THRESHOLD
    ensures v.1 == Max(p, 1.0 - p)
    ensures 0.0 <= p <= 1.0 ==> 0.5 <= v.1 <= 1.0
  {
    var kind := if p > THRESHOLD then Anomaly else Normal;
    var confidence := if kind == Anomaly then p else 1.0 - p;
    (kind, confidence)
  }

  /**
   * The tensor handed to the model: read the upload, extract its features, add the batch
   * and channel axes. The first failing step's message is the result's message.
   */
  function ModelTensor(contents: Result<Bytes>, dsp: Dsp): (r: Result<Tensor4>)
    ensures contents.Failure? ==> r == Failure(contents.error)
    ensures contents.Success? && ProcessAudio(contents.value, dsp).Failure? ==>
      r == Failure(ProcessAudio(contents.value, dsp).error)
    ensures r.Success? <==> contents.Success? && ProcessAudio(contents.value, dsp).Success?
    ensures r.Success? ==>
      var f := ProcessAudio(contents.value, dsp).value;
      && |r.value| == 1 && |r.value[0]| == |f|
      && (forall i :: 0 <= i < |f| ==> |r.value[0][i]| == EXPECTED_FRAMES)
      && (forall i, j :: 0 <= i < |f| && 0 <= j < EXPECTED_FRAMES ==> r.value[0][i][j] == [f[i][j]])
  {
    var bytes :- contents;
    var features :- ProcessAudio(bytes, dsp);
    Success(ModelInput(features))
  }

  /**
   * The model's score for the upload. The steps run in the order of the source's `try`
   * block, and the first one that raises gives the message: reading the upload, decoding it,
   * computing the MFCC, then the model itself. Under the MFCC library's shape contract the
   * model is only ever asked about a (1, 13, 173, 1) tensor.
   */
  function Score(model: Model, contents: Result<Bytes>, dsp: Dsp): (r: Result<real>)
    ensures contents.Failure? ==> r == Failure(contents.error)
    ensures contents.Success? && dsp.load(contents.value).Failure? ==>
      r == Failure(dsp.load(contents.value).error)
    ensures contents.Success? && dsp.load(contents.value).Success? ==>
      var m := dsp.mfcc(FixDuration(dsp.load(contents.value).value));
      && (m.Failure? ==> r == Failure(m.error))
      && (m.Success? ==> r == model.predict(ModelInput(FixFrames(m.value))))
    ensures MfccShapeContract(dsp) && r.Success? ==>
      && ModelTensor(contents, dsp).Success?
      && HasShape4(ModelTensor(contents, dsp).value, 1, 13, 173, 1)
      && r == model.predict(ModelTensor(contents, dsp).value)
  {
    ExpectedFramesValue();
    var x :- ModelTensor(contents, dsp);
    model.predict(x)
  }

  /**
   * `predict_audio`. `model` is the module-level global (None when loading failed),
   * `contents` the outcome of `await file.read()`, `dsp` the decoding and MFCC library.
   */
  function PredictAudio(model: Option<Model>, contents: Result<Bytes>, dsp: Dsp): (r: Response)
    ensures model.None? <==> r.ModelNotLoaded?
    ensures r.ModelNotLoaded? ==> r.detail == NOT_LOADED_DETAIL == "Model not loaded"
    ensures model.Some? ==> StatusCode(r) == 200
    ensures model.Some? ==> (r.Predicted? <==> Score(model.value, contents, dsp).Success?)
    ensures model.Some? && r.Predicted? ==> r.rawScore == Score(model.value, contents, dsp).value
    ensures model.Some? && r.Failed? ==> r.message == Score(model.value, contents, dsp).error
    ensures r.Predicted? ==> (r.prediction == Anomaly <==> r.rawScore > THRESHOLD)
    ensures r.Predicted? ==> r.confidence == 100.0 * Max(r.rawScore, 1.0 - r.rawScore)
    ensures r.Predicted? && 0.0 <= r.rawScore <= 1.0 ==> 50.0 <= r.confidence <= 100.0
  {
    if model.None? then
      ModelNotLoaded(NOT_LOADED_DETAIL)
    else
      match Score(model.value, contents, dsp)
      case Success(p) =>
        var (kind, confidence) := Classify(p);
        Predicted(kind, confidence * 100.0, p)
      case Failure(e) =>
        Failed(e)
  }

  // ---------------------------------------------------------------------------
  // Properties of the labelling rule and of the handler

  /** A score of exactly 0.5 is NORMAL, with confidence 50%. */
  lemma BoundaryIsNormal()
    ensures Classify(0.5) == (Normal, 0.5)
  {
  }

  /** Labelling is monotone: a higher score never turns ANOMALY into NORMAL. */
  lemma ClassifyMonotone(p: real, q: real)
    requires p <= q
    requires Classify(p).0 == Anomaly
    ensures Classify(q).0 == Anomaly
  {
  }

  /** Without a model nothing is read, decoded or predicted: the request does not matter. */
  lemma NotLoadedIgnoresRequest(c1: Result<Bytes>, c2: Result<Bytes>, d1: Dsp, d2: Dsp)
    ensures PredictAudio(None, c1, d1) == PredictAudio(None, c2, d2) == ModelNotLoaded("Model not loaded")
    ensures StatusCode(PredictAudio(None, c1, d1)) == 500
  {
  }

  /** Any failure while reading, decoding or computing features becomes an error record. */
  lemma ExtractionFailureIsReported(model: Model, contents: Result<Bytes>, dsp: Dsp)
    requires ModelTensor(contents, dsp).Failure?
    ensures PredictAudio(Some(model), contents, dsp) == Failed(ModelTensor(contents, dsp).error)
    ensures StatusCode(PredictAudio(Some(model), contents, dsp)) == 200
  {
  }

  /**
   * Under the library's shape contract, the model is only ever called on a
   * (1, 13, 173, 1) tensor.
   */
  lemma ModelSeesFixedShape(contents: Result<Bytes>, dsp: Dsp)
    requires MfccShapeContract(dsp)
    requires ModelTensor(contents, dsp).Success?
    ensures HasShape4(ModelTensor(contents, dsp).value, 1, N_MFCC, EXPECTED_FRAMES, 1)
    ensures HasShape4(ModelTensor(contents, dsp).value, 1, 13, 173, 1)
  {
    ProcessAudioShape(contents.value, dsp);
    ModelInputShape(ProcessAudio(contents.value, dsp).value);
  }

  /**
   * For a model whose scores are probabilities (a sigmoid output), every success reports
   * a raw score in [0, 1] and a confidence percentage in [50, 100].
   */
  lemma SuccessBounds(model: Model, contents: Result<Bytes>, dsp: Dsp)
    requires forall x: Tensor4 :: model.predict(x).Success? ==> 0.0 <= model.predict(x).value <= 1.0
    requires PredictAudio(Some(model), contents, dsp).Predicted?
    ensures 0.0 <= PredictAudio(Some(model), contents, dsp).rawScore <= 1.0
    ensures 50.0 <= PredictAudio(Some(model), contents, dsp).confidence <= 100.0
  {
    var x := ModelTensor(contents, dsp).value;
    assert model.predict(x).Success?;
  }
}
