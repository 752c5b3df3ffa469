# Anomaly-sound inference service: a Dafny model of its request path

The service (`Deployment/main.py`) classifies an uploaded audio clip as `ANOMALY` or
`NORMAL`. For each `POST /predict` it reads the upload, decodes it to a 22050 Hz mono
signal, pads it with trailing zeros or truncates it to exactly 4 s = 88200 samples,
computes a 13-row MFCC matrix, pads or truncates that matrix's frame axis to exactly
`EXPECTED_FRAMES` columns, adds a batch axis and a channel axis, asks the Keras model for a
score, and labels the score with a 0.5 threshold. Without a loaded model every request is
refused with HTTP 500; any exception during a request is returned as an error record with
HTTP 200.

The project has four modules:

- `Results` (`results.dfy`): `Option` for the `model` global, which may be `None`, and a
  failure-compatible `Result` whose `Failure` carries an exception's message.
- `AudioConfig` (`audio_config.dfy`): the constants, with `EXPECTED_FRAMES` computed the way
  the code computes it (Python's `int(...)` of a true division, plus one).
- `FeatureExtractor` (`feature_extractor.dfy`): `process_audio`. That is the pad/truncate of
  the signal and of every row of the feature matrix, and the `(1, 13, 173, 1)` model input.
- `InferenceGateway` (`inference_gateway.dfy`): `predict_audio`. That is the outcome
  decision, the labelling rule and the error records.

Everything is pure functions and lemmas, as in the source: `process_audio` only rebinds
names to new arrays, and `predict_audio` is a branch and a `try` that return a dictionary.
The foreign calls are function-typed values that may fail:

- `Dsp.load` stands for `librosa.load`.
- `Dsp.mfcc` stands for `librosa.feature.mfcc`.
- `Model.predict` stands for `float(model.predict(X)[0][0])`.
- The outcome of `await file.read()` is a `Result<Bytes>` parameter.

Samples and coefficients are `real`.

`EXPECTED_FRAMES` is 173: `int(88200 / 512) + 1` (`AudioConfig.ExpectedFramesValue`). That
is also the number of frames, 1 + floor(88200 / 512), that a centred MFCC with a 512-sample hop
produces from 88200 samples. Every shape in the model is therefore `(13, 173)` for the
features and `(1, 13, 173, 1)` for the model input.

## Model

| member | source | states |
|---|---|---|
| `AudioConfig.TruncateToInt` | Deployment/main.py:37 | Python's `int()` of a float: the floor for non-negative values, rounding toward zero for negative ones |
| `AudioConfig.ExpectedFramesValue` | Deployment/main.py:32-37 | `SAMPLE_RATE * DURATION` is 88200 and `EXPECTED_FRAMES` equals `88200 / 512 + 1` = 173 |
| `FeatureExtractor.Zeros` | Deployment/main.py:47 | the constant fill of `np.pad`: exactly `n` elements, all zero |
| `FeatureExtractor.FixLength` | Deployment/main.py:46-49 | the result has exactly `n` elements; it agrees with the input below `min(len, n)`; every position at or past the input's length is zero |
| `FeatureExtractor.FixDuration` | Deployment/main.py:45-49 | the fixed-duration signal has exactly 88200 samples, keeps the decoded prefix and is zero after the decoded length |
| `FeatureExtractor.FixFrames` | Deployment/main.py:55-58 | every row is kept and has exactly `EXPECTED_FRAMES` columns; original columns below that bound are kept; padded columns are zero |
| `FeatureExtractor.ModelInput` | Deployment/main.py:76 | `features[np.newaxis, ..., np.newaxis]` is a batch of one whose entry `[0][i][j]` is the one-channel vector `[features[i][j]]` |
| `FeatureExtractor.ProcessAudio` | Deployment/main.py:40-60 | a decode failure or an MFCC failure comes out with its own message; otherwise the result has the MFCC's rows and `EXPECTED_FRAMES` columns, with MFCC entries where the MFCC has them and zeros elsewhere |
| `FeatureExtractor.FixLengthUnique` | Deployment/main.py:46-49 | any sequence with the length, prefix and zero-padding properties is the normalised signal, so those properties define it |
| `FeatureExtractor.FixLengthOfExactLength` | Deployment/main.py:48-49 | an input of exactly the target length takes the `else` branch and comes back unchanged |
| `FeatureExtractor.FixLengthIdempotent` | Deployment/main.py:45-49 | normalising an already normalised signal changes nothing |
| `FeatureExtractor.FixLengthIgnoresTail` | Deployment/main.py:48-49 | two inputs that agree on their first `n` samples normalise to the same signal |
| `FeatureExtractor.FixFramesColumns` | Deployment/main.py:55-58 | for a rectangular `rows x F` matrix the result is `rows x EXPECTED_FRAMES`; columns below `min(F, EXPECTED_FRAMES)` are kept and columns from `F` on are zero |
| `FeatureExtractor.FixFramesOfExactShape` | Deployment/main.py:57-58 | a matrix that already has `EXPECTED_FRAMES` columns takes the `else` branch unchanged |
| `FeatureExtractor.FixFramesIdempotent` | Deployment/main.py:55-58 | frame normalisation applied twice equals applied once |
| `FeatureExtractor.ModelInputShape` | Deployment/main.py:55-76 | the model input built from 13-row features has shape `(1, 13, 173, 1)` and carries the frame-normalised entries |
| `FeatureExtractor.ProcessAudioShape` | Deployment/main.py:52-60 | if the MFCC library returns 13 rows of equal length, every successful extraction is exactly 13 x 173 |
| `FeatureExtractor.ProcessAudioIgnoresAudioAfterDuration` | Deployment/main.py:42-49 | decoded signals that share their first 88200 samples give identical features, so audio after four seconds never affects the result |
| `InferenceGateway.LabelText` | Deployment/main.py:80 | the `prediction` string is `"ANOMALY"` exactly for `Anomaly` and `"NORMAL"` exactly for `Normal` |
| `InferenceGateway.StatusCode` | Deployment/main.py:65-66 | HTTP 500 exactly when the model is not loaded; both the success and the error record go out with 200 |
| `InferenceGateway.Status` | Deployment/main.py:83-91 | the `status` field is `"success"` exactly for a prediction and `"error"` exactly for a caught failure |
| `InferenceGateway.Classify` | Deployment/main.py:80-81 | the label is `Anomaly` iff the score is strictly above 0.5; the confidence is the larger of `p` and `1 - p`, which lies in [0.5, 1] when `0 <= p <= 1` |
| `InferenceGateway.ModelTensor` | Deployment/main.py:68-76 | a tensor is built iff the upload was read and the features were extracted; otherwise the first of those failures is the result, with its message; a success is the batch-of-one, one-channel view of the extracted features, with `EXPECTED_FRAMES` frames per coefficient |
| `InferenceGateway.Score` | Deployment/main.py:68-77 | a read failure, a decode failure, an MFCC failure and a model failure each come out with their own message, in that order; with no failure the score is the model's value on the frame-normalised MFCC of the fixed-duration signal; under the MFCC library's 13-row contract a success is the model's value on a `(1, 13, 173, 1)` tensor |
| `InferenceGateway.PredictAudio` | Deployment/main.py:63-91 | the refusal iff there is no model, and it carries the detail `"Model not loaded"`; with a model the status is 200, and the response is a prediction iff scoring succeeded, otherwise an error record carrying the failure's message; a prediction's raw score is the model's score, its label is `Anomaly` iff that score is above 0.5, and its confidence percentage is `100 * max(p, 1 - p)`, within [50, 100] for `0 <= p <= 1` |
| `InferenceGateway.BoundaryIsNormal` | Deployment/main.py:80-81 | a score of exactly 0.5 is labelled `NORMAL` with confidence 0.5 |
| `InferenceGateway.ClassifyMonotone` | Deployment/main.py:80 | raising the score never turns `ANOMALY` into `NORMAL` |
| `InferenceGateway.NotLoadedIgnoresRequest` | Deployment/main.py:65-66 | without a model the response is the 500 refusal whatever the upload and the libraries do, so nothing is processed |
| `InferenceGateway.ExtractionFailureIsReported` | Deployment/main.py:68-76 | with a model loaded, any failure while reading, decoding or computing the MFCC becomes `{status: "error", message}` with HTTP 200 |
| `InferenceGateway.ModelSeesFixedShape` | Deployment/main.py:52-77 | under the MFCC library's 13-row contract, the model is only ever called on a `(1, 13, 173, 1)` tensor |
| `InferenceGateway.SuccessBounds` | Deployment/main.py:77-88 | for a model whose scores lie in [0, 1], a success reports a raw score in [0, 1] and a confidence percentage in [50, 100] |

## Left out

- `PredictAudio`: the confidence is the unrounded percentage `confidence * 100`. `round(..., 2)` on line 86 is decimal rounding of a float and is not modelled, so the bounds hold before rounding.
- Floating point in general: samples, coefficients and scores are `real`. There is no NaN, no float32 storage and no rounding in `88200 / 512`, which is exact here.
- The decoding and resampling inside `librosa.load` (line 42): `Dsp.load` is an arbitrary, possibly failing function. The `duration=4` clip it applies is not assumed, so the model pads or truncates a decoded signal of any length.
- The MFCC computation (line 52): `Dsp.mfcc` is an arbitrary, possibly failing function. Its 13-row shape is a hypothesis (`MfccShapeContract`) of the lemmas that need it.
- Model loading (lines 21-29) and inference (line 77): the loaded model is an `Option<Model>` parameter. `Model.predict` is an arbitrary, possibly failing function on the tensor. Its failure also covers a wrong-shaped output that cannot be indexed `[0][0]`. Python's truthiness test `if not model` is modelled as `model == None`.
- The FastAPI application, the CORS middleware, the multipart upload, the async read and the `print` logging (lines 9-19, 27-29, 70). These are HTTP and I/O plumbing. The read's outcome is a `Result<Bytes>` parameter.
- The exact text of library exception messages: a failure carries whatever message the failing call produced.
- `Deployment/frontend/script.js`: browser DOM updates and a `fetch` call, with no logic beyond showing the label it receives.
