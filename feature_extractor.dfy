/**
 * The feature extractor of Deployment/main.py (`process_audio`, lines 40-60): decode the
 * uploaded bytes, force the signal to exactly TARGET_LEN samples, compute the MFCC matrix,
 * and force its frame axis to exactly EXPECTED_FRAMES columns.
 */
module FeatureExtractor {
  import opened Results
  import opened AudioConfig

  type Bytes = seq<bv8>

  /** A mono signal at SAMPLE_RATE samples per second. */
  type Signal = seq<real>

  /** A feature matrix, row by row: one row per coefficient, one column per frame. */
  type Matrix = seq<seq<real>>

  /** A rank-4 tensor (batch, coefficient, frame, channel), outermost axis first. */
  type Tensor4 = seq<seq<seq<seq<real>>>>

  /**
   * The two library calls the extractor depends on, as oracles that may raise:
   * `load` stands for `librosa.load(..., sr=SAMPLE_RATE, duration=DURATION)` and
   * `mfcc` for `librosa.feature.mfcc(..., n_mfcc=N_MFCC, n_fft=N_FFT, hop_length=HOP_LENGTH)`.
   */
  datatype Dsp = Dsp(load: Bytes -> Result<Signal>, mfcc: Signal -> Result<Matrix>)

  /** What the MFCC library promises about its output: N_MFCC rows of equal length. */
  ghost predicate MfccShapeContract(dsp: Dsp) {
    forall s: Signal :: dsp.mfcc(s).Success? ==> IsMatrix(dsp.mfcc(s).value, N_MFCC)
  }

  /** `m` has `rows` rows, all of the same length (a 2-D numpy array). */
  predicate IsMatrix(m: Matrix, rows: nat) {
    |m| == rows && forall i :: 0 <= i < |m| ==> |m[i]| == |m[0]|
  }

  /** `m` has exactly `rows` rows and `cols` columns. */
  predicate HasShape2(m: Matrix, rows: nat, cols: nat) {
    |m| == rows && forall i :: 0 <= i < |m| ==> |m[i]| == cols
  }

  /** `x` has shape (a, b, c, d). */
  predicate HasShape4(x: Tensor4, a: nat, b: nat, c: nat, d: nat) {
    && |x| == a
    && (forall i :: 0 <= i < a ==> |x[i]| == b)
    && (forall i, j :: 0 <= i < a && 0 <= j < b ==> |x[i][j]| == c)
    && (forall i, j, k :: 0 <= i < a && 0 <= j < b && 0 <= k < c ==> |x[i][j][k]| == d)
  }

  /** `n` zero samples: the fill of `np.pad(..., mode='constant')`. */
  function Zeros(n: nat): (z: Signal)
    ensures |z| == n
    ensures forall i :: 0 <= i < n ==> z[i] == 0.0
  {
    if n == 0 then [] else Zeros(n - 1) + [0.0]
  }

  /**
   * Pad with trailing zeros, or truncate, to exactly `n` elements: the
   * `if len(x) < n: np.pad(x, (0, n - len(x))) else: x[:n]` idiom used on the
   * signal and on every row of the feature matrix.
   */
  function FixLength(s: Signal, n: nat): (r: Signal)
    ensures |r| == n
    ensures forall i :: 0 <= i < n && i < |s| ==> r[i] == s[i]
    ensures forall i :: |s| <= i < n ==> r[i] == 0.0
  {
    if |s| < n then s + Zeros(n - |s|) else s[..n]
  }

  /** The fixed-duration signal: exactly SAMPLE_RATE * DURATION = 88200 samples. */
  function FixDuration(signal: Signal): (r: Signal)
    ensures |r| == TARGET_LEN == 88200
    ensures forall i :: 0 <= i < |r| && i < |signal| ==> r[i] == signal[i]
    ensures forall i :: |signal| <= i < |r| ==> r[i] == 0.0
  {
    FixLength(signal, TARGET_LEN)
  }

  /**
   * The frame-axis normalisation: every row keeps its place and is padded with zero
   * frames, or truncated, to exactly EXPECTED_FRAMES columns.
   */
  function FixFrames(m: Matrix): (r: Matrix)
    ensures HasShape2(r, |m|, EXPECTED_FRAMES)
    ensures forall i, j :: 0 <= i < |m| && 0 <= j < EXPECTED_FRAMES && j < |m[i]| ==> r[i][j] == m[i][j]
    ensures forall i, j :: 0 <= i < |m| && |m[i]| <= j < EXPECTED_FRAMES ==> r[i][j] == 0.0
  {
    seq(|m|, i requires 0 <= i < |m| => FixLength(m[i], EXPECTED_FRAMES))
  }

  /** `features[np.newaxis, ..., np.newaxis]`: a batch of one, a channel of one. */
  function ModelInput(f: Matrix): (x: Tensor4)
    ensures |x| == 1 && |x[0]| == |f|
    ensures forall i :: 0 <= i < |f| ==> |x[0][i]| == |f[i]|
    ensures forall i, j :: 0 <= i < |f| && 0 <= j < |f[i]| ==> x[0][i][j] == [f[i][j]]
  {
    [seq(|f|, i requires 0 <= i < |f| => seq(|f[i]|, j requires 0 <= j < |f[i]| => [f[i][j]]))]
  }

  /**
   * `process_audio`: decoding or MFCC failure is reported with the library's message;
   * otherwise the result is the frame-normalised MFCC of the fixed-duration signal.
   */
  function ProcessAudio(bytes: Bytes, dsp: Dsp): (r: Result<Matrix>)
    ensures dsp.load(bytes).Failure? ==> r == Failure(dsp.load(bytes).error)
    ensures dsp.load(bytes).Success? ==>
      var m := dsp.mfcc(FixDuration(dsp.load(bytes).value));
      && (m.Failure? ==> r == Failure(m.error))
      && (m.Success? ==> r.Success? && HasShape2(r.value, |m.value|, EXPECTED_FRAMES))
      && (m.Success? ==> forall i, j :: 0 <= i < |m.value| && 0 <= j < EXPECTED_FRAMES ==>
            r.value[i][j] == if j < |m.value[i]| then m.value[i][j] else 0.0)
  {
    var signal :- dsp.load(bytes);
    var mfcc :- dsp.mfcc(FixDuration(signal));
    Success(FixFrames(mfcc))
  }

  // ---------------------------------------------------------------------------
  // Properties of length normalisation

  /** The three defining properties determine the result: FixLength is the only such sequence. */
  lemma FixLengthUnique(s: Signal, n: nat, r: Signal)
    requires |r| == n
    requires forall i :: 0 <= i < n && i < |s| ==> r[i] == s[i]
    requires forall i :: |s| <= i < n ==> r[i] == 0.0
    ensures r == FixLength(s, n)
  {
    var f := FixLength(s, n);
    forall i | 0 <= i < n ensures r[i] == f[i] {
      if i < |s| { assert r[i] == s[i] == f[i]; } else { assert r[i] == 0.0 == f[i]; }
    }
  }

  /** A signal that already has `n` samples comes back unchanged (the `else` branch). */
  lemma FixLengthOfExactLength(s: Signal, n: nat)
    requires |s| == n
    ensures FixLength(s, n) == s
  {
  }

  /** Normalising twice is normalising once. */
  lemma FixLengthIdempotent(s: Signal, n: nat)
    ensures FixLength(FixLength(s, n), n) == FixLength(s, n)
  {
    FixLengthOfExactLength(FixLength(s, n), n);
  }

  /** Only the first `n` samples matter: what comes after them never reaches the result. */
  lemma FixLengthIgnoresTail(s: Signal, t: Signal, n: nat)
    requires |s| >= n && |t| >= n
    requires s[..n] == t[..n]
    ensures FixLength(s, n) == FixLength(t, n)
  {
  }

  // ---------------------------------------------------------------------------
  // Properties of frame normalisation and of the model input

  /** A rectangular F-column matrix: columns below min(F, EXPECTED_FRAMES) kept, later ones zero. */
  lemma FixFramesColumns(m: Matrix, rows: nat, cols: nat)
    requires HasShape2(m, rows, cols)
    ensures HasShape2(FixFrames(m), rows, EXPECTED_FRAMES)
    ensures forall i, j :: 0 <= i < rows && 0 <= j < EXPECTED_FRAMES && j < cols ==> FixFrames(m)[i][j] == m[i][j]
    ensures forall i, j :: 0 <= i < rows && cols <= j < EXPECTED_FRAMES ==> FixFrames(m)[i][j] == 0.0
  {
  }

  /** A matrix that already has EXPECTED_FRAMES columns comes back unchanged. */
  lemma FixFramesOfExactShape(m: Matrix)
    requires HasShape2(m, |m|, EXPECTED_FRAMES)
    ensures FixFrames(m) == m
  {
    forall i | 0 <= i < |m| ensures FixFrames(m)[i] == m[i] {
      FixLengthOfExactLength(m[i], EXPECTED_FRAMES);
    }
  }

  /** Frame normalisation is idempotent. */
  lemma FixFramesIdempotent(m: Matrix)
    ensures FixFrames(FixFrames(m)) == FixFrames(m)
  {
    FixFramesOfExactShape(FixFrames(m));
  }

  /** The tensor built from N_MFCC-row features has shape (1, 13, 173, 1) and carries them. */
  lemma ModelInputShape(m: Matrix)
    requires |m| == N_MFCC
    ensures HasShape4(ModelInput(FixFrames(m)), 1, N_MFCC, EXPECTED_FRAMES, 1)
    ensures HasShape4(ModelInput(FixFrames(m)), 1, 13, 173, 1)
    ensures forall i, j :: 0 <= i < N_MFCC && 0 <= j < EXPECTED_FRAMES ==>
      ModelInput(FixFrames(m))[0][i][j][0] == FixFrames(m)[i][j]
  {
    ExpectedFramesValue();
  }

  // ---------------------------------------------------------------------------
  // Properties of the whole extractor

  /** Under the library's shape contract, every successful extraction is 13 x 173. */
  lemma ProcessAudioShape(bytes: Bytes, dsp: Dsp)
    requires MfccShapeContract(dsp)
    requires ProcessAudio(bytes, dsp).Success?
    ensures HasShape2(ProcessAudio(bytes, dsp).value, N_MFCC, EXPECTED_FRAMES)
    ensures HasShape2(ProcessAudio(bytes, dsp).value, 13, 173)
  {
    ExpectedFramesValue();
    var signal := dsp.load(bytes).value;
    assert IsMatrix(dsp.mfcc(FixDuration(signal)).value, N_MFCC);
  }

  /**
   * Two uploads whose decoded signals agree on their first TARGET_LEN samples give the
   * same features: audio after the four-second mark does not affect the result.
   */
  lemma ProcessAudioIgnoresAudioAfterDuration(b1: Bytes, b2: Bytes, dsp: Dsp)
    requires dsp.load(b1).Success? && dsp.load(b2).Success?
    requires |dsp.load(b1).value| >= TARGET_LEN && |dsp.load(b2).value| >= TARGET_LEN
    requires dsp.load(b1).value[..TARGET_LEN] == dsp.load(b2).value[..TARGET_LEN]
    ensures ProcessAudio(b1, dsp) == ProcessAudio(b2, dsp)
  {
    FixLengthIgnoresTail(dsp.load(b1).value, dsp.load(b2).value, TARGET_LEN);
  }
}
