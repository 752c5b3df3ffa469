/** The numeric constants of the deployment service (Deployment/main.py, lines 32-37). */
module AudioConfig {

  /** Samples per second that every decoded clip is resampled to. */
  const SAMPLE_RATE: nat := 22050

  /** Length of the analysed clip, in seconds. */
  const DURATION: nat := 4

  /** Number of cepstral coefficients per frame: the rows of the feature matrix. */
  const N_MFCC: nat := 13

  /** Analysis window of the MFCC transform, in samples. */
  const N_FFT: nat := 2048

  /** Distance between consecutive MFCC frames, in samples. */
  const HOP_LENGTH: nat := 512

  /** Number of samples in the fixed-duration signal (`target_len`). */
  const TARGET_LEN: nat := SAMPLE_RATE * DURATION

  /** Python's `int(x)` on a float truncates toward zero; for x >= 0 that is the floor. */
  function TruncateToInt(x: real): (n: int)
    ensures 0.0 <= x ==> 0 <= n && n as real <= x < n as real + 1.0
    ensures x < 0.0 ==> n <= 0 && n as real - 1.0 < x <= n as real
  {
    if x < 0.0 then -((-x).Floor) else x.Floor
  }

  /**
   * `EXPECTED_FRAMES = int((SAMPLE_RATE * DURATION) / HOP_LENGTH) + 1`, where `/` is
   * Python's true (floating-point) division.
   */
  const EXPECTED_FRAMES: nat := TruncateToInt(TARGET_LEN as real / HOP_LENGTH as real) + 1

  /** The frame count the code computes is 173 = floor(88200 / 512) + 1. */
  lemma ExpectedFramesValue()
    ensures TARGET_LEN == 88200
    ensures EXPECTED_FRAMES == TARGET_LEN / HOP_LENGTH + 1 == 173
  {
    var q := TARGET_LEN as real / HOP_LENGTH as real;
    assert q == 172.265625;
    assert 172 as real <= q < 173 as real;
  }
}
