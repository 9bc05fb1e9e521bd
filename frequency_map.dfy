/** The sweeper's class constants and its three scale maps: log-frequency to
    canvas x (`scalex`), log-frequency to bucket index (`scale_freq`) and level
    to canvas y (`db2y`). */
module FrequencyMap {
  import opened PyMath

  /** The initial tone frequency in Hz. */
  const FINI: nat := 442

  // Base-10 logarithms of the frequency bounds (10 Hz, 442 Hz, 40 kHz, and
  // the audible 20 Hz and 20 kHz), as the float values the class computes once.
  const LOG10_FMIN: real := 1.0
  const LOG10_FINI: real := 2.645422269349092
  const LOG10_FMAX: real := 4.6020599913279625
  const LOG10_FMIN_AUDIO: real := 1.3010299956639813
  const LOG10_FMAX_AUDIO: real := 4.301029995663981

  const LOG10_SPAN: real := LOG10_FMAX - LOG10_FMIN
  const LOG10_AUDIO_SPAN: real := LOG10_FMAX_AUDIO - LOG10_FMIN_AUDIO

  /** Number of buckets in the level store. */
  const INTERNAL_SAMPLES_QUANT: nat := 200

  /** `scale_freq_factor`: buckets per decade. It does not depend on the canvas. */
  const SCALE_FREQ_FACTOR: real := INTERNAL_SAMPLES_QUANT as real / LOG10_SPAN

  // Level bounds in dB; the display range equals the full range, since the
  // auto-ranging code of the source is commented out.
  const DB_MIN: real := -90.0
  const DB_INIT: real := -50.0
  const DB_MAX: real := 0.0
  const DB_RANGE: real := DB_MAX - DB_MIN

  /** `scalex_factor` once the canvas is `width` pixels wide. */
  function ScalexFactor(width: int): (f: real)
    ensures f * LOG10_SPAN == width as real
  {
    width as real / LOG10_SPAN
  }

  /** `scalex`: pixel x of a log-frequency under the current factor. */
  function Scalex(factor: real, x: real): real
  {
    factor * (x - LOG10_FMIN)
  }

  /** Once configured for a canvas `width` pixels wide, `scalex` puts the lowest
      frequency at the left edge and the highest at the right edge. */
  lemma ScalexEndpoints(width: int)
    ensures Scalex(ScalexFactor(width), LOG10_FMIN) == 0.0
    ensures Scalex(ScalexFactor(width), LOG10_FMAX) == width as real
  {
  }

  /** With a non-negative factor, `scalex` keeps frequencies in order. */
  lemma ScalexMonotone(factor: real, x: real, y: real)
    requires 0.0 <= factor && x <= y
    ensures Scalex(factor, x) <= Scalex(factor, y)
  {
    assert factor * (y - LOG10_FMIN) - factor * (x - LOG10_FMIN) == factor * (y - x);
  }

  /** `scale_freq`: the bucket index of a log-frequency, rounded as Python does. */
  function ScaleFreq(x: real): int
  {
    RoundHalfEven(SCALE_FREQ_FACTOR * (x - LOG10_FMIN))
  }

  /** The lowest slider frequency maps to bucket 0 and the highest to bucket
      `INTERNAL_SAMPLES_QUANT`, one past the last slot of the store. */
  lemma ScaleFreqEndpoints()
    ensures ScaleFreq(LOG10_FMIN) == 0
    ensures ScaleFreq(LOG10_FMAX) == INTERNAL_SAMPLES_QUANT
  {
    assert SCALE_FREQ_FACTOR * (LOG10_FMAX - LOG10_FMIN) == INTERNAL_SAMPLES_QUANT as real;
  }

  /** `scale_freq` is monotone non-decreasing. */
  lemma ScaleFreqMonotone(x: real, y: real)
    requires x <= y
    ensures ScaleFreq(x) <= ScaleFreq(y)
  {
    RoundedScaleMonotone(SCALE_FREQ_FACTOR, x, y);
  }

  /** Rounding a position scaled by a non-negative factor keeps frequencies
      in order. */
  lemma RoundedScaleMonotone(c: real, x: real, y: real)
    requires 0.0 <= c && x <= y
    ensures RoundHalfEven(c * (x - LOG10_FMIN)) <= RoundHalfEven(c * (y - LOG10_FMIN))
  {
    ScalexMonotone(c, x, y);
    RoundMonotone(c * (x - LOG10_FMIN), c * (y - LOG10_FMIN));
  }

  /** On the slider range every bucket index lies in [0, INTERNAL_SAMPLES_QUANT],
      and it is a valid slot exactly when the unrounded position is below
      INTERNAL_SAMPLES_QUANT - 1/2. */
  lemma ScaleFreqRange(x: real)
    requires LOG10_FMIN <= x <= LOG10_FMAX
    ensures 0 <= ScaleFreq(x) <= INTERNAL_SAMPLES_QUANT
    ensures ScaleFreq(x) < INTERNAL_SAMPLES_QUANT
        <==> SCALE_FREQ_FACTOR * (x - LOG10_FMIN) < INTERNAL_SAMPLES_QUANT as real - 0.5
  {
    ScaleFreqMonotone(LOG10_FMIN, x);
    ScaleFreqMonotone(x, LOG10_FMAX);
    ScaleFreqEndpoints();
  }

  /** Every audible frequency (20 Hz to 20 kHz) maps to a valid slot, so a
      recording write for it is never dropped. */
  lemma AudibleBucketsValid(x: real)
    requires LOG10_FMIN_AUDIO <= x <= LOG10_FMAX_AUDIO
    ensures 0 < ScaleFreq(x) < INTERNAL_SAMPLES_QUANT
  {
    ScaleFreqRange(x);
    ScaleFreqMonotone(LOG10_FMIN_AUDIO, x);
    ScaleFreqMonotone(x, LOG10_FMAX_AUDIO);
    assert SCALE_FREQ_FACTOR * (LOG10_FMAX_AUDIO - LOG10_FMIN) < 199.5;
    assert SCALE_FREQ_FACTOR * (LOG10_FMIN_AUDIO - LOG10_FMIN) > 0.5;
  }

  /** `draw_spectrum` puts bucket `i` at pixel `width * i / INTERNAL_SAMPLES_QUANT`.
      For a frequency that `scale_freq` sends to bucket `i`, that pixel is within
      half a bucket of where `scalex` draws the frequency itself. */
  lemma BucketPixelAgrees(width: nat, x: real)
    ensures var px := Scalex(ScalexFactor(width), x);
            var bx := (width as real / INTERNAL_SAMPLES_QUANT as real) * ScaleFreq(x) as real;
            -(width as real) / 400.0 <= px - bx <= width as real / 400.0
  {
    var t := SCALE_FREQ_FACTOR * (x - LOG10_FMIN);
    assert -0.5 <= t - ScaleFreq(x) as real <= 0.5;
    ScalexInBuckets(width, x);
    HalfBucketBound(width as real, Scalex(ScalexFactor(width), x), t, ScaleFreq(x) as real);
  }

  /** `scalex` under the factor for a canvas `width` pixels wide is the
      unrounded bucket position times the pixel width of one bucket. */
  lemma ScalexInBuckets(width: nat, x: real)
    ensures Scalex(ScalexFactor(width), x)
         == (width as real / INTERNAL_SAMPLES_QUANT as real) * (SCALE_FREQ_FACTOR * (x - LOG10_FMIN))
  {
    var q := width as real / INTERNAL_SAMPLES_QUANT as real;
    assert ScalexFactor(width) == q * SCALE_FREQ_FACTOR;
  }

  /** A pixel `px` at bucket position `t` on a canvas `w` pixels wide, and the
      pixel of a bucket `r` at most half a bucket from `t`, are at most half a
      bucket width apart. */
  lemma HalfBucketBound(w: real, px: real, t: real, r: real)
    requires 0.0 <= w && px == (w / INTERNAL_SAMPLES_QUANT as real) * t
    requires -0.5 <= t - r <= 0.5
    ensures -w / 400.0 <= px - (w / INTERNAL_SAMPLES_QUANT as real) * r <= w / 400.0
  {
    var q := w / INTERNAL_SAMPLES_QUANT as real;
    var e := t - r;
    assert px - q * r == q * e;
    assert 0.0 <= q * (0.5 - e) by { NonNegativeProduct(q, 0.5 - e); }
    assert 0.0 <= q * (e + 0.5) by { NonNegativeProduct(q, e + 0.5); }
    assert w / 400.0 == q * 0.5;
  }

  /** The product of two non-negative reals is non-negative. */
  lemma NonNegativeProduct(a: real, b: real)
    requires 0.0 <= a && 0.0 <= b
    ensures 0.0 <= a * b
  {
  }

  /** `db2y`: pixel y of a level on a canvas `height` pixels tall. */
  function Db2Y(height: int, db: real): real
  {
    height as real - height as real * (db - DB_MIN) / DB_RANGE
  }

  /** The floor of the range is drawn at the bottom edge and the ceiling at the
      top edge; a louder level is drawn strictly higher on a non-empty canvas. */
  lemma Db2YEndpointsAndOrder(height: int, db1: real, db2: real)
    ensures Db2Y(height, DB_MIN) == height as real
    ensures Db2Y(height, DB_MAX) == 0.0
    ensures 0 < height && db1 < db2 ==> Db2Y(height, db2) < Db2Y(height, db1)
  {
    var h := height as real;
    assert Db2Y(height, db1) - Db2Y(height, db2) == h * (db2 - db1) / DB_RANGE;
  }
}
