/** The frequencies the `sweep` loop steps through: INTERNAL_SAMPLES_QUANT
    points, evenly spaced in log-frequency from 20 Hz towards 20 kHz. */
module SweepSchedule {
  import opened FrequencyMap

  /** `flog_quant`: the log-frequency distance between two sweep points. */
  const FLOG_QUANT: real := LOG10_AUDIO_SPAN / INTERNAL_SAMPLES_QUANT as real

  /** `logf` at step `x` of the sweep loop. */
  function SweepPoint(x: int): real
  {
    LOG10_FMIN_AUDIO + x as real * FLOG_QUANT
  }

  /** The sweep points strictly increase, each at least one step above the
      one before. */
  lemma SweepPointsIncrease(i: int, j: int)
    requires i < j
    ensures SweepPoint(i) + FLOG_QUANT <= SweepPoint(j)
  {
    assert j as real * FLOG_QUANT - i as real * FLOG_QUANT == (j - i) as real * FLOG_QUANT;
    assert (j - i) as real * FLOG_QUANT >= FLOG_QUANT;
  }

  /** The loop's INTERNAL_SAMPLES_QUANT points lie in [log10 20, log10 20000):
      the first is 20 Hz and the last is one step short of 20 kHz, which is
      never reached. */
  lemma SweepPointsInAudibleRange(x: int)
    requires 0 <= x < INTERNAL_SAMPLES_QUANT
    ensures LOG10_FMIN_AUDIO <= SweepPoint(x) < LOG10_FMAX_AUDIO
    ensures SweepPoint(0) == LOG10_FMIN_AUDIO
    ensures SweepPoint(INTERNAL_SAMPLES_QUANT - 1) + FLOG_QUANT == LOG10_FMAX_AUDIO
  {
    SweepPointsIncrease(x, INTERNAL_SAMPLES_QUANT);
    assert 0.0 <= x as real * FLOG_QUANT;
  }

  /** Every sweep point lands on a valid slot of the level store, and a later
      point never lands on an earlier slot. */
  lemma SweepBucketsValid(i: int, j: int)
    requires 0 <= i <= j < INTERNAL_SAMPLES_QUANT
    ensures 0 < ScaleFreq(SweepPoint(i)) <= ScaleFreq(SweepPoint(j)) < INTERNAL_SAMPLES_QUANT
  {
    SweepPointsInAudibleRange(i);
    SweepPointsInAudibleRange(j);
    AudibleBucketsValid(SweepPoint(i));
    AudibleBucketsValid(SweepPoint(j));
    if i < j {
      SweepPointsIncrease(i, j);
      ScaleFreqMonotone(SweepPoint(i), SweepPoint(j));
    }
  }

  /** Consecutive sweep points land on the same or the next slot, so the slots
      the sweep writes form one contiguous run with no gap. */
  lemma SweepBucketsContiguous(i: int)
    ensures ScaleFreq(SweepPoint(i + 1)) - ScaleFreq(SweepPoint(i)) <= 1
  {
    var a := SCALE_FREQ_FACTOR * (SweepPoint(i) - LOG10_FMIN);
    var b := SCALE_FREQ_FACTOR * (SweepPoint(i + 1) - LOG10_FMIN);
    assert SweepPoint(i + 1) == SweepPoint(i) + FLOG_QUANT by {
      assert (i + 1) as real * FLOG_QUANT == i as real * FLOG_QUANT + FLOG_QUANT;
    }
    assert b - a == SCALE_FREQ_FACTOR * FLOG_QUANT;
    assert SCALE_FREQ_FACTOR * FLOG_QUANT < 1.0;
  }
}
