/** The tone generator: the phase increment that `scale_mod` derives from the
    current frequency, and the phase accumulator that `audio_callback` runs
    once per output sample. */
module ToneGenerator {

  const PI: real := 3.141592653589793
  const TWO_PI: real := 2.0 * PI
  const SAMPLE_RATE: nat := 44100
  /** `two_pi_by_samplerate`: radians per sample per Hz. */
  const TWO_PI_BY_SAMPLERATE: real := TWO_PI / SAMPLE_RATE as real
  /** Samples produced per output callback. */
  const BLOCKSIZE_PLAY: nat := 512

  /** `phaseinc` for a tone of `freq` Hz. Any frequency below the sample rate
      advances the phase by less than a full turn per sample. */
  function PhaseInc(freq: real): (inc: real)
    ensures 0.0 <= freq ==> 0.0 <= inc
    ensures freq < SAMPLE_RATE as real ==> inc < TWO_PI
    ensures inc * SAMPLE_RATE as real == TWO_PI * freq
  {
    TWO_PI_BY_SAMPLERATE * freq
  }

  /** One step of the accumulator: add the increment, then take one turn off
      when the phase reaches 2*pi. */
  function Advance(phase: real, inc: real): real
  {
    var p := phase + inc;
    if p >= TWO_PI then p - TWO_PI else p
  }

  /** A step differs from the unwrapped sum by zero or one full turn, and
      stays in [0, 2*pi) when both inputs are. */
  lemma AdvanceStaysInTurn(phase: real, inc: real)
    ensures Advance(phase, inc) == phase + inc || Advance(phase, inc) == phase + inc - TWO_PI
    ensures 0.0 <= phase < TWO_PI && 0.0 <= inc < TWO_PI ==> 0.0 <= Advance(phase, inc) < TWO_PI
  {
  }

  /** The phase after `n` samples starting from `phase`. If the accumulator
      starts in [0, 2*pi) with an increment in [0, 2*pi), it never leaves
      that range. */
  function PhaseAfter(phase: real, inc: real, n: nat): (p: real)
    ensures 0.0 <= phase < TWO_PI && 0.0 <= inc < TWO_PI ==> 0.0 <= p < TWO_PI
  {
    if n == 0 then phase else Advance(PhaseAfter(phase, inc, n - 1), inc)
  }

  /** How many times the accumulator has wrapped after `n` samples: at most
      once per sample. */
  function Wraps(phase: real, inc: real, n: nat): (turns: nat)
    ensures turns <= n
  {
    if n == 0 then 0
    else
      var p := PhaseAfter(phase, inc, n - 1);
      Wraps(phase, inc, n - 1) + (if p + inc >= TWO_PI then 1 else 0)
  }

  /** The ideal, never-wrapped phase after `n` samples, less `turns` full turns. */
  function Unwrapped(phase: real, inc: real, n: nat, turns: nat): real
  {
    phase + n as real * inc - turns as real * TWO_PI
  }

  /** The accumulated phase is the ideal, never-wrapped phase `phase + n*inc`
      less a whole number of turns of 2*PI: wrapping only ever removes full
      turns, never any other amount. */
  lemma {:induction false} PhaseAfterIsIdealModTurns(phase: real, inc: real, n: nat)
    ensures PhaseAfter(phase, inc, n) == Unwrapped(phase, inc, n, Wraps(phase, inc, n))
  {
    if n > 0 {
      PhaseAfterIsIdealModTurns(phase, inc, n - 1);
      IdealStep(phase, inc, n - 1, Wraps(phase, inc, n - 1));
    }
  }

  /** One accumulator step from the form `phase + m*inc - k*2*pi` lands on the
      same form with one more sample and one more turn exactly when it wraps. */
  lemma IdealStep(phase: real, inc: real, m: nat, k: nat)
    ensures var prev := Unwrapped(phase, inc, m, k);
            Advance(prev, inc) == Unwrapped(phase, inc, m + 1, if prev + inc >= TWO_PI then k + 1 else k)
  {
    assert (m + 1) as real * inc == m as real * inc + inc;
    assert (k + 1) as real * TWO_PI == k as real * TWO_PI + TWO_PI;
  }

  /** Splitting a run of samples at a block boundary changes nothing: the
      accumulator continues where the previous block left it. */
  lemma {:induction false} PhaseAfterSplits(phase: real, inc: real, m: nat, n: nat)
    ensures PhaseAfter(phase, inc, m + n) == PhaseAfter(PhaseAfter(phase, inc, m), inc, n)
  {
    if n > 0 {
      PhaseAfterSplits(phase, inc, m, n - 1);
    }
  }
}
