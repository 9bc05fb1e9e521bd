/** The measurement engine of SimpleAudioSweeper: its tone, level, bucket and
    transport state, and the methods and audio callbacks that update it. The
    Tk widgets, canvas drawing and sounddevice streams around it are not part
    of this model; the output stream is reduced to whether it exists. */
module Sweeper {
  import opened PyMath
  import opened FrequencyMap
  import opened ToneGenerator
  import opened LevelMeter
  import opened SweepSchedule

  /** What the engine needs of its math library: the textbook facts, and that
      `10**log10(40000)` is below the sample rate. */
  ghost predicate LibFits(lib: MathLib)
  {
    lib.Sound() && lib.pow10(LOG10_FMAX) < SAMPLE_RATE as real
  }

  /** Every slider frequency (10 Hz to 40 kHz) is below the 44.1 kHz sample
      rate, so its phase increment is less than a full turn per sample. */
  lemma SliderPhaseIncInRange(lib: MathLib, x: real)
    requires LibFits(lib)
    requires LOG10_FMIN <= x <= LOG10_FMAX
    ensures 0.0 <= PhaseInc(lib.pow10(x)) < TWO_PI
  {
    assert lib.pow10(x) <= lib.pow10(LOG10_FMAX);
  }

  /** The slot `mic_callback` writes for a slider frequency: the bucket of
      `scale_freq` itself (never a wrapped negative index) when it is below
      INTERNAL_SAMPLES_QUANT, and no slot at all (IndexError) otherwise, which
      happens only for index INTERNAL_SAMPLES_QUANT itself. */
  lemma WriteSlotIsBucket(x: real)
    requires LOG10_FMIN <= x <= LOG10_FMAX
    ensures ScaleFreq(x) < INTERNAL_SAMPLES_QUANT ==>
              PyIndex(INTERNAL_SAMPLES_QUANT, ScaleFreq(x)) == Some(ScaleFreq(x))
    ensures ScaleFreq(x) >= INTERNAL_SAMPLES_QUANT ==>
              PyIndex(INTERNAL_SAMPLES_QUANT, ScaleFreq(x)) == None && ScaleFreq(x) == INTERNAL_SAMPLES_QUANT
  {
    ScaleFreqRange(x);
  }

  /** The loop of `audio_callback`: BLOCKSIZE_PLAY samples of `sin(phase)`,
      advancing the phase by `inc` after each sample and taking a turn off
      whenever it reaches 2*pi. Returns the block and the phase to store back;
      a phase that starts in [0, 2*pi) with an increment in [0, 2*pi) ends
      there too. */
  method RenderBlock(lib: MathLib, phase: real, inc: real) returns (samples: array<real>, next: real)
    requires lib.Sound()
    ensures fresh(samples) && samples.Length == BLOCKSIZE_PLAY
    ensures next == PhaseAfter(phase, inc, BLOCKSIZE_PLAY)
    ensures 0.0 <= phase < TWO_PI && 0.0 <= inc < TWO_PI ==> 0.0 <= next < TWO_PI
    ensures forall i {:trigger samples[i]} :: 0 <= i < samples.Length ==>
              samples[i] == lib.sin(PhaseAfter(phase, inc, i)) && -1.0 <= samples[i] <= 1.0
  {
    next := phase;
    samples := new real[BLOCKSIZE_PLAY](_ => 0.0);
    var i := 0;
    while i < BLOCKSIZE_PLAY
      invariant 0 <= i <= BLOCKSIZE_PLAY
      invariant next == PhaseAfter(phase, inc, i)
      invariant forall k {:trigger samples[k]} :: 0 <= k < i ==>
                  samples[k] == lib.sin(PhaseAfter(phase, inc, k)) && -1.0 <= samples[k] <= 1.0
    {
      samples[i] := lib.sin(next);
      next := next + inc;
      if next >= TWO_PI {
        next := next - TWO_PI;
      }
      i := i + 1;
    }
  }

  /** Enabled (true) or disabled state of the controls `mode_set` manages. */
  datatype Controls = Controls(slider: bool, play: bool, stop: bool, rec: bool, sweep: bool)

  const ALL_ENABLED: Controls := Controls(true, true, true, true, true)

  /** How opening the output stream goes: the stream constructor raising
      (no stream is kept), its `start()` raising (the stream is kept), or
      neither. */
  datatype StartFault = NoFault | OpenFails | StartFails

  /** The engine state after one iteration of the sweep loop. */
  datatype SweepStep = SweepStep(log10freq: real, phaseinc: real, recording: bool, running: bool, streamOpen: bool)

  class SimpleAudioSweeper {
    /** `sin`, `log10` and `10**x` as the engine calls them. */
    const lib: MathLib

    // transport: `running`, and whether `stream` is not None
    var running: bool
    var streamOpen: bool

    // tone generator
    var phase: real
    var phaseinc: real
    /** `phaseinc` exists only once `scale_mod` has run. */
    var hasPhaseInc: bool
    var currentLog10Freq: real
    var currentLog10FreqScalex: real
    var currentFreq: real
    /** The slider's variable `log10freq_var`. */
    var sliderLog10Freq: real

    // canvas geometry and scale factors
    var canvasWidth: int
    var canvasHeight: int
    var scalexFactor: real
    /** `scale_freq_factor` exists only once `root_configure` has run. */
    var hasScaleFreqFactor: bool

    // level meter
    var recordBlocks: seq<real>
    var db: real

    // recording and the bucket store
    var recordingVar: bool
    var recording: bool
    var internalDbArray: array<real>
    var dbarrayModified: bool

    var controls: Controls

    ghost predicate Valid()
      reads this
    {
      LibFits(lib)
      && (streamOpen ==> running)
      && 0.0 <= phase < TWO_PI
      && LOG10_FMIN <= currentLog10Freq <= LOG10_FMAX
      && (hasPhaseInc ==>
            currentFreq == lib.pow10(currentLog10Freq)
            && phaseinc == PhaseInc(currentFreq)
            && 0.0 <= phaseinc < TWO_PI)
      && |recordBlocks| == RECORD_BLOCKS_LEN
      && (forall i :: 0 <= i < |recordBlocks| ==> 0.0 <= recordBlocks[i])
      && internalDbArray.Length == INTERNAL_SAMPLES_QUANT
    }

    /** The slot the next `mic_callback` writes, or None when it writes
        nothing: not recording, `scale_freq_factor` not yet set
        (AttributeError), or an index outside the list (IndexError). */
    function BucketSlot(): Option<nat>
      reads this
    {
      if !recording || !hasScaleFreqFactor then None
      else PyIndex(internalDbArray.Length, ScaleFreq(currentLog10Freq))
    }

    /** The engine part of `__init__`: tone at 442 Hz, no stream, phase 0,
        not recording, an all-zero level window and a fresh bucket store. */
    constructor (lib: MathLib)
      requires LibFits(lib)
      ensures Valid() && fresh(internalDbArray)
      ensures this.lib == lib
      ensures !running && !streamOpen && phase == 0.0
      ensures !hasPhaseInc && !hasScaleFreqFactor
      ensures currentLog10Freq == LOG10_FINI && currentFreq == FINI as real
      ensures sliderLog10Freq == LOG10_FINI
      ensures !recordingVar && !recording
      ensures recordBlocks == [0.0, 0.0, 0.0, 0.0, 0.0, 0.0]
      ensures forall i :: 0 <= i < internalDbArray.Length ==> internalDbArray[i] == DB_INIT
      ensures dbarrayModified
      ensures controls == ALL_ENABLED
      ensures db == -24.0 && scalexFactor == 0.0 && canvasWidth == 1 && canvasHeight == 1
    {
      this.lib := lib;
      scalexFactor := 0.0;
      db := -24.0;
      sliderLog10Freq := LOG10_FINI;
      recordingVar := false;
      controls := ALL_ENABLED;
      recording := false;
      phase := 0.0;
      phaseinc := 0.0;
      hasPhaseInc := false;
      running := false;
      streamOpen := false;
      currentLog10Freq := LOG10_FINI;
      currentLog10FreqScalex := Scalex(0.0, LOG10_FINI);
      currentFreq := FINI as real;
      canvasWidth := 1;
      canvasHeight := 1;
      hasScaleFreqFactor := false;
      recordBlocks := [0.0, 0.0, 0.0, 0.0, 0.0, 0.0];
      internalDbArray := new real[INTERNAL_SAMPLES_QUANT](_ => DB_INIT);
      dbarrayModified := true;
    }

    /** `initialize_internal_dbarray`: a fresh store of INTERNAL_SAMPLES_QUANT
        slots, all at the initial level, flagged for redrawing. */
    method InitializeInternalDbArray()
      requires Valid()
      modifies this`internalDbArray, this`dbarrayModified
      ensures Valid() && fresh(internalDbArray)
      ensures internalDbArray.Length == INTERNAL_SAMPLES_QUANT
      ensures forall i :: 0 <= i < internalDbArray.Length ==> internalDbArray[i] == DB_INIT
      ensures dbarrayModified
    {
      internalDbArray := new real[INTERNAL_SAMPLES_QUANT](_ => DB_INIT);
      dbarrayModified := true;
    }

    /** `recording_var_toggle`: the engine flag follows the checkbox variable. */
    method RecordingVarToggle()
      modifies this`recording
      ensures recording == recordingVar
    {
      recording := recordingVar;
    }

    /** `scale_mod`, numeric part: retune to `log10freq`. Only the increment
        changes; the phase is left alone, so the tone stays continuous. */
    method ScaleMod(log10freq: real)
      requires Valid()
      requires LOG10_FMIN <= log10freq <= LOG10_FMAX
      modifies this`currentLog10Freq, this`currentLog10FreqScalex, this`currentFreq,
               this`phaseinc, this`hasPhaseInc
      ensures Valid()
      ensures currentLog10Freq == log10freq
      ensures currentLog10FreqScalex == Scalex(scalexFactor, log10freq)
      ensures currentFreq == lib.pow10(log10freq)
      ensures hasPhaseInc && phaseinc == PhaseInc(currentFreq)
      ensures 0.0 <= phaseinc < TWO_PI
      ensures phase == old(phase)
    {
      currentLog10Freq := log10freq;
      currentLog10FreqScalex := Scalex(scalexFactor, currentLog10Freq);
      currentFreq := lib.pow10(currentLog10Freq);
      phaseinc := PhaseInc(currentFreq);
      hasPhaseInc := true;
      SliderPhaseIncInRange(lib, log10freq);
    }

    /** `root_configure`, numeric part: take the canvas size, set both scale
        factors and retune to the current frequency. */
    method RootConfigure(width: nat, height: nat)
      requires Valid()
      modifies this`canvasWidth, this`canvasHeight, this`scalexFactor, this`hasScaleFreqFactor,
               this`currentLog10Freq, this`currentLog10FreqScalex, this`currentFreq,
               this`phaseinc, this`hasPhaseInc
      ensures Valid()
      ensures canvasWidth == width && canvasHeight == height
      ensures scalexFactor == ScalexFactor(width) && hasScaleFreqFactor
      ensures currentLog10Freq == old(currentLog10Freq)
      ensures currentLog10FreqScalex == Scalex(scalexFactor, currentLog10Freq)
      ensures currentFreq == lib.pow10(currentLog10Freq)
      ensures hasPhaseInc && phaseinc == PhaseInc(currentFreq)
      ensures phase == old(phase)
    {
      canvasWidth := width;
      scalexFactor := ScalexFactor(canvasWidth);
      hasScaleFreqFactor := true;
      canvasHeight := height;
      ScaleMod(currentLog10Freq);
    }

    /** `audio_callback`: one block of BLOCKSIZE_PLAY samples of `sin(phase)`,
        advancing and wrapping the phase after each sample, then storing it
        back. Before any `scale_mod` there is no `phaseinc` and the callback
        raises without producing samples. The stored phase stays in
        [0, 2*pi). */
    method AudioCallback() returns (samples: array<real>, raised: bool)
      requires Valid()
      modifies this`phase
      ensures Valid() && fresh(samples)
      ensures raised <==> !hasPhaseInc
      ensures raised ==> samples.Length == 0 && phase == old(phase)
      ensures !raised ==> samples.Length == BLOCKSIZE_PLAY
      ensures !raised ==> phase == PhaseAfter(old(phase), phaseinc, BLOCKSIZE_PLAY)
      ensures !raised ==> forall i {:trigger samples[i]} :: 0 <= i < samples.Length ==>
                samples[i] == lib.sin(PhaseAfter(old(phase), phaseinc, i))
                && -1.0 <= samples[i] <= 1.0
    {
      if !hasPhaseInc {
        samples, raised := new real[0], true;
        return;
      }
      raised := false;
      var p;
      samples, p := RenderBlock(lib, phase, phaseinc);
      phase := p;
    }

    /** `mic_callback`, numeric part. A block delivered with a status flag is
        ignored. Otherwise its mean power slides into the window, the level is
        recomputed from the window, and when recording that level overwrites
        exactly the slot of the current frequency. A write that fails (no
        `scale_freq_factor` yet, or an index past the list) is swallowed by the
        callback's `except`, leaving the store and its flag as they were.
        The window only ever holds non-negative powers, so the argument of
        `log10` is at least 1e-12 and the level computation cannot fail. */
    method MicCallback(indata: seq<real>, status: bool)
      requires Valid()
      requires |indata| > 0
      modifies this`recordBlocks, this`db, this`dbarrayModified, internalDbArray
      ensures Valid()
      ensures status ==> recordBlocks == old(recordBlocks) && db == old(db)
                         && dbarrayModified == old(dbarrayModified)
                         && internalDbArray[..] == old(internalDbArray[..])
      ensures !status ==> recordBlocks == Slide(old(recordBlocks), MeanSquare(indata))
      ensures !status ==> db == Level(lib, recordBlocks)
      ensures !status ==> LEVEL_EPSILON <= Mean(recordBlocks) + LEVEL_EPSILON
      ensures !status && BucketSlot().Some? ==>
                internalDbArray[..] == old(internalDbArray[..])[BucketSlot().value := db]
                && dbarrayModified
      ensures !status && BucketSlot().None? ==>
                internalDbArray[..] == old(internalDbArray[..])
                && dbarrayModified == old(dbarrayModified)
    {
      if status {
        return;
      }
      var blockMean := MeanSquare(indata);
      recordBlocks := recordBlocks[1..];
      recordBlocks := recordBlocks + [blockMean];
      SumNonNegative(recordBlocks);
      db := 10.0 * lib.log10(Mean(recordBlocks) + LEVEL_EPSILON);
      if recording && hasScaleFreqFactor {
        var slot := PyIndex(internalDbArray.Length, ScaleFreq(currentLog10Freq));
        if slot.Some? {
          internalDbArray[slot.value] := db;
          dbarrayModified := true;
        }
      }
    }

    /** The list-building part of `draw_spectrum`: for every bucket, in order,
        its x pixel (evenly spaced across the canvas) followed by the y pixel
        of its level. */
    method SpectrumData() returns (data: seq<real>)
      requires Valid()
      ensures |data| == 2 * INTERNAL_SAMPLES_QUANT
      ensures forall k :: 0 <= k < INTERNAL_SAMPLES_QUANT ==>
                data[2 * k] == (canvasWidth as real / INTERNAL_SAMPLES_QUANT as real) * k as real
                && data[2 * k + 1] == Db2Y(canvasHeight, internalDbArray[k])
    {
      var xFactor := canvasWidth as real / INTERNAL_SAMPLES_QUANT as real;
      data := [];
      var x := 0;
      while x < internalDbArray.Length
        invariant 0 <= x <= internalDbArray.Length
        invariant |data| == 2 * x
        invariant forall k :: 0 <= k < x ==>
                    data[2 * k] == xFactor * k as real
                    && data[2 * k + 1] == Db2Y(canvasHeight, internalDbArray[k])
      {
        data := data + [xFactor * x as real, Db2Y(canvasHeight, internalDbArray[x])];
        x := x + 1;
      }
    }

    /** `draw_spectrum`: when the store has changed since the last drawing,
        build its coordinate list and clear the flag; otherwise do nothing. */
    method DrawSpectrum() returns (drawn: Option<seq<real>>)
      requires Valid()
      modifies this`dbarrayModified
      ensures Valid()
      ensures !dbarrayModified
      ensures drawn.Some? <==> old(dbarrayModified)
      ensures drawn.Some? ==> |drawn.value| == 2 * INTERNAL_SAMPLES_QUANT
      ensures drawn.Some? ==> forall k :: 0 <= k < INTERNAL_SAMPLES_QUANT ==>
                drawn.value[2 * k] == (canvasWidth as real / INTERNAL_SAMPLES_QUANT as real) * k as real
                && drawn.value[2 * k + 1] == Db2Y(canvasHeight, internalDbArray[k])
    {
      if dbarrayModified {
        var data := SpectrumData();
        drawn := Some(data);
        dbarrayModified := false;
      } else {
        drawn := None;
      }
    }

    /** `start`: nothing when a stream exists; nothing either while `running`
        is set without a stream (left so by a failed open). Otherwise set
        `running` and open the output stream. */
    method Start(fault: StartFault) returns (raised: bool)
      requires Valid()
      modifies this`running, this`streamOpen
      ensures Valid()
      ensures old(streamOpen) ==> running && streamOpen && !raised
      ensures !old(streamOpen) && old(running) ==> running && !streamOpen && !raised
      ensures !old(streamOpen) && !old(running) ==>
                running && streamOpen == (fault != OpenFails) && raised == (fault != NoFault)
    {
      raised := false;
      if streamOpen {
        return;
      }
      if !running {
        running := true;
        if fault == OpenFails {
          raised := true;
          return;
        }
        streamOpen := true;
        raised := fault == StartFails;
      }
    }

    /** `stop`: nothing unless `running`. From `running` it always ends with
        `running` false and no stream, even when stopping or closing the stream
        raises (`closeFails`) or there was no stream to close. */
    method Stop(closeFails: bool) returns (raised: bool)
      requires Valid()
      modifies this`running, this`streamOpen
      ensures Valid()
      ensures old(running) ==> !running && !streamOpen && raised == (closeFails || !old(streamOpen))
      ensures !old(running) ==> !running && streamOpen == old(streamOpen) && !raised
    {
      raised := false;
      if running {
        running := false;
        raised := closeFails || !streamOpen;
        streamOpen := false;
      }
    }

    /** `mode_set`, flag part. Mode 0 (manual) enables the manual controls and
        retunes to 442 Hz; modes 1 (sweep) and 2 (FFT) disable them, retune to
        20 Hz and stop the output; any other mode only disables the slider. */
    method ModeSet(mode: int, closeFails: bool) returns (raised: bool)
      requires Valid()
      modifies this`controls, this`sliderLog10Freq, this`running, this`streamOpen,
               this`currentLog10Freq, this`currentLog10FreqScalex, this`currentFreq,
               this`phaseinc, this`hasPhaseInc
      ensures Valid()
      ensures phase == old(phase)
      ensures mode == 0 ==>
                controls == Controls(true, true, true, true, false)
                && sliderLog10Freq == LOG10_FINI && currentLog10Freq == LOG10_FINI
                && running == old(running) && streamOpen == old(streamOpen) && !raised
      ensures (mode == 1 || mode == 2) ==>
                controls == Controls(false, false, false, false, mode == 1)
                && sliderLog10Freq == LOG10_FMIN_AUDIO && currentLog10Freq == LOG10_FMIN_AUDIO
                && !running && !streamOpen
                && raised == (old(running) && (closeFails || !old(streamOpen)))
      ensures 0 <= mode <= 2 ==>
                hasPhaseInc && currentFreq == lib.pow10(currentLog10Freq)
                && phaseinc == PhaseInc(currentFreq)
                && currentLog10FreqScalex == Scalex(scalexFactor, currentLog10Freq)
      ensures !(0 <= mode <= 2) ==>
                controls == old(controls).(slider := false)
                && sliderLog10Freq == old(sliderLog10Freq) && currentLog10Freq == old(currentLog10Freq)
                && running == old(running) && streamOpen == old(streamOpen) && !raised
      ensures !(0 <= mode <= 2) ==>
                hasPhaseInc == old(hasPhaseInc) && phaseinc == old(phaseinc)
                && currentFreq == old(currentFreq)
                && currentLog10FreqScalex == old(currentLog10FreqScalex)
    {
      raised := false;
      if mode == 0 {
        sliderLog10Freq := LOG10_FINI;
        ScaleMod(LOG10_FINI);
        controls := Controls(true, true, true, true, false);
      } else if mode == 1 {
        sliderLog10Freq := LOG10_FMIN_AUDIO;
        ScaleMod(LOG10_FMIN_AUDIO);
        controls := Controls(false, false, false, false, true);
        raised := Stop(closeFails);
      } else if mode == 2 {
        sliderLog10Freq := LOG10_FMIN_AUDIO;
        ScaleMod(LOG10_FMIN_AUDIO);
        controls := Controls(false, false, false, false, false);
        raised := Stop(closeFails);
      } else {
        controls := controls.(slider := false);
      }
    }

    /** `sweep`: restart the output, switch recording on, step the tone
        through the INTERNAL_SAMPLES_QUANT sweep points, then stop the output
        and switch recording off. The stream calls are taken to succeed; the
        one failure kept is the initial `stop` finding `running` set without
        a stream, which aborts the sweep. `steps` records the state after
        each step. */
    method Sweep() returns (raised: bool, ghost steps: seq<SweepStep>)
      requires Valid()
      modifies this`running, this`streamOpen, this`sliderLog10Freq, this`recordingVar,
               this`recording, this`currentLog10Freq, this`currentLog10FreqScalex,
               this`currentFreq, this`phaseinc, this`hasPhaseInc
      ensures Valid()
      ensures phase == old(phase)
      ensures raised <==> old(running) && !old(streamOpen)
      ensures raised ==> !running && !streamOpen && steps == []
                         && recording == old(recording) && recordingVar == old(recordingVar)
      ensures raised ==> sliderLog10Freq == old(sliderLog10Freq)
                         && currentLog10Freq == old(currentLog10Freq)
                         && currentLog10FreqScalex == old(currentLog10FreqScalex)
                         && currentFreq == old(currentFreq)
                         && phaseinc == old(phaseinc) && hasPhaseInc == old(hasPhaseInc)
      ensures !raised ==> |steps| == INTERNAL_SAMPLES_QUANT
      ensures !raised ==> forall i {:trigger steps[i]} :: 0 <= i < INTERNAL_SAMPLES_QUANT ==>
                steps[i] == SweepStep(SweepPoint(i), PhaseInc(lib.pow10(SweepPoint(i))), true, true, true)
      ensures !raised ==> !running && !streamOpen && !recording && !recordingVar
      ensures !raised ==> currentLog10Freq == SweepPoint(INTERNAL_SAMPLES_QUANT - 1)
                          && sliderLog10Freq == currentLog10Freq
      ensures !raised ==> hasPhaseInc && currentFreq == lib.pow10(currentLog10Freq)
                          && phaseinc == PhaseInc(currentFreq)
                          && currentLog10FreqScalex == Scalex(scalexFactor, currentLog10Freq)
    {
      steps := [];
      raised := Stop(false);
      if raised {
        return;
      }
      SweepStart();
      steps := SweepSteps();
      SweepFinish();
    }

    /** The part of `sweep` before its loop, once the first `stop` has
        returned normally: start the output, tune to 10 Hz and switch
        recording on. */
    method SweepStart()
      requires Valid() && !running && !streamOpen
      modifies this`running, this`streamOpen, this`sliderLog10Freq, this`recordingVar,
               this`recording, this`currentLog10Freq, this`currentLog10FreqScalex,
               this`currentFreq, this`phaseinc, this`hasPhaseInc
      ensures Valid()
      ensures phase == old(phase)
      ensures running && streamOpen && recording && recordingVar
      ensures currentLog10Freq == LOG10_FMIN && sliderLog10Freq == LOG10_FMIN
      ensures hasPhaseInc && currentFreq == lib.pow10(LOG10_FMIN) && phaseinc == PhaseInc(currentFreq)
    {
      var _ := Start(NoFault);
      sliderLog10Freq := LOG10_FMIN;
      ScaleMod(LOG10_FMIN);
      recordingVar := true;
      RecordingVarToggle();
    }

    /** The part of `sweep` after its loop: stop the output and switch
        recording off. */
    method SweepFinish()
      requires Valid() && running && streamOpen
      modifies this`running, this`streamOpen, this`recordingVar, this`recording
      ensures Valid()
      ensures !running && !streamOpen && !recording && !recordingVar
    {
      var _ := Stop(false);
      recordingVar := false;
      RecordingVarToggle();
    }

    /** The loop of `sweep`: for x = 0 .. INTERNAL_SAMPLES_QUANT-1 set the
        slider and retune to `log10fmin_audio + x*flog_quant`. Transport and
        recording flags are left as they are. */
    method SweepSteps() returns (ghost steps: seq<SweepStep>)
      requires Valid()
      modifies this`sliderLog10Freq, this`currentLog10Freq, this`currentLog10FreqScalex,
               this`currentFreq, this`phaseinc, this`hasPhaseInc
      ensures Valid()
      ensures phase == old(phase)
      ensures |steps| == INTERNAL_SAMPLES_QUANT
      ensures forall i {:trigger steps[i]} :: 0 <= i < INTERNAL_SAMPLES_QUANT ==>
                steps[i] == SweepStep(SweepPoint(i), PhaseInc(lib.pow10(SweepPoint(i))),
                                      recording, running, streamOpen)
      ensures currentLog10Freq == SweepPoint(INTERNAL_SAMPLES_QUANT - 1)
              && sliderLog10Freq == currentLog10Freq
      ensures hasPhaseInc && currentFreq == lib.pow10(currentLog10Freq)
              && phaseinc == PhaseInc(currentFreq)
              && currentLog10FreqScalex == Scalex(scalexFactor, currentLog10Freq)
    {
      steps := [];
      var x := 0;
      while x < INTERNAL_SAMPLES_QUANT
        invariant 0 <= x <= INTERNAL_SAMPLES_QUANT
        invariant Valid() && phase == old(phase)
        invariant |steps| == x
        invariant forall i {:trigger steps[i]} :: 0 <= i < x ==>
                    steps[i] == SweepStep(SweepPoint(i), PhaseInc(lib.pow10(SweepPoint(i))),
                                          recording, running, streamOpen)
        invariant x > 0 ==> currentLog10Freq == SweepPoint(x - 1) && sliderLog10Freq == currentLog10Freq
        invariant x > 0 ==> hasPhaseInc
                            && currentLog10FreqScalex == Scalex(scalexFactor, currentLog10Freq)
      {
        var logf := SweepPoint(x);
        SweepPointsInAudibleRange(x);
        sliderLog10Freq := logf;
        ScaleMod(logf);
        steps := steps + [SweepStep(currentLog10Freq, phaseinc, recording, running, streamOpen)];
        x := x + 1;
      }
    }
  }
}
