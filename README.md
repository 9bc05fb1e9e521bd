# SimpleAudioSweeper measurement engine, in Dafny

This project models the measurement engine inside the `SimpleAudioSweeper` class of
`src/sas.py`, a small audio sweep tool. The engine does five things:

- It plays a sine tone whose frequency comes from a log-frequency slider.
- It measures the microphone level over a sliding window of input blocks.
- When recording is on, it stores that level in one of 200 frequency buckets.
- It sweeps the tone across the audible range with recording on.
- It guards the output stream with the `running` flag.

The modules follow the parts of the engine:

| file | module | contents |
|---|---|---|
| `py_math.dfy` | `PyMath` | Python's `round` (half to even) and list indexing, and the facts the model assumes about `sin`, `log10` and `10**x` |
| `frequency_map.dfy` | `FrequencyMap` | the class constants and the three scale maps `scalex`, `scale_freq` and `db2y` |
| `tone_generator.dfy` | `ToneGenerator` | the phase increment and the phase accumulator of the output callback |
| `level_meter.dfy` | `LevelMeter` | the six-block window and the dB level of the input callback |
| `sweep_schedule.dfy` | `SweepSchedule` | the 200 log-frequencies the sweep visits |
| `sweeper.dfy` | `Sweeper` | the class itself, with its fields and the methods that update them |

Python floats are modelled as reals. Each float constant is the decimal that Python
prints for it, for example `log10(40000) = 4.6020599913279625`, so the endpoint
facts hold exactly.

`sin`, `log10` and `10**x` are fields of a `MathLib` value that the class holds.
The model uses only these facts about them:

- `sin` lies in [-1, 1];
- `10**x` is positive and monotone;
- `log10` is monotone on positive numbers;
- `10**log10(40000)` is below the 44100 Hz sample rate.

Several exceptions of the source are modelled as values:

- A Python list index is either a slot or an `IndexError`.
- `phaseinc` and `scale_freq_factor` do not exist until `scale_mod` and `root_configure` first run. A use before then raises `AttributeError`; the model tracks this with the flags `hasPhaseInc` and `hasScaleFreqFactor`.
- Each stream-call exception is an explicit parameter or result.

## Model

| member | source | states |
|---|---|---|
| PyMath.RoundHalfEven | src/sas.py:386-387 | `round` gives an integer within 1/2 of its argument; on a tie it gives the even neighbour; on an integer it gives that integer |
| PyMath.PyIndex | src/sas.py:513 | a list index is valid exactly when -len <= i < len; a negative index counts from the end; a non-negative one is used as is |
| FrequencyMap.ScalexFactor | src/sas.py:327 | the x scale factor times the log span of the slider is the canvas width |
| FrequencyMap.ScalexEndpoints | src/sas.py:326-327 | once configured for a width, `scalex` maps log10(10 Hz) to pixel 0 and log10(40 kHz) to that width |
| FrequencyMap.ScalexMonotone | src/sas.py:383-384 | with a non-negative factor, `scalex` keeps frequencies in order |
| FrequencyMap.ScaleFreqEndpoints | src/sas.py:328 | `scale_freq` maps log10(10 Hz) to bucket 0 and log10(40 kHz) to bucket 200, one past the last slot |
| FrequencyMap.ScaleFreqMonotone | src/sas.py:386-387 | `scale_freq` is monotone non-decreasing |
| FrequencyMap.RoundedScaleMonotone | src/sas.py:386-387 | rounding a log-frequency offset scaled by any non-negative factor keeps frequencies in order |
| FrequencyMap.ScalexInBuckets | src/sas.py:327-328 | the `scalex` pixel is the unrounded bucket position times the width of one bucket, width/200 |
| FrequencyMap.ScaleFreqRange | src/sas.py:386-387 | on the slider range the bucket lies in [0, 200]; it is a valid slot exactly when the unrounded position is below 199.5 |
| FrequencyMap.AudibleBucketsValid | src/sas.py:386-387 | every frequency from 20 Hz to 20 kHz maps to a valid slot strictly inside the store |
| FrequencyMap.BucketPixelAgrees | src/sas.py:370-374 | `draw_spectrum` draws a frequency's bucket within width/400 pixels of where `scalex` puts the frequency itself |
| FrequencyMap.Db2YEndpointsAndOrder | src/sas.py:350-351 | `db2y` maps -90 dB to the bottom edge and 0 dB to the top; on a non-empty canvas a louder level is drawn strictly higher |
| ToneGenerator.PhaseInc | src/sas.py:393-394 | the increment is 2*pi*freq/44100; it is non-negative for non-negative frequencies and below 2*pi for any frequency below the sample rate |
| ToneGenerator.AdvanceStaysInTurn | src/sas.py:421-423 | one accumulator step adds the increment and takes off zero or one turn; it stays in [0, 2*pi) when the phase and the increment start there |
| ToneGenerator.PhaseAfter | src/sas.py:418-423 | after any number of samples the accumulated phase stays in [0, 2*pi) when it starts there with an increment in [0, 2*pi) |
| ToneGenerator.Wraps | src/sas.py:421-423 | the accumulator wraps at most once per sample |
| ToneGenerator.PhaseAfterIsIdealModTurns | src/sas.py:418-423 | the accumulated phase equals the ideal phase `phase + n*inc` less a whole number of turns of 2*pi |
| ToneGenerator.IdealStep | src/sas.py:421-423 | one step from `phase + m*inc - k*2*pi` gives the same form with m+1 samples, and with k+1 turns exactly when it wraps |
| ToneGenerator.PhaseAfterSplits | src/sas.py:407-425 | running m samples, storing the phase, then running n more samples gives the phase of m+n samples in one run; consecutive blocks make one continuous tone |
| LevelMeter.SumSquares | src/sas.py:499 | a sum of squares is never negative |
| LevelMeter.MeanSquare | src/sas.py:499 | the mean power of a block is never negative |
| LevelMeter.Slide | src/sas.py:500-501 | pop-front then append keeps the window length, shifts every entry one place forward and puts the new power last |
| LevelMeter.SlideAll | src/sas.py:500-501 | any number of slides keeps the window length |
| LevelMeter.SlideAllIsSuffix | src/sas.py:500-501 | the window always holds the last six of its starting entries followed by every power slid in |
| LevelMeter.WindowForgetsOlderBlocks | src/sas.py:500-501 | after six or more blocks the window holds exactly the powers of the last six blocks |
| LevelMeter.SumOfConstant | src/sas.py:510 | the sum of n copies of m is n*m |
| LevelMeter.LevelOfSteadyWindow | src/sas.py:510 | a window whose entries all equal m reads `10*log10(m + 1e-12)` dB |
| LevelMeter.SumMonotone | src/sas.py:510 | raising every entry never lowers the sum |
| LevelMeter.SumNonNegative | src/sas.py:510 | a sum of non-negative entries is non-negative |
| LevelMeter.LevelMonotone | src/sas.py:510 | more power in every slot of the window never gives a lower level |
| LevelMeter.LevelForgetsOlderBlocks | src/sas.py:500-510 | two windows that have seen the same last six blocks read the same level |
| SweepSchedule.SweepPointsIncrease | src/sas.py:437-443 | the sweep frequencies strictly increase, each at least one step above the one before |
| SweepSchedule.SweepPointsInAudibleRange | src/sas.py:437-443 | the 200 sweep points lie in [log10 20, log10 20000); the first is 20 Hz and the last is one step short of 20 kHz |
| SweepSchedule.SweepBucketsValid | src/sas.py:443-447 | every sweep point lands on a valid slot; a later point never lands on an earlier slot |
| SweepSchedule.SweepBucketsContiguous | src/sas.py:443-447 | consecutive sweep points land on the same or the next slot, so the slots the sweep writes form one run with no gap |
| Sweeper.SliderPhaseIncInRange | src/sas.py:389-394 | every slider frequency from 10 Hz to 40 kHz gives an increment in [0, 2*pi) |
| Sweeper.WriteSlotIsBucket | src/sas.py:512-514 | the recording write goes to the bucket `scale_freq` names, never a wrapped negative index; its only failing index is 200 (IndexError) |
| Sweeper.RenderBlock | src/sas.py:415-425 | the output loop yields 512 samples; sample i is `sin` of the phase after i steps and lies in [-1, 1]; the returned phase is the phase after 512 steps and stays in [0, 2*pi) |
| Sweeper.SimpleAudioSweeper.constructor | src/sas.py:142-217 | the engine starts with a 442 Hz tone, phase 0, no stream, not recording, six zero window entries, level -24 dB, and a store of 200 slots at -50 dB flagged as modified |
| Sweeper.SimpleAudioSweeper.InitializeInternalDbArray | src/sas.py:307-309 | a fresh store of exactly 200 slots, all -50 dB, with the modified flag set |
| Sweeper.SimpleAudioSweeper.RecordingVarToggle | src/sas.py:259-260 | the recording flag takes the checkbox value, and nothing else changes |
| Sweeper.SimpleAudioSweeper.ScaleMod | src/sas.py:389-394 | sets the frequency to 10**log10freq and the increment to 2*pi*freq/44100, below one turn; the phase is untouched, so the tone stays continuous |
| Sweeper.SimpleAudioSweeper.RootConfigure | src/sas.py:323-347 | takes the canvas size, sets both scale factors, and retunes to the current frequency without moving it or the phase |
| Sweeper.SimpleAudioSweeper.AudioCallback | src/sas.py:403-427 | raises without output before any `scale_mod`; otherwise yields 512 samples of `sin` of the accumulated phase and stores the phase after 512 steps, keeping it in [0, 2*pi) |
| Sweeper.SimpleAudioSweeper.MicCallback | src/sas.py:494-546 | a block with a status changes nothing; otherwise the window slides in the block's mean power and the level is recomputed from it, with a `log10` argument of at least 1e-12, so the logarithm never fails; when recording, exactly the slot of the current frequency takes the level and the flag is set; a failing write leaves the store and flag as they were |
| Sweeper.SimpleAudioSweeper.SpectrumData | src/sas.py:363-374 | builds 400 coordinates: bucket k at x = width*k/200, followed by its level's y pixel |
| Sweeper.SimpleAudioSweeper.DrawSpectrum | src/sas.py:363-381 | draws exactly when the store has changed, producing every bucket's x pixel `width*k/200` and the y pixel of its level; leaves the modified flag cleared |
| Sweeper.SimpleAudioSweeper.Start | src/sas.py:456-470 | does nothing when a stream exists, or when `running` is set without a stream; otherwise sets `running` and opens the stream, which can fail at construction or at start |
| Sweeper.SimpleAudioSweeper.Stop | src/sas.py:472-481 | does nothing unless running; from running it always ends with `running` false and no stream, even when closing raises or there was no stream |
| Sweeper.SimpleAudioSweeper.ModeSet | src/sas.py:223-257 | mode 0 enables the manual controls at 442 Hz; modes 1 and 2 disable them, retune to 20 Hz and stop the output; modes 0-2 leave the increment matching the new frequency; any other mode only disables the slider and leaves the tone and the transport as they were |
| Sweeper.SimpleAudioSweeper.Sweep | src/sas.py:429-454 | aborts on a stream-less `running` state with the tone, slider and recording state unchanged; otherwise visits the 200 sweep points in order with output running and recording on, and ends with output stopped, recording off and the tone at the last sweep point with its matching increment |
| Sweeper.SimpleAudioSweeper.SweepStart | src/sas.py:431-440 | from stopped output: the output runs with a stream, the tone is at 10 Hz with its increment, and recording is on |
| Sweeper.SimpleAudioSweeper.SweepSteps | src/sas.py:442-447 | step x sets the slider and the tone to `log10(20) + x*flog_quant` for x = 0..199, with the matching increment; the transport and recording flags and the phase are untouched, and the tone ends at the last sweep point |
| Sweeper.SimpleAudioSweeper.SweepFinish | src/sas.py:451-454 | from running output: the output is stopped with no stream, and recording is off |

## Left out

- The Tk user interface is not part of this model: widgets, styles, layout, and all canvas drawing. This covers the grid, the dB labels, the cursors, `update_plot` and `draw_db_grid`.
- src/dialogs.py is not part of this model. It only shows and places Tk windows.
- `save` and `on_close` are not part of this model. They grab the screen, write files and exit the process.
- The sounddevice input and output streams are not part of this model. The output stream is reduced to whether it exists; its failures are parameters.
- The model does not capture concurrency. The audio callbacks run on the stream threads; the model treats each callback as one sequential method call on the engine.
- Floating-point rounding, float32 output samples and the exact values of `sin`, `log10`, `10**x` and numpy `mean`/`square` are left out. They are reals and assumed library facts.
- The `float(...)` conversion of the slider's string argument in `scale_mod` is left out; the model receives the number.
- The status print in `audio_callback` and the `unknown mode` print in `mode_set` are left out.
- The copy into the stream's output buffer is left out.
- `record_blocks` is a class-level list that `pop`/`append` change in place, so it is shared by every instance. The model gives each instance its own window, which agrees when there is one instance.
- `dbrange_display` is taken as 90 dB. `__init__` sets it through `dbrange_change` before any spectrum or level drawing (its earlier `db2y` call only places the canvas cursors); the auto-ranging code that would change it is commented out in the source.
- Sweeper.SimpleAudioSweeper.Sweep: `root.update()` and `root.after(100)` inside the loop are left out, so no callback runs between steps. `start` is taken to succeed. The only failure kept is the initial `stop` meeting `running` without a stream, which raises and aborts the sweep.
- Sweeper.SimpleAudioSweeper.MicCallback: requires a non-empty input block. The input stream always delivers 128-frame blocks, and numpy's mean of an empty block is not modelled. The first channel `indata[:, 0]` is passed in as a sequence.
- Sweeper.SimpleAudioSweeper.ScaleMod: requires a log-frequency in [log10 10, log10 40000]. Every caller passes a value in that range: the slider's bounds, the class constants, and the sweep points.
- Sweeper.SimpleAudioSweeper.constructor: requires the math library facts listed above. The slider command that Tk runs after `slider.set` in `__init__` is a separate `ScaleMod` call.
