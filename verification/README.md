# Uncertainty firmware in Dafny

A model of the logic in the firmware for the Uncertainty Eurorack module.
The module has one CV input and eight gate outputs. The model covers:

- **Signal generators** of the I2C follower firmware (`dsp.h`). `Phasor` is a
  32-bit phase accumulator. It either wraps like an oscillator or stops at
  full scale like a one-shot ramp. The generators built on it are `Osc`
  (saw, triangle and pulse shapes), `Env` (attack/decay), `TrigGen`
  (fixed-width pulse) and `SlewedDC` (linear glide).
- **The CircuitPython board helper** (`oam.py`). It is a gate detector with
  hysteresis: rising and falling edges, and gate-on and gate-off levels.
- **The CircuitPython example scripts:**
  - the clipped random walks (`walking.py`);
  - the MIDI clock divider (`midiclock.py`);
  - the MIDI note-to-gate mapping (`midinotes.py`);
  - the MIDI controller-to-PWM mapping (`midicc.py`);
  - the CV-to-controller quantiser that all three MIDI scripts share.
- **The MicroPython scripts:**
  - the binary clock divider and its tempo reading (`clock/boot.py`);
  - the two CV-to-gate selectors: the folded one
    (`software/example/gate-selector/boot.py`) and the offset one
    (`gate-selector/boot.py`).

## How the model is built

Every piece of hardware state is a value:

- An object is an immutable record.
- A method that changes it is a function returning the updated record.
- `Process` returns the new record together with the sample it produced.
- A loop iteration of a script is a step function. Its inputs are the ADC
  reading, the MIDI message (or `None`) and the coin flips.
- The eight outputs are a `seq<bool>` of length 8 (`Common.Gates`). For
  `midicc.py` they are a `seq<int>` of duty cycles (`MidiCc.Duties`).

Where the source language's integers differ from Dafny's, the model writes
out the difference:

- `uint32_t` arithmetic is reduction modulo 2^32 (`Common.ToU32`).
- `int out = phase` is the two's-complement reading of the 32 bits
  (`Common.ToInt32`).
- `>>` on a signed `int` is an arithmetic shift, which rounds toward
  negative infinity (`Common.Asr`).
- Python's `int(a / b)` truncates toward zero (`Common.TruncDiv`). Dafny's
  `/` is Euclidean, so the two differ.
- Python's negative list index counts from the end (`Common.PyIndex`).
- An out-of-range index is the `IndexError` case of `Common.Result`. That
  case carries the outputs as they stood when the error was raised.

The files:

- `common.dfy`: the types and integer helpers above.
- `periodic.dfy`: counting the multiples of a period in a window, for the
  two clock dividers.
- `dsp.dfy`: the signal generators.
- `oam.dfy`: the board helper.
- `walking.dfy`: the random walks.
- `midi.dfy`: MIDI messages.
- `lookup.dfy`: the first-match table write used by `play_note` and
  `output_ctl`.
- `cvcc.dfy`: the CV-to-controller quantiser.
- `midiclock.dfy`, `midinotes.dfy`, `midicc.dfy`: the three MIDI scripts.
- `binaryclock.dfy`: the binary clock.
- `foldedselector.dfy`, `offsetselector.dfy`: the two gate selectors.

## Model

| member | source | states |
|---|---|---|
| Common.TruncDiv | software/micropython/clock/boot.py:23 | Python's `int(a / b)`: the quotient's magnitude is the number of whole divisors in `abs(a)`, and it has the sign of `a` (truncation toward zero) |
| Common.TruncDivBand | software/example/gate-selector/boot.py:16 | the truncated quotient's magnitude is `k` exactly when `abs(a)` lies in `[k*b, (k+1)*b)`, both directions |
| Common.ToInt32 | unfinished/uncertainty_i2cfollower/dsp.h:40 | assigning a `uint32_t` to `int` keeps the value modulo 2^32, and the result is negative exactly when bit 31 is set |
| Common.ToU32 | unfinished/uncertainty_i2cfollower/dsp.h:27 | storing an `int` into a `uint32_t` keeps values in range, adds 2^32 to a negative one, and subtracts 2^32 from a sum of two `uint32_t` values that carries past 32 bits |
| Common.Asr | unfinished/uncertainty_i2cfollower/dsp.h:49 | a signed right shift by `n` is the floor of division by 2^n |
| Common.PyIndex | gate-selector/boot.py:18 | a Python index into a list of length `n` is valid exactly for `-n <= i < n`, and a negative one addresses position `i + n` |
| Dsp.SampleDeltaValue | unfinished/uncertainty_i2cfollower/dsp.h:1-4 | the 1 Hz phase increment is `SINDEX_MAX / SAMPLE_RATE` rounded down, that is 53687 |
| Dsp.Level | unfinished/uncertainty_i2cfollower/dsp.h:49 | `out >> 24` lies in -128..127 for any phase and in 0..127 for an in-range one; it is 127 at full scale and 0 below 2^24 |
| Dsp.Reset | unfinished/uncertainty_i2cfollower/dsp.h:20-22 | a reset keeps the increment and the mode, and the next sample is 0 |
| Dsp.Running | unfinished/uncertainty_i2cfollower/dsp.h:23-25 | a phasor with zero increment keeps a phase below full scale; a running one-shot ramp short of its end moves strictly forward |
| Dsp.IsAtEnd | unfinished/uncertainty_i2cfollower/dsp.h:36-38 | an in-range one-shot ramp is at its end exactly at full scale, and there it holds still with level 127 |
| Dsp.SetFreq | unfinished/uncertainty_i2cfollower/dsp.h:26-28 | the increment is `SAMPLE_DELTA * freq` as a `uint32_t` (a negative frequency wraps to a huge increment); a non-negative frequency gives an in-range increment; the phasor runs exactly when `freq != 0` |
| Dsp.SetDuration | unfinished/uncertainty_i2cfollower/dsp.h:29-35 | for `ms < 1` the increment is 0; otherwise it is the largest `d` with `d * ms <= SAMPLE_DELTA * 1000`; the phasor runs exactly for `1 <= ms <= 53687000` |
| Dsp.DurationDelta | unfinished/uncertainty_i2cfollower/dsp.h:33 | the quotient `SAMPLE_DELTA * 1000 / ms` is a floor quotient, and it is positive exactly when `ms` is at most the dividend |
| Dsp.Advance | unfinished/uncertainty_i2cfollower/dsp.h:41-47 | the phase advance keeps the increment and the mode, and a one-shot phasor never passes full scale |
| Dsp.Process | unfinished/uncertainty_i2cfollower/dsp.h:39-50 | the output is the level of the phase before it advances, in 0..127 for an in-range phase; increment and mode are unchanged; a one-shot phasor never passes full scale |
| Dsp.SaturatingStep | unfinished/uncertainty_i2cfollower/dsp.h:41-47 | for an increment of at most `SINDEX_MAX`, as every `SetDuration` gives, a one-shot phasor moves to `min(phase + delta, SINDEX_MAX)` and never moves back |
| Dsp.SaturatingRun | unfinished/uncertainty_i2cfollower/dsp.h:41-47 | for an increment of at most `SINDEX_MAX`, after `n` samples a one-shot phasor is at `min(phase + n * delta, SINDEX_MAX)` and still in range |
| Dsp.AtEndStays | unfinished/uncertainty_i2cfollower/dsp.h:36-49 | for an increment of at most `SINDEX_MAX`, once a one-shot phasor is at its end it stays there, and every later sample is 127 |
| Dsp.NegativeFreqMovesBack | unfinished/uncertainty_i2cfollower/dsp.h:26-47 | after `SetFreq(-1)` a one-shot phasor at 100000 has increment 2^32 - 53687, and the 32-bit add moves it back to 46313 |
| Dsp.WrapStep | unfinished/uncertainty_i2cfollower/dsp.h:41-45 | a wrapping phasor with an increment up to full scale moves to `(phase + delta) mod SINDEX_MAX`, so it stays below `SINDEX_MAX` |
| Dsp.WrapOvershoot | unfinished/uncertainty_i2cfollower/dsp.h:40-49 | with a larger increment one wrap can leave the phase at 2^31, and the next sample is then -128 |
| Dsp.StoppedKeepsPhase | unfinished/uncertainty_i2cfollower/dsp.h:39-48 | a phasor with zero increment keeps its phase (unless a wrapping one sits exactly at full scale) |
| Dsp.Ramp | unfinished/uncertainty_i2cfollower/dsp.h:68 | `out >> 23` of an in-range phase lies in 0..255 |
| Dsp.Shape | unfinished/uncertainty_i2cfollower/dsp.h:69-80 | shape 2 gives 127 exactly when the ramp is below `width` and 0 otherwise; shape 1 gives `abs(ramp - 128)`, in 0..128; shape 0 halves the ramp, rounding down, into 0..127; any other shape passes the ramp through |
| Dsp.OscProcess | unfinished/uncertainty_i2cfollower/dsp.h:58-82 | the wrapping loop leaves the phase at the 32-bit advanced phase modulo `SINDEX_MAX`, below full scale for ANY increment; a one-shot oscillator moves like a phasor; the output is the shape of the pre-advance ramp |
| Dsp.EnvReset | unfinished/uncertainty_i2cfollower/dsp.h:95-97 | both ramps restart at phase 0, and the next envelope sample is 0 |
| Dsp.EnvProcess | unfinished/uncertainty_i2cfollower/dsp.h:98-107 | the attack ramp's level until the attack is at its end, and only the attack advances; after that `127` minus the decay ramp's level, and only the decay advances; the output is in 0..127 for any state, and two in-range one-shot ramps stay so |
| Dsp.EnvTiming | unfinished/uncertainty_i2cfollower/dsp.h:89-94 | the constructor's 5 ms attack is at its end on sample 201 and not on sample 200; the 150 ms decay on sample 6001 and not on 6000 |
| Dsp.TrigReset | unfinished/uncertainty_i2cfollower/dsp.h:120 | after `Reset` the next sample is `amp` if the width is positive |
| Dsp.TrigProcess | unfinished/uncertainty_i2cfollower/dsp.h:121-124 | each sample counts one more sample since firing and outputs `amp` or 0 |
| Dsp.TrigRunShape | unfinished/uncertainty_i2cfollower/dsp.h:121-124 | the `k`-th of the next samples is `amp` exactly while the count is below `width` |
| Dsp.PulseAfterReset | unfinished/uncertainty_i2cfollower/dsp.h:120-124 | after `Reset` exactly the first `width` samples are `amp` and every later one is 0 |
| Dsp.NewSlewedDCStopped | unfinished/uncertainty_i2cfollower/dsp.h:133-150 | a new slewed DC has a stopped ramp: it outputs 0 and stays as it is, and after `Set(x)` with no `SetSlew` it outputs `x` at once |
| Dsp.SlewSet | unfinished/uncertainty_i2cfollower/dsp.h:139-143 | a new glide starts from the last output toward `x`, with the ramp restarted |
| Dsp.SetSlew | unfinished/uncertainty_i2cfollower/dsp.h:144-146 | the glide time sets the ramp's increment as `SetDuration` does, and nothing else changes |
| Dsp.Interpolate | unfinished/uncertainty_i2cfollower/dsp.h:149 | the glide is the endpoints' weighted sum over 128, rounded down and possibly one lower still: `128 * v` lies within 256 below the weighted sum |
| Dsp.InterpolateBounds | unfinished/uncertainty_i2cfollower/dsp.h:149 | for non-negative levels the interpolation is non-negative and does not exceed both endpoints |
| Dsp.InterpolateFits | unfinished/uncertainty_i2cfollower/dsp.h:149 | if the two products fit in `int`, so does the interpolated value |
| Dsp.SlewProcess | unfinished/uncertainty_i2cfollower/dsp.h:147-151 | a stopped ramp outputs the target; a running one outputs the interpolation at the pre-advance level, which for non-negative levels and an in-range phase is non-negative and does not overshoot both endpoints; the output is remembered as the last value |
| Dsp.SlewStartsFromLast | unfinished/uncertainty_i2cfollower/dsp.h:139-149 | right after `Set`, a running glide outputs the previous 7-bit output scaled by 127/128, one below it |
| Dsp.SlewSettlesBelowTarget | unfinished/uncertainty_i2cfollower/dsp.h:147-150 | a finished glide to a 7-bit target `to` settles on `to - 1`, not on `to` |
| Oam.Init | software/circuitpython/lib/oam.py:25 | the detector starts with the gate low |
| Oam.IsRisingEdge | software/circuitpython/lib/oam.py:27-32 | fires exactly when the sample is above 50000 and the gate is low; then the gate is high; otherwise nothing changes |
| Oam.IsFallingEdge | software/circuitpython/lib/oam.py:34-39 | fires exactly when the sample is below 40000 and the gate is high; then the gate is low; otherwise nothing changes |
| Oam.IsGateOn | software/circuitpython/lib/oam.py:41-46 | reports on exactly above the LOW threshold, whatever the stored gate; then the gate is high |
| Oam.IsGateOff | software/circuitpython/lib/oam.py:48-53 | reports off exactly below the low threshold; then the gate is low |
| Oam.LevelsComplement | software/circuitpython/lib/oam.py:41-53 | the two level queries never both answer yes, and at least one does except for the sample 40000, which reads as neither |
| Oam.GateOnThenEdges | software/circuitpython/lib/oam.py:27-46 | after a gate-on answer no rising edge fires on the next query, and a falling edge fires exactly for a sample below 40000 |
| Oam.GateOffThenEdges | software/circuitpython/lib/oam.py:27-53 | after a gate-off answer no falling edge fires on the next query, and a rising edge fires exactly for a sample above 50000 |
| Oam.GateOnHidesRisingEdge | software/circuitpython/lib/oam.py:27-46 | a sample in (40000, 50000] answers on without a rising edge, and the stored gate then keeps any later rising edge from being reported |
| Oam.LightsOut | software/circuitpython/lib/oam.py:55-57 | all eight outputs low, the detector's memory untouched |
| Oam.RisingFiresOnce | software/circuitpython/lib/oam.py:27-32 | two rising-edge queries in a row never both fire, whatever the samples |
| Oam.FallingFiresOnce | software/circuitpython/lib/oam.py:34-39 | two falling-edge queries in a row never both fire |
| Oam.Hysteresis | software/circuitpython/lib/oam.py:23-39 | a sample in [40000, 50000] fires neither edge query and changes nothing |
| Oam.EdgesAlternate | software/circuitpython/lib/oam.py:25-39 | under any sequence of edge queries the reported edges strictly alternate, starting opposite to the stored gate, and the gate ends high exactly after a rising edge |
| Oam.EdgesAlternateFromInit | software/circuitpython/lib/oam.py:25-39 | from power-up the even-numbered edges are the rising ones |
| Oam.HysteresisScenario | software/circuitpython/lib/oam.py:23-39 | samples 0, 55000, 45000, 35000 report one rising edge and then one falling edge |
| Walking.NewWalk | software/circuitpython/examples/walking.py:8-11 | a new walk is at position 0, in range when its range is non-negative |
| Walking.Step | software/circuitpython/examples/walking.py:13-26 | an up flip below the top and a down flip above 0 move by one; at a boundary the walk stays; the step returns the new position except for an up flip at the top outside clip mode, which returns nothing; a walk in range stays in range |
| Walking.StaysInRange | software/circuitpython/examples/walking.py:13-26 | any sequence of coin flips keeps a walk within `[0, range]` |
| Walking.ClipScenario | software/circuitpython/examples/walking.py:13-26 | a range-4 walk flipped up five times returns 1, 2, 3, 4, 4 |
| Walking.InitialWalks | software/circuitpython/examples/walking.py:28-32 | the eight walks have ranges 2, 4, 7, 11, 15, 31, 63, 127, clip mode and position 0 |
| Walking.Tick | software/circuitpython/examples/walking.py:36-40 | the walks step, each with its own coin, exactly on a rising edge, and then every returned value is a position within its walk's range; otherwise nothing moves |
| Walking.WalksStayInRange | software/circuitpython/examples/walking.py:28-40 | from power-up, every walk stays within its table range under any samples and coins |
| Lookup.SetFirst | software/circuitpython/examples/midinotes.py:42-46 | the value is written at the first position of the key and nowhere else; an absent key writes nothing |
| CvToCc.Clamp | software/circuitpython/examples/midiclock.py:72-73 | the reading is held inside `[5900, 64300]` and unchanged when already inside |
| CvToCc.CcValue | software/circuitpython/examples/midiclock.py:72-76 | a 7-bit value: 0 at or below 5900, 127 at or above 64300, and in between the floor of `(cv - 5900) * 127 / 58400` |
| CvToCc.CcValueMonotone | software/circuitpython/examples/midiclock.py:72-76 | a higher CV never gives a lower controller value |
| CvToCc.CcValueOnto | software/circuitpython/examples/midiclock.py:72-76 | every value 0..127 is produced by some CV inside the usable span |
| CvToCc.Track | software/circuitpython/examples/midiclock.py:70-84 | nothing happens unless the CV moved by more than 256; then the reading and the value are remembered, and Control Change 1 is sent exactly when the value differs from the last one |
| CvToCc.NoRepeatedSends | software/circuitpython/examples/midiclock.py:70-84 | over any readings the same value is never sent twice in a row, the first value sent differs from the remembered one, and the remembered value is the last one sent |
| MidiClock.OnMessage | software/circuitpython/examples/midiclock.py:44-59 | the clock count stays below 384 |
| MidiClock.OnMessageSpec | software/circuitpython/examples/midiclock.py:44-65 | gates 0 and 2 are one-iteration pulses for Start and Clock; a Clock sets gates 3 to 7 from the pre-increment count and wraps the count at 384; Start raises gates 0 and 1; Stop clears all gates and keeps the count; any other message only ends the pulses |
| MidiClock.GatesNest | software/circuitpython/examples/midiclock.py:52-56 | on a clock, gate 7 implies gate 6, which implies gate 5, then gate 4, then gate 3 |
| MidiClock.Period | software/circuitpython/examples/midiclock.py:52-59 | each divided gate's period divides the 384-clock loop |
| MidiClock.ClockGate | software/circuitpython/examples/midiclock.py:52-56 | on a clock, divided gate `g` goes high exactly when the count is a multiple of its period |
| MidiClock.ClocksTicks | software/circuitpython/examples/midiclock.py:57-59 | after `n` clocks the count is the old count plus `n`, modulo 384 |
| MidiClock.FiresStep | software/circuitpython/examples/midiclock.py:52-59 | the `n`-th clock of a run sets gate `g` exactly when the unwrapped count is a multiple of the period |
| MidiClock.FiresCount | software/circuitpython/examples/midiclock.py:52-59 | the number of clocks among the next `n` that set gate `g` is the number of multiples of its period in the window of counts |
| MidiClock.FiresPerLoop | software/circuitpython/examples/midiclock.py:52-59 | over any 384 consecutive clocks, gate 7 fires exactly once, gate 6 four times, and gate `g` 384/period times |
| MidiClock.RunTicks | software/circuitpython/examples/midiclock.py:57-65 | under any messages, Start and Stop included, the count is the number of clocks received, modulo 384 |
| MidiClock.FirstClock | software/circuitpython/examples/midiclock.py:37-59 | from power-up the first Timing Clock raises the clock pulse and all five divided gates and moves the count to 1 |
| MidiClock.Iterate | software/circuitpython/examples/midiclock.py:42-84 | the gates depend only on the message and the controller only on the CV; the count stays below 384 |
| MidiNotes.NoteGate | software/circuitpython/examples/midinotes.py:1 | a note has a gate exactly when it is in the table, and the gate is its table position |
| MidiNotes.NoteGateIsFirst | software/circuitpython/examples/midinotes.py:42-46 | a note's gate is the first table position holding that note, both directions |
| MidiNotes.PlayNote | software/circuitpython/examples/midinotes.py:42-46 | the note's gate takes the new state and no other gate changes; a note outside the table changes nothing |
| MidiNotes.OnMessage | software/circuitpython/examples/midinotes.py:52-59 | Note On for notes 60..67 sets gate `note - 60` to `velocity > 0`; Note Off clears it; every other message leaves the gates unchanged |
| MidiNotes.VelocityZeroIsNoteOff | software/circuitpython/examples/midinotes.py:53-59 | Note On with velocity 0 does what Note Off does, whatever the Note Off's velocity |
| MidiNotes.OneGatePerMessage | software/circuitpython/examples/midinotes.py:52-59 | a message changes no gate other than the one of its note |
| MidiNotes.FirstNote | software/circuitpython/examples/midinotes.py:17-59 | from power-up a Note On for a table note with positive velocity leaves exactly that note's gate high |
| MidiNotes.Iterate | software/circuitpython/examples/midinotes.py:48-77 | the loop body's gates are those the message prescribes, and the controller part is the shared quantiser |
| MidiCc.Duty | software/circuitpython/examples/midicc.py:41 | the duty cycle of a 7-bit value is a multiple of 512 in [0, 65024], inside 16 bits; dividing by 512 gives the value back; it is 0 exactly for value 0 |
| MidiCc.DutyIncreasing | software/circuitpython/examples/midicc.py:41 | the scaling is strictly increasing, both directions |
| MidiCc.CtlGate | software/circuitpython/examples/midicc.py:1 | a controller number has an output exactly when it is in the table, and the output is its position |
| MidiCc.CtlGateIsFirst | software/circuitpython/examples/midicc.py:38-42 | a controller's output is the first table position holding that number, both directions |
| MidiCc.OutputCtl | software/circuitpython/examples/midicc.py:38-42 | only the controller's output takes the scaled value; a number outside the table changes nothing |
| MidiCc.OnMessage | software/circuitpython/examples/midicc.py:46-50 | Control Change `c` in 0..7 sets output `c` to the scaled value; every other message changes nothing; duty cycles stay within 16 bits |
| MidiCc.DutyRoundTrip | software/circuitpython/examples/midicc.py:41 | after a Control Change the output's duty cycle divided by 512 is the value sent |
| MidiCc.FirstControl | software/circuitpython/examples/midicc.py:15-50 | from power-up a Control Change for controller 0..7 leaves that output at `value * 512` and every other output at duty cycle 0 |
| MidiCc.Iterate | software/circuitpython/examples/midicc.py:44-64 | the loop body's duty cycles are those the message prescribes, and the controller part is the shared quantiser |
| BinaryClock.Outputs | software/micropython/clock/boot.py:19-21 | output `num` is high exactly when the counter is a multiple of `2^(num+1)` |
| BinaryClock.OutputsNest | software/micropython/clock/boot.py:19-21 | if output `num` is high, every lower output is high too |
| BinaryClock.Bpm | software/micropython/clock/boot.py:23 | the tempo is the number of whole steps of 100 between the reading and mid-scale, in 0..327 |
| BinaryClock.BpmZeroIff | software/micropython/clock/boot.py:23-24 | the tempo is 0, so `60 / bpm` divides by zero, exactly for readings 32669..32867 |
| BinaryClock.DividesByZero | software/micropython/clock/boot.py:23-24 | the sleep length `60 / bpm` divides by zero exactly for readings 32669..32867 |
| BinaryClock.Step | software/micropython/clock/boot.py:15-24 | each iteration increments the counter by one and then sets the outputs from the new value; its tempo is 0, so the sleep divides by zero, exactly when `DividesByZero` holds for the reading |
| BinaryClock.HighsCount | software/micropython/clock/boot.py:17-21 | how often output `num` is high over `n` iterations is the number of multiples of `2^(num+1)` among the counts |
| BinaryClock.OncePerPeriod | software/micropython/clock/boot.py:17-21 | over any `2^(num+1)` consecutive iterations output `num` is high exactly once |
| BinaryClock.TimesPerWindows | software/micropython/clock/boot.py:17-21 | over any `m * 2^(num+1)` consecutive iterations output `num` is high exactly `m` times |
| BinaryClock.FirstIteration | software/micropython/clock/boot.py:13-21 | from power-up the first iteration has counter 1 and every output low |
| FoldedSelector.ActiveGate | software/example/gate-selector/boot.py:16 | the selected index is the number of whole steps of 4096 between the reading and mid-scale, in 0..8 |
| FoldedSelector.PastTheEndIff | software/example/gate-selector/boot.py:16 | only the reading 0 selects index 8, one past the last output |
| FoldedSelector.Symmetric | software/example/gate-selector/boot.py:16 | readings equally far above and below mid-scale select the same output |
| FoldedSelector.MidScaleIff | software/example/gate-selector/boot.py:16 | output 0 is selected exactly for readings 28673..36863 |
| FoldedSelector.Iterate | software/example/gate-selector/boot.py:16-22 | for any non-zero reading exactly the selected output ends high; the reading 0 raises IndexError with every output already driven low |
| OffsetSelector.ActiveGate | gate-selector/boot.py:16 | the index lies in -8..7, in the 4096-wide band of the reading, and is negative exactly for the lower half of the range |
| OffsetSelector.BandIff | gate-selector/boot.py:16 | index `k` is selected exactly by the readings `32768 + 4096k` to `32768 + 4096k + 4095` |
| OffsetSelector.Monotone | gate-selector/boot.py:16 | a higher reading never selects a lower index |
| OffsetSelector.Iterate | gate-selector/boot.py:16-22 | the first write raises output `ag`, or output `ag + 8` for a negative index; afterwards exactly output `ag` is high for a non-negative index and every output is low for a negative one; no output other than `ag` ever ends high |

## Left out

- Hardware I/O. This covers the ADC reads, pin and PWM setup, and USB MIDI
  receive and send. Readings, messages and coin flips are parameters, and
  outputs are returned values.
- The `time.sleep` calls and the `60 / bpm` sleep length are timing and
  floating point. Only the division by zero is modelled
  (`BinaryClock.DividesByZero`).
- The PWM scaling of a walk position, `int(pos * (65535 / range))`
  (software/circuitpython/examples/walking.py:40), is floating point.
  `Walking.Tick` returns the position handed to it.
- `walking.py` builds its helper as `Uncertainty('pwm')`, which does not
  match the zero-argument constructor. Only the detector state is modelled,
  not that call.
- The `Uncertainty` constructor opens the hardware. `Oam.Init` models only
  its gate and threshold state.
- `software/circuitpython/examples/uncertainty.py` only sets up hardware,
  so it has no logic to model.
- `software/c++/unfinished/eye/boot.py` is floating-point animation driven
  by a clock. It is not part of this model.
- The `TrigGen` constructor reads `width` before assigning it
  (unfinished/uncertainty_i2cfollower/dsp.h:116). That read is undefined
  behaviour, so a trigger generator is modelled from an explicit state or
  from after `Reset`.
- The `Phasor(int)` constructor leaves `reset` unset, which is undefined
  behaviour. `Osc`'s constructor is commented out. Neither is modelled;
  phasors start from an explicit state.
- `MS_DELTA` is defined but never used.
- Each MIDI script reads `cv_in.value` several times per iteration. The
  model reads it once per iteration.
- `ctl_val is not last_cc_val` compares object identity. It is modelled as
  `!=`, which is what it computes for small integers.
- CvToCc.CcValue: the scaling is float division truncated by `int()`. The
  model uses integer floor division. The numerator is never negative, so
  both round down, but the model claims nothing about float rounding.
- Dsp.SetFreq: requires `-40000 <= freq <= 40000`. Outside that range
  `SAMPLE_DELTA * freq` overflows `int`, which is undefined behaviour in C.
- Dsp.TrigProcess: requires the sample count below `INT_MAX`. Incrementing
  past it overflows `int`.
- Dsp.SlewProcess: requires that, while the ramp runs, both interpolation
  products fit in `int`.
- Dsp.SaturatingStep: requires an increment of at most `SINDEX_MAX`. A
  negative `SetFreq` stores an increment above 2^31, and then
  `phase += delta` wraps past 2^32 and the one-shot phase moves back
  (`Dsp.NegativeFreqMovesBack`: 100000 becomes 46313 after `SetFreq(-1)`). Every one-shot ramp the source
  builds gets its increment from `SetDuration`, at most 53687000.
- Dsp.SaturatingRun: requires an increment of at most `SINDEX_MAX`, for the
  reason given for `Dsp.SaturatingStep`.
- Dsp.AtEndStays: requires an increment of at most `SINDEX_MAX`, for the
  reason given for `Dsp.SaturatingStep`.
- Dsp.WrapStep: requires an increment of at most `SINDEX_MAX`. For larger
  increments, `Dsp.WrapOvershoot` shows what goes wrong instead.
- Dsp.SlewStartsFromLast: stated only for previous outputs 0..128, the
  7-bit range the generators produce.
