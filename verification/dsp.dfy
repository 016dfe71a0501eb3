/** The integer signal generators of the I2C follower firmware: a 32-bit
    phase accumulator and the oscillator, envelope, trigger and slew
    generators built on it. Every object is an immutable record; each C++
    member function that changes the object returns the updated record, and
    `Process` returns the new record together with the sample it produced. */
module Dsp {
  import opened Common

  const SampleRate := 40000
  /** Full scale of a phase: the largest positive `int`. */
  const SindexMax := 0x7FFF_FFFF
  /** Phase increment per sample for a 1 Hz ramp: `SindexMax / SampleRate`
      rounded down (see `SampleDeltaValue`). */
  const SampleDelta := 53687

  lemma SampleDeltaValue()
    ensures SampleDelta == SindexMax / SampleRate
  {
    ModUnique(SindexMax, SampleRate, 53687, SindexMax - 53687 * SampleRate);
  }

  /** A phase accumulator. With `reset` set it wraps around like an
      oscillator; without it, it stops at `SindexMax` like a one-shot ramp. */
  datatype Phasor = Phasor(phase: U32, delta: U32, reset: bool)

  /** The state of a generator after one sample, and the sample it produced. */
  datatype Sample<S> = Sample(state: S, out: int)

  /** The default constructor: phase and increment zero, wrapping. */
  const DefaultPhasor := Phasor(0, 0, true)

  function Min(a: int, b: int): (m: int)
    ensures m <= a && m <= b && (m == a || m == b)
  {
    if a < b then a else b
  }

  /** The 7-bit level of a phase, `phase >> 24` read as a signed `int`:
      negative for a phase past full scale. */
  function Level(phase: U32): (v: int)
    ensures -128 <= v <= 127
    ensures phase <= SindexMax ==> 0 <= v <= 127
    ensures phase == SindexMax ==> v == 127
    ensures phase < 0x100_0000 ==> v == 0
  {
    Pow2Values();
    Asr(ToInt32(phase), 24)
  }

  /** `phase <= SindexMax` and an increment below full scale: the condition
      under which the accumulator neither overflows 32 bits nor leaves its range. */
  predicate Sane(p: Phasor) {
    p.phase <= SindexMax && p.delta <= SindexMax
  }

  function Reset(p: Phasor): (r: Phasor)
    ensures r.phase == 0 && r.delta == p.delta && r.reset == p.reset
    ensures Process(r).out == 0
  {
    p.(phase := 0)
  }

  /** A phasor runs when its increment is non-zero. A stopped one keeps its
      phase below full scale; a running one-shot ramp short of its end moves
      strictly forward. */
  function Running(p: Phasor): (r: bool)
    ensures !r && p.phase < SindexMax ==> Advance(p) == p
    ensures r && !p.reset && Sane(p) && !IsAtEnd(p) ==> p.phase < Advance(p).phase
  {
    p.delta > 0
  }

  /** A phasor is at its end at full scale or beyond. A one-shot ramp within
      range is at its end exactly at full scale, and there it holds still
      and its level is 127. */
  function IsAtEnd(p: Phasor): (r: bool)
    ensures !p.reset && p.phase <= SindexMax ==> (r <==> p.phase == SindexMax)
    ensures r && !p.reset && Sane(p) ==> Advance(p) == p && Level(p.phase) == 127
  {
    p.phase >= SindexMax
  }

  /** `SetFreq`: the increment is `SampleDelta * freq` computed in `int` and
      stored as `uint32_t`; the multiplication overflows `int` beyond 40000 Hz
      in either direction, so the frequency must stay within that. */
  function SetFreq(p: Phasor, freq: Int32): (r: Phasor)
    requires -40000 <= freq <= 40000
    ensures r.phase == p.phase && r.reset == p.reset
    ensures freq >= 0 ==> r.delta == SampleDelta * freq && Sane(r.(phase := 0))
    ensures freq < 0 ==> r.delta == 0x1_0000_0000 + SampleDelta * freq
    ensures Running(r) <==> freq != 0
  {
    p.(delta := ToU32(SampleDelta * freq))
  }

  /** `SetDuration`: the increment that takes a ramp from 0 to full scale in
      `ms` milliseconds, rounded down; zero (a stopped phasor) for `ms < 1`. */
  function SetDuration(p: Phasor, ms: Int32): (r: Phasor)
    ensures r.phase == p.phase && r.reset == p.reset
    ensures ms < 1 ==> r.delta == 0
    ensures ms >= 1 ==> r.delta * ms <= SampleDelta * 1000 < (r.delta + 1) * ms
    ensures r.delta <= SampleDelta * 1000
    ensures Running(r) <==> 1 <= ms <= SampleDelta * 1000
  {
    if ms < 1 then p.(delta := 0)
    else DurationDelta(ms); p.(delta := (SampleDelta * 1000) / ms)
  }

  lemma DurationDelta(ms: int)
    requires ms >= 1
    ensures var q := (SampleDelta * 1000) / ms;
            q * ms <= SampleDelta * 1000 < (q + 1) * ms &&
            0 <= q <= SampleDelta * 1000 && (q > 0 <==> ms <= SampleDelta * 1000)
  {
    var a := SampleDelta * 1000;
    var q, r := a / ms, a % ms;
    assert a == q * ms + r;
    MulSign(q, ms);
    assert q * ms == q * (ms - 1) + q;
    if q >= 0 {
      assert q * (ms - 1) >= 0;
    }
  }

  /** The phase advance of one sample: by `delta` modulo 2^32, then wrapped
      back by `SindexMax` or held at `SindexMax` once it reaches full scale. */
  function Advance(p: Phasor): (r: Phasor)
    ensures r.delta == p.delta && r.reset == p.reset
    ensures !p.reset ==> r.phase <= SindexMax
  {
    var advanced := ToU32(p.phase + p.delta);
    var phase := if advanced < SindexMax then advanced
                 else if p.reset then advanced - SindexMax
                 else SindexMax;
    p.(phase := phase)
  }

  /** One sample: the output is the level of the phase BEFORE it advances. */
  function Process(p: Phasor): (r: Sample<Phasor>)
    ensures r.out == Level(p.phase)
    ensures r.state == Advance(p)
    ensures r.state.delta == p.delta && r.state.reset == p.reset
    ensures p.phase <= SindexMax ==> 0 <= r.out <= 127
    ensures !p.reset ==> r.state.phase <= SindexMax
  {
    Sample(Advance(p), Level(p.phase))
  }

  /** The phasor after `n` samples. */
  function After(p: Phasor, n: nat): Phasor {
    if n == 0 then p else Advance(After(p, n - 1))
  }

  /** The outputs of the next `n` samples. */
  function Outputs(p: Phasor, n: nat): (outs: seq<int>)
    ensures |outs| == n
    decreases n
  {
    if n == 0 then [] else [Process(p).out] + Outputs(Process(p).state, n - 1)
  }

  /** A one-shot ramp advances by `delta` until it reaches full scale, where
      it stops; it never moves backwards. */
  lemma SaturatingStep(p: Phasor)
    requires !p.reset && Sane(p)
    ensures Advance(p).phase == Min(p.phase + p.delta, SindexMax)
    ensures p.phase <= Advance(p).phase
  {
  }

  /** After `n` samples a one-shot ramp stands at `min(phase + n * delta, SindexMax)`. */
  lemma {:induction false} SaturatingRun(p: Phasor, n: nat)
    requires !p.reset && Sane(p)
    ensures After(p, n).phase == Min(p.phase + n * p.delta, SindexMax)
    ensures Sane(After(p, n)) && !After(p, n).reset && After(p, n).delta == p.delta
  {
    if n > 0 {
      SaturatingRun(p, n - 1);
      SaturatingStep(After(p, n - 1));
      MinStep(p.phase, p.delta, n, SindexMax);
    }
  }

  /** One more saturating step of `d` after `n - 1` of them. */
  lemma MinStep(a: int, d: int, n: nat, m: int)
    requires d >= 0 && n >= 1
    ensures Min(Min(a + (n - 1) * d, m) + d, m) == Min(a + n * d, m)
  {
    assert n * d == (n - 1) * d + d;
  }

  /** Once a one-shot ramp is at its end it stays there and keeps producing 127. */
  lemma {:induction false} AtEndStays(p: Phasor, n: nat)
    requires !p.reset && Sane(p) && IsAtEnd(p)
    ensures After(p, n) == p
    ensures forall k :: 0 <= k < n ==> Outputs(p, n)[k] == 127
  {
    assert Advance(p) == p;
    if n > 0 {
      AtEndStays(p, n - 1);
      assert After(p, n) == Advance(After(p, n - 1));
      assert Outputs(p, n) == [127] + Outputs(p, n - 1);
    }
  }

  /** Without the bound on `delta` a one-shot ramp can move back: a negative
      frequency stores an increment above 2^31, and the 32-bit add then
      carries out of the phase. */
  lemma NegativeFreqMovesBack()
    ensures var p := SetFreq(Phasor(100000, 0, false), -1);
            p.delta == 0x1_0000_0000 - SampleDelta && Advance(p).phase == 46313
  {
  }

  /** A wrapping phasor with an increment below full scale computes
      `(phase + delta) mod SindexMax` and stays below `SindexMax`. */
  lemma WrapStep(p: Phasor)
    requires p.reset && Sane(p) && p.phase < SindexMax
    ensures Process(p).state.phase == (p.phase + p.delta) % SindexMax
    ensures Process(p).state.phase < SindexMax
  {
    var s := p.phase + p.delta;
    if s < SindexMax {
      ModUnique(s, SindexMax, 0, s);
    } else {
      ModUnique(s, SindexMax, 1, s - SindexMax);
    }
  }

  /** Without the bound on `delta` a single wrap can leave the phase one past
      `SindexMax`, and the next sample's level is then negative. */
  lemma WrapOvershoot()
    ensures var p := Process(Phasor(0x7FFF_FFFE, 0x8000_0001, true)).state;
            p.phase == 0x8000_0000 && Process(p).out == -128
  {
    Pow2Values();
  }

  /** A stopped phasor (no increment) keeps its phase, unless a wrapping one
      sits exactly at full scale. */
  lemma StoppedKeepsPhase(p: Phasor)
    requires !Running(p) && p.phase <= SindexMax
    requires p.phase < SindexMax || !p.reset
    ensures Process(p).state == p
  {
  }

  // ---------------------------------------------------------------- Osc

  /** An oscillator: a phasor plus an output shape (0 saw, 1 triangle,
      2 pulse; any other value passes the 8-bit ramp through) and a pulse width. */
  datatype Osc = Osc(phasor: Phasor, shape: int, width: int)

  /** The 8-bit ramp of a phase, `phase >> 23` read as a signed `int`. */
  function Ramp(phase: U32): (v: int)
    ensures phase <= SindexMax ==> 0 <= v <= 255
  {
    Pow2Values();
    Asr(ToInt32(phase), 23)
  }

  /** The waveform shaping of `Osc::Process` applied to the 8-bit ramp value. */
  function Shape(shape: int, width: int, ramp: int): (out: int)
    ensures shape == 2 ==> (out == 127 || out == 0) && (out == 127 <==> ramp < width)
    ensures shape == 1 ==> out == Abs(ramp - 128)
    ensures shape == 1 && 0 <= ramp <= 255 ==> 0 <= out <= 128
    ensures shape == 0 ==> 2 * out <= ramp <= 2 * out + 1
    ensures shape == 0 && 0 <= ramp <= 255 ==> 0 <= out <= 127
    ensures shape != 0 && shape != 1 && shape != 2 ==> out == ramp
  {
    Pow2Values();
    if shape == 2 then (if ramp < width then 127 else 0)
    else if shape == 1 then Abs(ramp - 128)
    else if shape == 0 then Asr(ramp, 1)
    else ramp
  }

  /** One oscillator sample. Unlike `Phasor::Process` the wrap subtracts
      full scale as often as needed, so a wrapping oscillator ends below
      `SindexMax` for any increment, at the advanced phase modulo `SindexMax`. */
  method OscProcess(o: Osc) returns (next: Osc, out: int)
    ensures next.shape == o.shape && next.width == o.width
    ensures next.phasor.delta == o.phasor.delta && next.phasor.reset == o.phasor.reset
    ensures o.phasor.reset ==> next.phasor.phase == (o.phasor.phase + o.phasor.delta) % 0x1_0000_0000 % SindexMax
    ensures o.phasor.reset ==> next.phasor.phase < SindexMax
    ensures !o.phasor.reset ==> next.phasor.phase == Process(o.phasor).state.phase
    ensures out == Shape(o.shape, o.width, Ramp(o.phasor.phase))
    ensures o.phasor.phase <= SindexMax && o.shape == 0 ==> 0 <= out <= 127
    ensures o.phasor.phase <= SindexMax && o.shape == 1 ==> 0 <= out <= 128
  {
    var advanced := ToU32(o.phasor.phase + o.phasor.delta);
    var phase: U32 := advanced;
    if phase >= SindexMax {
      if o.phasor.reset {
        while phase >= SindexMax
          invariant phase % SindexMax == advanced % SindexMax
          decreases phase
        {
          ModUnique(phase - SindexMax, SindexMax, phase / SindexMax - 1, phase % SindexMax);
          phase := phase - SindexMax;
        }
        ModUnique(phase, SindexMax, 0, phase);
      } else {
        phase := SindexMax;
      }
    } else if o.phasor.reset {
      ModUnique(phase, SindexMax, 0, phase);
    }
    next := o.(phasor := o.phasor.(phase := phase));
    out := Shape(o.shape, o.width, Ramp(o.phasor.phase));
  }

  // ---------------------------------------------------------------- Env

  /** An attack/decay envelope made of two one-shot ramps. */
  datatype Env = Env(attack: Phasor, decay: Phasor)

  /** The constructor: a 5 ms attack and a 150 ms decay, both one-shot. */
  const NewEnv := Env(SetDuration(DefaultPhasor, 5).(reset := false),
                      SetDuration(DefaultPhasor, 150).(reset := false))

  /** Both ramps one-shot and within range. */
  predicate EnvSane(e: Env) {
    !e.attack.reset && !e.decay.reset && Sane(e.attack) && Sane(e.decay)
  }

  function EnvReset(e: Env): (r: Env)
    ensures r.attack == Reset(e.attack) && r.decay == Reset(e.decay)
    ensures EnvSane(e) ==> EnvSane(r) && EnvProcess(r).out == 0
  {
    Env(e.attack.(phase := 0), e.decay.(phase := 0))
  }

  /** One envelope sample: the attack ramp until the attack is at its end,
      then 127 minus the decay ramp. */
  function EnvProcess(e: Env): (r: Sample<Env>)
    ensures 0 <= r.out <= 127
    ensures EnvSane(e) ==> EnvSane(r.state)
    ensures !IsAtEnd(e.attack) ==> r.out == Level(e.attack.phase) && r.state.decay == e.decay
    ensures !IsAtEnd(e.attack) ==> r.state.attack == Process(e.attack).state
    ensures IsAtEnd(e.attack) && e.decay.phase <= SindexMax ==>
              r.out == 127 - Level(e.decay.phase) && r.state.attack == e.attack
    ensures IsAtEnd(e.attack) ==> r.state.decay == Process(e.decay).state
  {
    if IsAtEnd(e.attack) then
      var d := Process(e.decay);
      Sample(e.(decay := d.state), Min(127, 127 - d.out))
    else
      var a := Process(e.attack);
      Sample(e.(attack := a.state), Min(a.out, 127))
  }

  /** At 40 kHz the default attack reaches its end on sample 201 (5 ms plus
      one sample) and the default decay on sample 6001 (150 ms plus one). */
  lemma EnvTiming()
    ensures NewEnv.attack == Phasor(0, 10737400, false) && NewEnv.decay == Phasor(0, 357913, false)
    ensures !IsAtEnd(After(NewEnv.attack, 200)) && IsAtEnd(After(NewEnv.attack, 201))
    ensures !IsAtEnd(After(NewEnv.decay, 6000)) && IsAtEnd(After(NewEnv.decay, 6001))
  {
    ModUnique(SampleDelta * 1000, 5, 10737400, 0);
    ModUnique(SampleDelta * 1000, 150, 357913, 50);
    var a, d := Phasor(0, 10737400, false), Phasor(0, 357913, false);
    SaturatingRun(a, 200);
    SaturatingRun(a, 201);
    SaturatingRun(d, 6000);
    SaturatingRun(d, 6001);
  }

  // ------------------------------------------------------------ TrigGen

  /** A trigger generator: `amp` for `width` samples after a reset, then 0. */
  datatype TrigGen = TrigGen(samplesSinceFired: Int32, width: Int32, amp: Int32)

  function TrigReset(t: TrigGen): (r: TrigGen)
    ensures r.width == t.width && r.amp == t.amp
    ensures r.samplesSinceFired < 0 && TrigProcess(r).out == (if t.width > 0 then t.amp else 0)
  {
    t.(samplesSinceFired := -1)
  }

  /** One sample. The counter is a C `int`, so it must not be at `INT_MAX`. */
  function TrigProcess(t: TrigGen): (r: Sample<TrigGen>)
    requires t.samplesSinceFired < 0x7FFF_FFFF
    ensures r.state.width == t.width && r.state.amp == t.amp
    ensures r.state.samplesSinceFired == t.samplesSinceFired + 1
    ensures r.out == t.amp || r.out == 0
  {
    var s := t.samplesSinceFired + 1;
    Sample(t.(samplesSinceFired := s), if s < t.width then t.amp else 0)
  }

  /** The outputs of the next `n` samples. */
  function TrigRun(t: TrigGen, n: nat): (outs: seq<int>)
    requires t.samplesSinceFired + n <= 0x7FFF_FFFF
    ensures |outs| == n
    decreases n
  {
    if n == 0 then [] else [TrigProcess(t).out] + TrigRun(TrigProcess(t).state, n - 1)
  }

  lemma {:induction false} TrigRunShape(t: TrigGen, n: nat)
    requires t.samplesSinceFired + n <= 0x7FFF_FFFF
    ensures forall k :: 0 <= k < n ==>
              TrigRun(t, n)[k] == (if t.samplesSinceFired + k + 1 < t.width then t.amp else 0)
    decreases n
  {
    if n > 0 {
      var t' := TrigProcess(t).state;
      TrigRunShape(t', n - 1);
      forall k | 0 < k < n
        ensures TrigRun(t, n)[k] == TrigRun(t', n - 1)[k - 1]
      {
      }
    }
  }

  /** After a reset exactly the next `width` samples are `amp` and every
      later one is 0. */
  lemma PulseAfterReset(t: TrigGen, n: nat)
    requires n <= 0x8000_0000
    ensures forall k :: 0 <= k < n ==> TrigRun(TrigReset(t), n)[k] == (if k < t.width then t.amp else 0)
  {
    TrigRunShape(TrigReset(t), n);
  }

  // ----------------------------------------------------------- SlewedDC

  /** A DC level that glides linearly from the previous value `from` to the
      target `to` as a one-shot phasor runs. */
  datatype SlewedDC = SlewedDC(phasor: Phasor, lastVal: Int32, from: Int32, to: Int32)

  const NewSlewedDC := SlewedDC(DefaultPhasor.(reset := false), 0, 0, 0)

  /** The constructor leaves the ramp stopped, so a new slewed DC outputs 0
      and stays as it is, and after `Set(x)` with no `SetSlew` it jumps
      straight to `x` on the next sample. */
  lemma NewSlewedDCStopped(x: Int32)
    ensures SlewProcess(NewSlewedDC) == Sample(NewSlewedDC, 0)
    ensures SlewProcess(SlewSet(NewSlewedDC, x)).out == x
  {
  }

  /** `Set(x)`: glide from the last output to `x`, restarting the ramp. */
  function SlewSet(s: SlewedDC, x: Int32): (r: SlewedDC)
    ensures r.from == s.lastVal && r.to == x && r.lastVal == s.lastVal
    ensures r.phasor == Reset(s.phasor)
  {
    s.(from := s.lastVal, to := x, phasor := s.phasor.(phase := 0))
  }

  function SetSlew(s: SlewedDC, ms: Int32): (r: SlewedDC)
    ensures r.phasor == SetDuration(s.phasor, ms)
    ensures r.lastVal == s.lastVal && r.from == s.from && r.to == s.to
  {
    s.(phasor := SetDuration(s.phasor, ms))
  }

  /** The C `int` products of the interpolation do not overflow. */
  predicate NoOverflow(s: SlewedDC) {
    var i := Level(s.phasor.phase);
    InInt32(s.from * (127 - i)) && InInt32(s.to * i)
  }

  /** The glide at ramp level `i`: the two weighted endpoints, each shifted
      right by 7, so the sum is the weighted average over 128 rounded down,
      possibly one lower still. */
  function Interpolate(from: int, to: int, i: int): (v: int)
    ensures 128 * v <= from * (127 - i) + to * i < 128 * v + 256
  {
    Pow2Values();
    Asr(from * (127 - i), 7) + Asr(to * i, 7)
  }

  /** The two weighted terms of the interpolation are non-negative and sum
      to at most 127 times the larger endpoint. */
  lemma WeightedSum(from: int, to: int, i: int)
    requires 0 <= i <= 127 && 0 <= from && 0 <= to
    ensures 0 <= from * (127 - i) && 0 <= to * i
    ensures from * (127 - i) + to * i <= from * 127 || from * (127 - i) + to * i <= to * 127
  {
    var j := 127 - i;
    MulMono(from, 0, j);
    MulMono(to, 0, i);
    if to <= from {
      MulMono(i, to, from);
      assert from * j + from * i == from * 127;
    } else {
      MulMono(j, from, to);
      assert to * j + to * i == to * 127;
    }
  }

  /** For non-negative levels at a level in 0..127 the glide is non-negative
      and does not pass both endpoints. */
  lemma InterpolateBounds(from: int, to: int, i: int)
    requires 0 <= i <= 127 && 0 <= from && 0 <= to
    ensures 0 <= Interpolate(from, to, i)
    ensures Interpolate(from, to, i) <= from || Interpolate(from, to, i) <= to
  {
    Pow2Values();
    WeightedSum(from, to, i);
    var a, b := from * (127 - i), to * i;
    var ra, rb := Asr(a, 7), Asr(b, 7);
    assert ra * 128 <= a && rb * 128 <= b;
    assert 0 <= ra && 0 <= rb;
  }

  /** When both products fit in `int`, so does their shifted sum. */
  lemma InterpolateFits(from: int, to: int, i: int)
    requires InInt32(from * (127 - i)) && InInt32(to * i)
    ensures InInt32(Interpolate(from, to, i))
  {
    Pow2Values();
  }

  /** One sample: the stored target when the ramp is stopped, otherwise the
      interpolation `from * (127 - i) >> 7 + to * i >> 7` at the ramp level `i`
      of the phase before it advances. The output is remembered in `lastVal`. */
  function SlewProcess(s: SlewedDC): (r: Sample<SlewedDC>)
    requires s.phasor.delta != 0 ==> NoOverflow(s)
    ensures r.state.lastVal == r.out
    ensures r.state.from == s.from && r.state.to == s.to
    ensures r.state.phasor == Process(s.phasor).state
    ensures s.phasor.delta == 0 ==> r.out == s.to
    ensures s.phasor.delta != 0 ==> r.out == Interpolate(s.from, s.to, Level(s.phasor.phase))
    ensures s.phasor.delta != 0 && s.phasor.phase <= SindexMax && 0 <= s.from && 0 <= s.to ==>
              0 <= r.out && (r.out <= s.from || r.out <= s.to)
  {
    var t := Process(s.phasor);
    var v :=
      if t.state.delta == 0 then s.to
      else (
        InterpolateFits(s.from, s.to, t.out);
        if s.phasor.phase <= SindexMax && 0 <= s.from && 0 <= s.to then (
          InterpolateBounds(s.from, s.to, t.out);
          Interpolate(s.from, s.to, t.out)
        ) else Interpolate(s.from, s.to, t.out));
    Sample(s.(phasor := t.state, lastVal := v), v)
  }

  /** After `Set`, a running glide starts from the previous output scaled
      by 127/128: for a 7-bit level, one below where it was. */
  lemma SlewStartsFromLast(s: SlewedDC, x: Int32)
    requires s.phasor.delta != 0 && 0 <= s.lastVal <= 128
    ensures NoOverflow(SlewSet(s, x))
    ensures SlewProcess(SlewSet(s, x)).out == (if s.lastVal == 0 then 0 else s.lastVal - 1)
  {
    Pow2Values();
  }

  /** A finished glide settles one below a 7-bit target, not on it: at the
      end the ramp level is 127 and `to * 127 >> 7` is `to - 1` for 1..128. */
  lemma SlewSettlesBelowTarget(s: SlewedDC)
    requires s.phasor.phase == SindexMax && !s.phasor.reset && 0 < s.phasor.delta <= SindexMax
    requires 1 <= s.to <= 128
    ensures NoOverflow(s)
    ensures SlewProcess(s).out == s.to - 1
    ensures SlewProcess(s).state.phasor == s.phasor
  {
    Pow2Values();
    assert Level(s.phasor.phase) == 127;
    assert s.from * (127 - 127) == 0;
    var a := Asr(s.to * 127, 7);
    assert a * 128 <= s.to * 127 < (a + 1) * 128;
  }
}
