/** The MIDI clock example: incoming Timing Clock messages (24 per quarter
    note, MIDI 1.0 "System Real Time Messages") are counted over a loop of
    four 4/4 bars and divided down to gates; Start and Stop drive gates of
    their own; the CV input is sent out as a controller. */
module MidiClock {
  import opened Common
  import opened Midi
  import CvToCc
  import Periodic

  /** Clocks per four bars of 4/4: the counter wraps here. */
  const LoopLength := 384

  /** The clock counter and the eight gate outputs:
      0 start pulse, 1 running, 2 clock pulse, 3 sixteenth, 4 eighth,
      5 quarter, 6 bar, 7 four bars. */
  datatype ClockState = ClockState(ticks: nat, gates: Gates)

  const InitialClock := ClockState(0, AllLow)

  /** The message part of one loop iteration: gates 0 and 2 are cleared
      first, so they are high for one iteration only, then the message (if
      any) is applied. What it does is stated by `OnMessageSpec`. */
  function OnMessage(s: ClockState, msg: Option<Message>): (r: ClockState)
    ensures s.ticks < LoopLength ==> r.ticks < LoopLength
  {
    var g := s.gates[0 := false][2 := false];
    match msg
    case Some(TimingClock) =>
      var t := s.ticks;
      ClockState(if t + 1 == LoopLength then 0 else t + 1,
                 g[2 := true][3 := t % 6 == 0][4 := t % 12 == 0][5 := t % 24 == 0]
                  [6 := t % 96 == 0][7 := t == 0])
    case Some(Start) => ClockState(s.ticks, g[0 := true][1 := true])
    case Some(Stop) => ClockState(s.ticks, AllLow)
    case _ => ClockState(s.ticks, g)
  }

  /** What one message does: gates 0 and 2 are one-iteration pulses for
      Start and Clock; a Clock sets the divided gates from the count before
      it increments, and wraps the count at 384; Start raises gates 0 and 1;
      Stop clears every gate and keeps the count; any other message only
      ends the pulses. */
  lemma OnMessageSpec(s: ClockState, msg: Option<Message>)
    ensures var r := OnMessage(s, msg);
            && (r.gates[0] <==> msg == Some(Start))
            && (r.gates[2] <==> msg == Some(TimingClock))
            && (msg == Some(TimingClock) ==>
                  && r.gates[3] == (s.ticks % 6 == 0)
                  && r.gates[4] == (s.ticks % 12 == 0)
                  && r.gates[5] == (s.ticks % 24 == 0)
                  && r.gates[6] == (s.ticks % 96 == 0)
                  && r.gates[7] == (s.ticks == 0)
                  && r.gates[1] == s.gates[1]
                  && r.ticks == (if s.ticks + 1 == LoopLength then 0 else s.ticks + 1))
            && (msg == Some(Start) ==>
                  && r.gates[1] && r.ticks == s.ticks
                  && forall i :: 3 <= i < 8 ==> r.gates[i] == s.gates[i])
            && (msg == Some(Stop) ==> r == ClockState(s.ticks, AllLow))
            && (msg != Some(TimingClock) && msg != Some(Start) && msg != Some(Stop) ==>
                  && r.ticks == s.ticks && r.gates[1] == s.gates[1]
                  && forall i :: 3 <= i < 8 ==> r.gates[i] == s.gates[i])
  {
  }

  /** The divisors of the gate periods nest: 6 | 12 | 24 | 96. */
  lemma DivisorsNest(t: int)
    ensures t % 96 == 0 ==> t % 24 == 0
    ensures t % 24 == 0 ==> t % 12 == 0
    ensures t % 12 == 0 ==> t % 6 == 0
  {
    if t % 96 == 0 { ModUnique(t, 24, (t / 96) * 4, 0); }
    if t % 24 == 0 { ModUnique(t, 12, (t / 24) * 2, 0); }
    if t % 12 == 0 { ModUnique(t, 6, (t / 12) * 2, 0); }
  }

  /** On a clock the divided gates nest: four bars implies bar implies
      quarter implies eighth implies sixteenth. */
  lemma GatesNest(s: ClockState)
    requires s.ticks < LoopLength
    ensures var g := OnMessage(s, Some(TimingClock)).gates;
            (g[7] ==> g[6]) && (g[6] ==> g[5]) && (g[5] ==> g[4]) && (g[4] ==> g[3])
  {
    DivisorsNest(s.ticks);
  }

  /** The period, in clocks, of divided gate `g`, and how many periods fit
      in the loop. */
  function Period(g: int): (p: int)
    requires 3 <= g <= 7
    ensures p > 0 && Repeats(g) * p == LoopLength
  {
    if g == 3 then 6 else if g == 4 then 12 else if g == 5 then 24 else if g == 6 then 96 else LoopLength
  }

  function Repeats(g: int): int
    requires 3 <= g <= 7
  {
    if g == 3 then 64 else if g == 4 then 32 else if g == 5 then 16 else if g == 6 then 4 else 1
  }

  /** On a clock, divided gate `g` goes high exactly when the counter is a
      multiple of its period. */
  lemma ClockGate(s: ClockState, g: int)
    requires s.ticks < LoopLength && 3 <= g <= 7
    ensures OnMessage(s, Some(TimingClock)).gates[g] <==> s.ticks % Period(g) == 0
  {
    if g == 7 {
      ModUnique(s.ticks, LoopLength, 0, s.ticks);
    }
  }

  /** The clock state after `n` Timing Clock messages in a row. */
  function Clocks(s: ClockState, n: nat): ClockState {
    if n == 0 then s else OnMessage(Clocks(s, n - 1), Some(TimingClock))
  }

  /** Incrementing a count kept modulo 384 and wrapping at 384 keeps it
      equal to the unwrapped count modulo 384. */
  lemma WrapIncrement(x: int)
    ensures (if x % LoopLength + 1 == LoopLength then 0 else x % LoopLength + 1) == (x + 1) % LoopLength
  {
    var t := x % LoopLength;
    var q := x / LoopLength;
    if t + 1 == LoopLength {
      ModUnique(x + 1, LoopLength, q + 1, 0);
    } else {
      ModUnique(x + 1, LoopLength, q, t + 1);
    }
  }

  lemma {:induction false} ClocksTicks(s: ClockState, n: nat)
    requires s.ticks < LoopLength
    ensures Clocks(s, n).ticks == (s.ticks + n) % LoopLength
  {
    if n == 0 {
      ModUnique(s.ticks, LoopLength, 0, s.ticks);
    } else {
      ClocksTicks(s, n - 1);
      WrapIncrement(s.ticks + n - 1);
    }
  }

  /** How many of the next `n` clocks set divided gate `g` high. */
  function Fires(s: ClockState, n: nat, g: int): (k: nat)
    requires 3 <= g <= 7
  {
    if n == 0 then 0
    else Fires(s, n - 1, g) + (if OnMessage(Clocks(s, n - 1), Some(TimingClock)).gates[g] then 1 else 0)
  }

  /** Reducing modulo the loop length keeps the remainder by any gate period. */
  lemma PeriodMod(x: int, g: int)
    requires 3 <= g <= 7
    ensures (x % LoopLength) % Period(g) == x % Period(g)
  {
    var p, m := Period(g), Repeats(g);
    assert p * m == LoopLength;
    Periodic.ModMod(x, p, m);
  }

  /** The `n`-th of a run of clocks from `s` sets divided gate `g` exactly
      when the unwrapped counter is a multiple of the gate's period. */
  lemma FiresStep(s: ClockState, n: nat, g: int)
    requires s.ticks < LoopLength && n > 0 && 3 <= g <= 7
    ensures OnMessage(Clocks(s, n - 1), Some(TimingClock)).gates[g] <==> (s.ticks + n - 1) % Period(g) == 0
  {
    ClocksTicks(s, n - 1);
    ClockGate(Clocks(s, n - 1), g);
    PeriodMod(s.ticks + n - 1, g);
  }

  lemma {:induction false} FiresCount(s: ClockState, n: nat, g: int)
    requires s.ticks < LoopLength && 3 <= g <= 7
    ensures Fires(s, n, g) == Periodic.Count(s.ticks, n, Period(g))
  {
    if n > 0 {
      FiresCount(s, n - 1, g);
      FiresStep(s, n, g);
    }
  }

  /** Over ANY 384 consecutive clocks, gate 3 fires 64 times, gate 4 32
      times, gate 5 16 times, gate 6 (bar) 4 times and gate 7 (four bars)
      exactly once. */
  lemma FiresPerLoop(s: ClockState, g: int)
    requires s.ticks < LoopLength && 3 <= g <= 7
    ensures Fires(s, LoopLength, g) == Repeats(g)
    ensures g == 7 ==> Fires(s, LoopLength, g) == 1
    ensures g == 6 ==> Fires(s, LoopLength, g) == 4
  {
    FiresCount(s, LoopLength, g);
    Periodic.CountPeriods(s.ticks, Repeats(g), Period(g));
  }

  function ClockCount(msgs: seq<Option<Message>>): nat {
    if msgs == [] then 0 else (if msgs[0] == Some(TimingClock) then 1 else 0) + ClockCount(msgs[1..])
  }

  function Run(s: ClockState, msgs: seq<Option<Message>>): ClockState
    decreases |msgs|
  {
    if msgs == [] then s else Run(OnMessage(s, msgs[0]), msgs[1..])
  }

  /** Only clocks move the counter: after any messages (Start and Stop
      included) it is the number of clocks received, modulo 384. */
  lemma {:induction false} RunTicks(s: ClockState, msgs: seq<Option<Message>>)
    requires s.ticks < LoopLength
    ensures Run(s, msgs).ticks == (s.ticks + ClockCount(msgs)) % LoopLength
    decreases |msgs|
  {
    if msgs == [] {
      ModUnique(s.ticks, LoopLength, 0, s.ticks);
    } else {
      var s' := OnMessage(s, msgs[0]);
      RunTicks(s', msgs[1..]);
      var c := if msgs[0] == Some(TimingClock) then 1 else 0;
      ModUnique(s.ticks + c, LoopLength, if s.ticks + c == LoopLength then 1 else 0,
                if s.ticks + c == LoopLength then 0 else s.ticks + c);
      Periodic.ModAdd(s.ticks + c, ClockCount(msgs[1..]), LoopLength);
    }
  }

  /** The whole script state: the clock part and the controller part. */
  datatype Script = Script(clock: ClockState, cc: CvToCc.Tracker)

  const InitialScript := Script(InitialClock, CvToCc.InitialTracker)

  /** From power-up the first Timing Clock raises the clock pulse and every
      divided gate, the count 0 being a multiple of every period, and moves
      the count to 1. */
  lemma FirstClock(cv: U16)
    ensures Iterate(InitialScript, Some(TimingClock), cv).0.clock
            == ClockState(1, [false, false, true, true, true, true, true, true])
  {
  }

  /** One iteration of the main loop: the gates depend only on the message
      and the controller only on the CV reading. */
  function Iterate(sc: Script, msg: Option<Message>, cv: U16): (r: (Script, Option<Message>))
    ensures r.0.clock == OnMessage(sc.clock, msg)
    ensures r.0.cc == CvToCc.Track(sc.cc, cv).tracker && r.1 == CvToCc.Track(sc.cc, cv).sent
    ensures sc.clock.ticks < LoopLength ==> r.0.clock.ticks < LoopLength
  {
    var u := CvToCc.Track(sc.cc, cv);
    (Script(OnMessage(sc.clock, msg), u.tracker), u.sent)
  }
}
