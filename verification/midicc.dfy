/** The MIDI controller example: Control Change messages for controllers 0
    to 7 set the PWM duty cycle of the matching output; the CV input is sent
    out as a controller. */
module MidiCc {
  import opened Common
  import opened Midi
  import Lookup
  import CvToCc

  /** The controller numbers, one per output. */
  const CtlNums: seq<int> := [0, 1, 2, 3, 4, 5, 6, 7]

  /** The 16-bit duty cycles of the eight PWM outputs. */
  type Duties = d: seq<int> | |d| == 8 witness [0, 0, 0, 0, 0, 0, 0, 0]

  /** Every output starts with duty cycle 0. */
  const InitialDuties: Duties := [0, 0, 0, 0, 0, 0, 0, 0]

  /** A 7-bit controller value scaled up to a 16-bit duty cycle. */
  function Duty(val: Byte7): (d: int)
    ensures 0 <= d <= 65024 < 0x1_0000
    ensures d % 512 == 0 && d / 512 == val
    ensures val == 0 <==> d == 0
  {
    val * 512
  }

  /** The scaling is strictly increasing, so distinct values give distinct
      duty cycles. */
  lemma DutyIncreasing(a: Byte7, b: Byte7)
    ensures a < b <==> Duty(a) < Duty(b)
  {
  }

  /** The output a controller number drives, if any. */
  function CtlGate(ctl: int): (g: Option<nat>)
    ensures g.Some? <==> ctl in CtlNums
    ensures g.Some? ==> g.value < 8 && CtlNums[g.value] == ctl
  {
    if 0 <= ctl < 8 then Some(ctl) else None
  }

  lemma CtlGateIsFirst(ctl: int, i: int)
    ensures CtlGate(ctl) == Some(i) <==> Lookup.IsFirst(CtlNums, i, ctl)
  {
    if Lookup.IsFirst(CtlNums, i, ctl) {
      assert CtlNums[i] == i;
    }
  }

  /** `output_ctl`: sets the duty cycle of the first output whose
      controller number is `ctl` and returns; other controllers change
      nothing. */
  method OutputCtl(duties: Duties, ctl: int, val: Byte7) returns (r: Duties)
    ensures CtlGate(ctl).Some? ==> r == duties[CtlGate(ctl).value := Duty(val)]
    ensures CtlGate(ctl).None? ==> r == duties
  {
    var s := Lookup.SetFirst(CtlNums, duties, ctl, val * 512);
    if CtlGate(ctl).Some? {
      var i := CtlGate(ctl).value;
      forall j | 0 <= j < 8
        ensures s[j] == duties[i := Duty(val)][j]
      {
        CtlGateIsFirst(ctl, j);
      }
    }
    r := s;
  }

  /** What a message does to the duty cycles: Control Change `c` with value
      `v` sets output `c` to `Duty(v)` for `c` in 0..7; nothing else changes
      any output. */
  function OnMessage(duties: Duties, msg: Option<Message>): (r: Duties)
    ensures forall c: Byte7, v: Byte7 :: msg == Some(ControlChange(c, v)) && c < 8 ==> r == duties[c := Duty(v)]
    ensures !(msg.Some? && msg.value.ControlChange? && msg.value.control < 8) ==> r == duties
    ensures forall i :: 0 <= i < 8 ==> 0 <= duties[i] <= 65024 ==> 0 <= r[i] <= 65024
  {
    match msg
    case Some(ControlChange(c, v)) =>
      if c in CtlNums then duties[CtlGate(c).value := Duty(v)] else duties
    case _ => duties
  }

  /** After any Control Change the output's duty cycle gives back the value
      it was set from. */
  lemma DutyRoundTrip(duties: Duties, c: Byte7, v: Byte7)
    requires c < 8
    ensures OnMessage(duties, Some(ControlChange(c, v)))[c] / 512 == v
  {
  }

  /** The duty cycles and the controller tracker of the script. */
  datatype Script = Script(duties: Duties, cc: CvToCc.Tracker)

  const InitialScript := Script(InitialDuties, CvToCc.InitialTracker)

  /** From power-up a Control Change for controller `c` in 0..7 leaves that
      output at the scaled value and every other output at duty cycle 0. */
  lemma FirstControl(c: Byte7, v: Byte7)
    requires c < 8
    ensures forall i :: 0 <= i < 8 ==>
              OnMessage(InitialScript.duties, Some(ControlChange(c, v)))[i] == (if i == c then Duty(v) else 0)
  {
  }

  /** One iteration of the main loop, with the message (if any) and the CV
      reading as inputs; also returns the Control Change sent, if any. */
  method Iterate(sc: Script, msg: Option<Message>, cv: U16) returns (r: Script, sent: Option<Message>)
    ensures r.duties == OnMessage(sc.duties, msg)
    ensures r.cc == CvToCc.Track(sc.cc, cv).tracker && sent == CvToCc.Track(sc.cc, cv).sent
  {
    var duties := sc.duties;
    match msg {
      case Some(ControlChange(c, v)) =>
        if c in CtlNums {
          duties := OutputCtl(duties, c, v);
        }
      case _ =>
    }
    var u := CvToCc.Track(sc.cc, cv);
    r, sent := Script(duties, u.tracker), u.sent;
  }
}
