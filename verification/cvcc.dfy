/** The CV-to-MIDI-controller part that the three MIDI scripts share: the CV
    input is clamped to its usable span and scaled to a 7-bit controller
    value, which is sent as Control Change 1 when the CV has moved far enough
    and the value differs from the one last computed. The source computes the
    scaling with float division; here it is integer division, rounding down. */
module CvToCc {
  import opened Common
  import opened Midi

  const CvFloor := 5900
  const CvCeil := 64300
  const UsableRange := CvCeil - CvFloor
  /** The CV must move by more than this before a new value is computed. */
  const MinChange := 256
  /** The controller number the value is sent on. */
  const CcController := 1

  /** `min(max(x, lo), hi)`. */
  function Clamp(x: int, lo: int, hi: int): (r: int)
    requires lo <= hi
    ensures lo <= r <= hi
    ensures lo <= x <= hi ==> r == x
    ensures x < lo ==> r == lo
    ensures x > hi ==> r == hi
  {
    var atLeast := if x > lo then x else lo;
    if atLeast < hi then atLeast else hi
  }

  /** The controller value for a CV reading: the clamped reading's position
      in the usable span, in 128 steps, rounded down. */
  function CcValue(cv: int): (v: Byte7)
    ensures cv <= CvFloor ==> v == 0
    ensures cv >= CvCeil ==> v == 127
    ensures CvFloor <= cv <= CvCeil ==>
              v * UsableRange <= (cv - CvFloor) * 127 < (v + 1) * UsableRange
  {
    var c := Clamp(cv, CvFloor, CvCeil);
    var v := ((c - CvFloor) * 127) / UsableRange;
    ModUnique((c - CvFloor) * 127, UsableRange, v, ((c - CvFloor) * 127) % UsableRange);
    v
  }

  /** A higher CV never gives a lower controller value. */
  lemma CcValueMonotone(a: int, b: int)
    requires a <= b
    ensures CcValue(a) <= CcValue(b)
  {
    var ca, cb := Clamp(a, CvFloor, CvCeil), Clamp(b, CvFloor, CvCeil);
    assert CcValue(a) == CcValue(ca) && CcValue(b) == CcValue(cb);
  }

  /** Every controller value is produced by some CV inside the usable span. */
  lemma CcValueOnto(v: Byte7)
    ensures var cv := CvFloor + (v * UsableRange + 126) / 127;
            CvFloor <= cv <= CvCeil && CcValue(cv) == v
  {
    var n := (v * UsableRange + 126) / 127;
    ModUnique(v * UsableRange + 126, 127, n, (v * UsableRange + 126) % 127);
    assert v * UsableRange <= n * 127 < v * UsableRange + 127;
    var w := CcValue(CvFloor + n);
    assert w * UsableRange <= n * 127 < (w + 1) * UsableRange;
  }

  /** The CV last acted on and the controller value last computed. */
  datatype Tracker = Tracker(oldCv: int, lastCc: int)

  const InitialTracker := Tracker(0, 0)

  /** The tracker after one reading and the Control Change sent, if any. */
  datatype Update = Update(tracker: Tracker, sent: Option<Message>)

  /** One reading: a new value is computed only if the CV moved by more than
      `MinChange`; it is sent only if it differs from the last one; in both
      cases the reading and the value are remembered. */
  function Track(t: Tracker, cv: U16): (r: Update)
    ensures Abs(t.oldCv - cv) <= MinChange ==> r == Update(t, None)
    ensures Abs(t.oldCv - cv) > MinChange ==> r.tracker == Tracker(cv, CcValue(cv))
    ensures r.sent.Some? <==> Abs(t.oldCv - cv) > MinChange && CcValue(cv) != t.lastCc
    ensures r.sent.Some? ==> r.sent.value == ControlChange(CcController, CcValue(cv))
  {
    if Abs(t.oldCv - cv) > MinChange then
      var v := CcValue(cv);
      Update(Tracker(cv, v), if v != t.lastCc then Some(ControlChange(CcController, v)) else None)
    else
      Update(t, None)
  }

  /** The controller values sent over a sequence of readings. */
  function SentValues(t: Tracker, cvs: seq<U16>): (vs: seq<int>)
    decreases |cvs|
  {
    if cvs == [] then []
    else
      var u := Track(t, cvs[0]);
      (if u.sent.Some? then [u.sent.value.value] else []) + SentValues(u.tracker, cvs[1..])
  }

  /** The tracker after a sequence of readings. */
  function Tracked(t: Tracker, cvs: seq<U16>): Tracker
    decreases |cvs|
  {
    if cvs == [] then t else Tracked(Track(t, cvs[0]).tracker, cvs[1..])
  }

  /** The same value is never sent twice in a row, the first value sent
      differs from the remembered one, and the remembered value is the last
      one sent (or unchanged when nothing was sent). */
  lemma {:induction false} NoRepeatedSends(t: Tracker, cvs: seq<U16>)
    ensures var vs := SentValues(t, cvs);
            (forall i :: 0 < i < |vs| ==> vs[i] != vs[i - 1]) &&
            (|vs| > 0 ==> vs[0] != t.lastCc && vs[|vs| - 1] == Tracked(t, cvs).lastCc) &&
            (|vs| == 0 ==> Tracked(t, cvs).lastCc == t.lastCc) &&
            (forall i :: 0 <= i < |vs| ==> 0 <= vs[i] <= 127)
    decreases |cvs|
  {
    if cvs != [] {
      var u := Track(t, cvs[0]);
      NoRepeatedSends(u.tracker, cvs[1..]);
      var rest := SentValues(u.tracker, cvs[1..]);
      if u.sent.Some? {
        var vs := [u.sent.value.value] + rest;
        assert SentValues(t, cvs) == vs;
        forall i | 1 < i < |vs|
          ensures vs[i] != vs[i - 1]
        {
          assert vs[i] == rest[i - 1] && vs[i - 1] == rest[i - 2];
        }
      } else {
        var none: seq<int> := [];
        assert none + rest == rest;
        assert SentValues(t, cvs) == rest;
      }
    }
  }
}
