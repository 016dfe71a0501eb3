/** The MIDI notes example: Note On and Note Off messages for the notes of a
    table drive the eight gates; the CV input is sent out as a controller. */
module MidiNotes {
  import opened Common
  import opened Midi
  import Lookup
  import CvToCc

  /** Middle C and the seven semitones above it, one per gate. */
  const MidiNotes: seq<int> := [60, 61, 62, 63, 64, 65, 66, 67]

  /** The gate a note drives, if any: its position in the table. */
  function NoteGate(note: int): (g: Option<nat>)
    ensures g.Some? <==> note in MidiNotes
    ensures g.Some? ==> g.value < 8 && MidiNotes[g.value] == note
  {
    if 60 <= note <= 67 then Some(note - 60) else None
  }

  /** The gate of a note is the first (and only) table position holding it. */
  lemma NoteGateIsFirst(note: int, i: int)
    ensures NoteGate(note) == Some(i) <==> Lookup.IsFirst(MidiNotes, i, note)
  {
    if Lookup.IsFirst(MidiNotes, i, note) {
      assert MidiNotes[i] == 60 + i;
    }
  }

  /** `play_note`: sets the gate of the first table entry equal to `note`
      and returns; a note outside the table changes nothing. */
  method PlayNote(gates: Gates, note: int, state: bool) returns (r: Gates)
    ensures NoteGate(note).Some? ==> r == gates[NoteGate(note).value := state]
    ensures NoteGate(note).None? ==> r == gates
  {
    var s := Lookup.SetFirst(MidiNotes, gates, note, state);
    if NoteGate(note).Some? {
      var i := NoteGate(note).value;
      forall j | 0 <= j < 8
        ensures s[j] == gates[i := state][j]
      {
        NoteGateIsFirst(note, j);
      }
    }
    r := s;
  }

  /** What a message does to the gates: Note On opens the note's gate when
      its velocity is positive and closes it when the velocity is 0; Note
      Off always closes it; nothing else touches the gates. */
  function OnMessage(gates: Gates, msg: Option<Message>): (r: Gates)
    ensures forall n: Byte7, v: Byte7 :: msg == Some(NoteOn(n, v)) && 60 <= n <= 67 ==> r == gates[n - 60 := v > 0]
    ensures forall n: Byte7, v: Byte7 :: msg == Some(NoteOff(n, v)) && 60 <= n <= 67 ==> r == gates[n - 60 := false]
    ensures !(msg.Some? && (msg.value.NoteOn? || msg.value.NoteOff?) && 60 <= msg.value.note <= 67) ==> r == gates
  {
    match msg
    case Some(NoteOn(n, v)) =>
      if n in MidiNotes then gates[NoteGate(n).value := v > 0] else gates
    case Some(NoteOff(n, _)) =>
      if n in MidiNotes then gates[NoteGate(n).value := false] else gates
    case _ => gates
  }

  /** Note On with velocity 0 acts as Note Off (MIDI 1.0, Channel Voice
      Messages), whatever the Note Off's own velocity. */
  lemma VelocityZeroIsNoteOff(gates: Gates, n: Byte7, v: Byte7)
    ensures OnMessage(gates, Some(NoteOn(n, 0))) == OnMessage(gates, Some(NoteOff(n, v)))
  {
  }

  /** A message changes at most one gate, the one of its note. */
  lemma OneGatePerMessage(gates: Gates, msg: Option<Message>, i: int)
    requires 0 <= i < 8
    requires !(msg.Some? && (msg.value.NoteOn? || msg.value.NoteOff?) && NoteGate(msg.value.note) == Some(i))
    ensures OnMessage(gates, msg)[i] == gates[i]
  {
  }

  /** The gates and the controller tracker of the script. */
  datatype Script = Script(gates: Gates, cc: CvToCc.Tracker)

  const InitialScript := Script(AllLow, CvToCc.InitialTracker)

  /** From power-up a Note On for a table note with positive velocity leaves
      exactly that note's gate high. */
  lemma FirstNote(n: Byte7, v: Byte7)
    requires 60 <= n <= 67 && v > 0
    ensures forall i :: 0 <= i < 8 ==> (OnMessage(InitialScript.gates, Some(NoteOn(n, v)))[i] <==> i == n - 60)
  {
  }

  /** One iteration of the main loop, with the message (if any) and the CV
      reading as inputs; also returns the Control Change sent, if any. */
  method Iterate(sc: Script, msg: Option<Message>, cv: U16) returns (r: Script, sent: Option<Message>)
    ensures r.gates == OnMessage(sc.gates, msg)
    ensures r.cc == CvToCc.Track(sc.cc, cv).tracker && sent == CvToCc.Track(sc.cc, cv).sent
  {
    var gates := sc.gates;
    match msg {
      case Some(NoteOn(n, v)) =>
        if n in MidiNotes {
          gates := PlayNote(gates, n, v > 0);
        }
      case Some(NoteOff(n, _)) =>
        if n in MidiNotes {
          gates := PlayNote(gates, n, false);
        }
      case _ =>
    }
    var u := CvToCc.Track(sc.cc, cv);
    r, sent := Script(gates, u.tracker), u.sent;
  }
}
