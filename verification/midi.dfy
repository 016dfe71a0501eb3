/** The MIDI messages the example scripts react to, as the MIDI library
    hands them over after parsing. Data bytes are 7-bit (MIDI 1.0). */
module Midi {

  type Byte7 = x: int | 0 <= x < 128

  datatype Message =
    | TimingClock
    | Start
    | Stop
    | NoteOn(note: Byte7, velocity: Byte7)
    | NoteOff(note: Byte7, velocity: Byte7)
    | ControlChange(control: Byte7, value: Byte7)
    | OtherMessage
}
