/** The MIDI player as the pads see it: `On` and `Off` for an instrument and
    a note. Each call is recorded as an event, in the order of the calls. */
module Player {
  import opened InstrTable
  import opened NoteTable

  /** The volume `On` and `Off` use when the caller gives none. */
  const DEFAULT_VOLUME := 127

  datatype Event =
    | NoteOn(instrument: int, note: int, volume: int)
    | NoteOff(instrument: int, note: int, volume: int)

  class MidiPlayer {
    /** The messages sent to the output port, oldest first. */
    var log: seq<Event>

    constructor()
      ensures log == []
    {
      log := [];
    }

    /** `On(instrument, note, volume=127)`. Its report line looks both codes
        up, so they must be known. */
    method On(instrument: int, note: int, volume: int := DEFAULT_VOLUME)
      requires instrument in INSTR_NAMES && note in NOTE_NAMES
      modifies this
      ensures log == old(log) + [NoteOn(instrument, note, volume)]
    {
      log := log + [NoteOn(instrument, note, volume)];
    }

    /** `Off(instrument, note, volume=127)`. */
    method Off(instrument: int, note: int, volume: int := DEFAULT_VOLUME)
      requires instrument in INSTR_NAMES && note in NOTE_NAMES
      modifies this
      ensures log == old(log) + [NoteOff(instrument, note, volume)]
    {
      log := log + [NoteOff(instrument, note, volume)];
    }
  }
}
