/** A pad of the controller: it resolves its colour, instrument and note
    names when it is built, and sends `On` and `Off` to the player when the
    left mouse button goes down and up. */
module MidiButton {
  import opened Wrappers
  import opened Rgb
  import opened Dicts
  import opened Utilities
  import opened ClrUtils
  import opened InstrTable
  import opened NoteTable
  import opened ColorTable
  import opened Player

  /** What a pad resolves its three names to. */
  datatype Config = Config(instr: int, note: int, color: RGB, text: string)

  datatype MouseButton = LeftButton | RightButton | MiddleButton

  /** The label of a pad: the instrument name, a line break, the note name. */
  function PadText(sInstr: string, sNote: string): string {
    sInstr + "\n" + sNote
  }

  /** The look-ups a pad makes when it is built, in their order: the
      instrument, then the note, then the colour; the first that fails ends
      the program. The text is the instrument name over the note name. */
  function ResolveIn(instrs: map<string, int>, notes: map<string, int>, colors: map<string, RGB>,
                     sNamClr: string, sInstr: string, sNote: string): Outcome<Config>
  {
    var nInstr :- ExitOnNoIntVal(PyStr(sInstr), IntDict(instrs), "Instrument");
    var nNote :- ExitOnNoIntVal(PyStr(sNote), IntDict(notes), "Note");
    var color :- ExitOnNoRGBVal(PyStr(sNamClr), RGBDict(colors), "Color");
    Return(Config(nInstr, nNote, color, PadText(sInstr, sNote)))
  }

  /** Names that are in the tables resolve to their codes and triple; an
      unknown name fails with its not-found text, the instrument checked
      first, then the note, then the colour. */
  lemma ResolveInOutcome(instrs: map<string, int>, notes: map<string, int>, colors: map<string, RGB>,
                         sNamClr: string, sInstr: string, sNote: string)
    requires forall n :: n in colors ==> IsValid(colors[n])
    ensures sInstr !in instrs ==>
      ResolveIn(instrs, notes, colors, sNamClr, sInstr, sNote)
        == Raise(AssertionError, NotFound("Instrument", PyStr(sInstr)))
    ensures sInstr in instrs && sNote !in notes ==>
      ResolveIn(instrs, notes, colors, sNamClr, sInstr, sNote)
        == Raise(AssertionError, NotFound("Note", PyStr(sNote)))
    ensures sInstr in instrs && sNote in notes && sNamClr !in colors ==>
      ResolveIn(instrs, notes, colors, sNamClr, sInstr, sNote)
        == Raise(AssertionError, NotFound("Color", PyStr(sNamClr)))
    ensures sInstr in instrs && sNote in notes && sNamClr in colors ==>
      ResolveIn(instrs, notes, colors, sNamClr, sInstr, sNote)
        == Return(Config(instrs[sInstr], notes[sNote], colors[sNamClr], PadText(sInstr, sNote)))
  {
    IntLookup(instrs, sInstr, "Instrument");
    IntLookup(notes, sNote, "Note");
    RGBLookup(colors, sNamClr, "Color");
  }

  /** `tMidiBtn`'s look-ups, in the program's own tables. */
  function Resolve(sNamClr: string, sInstr: string, sNote: string): Outcome<Config> {
    ResolveIn(INSTR_NUMS, NOTE_NUMS, COLOR_RGBS, sNamClr, sInstr, sNote)
  }

  /** A resolved pad's codes are known to the player and its colour is a
      valid triple. */
  lemma ResolvedKnown(sNamClr: string, sInstr: string, sNote: string)
    requires Resolve(sNamClr, sInstr, sNote).Return?
    ensures var c := Resolve(sNamClr, sInstr, sNote).value;
      c.instr in INSTR_NAMES && INSTR_NAMES[c.instr] == sInstr
      && c.note in NOTE_NAMES && NOTE_NAMES[c.note] == sNote
      && IsValid(c.color)
  {
    TriplesValid();
    ResolveInOutcome(INSTR_NUMS, NOTE_NUMS, COLOR_RGBS, sNamClr, sInstr, sNote);
    InstrTable.RoundTrip();
    NoteTable.RoundTrip();
  }

  /** `tMidiBtn`. */
  class MidiBtn {
    const oMidiPlayer: MidiPlayer
    const Instr: int
    const Note: int
    /** The background colour of the style sheet, `#rrggbb`. */
    const Background: string
    const Text: string
    /** The triple the colour name resolves to. */
    ghost const Color: RGB
    /** The names the pad was built from. */
    ghost const NamClr: string
    ghost const InstrName: string
    ghost const NoteName: string

    /** The codes can be played. */
    predicate Valid() {
      Instr in INSTR_NAMES && Note in NOTE_NAMES
    }

    /** The pad holds what its three names resolve to in the given tables. */
    ghost predicate ResolvedIn(instrs: map<string, int>, notes: map<string, int>, colors: map<string, RGB>) {
      && InstrName in instrs && NoteName in notes && NamClr in colors
      && Instr == instrs[InstrName] && Note == notes[NoteName]
      && Color == colors[NamClr] && Background == GetHexStr(Color)
      && Text == PadText(InstrName, NoteName)
    }

    /** The pad holds what its three names resolve to. */
    ghost predicate Resolved() {
      ResolvedIn(INSTR_NUMS, NOTE_NUMS, COLOR_RGBS)
    }

    /** Builds the pad from the three names, which must be in the tables;
        with any other name the program ends instead (`ResolveInOutcome`). */
    constructor(oMidiPlayer: MidiPlayer, sNamClr: string, sInstr: string, sNote: string)
      requires sInstr in INSTR_NUMS && sNote in NOTE_NUMS && sNamClr in COLOR_RGBS
      ensures this.oMidiPlayer == oMidiPlayer
      ensures Instr == INSTR_NUMS[sInstr] && Instr in INSTR_NAMES && INSTR_NAMES[Instr] == sInstr
      ensures Note == NOTE_NUMS[sNote] && Note in NOTE_NAMES && NOTE_NAMES[Note] == sNote
      ensures Color == COLOR_RGBS[sNamClr] && Background == GetHexStr(Color)
      ensures Text == PadText(sInstr, sNote)
      ensures NamClr == sNamClr && InstrName == sInstr && NoteName == sNote
      ensures Valid() && Resolved()
    {
      TriplesValid();
      ResolveInOutcome(INSTR_NUMS, NOTE_NUMS, COLOR_RGBS, sNamClr, sInstr, sNote);
      ResolvedKnown(sNamClr, sInstr, sNote);
      var c := Resolve(sNamClr, sInstr, sNote).value;
      this.oMidiPlayer := oMidiPlayer;
      Instr := c.instr;
      Note := c.note;
      Color := c.color;
      Background := GetHexStr(c.color);
      Text := PadText(sInstr, sNote);
      NamClr, InstrName, NoteName := sNamClr, sInstr, sNote;
    }

    /** `mousePressEvent`: the left button sends `On` at the default volume;
        any other button sends nothing. */
    method MousePress(button: MouseButton)
      requires Valid()
      modifies oMidiPlayer
      ensures oMidiPlayer.log == old(oMidiPlayer.log)
        + (if button == LeftButton then [NoteOn(Instr, Note, DEFAULT_VOLUME)] else [])
    {
      if button == LeftButton {
        oMidiPlayer.On(Instr, Note);
      }
    }

    /** `mouseReleaseEvent`: the left button sends `Off`, whether or not a
        press came before. */
    method MouseRelease(button: MouseButton)
      requires Valid()
      modifies oMidiPlayer
      ensures oMidiPlayer.log == old(oMidiPlayer.log)
        + (if button == LeftButton then [NoteOff(Instr, Note, DEFAULT_VOLUME)] else [])
    {
      if button == LeftButton {
        oMidiPlayer.Off(Instr, Note);
      }
    }
  }
}
