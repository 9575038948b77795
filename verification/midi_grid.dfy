/** The grid of pads: the notes in order of their numbers and the colour
    names in alphabetical order are paired off, the k-th pair going to the
    k-th cell of a 4 by 8 grid in row-major order. */
module Grid {
  import opened Rgb
  import opened Dicts
  import opened Sorting
  import opened InstrTable
  import opened NoteTable
  import opened ColorTable
  import opened Player
  import opened ClrUtils
  import opened MidiButton

  const NUM_ROWS := 4
  const NUM_COLS := 8
  const NUM_CELLS := NUM_ROWS * NUM_COLS

  /** The instrument every pad of the grid plays. */
  const INSTRUMENT := "Accordion"

  /** Items compared by their note number, the sort key of the notes. */
  function NoteLe(a: (string, int), b: (string, int)): bool {
    a.1 <= b.1
  }

  /** The note items sorted by number, cut to the size of the grid. */
  function SortedNotes(items: seq<(string, int)>): seq<(string, int)> {
    Take(Sort(items, NoteLe), NUM_CELLS)
  }

  /** The colour names sorted, cut to the size of the grid. */
  function SortedColors(names: seq<string>): seq<string> {
    Take(Sort(names, LexLe), NUM_CELLS)
  }

  /** How many cells get a pad: as many as the shorter list has entries,
      and never more than the grid has cells. */
  function PadCount(nNotes: nat, nColors: nat): (n: nat)
    ensures n <= NUM_CELLS && n <= nNotes && n <= nColors
    ensures n == NUM_CELLS || n == nNotes || n == nColors
  {
    var shorter := if nNotes < nColors then nNotes else nColors;
    if shorter < NUM_CELLS then shorter else NUM_CELLS
  }

  /** A cell that gets a pad, and the names the pad is built from. */
  datatype Slot = Slot(row: int, col: int, color: string, note: string)

  /** The pads the grid places, in the order it places them: the k-th pairs
      the k-th note with the k-th colour and sits at row k / NUM_COLS,
      column k % NUM_COLS. */
  function Slots(notes: seq<(string, int)>, colors: seq<string>): seq<Slot> {
    seq(PadCount(|notes|, |colors|),
        k requires 0 <= k < PadCount(|notes|, |colors|) =>
          Slot(k / NUM_COLS, k % NUM_COLS, colors[k], notes[k].0))
  }

  /** A pad placed in the layout. */
  datatype Placement = Placement(row: int, col: int, btn: MidiBtn)

  /** The tables a pad's names are resolved in, and the codes the player
      can play. */
  datatype Tables = Tables(instrNums: map<string, int>, noteNums: map<string, int>,
                           colorRgbs: map<string, RGB>, instrNames: map<int, string>,
                           noteNames: map<int, string>)

  /** The shipped tables. */
  const SHIPPED := Tables(INSTR_NUMS, NOTE_NUMS, COLOR_RGBS, INSTR_NAMES, NOTE_NAMES)

  /** `btn` is the accordion pad built from `color` and `note`, playing
      through `player`: it holds the codes, background and text those names
      resolve to in `t`, and its codes can be played. */
  ghost predicate PadIn(btn: MidiBtn, color: string, note: string, player: MidiPlayer, t: Tables) {
    && btn.oMidiPlayer == player
    && btn.NamClr == color && btn.InstrName == INSTRUMENT && btn.NoteName == note
    && btn.Instr in t.instrNames && btn.Note in t.noteNames
    && btn.ResolvedIn(t.instrNums, t.noteNums, t.colorRgbs)
  }

  /** The same, in the shipped tables; such a pad is `Valid()` and
      `Resolved()`. */
  ghost predicate PadFor(btn: MidiBtn, color: string, note: string, player: MidiPlayer) {
    PadIn(btn, color, note, player, SHIPPED)
  }

  /** `p` is the pad for the slot, added at the slot's cell. */
  ghost predicate Built(p: Placement, s: Slot, player: MidiPlayer) {
    p.row == s.row && p.col == s.col && PadFor(p.btn, s.color, s.note, player)
  }

  /** Every name the grid builds a pad from is in its table, so no pad
      ends the program. */
  predicate AllKnown(notes: seq<(string, int)>, colors: seq<string>) {
    && INSTRUMENT in INSTR_NUMS
    && forall k :: 0 <= k < PadCount(|notes|, |colors|) ==> notes[k].0 in NOTE_NUMS && colors[k] in COLOR_RGBS
  }

  /** The k-th cell of the row-major order is row k / NUM_COLS, column
      k % NUM_COLS. */
  lemma CellOfIndex(row: int, col: int)
    requires 0 <= row && 0 <= col < NUM_COLS
    ensures (row * NUM_COLS + col) / NUM_COLS == row
    ensures (row * NUM_COLS + col) % NUM_COLS == col
  {
  }

  /** Placements at the row-major positions 0, 1, 2, ... sit at the cells
      of the slots with the same index. */
  lemma PositionsMatch(ps: seq<Placement>, notes: seq<(string, int)>, colors: seq<string>)
    requires |ps| == PadCount(|notes|, |colors|)
    requires forall k :: 0 <= k < |ps| ==> ps[k].row * NUM_COLS + ps[k].col == k && 0 <= ps[k].col < NUM_COLS
    ensures forall k :: 0 <= k < |ps| ==>
      && ps[k].row == Slots(notes, colors)[k].row && ps[k].col == Slots(notes, colors)[k].col
      && Slots(notes, colors)[k].color == colors[k] && Slots(notes, colors)[k].note == notes[k].0
  {
    forall k | 0 <= k < |ps|
      ensures ps[k].row == Slots(notes, colors)[k].row && ps[k].col == Slots(notes, colors)[k].col
    {
      CellOfIndex(ps[k].row, ps[k].col);
    }
  }

  /** The pad placed k-th with the shipped tables plays program 21 (the
      accordion), note 51 + k, on the background of the k-th colour name
      in alphabetical order. */
  ghost predicate PlaysShipped(p: Placement, k: int)
    requires 0 <= k < NUM_CELLS
  {
    && |ShippedSlots()| == NUM_CELLS
    && p.btn.Instr == 21 && p.btn.Note == LOWEST_NOTE + k
    && ShippedSlots()[k].color in COLOR_RGBS
    && p.btn.Color == COLOR_RGBS[ShippedSlots()[k].color] && p.btn.Background == GetHexStr(p.btn.Color)
  }

  /** The layout the shipped tables give: 32 pads, the k-th built for the
      k-th shipped slot, at its cell, and playing as `PlaysShipped` says. */
  ghost predicate ShippedLayout(layout: seq<Placement>, player: MidiPlayer) {
    && |layout| == |ShippedSlots()| == NUM_CELLS
    && (forall k :: 0 <= k < |layout| ==> Built(layout[k], ShippedSlots()[k], player))
    && (forall k :: 0 <= k < |layout| ==> PlaysShipped(layout[k], k))
  }

  /** `tMidiGrid`. */
  class MidiGrid {
    const oMidiPlayer: MidiPlayer
    /** The pads added to the layout, in the order they were added. */
    var layout: seq<Placement>

    constructor(oMidiPlayer: MidiPlayer)
      ensures this.oMidiPlayer == oMidiPlayer
      ensures ShippedLayout(layout, oMidiPlayer)
    {
      this.oMidiPlayer := oMidiPlayer;
      layout := [];
      new;
      InitUI();
    }

    /** `initUI`: the shipped notes and colours, sorted and cut to the grid,
        placed pad by pad. */
    method InitUI()
      modifies this
      ensures ShippedLayout(layout, oMidiPlayer)
      ensures forall k :: 0 <= k < |layout| ==> fresh(layout[k].btn)
    {
      var sortedNotes := SortedNotes(NOTE_NUMS_ITEMS);
      var sortedColors := SortedColors(Keys(COLOR_RGBS_ITEMS));
      ShippedKnown();
      Place(sortedNotes, sortedColors);
      AccordionIs21();
      forall k | 0 <= k < |layout| ensures PlaysShipped(layout[k], k) {
        assert Built(layout[k], ShippedSlots()[k], oMidiPlayer);
      }
    }

    /** The nested row and column loops of `initUI`: the running index
        counts every cell, and a cell gets a pad only while both lists
        last. */
    method Place(sortedNotes: seq<(string, int)>, sortedColors: seq<string>)
      requires AllKnown(sortedNotes, sortedColors)
      modifies this
      ensures |layout| == |Slots(sortedNotes, sortedColors)|
      ensures forall k :: 0 <= k < |layout| ==> Built(layout[k], Slots(sortedNotes, sortedColors)[k], oMidiPlayer)
      ensures forall k :: 0 <= k < |layout| ==> fresh(layout[k].btn)
    {
      layout := [];
      var index := 0;
      for row := 0 to NUM_ROWS
        invariant index == row * NUM_COLS
        invariant Placed(layout, sortedNotes, sortedColors, index, oMidiPlayer)
        invariant forall k :: 0 <= k < |layout| ==> fresh(layout[k].btn)
      {
        index := PlaceRow(sortedNotes, sortedColors, row, index);
      }
      PositionsMatch(layout, sortedNotes, sortedColors);
    }

    /** The inner loop of `initUI`: the columns of one row. */
    method PlaceRow(sortedNotes: seq<(string, int)>, sortedColors: seq<string>, row: int, start: int)
      returns (index: int)
      requires AllKnown(sortedNotes, sortedColors)
      requires 0 <= row < NUM_ROWS && start == row * NUM_COLS
      requires Placed(layout, sortedNotes, sortedColors, start, oMidiPlayer)
      modifies this
      ensures index == start + NUM_COLS
      ensures Placed(layout, sortedNotes, sortedColors, index, oMidiPlayer)
      ensures |old(layout)| <= |layout| && layout[..|old(layout)|] == old(layout)
      ensures forall k :: |old(layout)| <= k < |layout| ==> fresh(layout[k].btn)
    {
      ghost var before := layout;
      index := start;
      for col := 0 to NUM_COLS
        invariant index == row * NUM_COLS + col
        invariant Placed(layout, sortedNotes, sortedColors, index, oMidiPlayer)
        invariant |before| <= |layout| && layout[..|before|] == before
        invariant forall k :: |before| <= k < |layout| ==> fresh(layout[k].btn)
      {
        if index < |sortedNotes| && index < |sortedColors| {
          var note, color := sortedNotes[index].0, sortedColors[index];
          assert index < NUM_CELLS;
          var btn := NewPad(oMidiPlayer, color, note);
          PlacedAdd(layout, Placement(row, col, btn), sortedNotes, sortedColors, index, oMidiPlayer,
                    SHIPPED);
          layout := layout + [Placement(row, col, btn)];
        } else {
          PlacedSkip(layout, sortedNotes, sortedColors, index, oMidiPlayer, SHIPPED);
        }
        index := index + 1;
      }
    }
  }

  /** One pad of the grid: the accordion, with the given colour and note. */
  method NewPad(player: MidiPlayer, color: string, note: string) returns (btn: MidiBtn)
    requires INSTRUMENT in INSTR_NUMS && note in NOTE_NUMS && color in COLOR_RGBS
    ensures fresh(btn) && PadFor(btn, color, note, player)
  {
    btn := new MidiBtn(player, color, INSTRUMENT, note);
  }

  /** The first `index` cells of the row-major order have been visited:
      `ps` holds a pad for each of them that gets one, at its cell, built
      from the note and colour with its index and resolved in `t`. */
  ghost predicate PlacedIn(ps: seq<Placement>, notes: seq<(string, int)>, colors: seq<string>, index: int,
                           player: MidiPlayer, t: Tables)
  {
    && |ps| == (if index < PadCount(|notes|, |colors|) then index else PadCount(|notes|, |colors|))
    && (forall k :: 0 <= k < |ps| ==> ps[k].row * NUM_COLS + ps[k].col == k && 0 <= ps[k].col < NUM_COLS)
    && (forall k :: 0 <= k < |ps| ==>
          PadIn(ps[k].btn, colors[k], notes[k].0, player, t))
  }

  /** The same, in the shipped tables. */
  ghost predicate Placed(ps: seq<Placement>, notes: seq<(string, int)>, colors: seq<string>, index: int,
                         player: MidiPlayer)
  {
    PlacedIn(ps, notes, colors, index, player, SHIPPED)
  }

  /** Visiting a cell that gets a pad appends that pad. */
  lemma PlacedAdd(ps: seq<Placement>, p: Placement, notes: seq<(string, int)>, colors: seq<string>,
                  index: int, player: MidiPlayer, t: Tables)
    requires 0 <= index < |notes| && index < |colors| && index < NUM_CELLS
    requires PlacedIn(ps, notes, colors, index, player, t)
    requires p.row * NUM_COLS + p.col == index && 0 <= p.col < NUM_COLS
    requires PadIn(p.btn, colors[index], notes[index].0, player, t)
    ensures PlacedIn(ps + [p], notes, colors, index + 1, player, t)
  {
    var qs := ps + [p];
    assert |ps| == index;
    forall k | 0 <= k < |qs|
      ensures qs[k].row * NUM_COLS + qs[k].col == k && 0 <= qs[k].col < NUM_COLS
      ensures PadIn(qs[k].btn, colors[k], notes[k].0, player, t)
    {
      if k < |ps| {
        assert qs[k] == ps[k];
      } else {
        assert qs[k] == p;
      }
    }
  }

  /** Visiting a cell past the end of either list adds nothing. */
  lemma PlacedSkip(ps: seq<Placement>, notes: seq<(string, int)>, colors: seq<string>,
                   index: int, player: MidiPlayer, t: Tables)
    requires 0 <= index && !(index < |notes| && index < |colors|)
    requires PlacedIn(ps, notes, colors, index, player, t)
    ensures PlacedIn(ps, notes, colors, index + 1, player, t)
  {
  }

  /** The number of pads is the smaller of the grid size and the two list
      lengths, and the k-th pad pairs the k-th note with the k-th colour. */
  lemma SlotsPairing(notes: seq<(string, int)>, colors: seq<string>)
    ensures |Slots(notes, colors)| <= NUM_CELLS
    ensures |Slots(notes, colors)| == NUM_CELLS || |Slots(notes, colors)| == |notes|
         || |Slots(notes, colors)| == |colors|
    ensures forall k :: 0 <= k < |Slots(notes, colors)| ==>
      k < |notes| && k < |colors|
      && Slots(notes, colors)[k].note == notes[k].0 && Slots(notes, colors)[k].color == colors[k]
  {
  }

  /** Every pad lies inside the grid, at the cell whose row-major index is
      its position in the placing order, and no two pads share a cell. */
  lemma SlotsCells(notes: seq<(string, int)>, colors: seq<string>)
    ensures forall k :: 0 <= k < |Slots(notes, colors)| ==>
      0 <= Slots(notes, colors)[k].row < NUM_ROWS && 0 <= Slots(notes, colors)[k].col < NUM_COLS
      && Slots(notes, colors)[k].row * NUM_COLS + Slots(notes, colors)[k].col == k
    ensures forall j, k :: 0 <= j < k < |Slots(notes, colors)| ==>
      (Slots(notes, colors)[j].row, Slots(notes, colors)[j].col)
        != (Slots(notes, colors)[k].row, Slots(notes, colors)[k].col)
  {
    var slots := Slots(notes, colors);
    forall k | 0 <= k < |slots|
      ensures 0 <= slots[k].row < NUM_ROWS && 0 <= slots[k].col < NUM_COLS
      ensures slots[k].row * NUM_COLS + slots[k].col == k
    {
      assert slots[k].row == k / NUM_COLS && slots[k].col == k % NUM_COLS;
    }
  }

  /** A cell gets a pad exactly when its row-major index is below the pad
      count. */
  lemma CellFilled(notes: seq<(string, int)>, colors: seq<string>, row: int, col: int)
    requires 0 <= row < NUM_ROWS && 0 <= col < NUM_COLS
    ensures (exists k :: 0 <= k < |Slots(notes, colors)|
               && Slots(notes, colors)[k].row == row && Slots(notes, colors)[k].col == col)
        <==> row * NUM_COLS + col < PadCount(|notes|, |colors|)
  {
    var slots := Slots(notes, colors);
    SlotsCells(notes, colors);
    if row * NUM_COLS + col < |slots| {
      CellOfIndex(row, col);
      assert slots[row * NUM_COLS + col].row == row;
    }
  }

  lemma NoteOrder()
    ensures TotalPreorder(NoteLe)
  {
  }

  /** The notes the grid takes from any item list: the first 32, or all of
      them when there are fewer, in ascending order of number. They are some
      of the items, each no higher than any item left out; with no more than
      32 items, every item once. */
  lemma SortedNotesSpec(items: seq<(string, int)>)
    ensures |SortedNotes(items)| == if |items| < NUM_CELLS then |items| else NUM_CELLS
    ensures SortedBy(SortedNotes(items), NoteLe)
    ensures multiset(SortedNotes(items)) <= multiset(items)
    ensures forall x, y :: x in SortedNotes(items) && y in multiset(items) - multiset(SortedNotes(items)) ==>
      NoteLe(x, y)
    ensures |items| <= NUM_CELLS ==> multiset(SortedNotes(items)) == multiset(items)
  {
    NoteOrder();
    SortTake(items, NUM_CELLS, NoteLe);
  }

  /** The colour names the grid takes from any name list: the first 32, or
      all of them when there are fewer, in the order of `str`. They are
      some of the names, each coming before any name left out. */
  lemma SortedColorsSpec(names: seq<string>)
    ensures |SortedColors(names)| == if |names| < NUM_CELLS then |names| else NUM_CELLS
    ensures SortedBy(SortedColors(names), LexLe)
    ensures multiset(SortedColors(names)) <= multiset(names)
    ensures forall x, y :: x in SortedColors(names) && y in multiset(names) - multiset(SortedColors(names)) ==>
      LexLe(x, y)
  {
    LexOrder();
    SortTake(names, NUM_CELLS, LexLe);
  }

  /** Items already in ascending order of number keep their order; the
      grid takes the first 32 of them. */
  lemma SortedNotesOfAscending(items: seq<(string, int)>)
    requires SortedBy(items, NoteLe)
    ensures SortedNotes(items) == Take(items, NUM_CELLS)
  {
    SortOfSorted(items, NoteLe);
  }

  /** With at most 32 names the grid uses every one of them, in ascending
      order. */
  lemma SortedColorsOfFew(names: seq<string>)
    requires |names| <= NUM_CELLS
    ensures multiset(SortedColors(names)) == multiset(names)
    ensures SortedBy(SortedColors(names), LexLe)
  {
    SortElements(names, LexLe);
    LexOrder();
    SortSorted(names, LexLe);
  }

  /** The notes and colours the grid places with the shipped tables. */
  function ShippedSlots(): seq<Slot> {
    Slots(SortedNotes(NOTE_NUMS_ITEMS), SortedColors(Keys(COLOR_RGBS_ITEMS)))
  }

  /** Items numbered `base`, `base` + 1, ... in the order they are listed
      keep that order, so the grid takes the first 32 as they stand. */
  lemma ConsecutiveNotes(items: seq<(string, int)>, base: int)
    requires |items| >= NUM_CELLS
    requires forall i :: 0 <= i < |items| ==> items[i].1 == base + i
    ensures SortedNotes(items) == items[..NUM_CELLS]
  {
    assert SortedBy(items, NoteLe);
    SortedNotesOfAscending(items);
  }

  /** Of such items with distinct names, the k-th name the grid takes looks
      up the number `base` + k. */
  lemma ConsecutiveNotesKnown(items: seq<(string, int)>, base: int)
    requires |items| >= NUM_CELLS && Distinct(Keys(items))
    requires forall i :: 0 <= i < |items| ==> items[i].1 == base + i
    ensures |SortedNotes(items)| == NUM_CELLS
    ensures forall k :: 0 <= k < NUM_CELLS ==>
      SortedNotes(items)[k].0 in ToMap(items) && ToMap(items)[SortedNotes(items)[k].0] == base + k
  {
    ConsecutiveNotes(items, base);
    forall k | 0 <= k < NUM_CELLS
      ensures items[k].0 in ToMap(items) && ToMap(items)[items[k].0] == base + k
    {
      ToMapAt(items, k);
    }
  }

  /** With at most 32 items, every colour name the grid places is a key of
      the items' dictionary. */
  lemma {:induction false} FewColorsKnown<V>(items: seq<(string, V)>)
    requires |items| <= NUM_CELLS
    ensures |SortedColors(Keys(items))| == |items|
    ensures forall k :: 0 <= k < |items| ==> SortedColors(Keys(items))[k] in ToMap(items)
  {
    var names := Keys(items);
    SortElements(names, LexLe);
    ToMapKeys(items);
    forall k | 0 <= k < |items| ensures SortedColors(names)[k] in ToMap(items) {
      var name := SortedColors(names)[k];
      assert name in Sort(names, LexLe);
      var i :| 0 <= i < |names| && names[i] == name;
      assert items[i].0 == name;
    }
  }

  /** When both lists fill the grid and their names are known, every cell
      gets a pad, and the k-th pad's note looks up `base` + k. */
  lemma KnownSlots<V>(notes: seq<(string, int)>, colors: seq<string>,
                      noteNums: map<string, int>, colorRgbs: map<string, V>, base: int)
    requires |notes| == NUM_CELLS && |colors| == NUM_CELLS
    requires forall k :: 0 <= k < NUM_CELLS ==> notes[k].0 in noteNums && noteNums[notes[k].0] == base + k
    requires forall k :: 0 <= k < NUM_CELLS ==> colors[k] in colorRgbs
    ensures |Slots(notes, colors)| == NUM_CELLS
    ensures forall k :: 0 <= k < NUM_CELLS ==>
      Slots(notes, colors)[k].note in noteNums && noteNums[Slots(notes, colors)[k].note] == base + k
      && Slots(notes, colors)[k].color in colorRgbs
  {
  }

  /** The shipped notes are listed in ascending order of number, so the
      grid takes the first 32 as they stand. */
  lemma ShippedNotes()
    ensures SortedNotes(NOTE_NUMS_ITEMS) == NOTE_NUMS_ITEMS[..NUM_CELLS]
  {
    NumbersAscending();
    ConsecutiveNotes(NOTE_NUMS_ITEMS, LOWEST_NOTE);
  }

  /** The k-th shipped note the grid takes is note 51 + k. */
  lemma ShippedNotesKnown()
    ensures |SortedNotes(NOTE_NUMS_ITEMS)| == NUM_CELLS
    ensures forall k :: 0 <= k < NUM_CELLS ==>
      SortedNotes(NOTE_NUMS_ITEMS)[k].0 in NOTE_NUMS
      && NOTE_NUMS[SortedNotes(NOTE_NUMS_ITEMS)[k].0] == LOWEST_NOTE + k
  {
    NumbersAscending();
    NoteTable.NamesDistinct();
    ConsecutiveNotesKnown(NOTE_NUMS_ITEMS, LOWEST_NOTE);
  }

  /** The shipped colour names, sorted: all 32 of them, in ascending order. */
  lemma ShippedColors()
    ensures |Keys(COLOR_RGBS_ITEMS)| == NUM_CELLS
    ensures multiset(SortedColors(Keys(COLOR_RGBS_ITEMS))) == multiset(Keys(COLOR_RGBS_ITEMS))
    ensures SortedBy(SortedColors(Keys(COLOR_RGBS_ITEMS)), LexLe)
  {
    TriplesDistinct();
    RgbsItems();
    SortedColorsOfFew(Keys(COLOR_RGBS_ITEMS));
  }

  /** Each of them is a key of `COLOR_RGBS`. */
  lemma ShippedColorsKnown()
    ensures |SortedColors(Keys(COLOR_RGBS_ITEMS))| == NUM_CELLS
    ensures forall k :: 0 <= k < NUM_CELLS ==> SortedColors(Keys(COLOR_RGBS_ITEMS))[k] in COLOR_RGBS
  {
    TriplesDistinct();
    RgbsItems();
    FewColorsKnown(COLOR_RGBS_ITEMS);
  }

  /** With the shipped tables all 32 cells get a pad and every name is
      known; the pad at index k plays note 51 + k, so the notes 83..89 get
      no pad. */
  lemma ShippedKnown()
    ensures |ShippedSlots()| == NUM_CELLS
    ensures AllKnown(SortedNotes(NOTE_NUMS_ITEMS), SortedColors(Keys(COLOR_RGBS_ITEMS)))
    ensures forall k :: 0 <= k < NUM_CELLS ==>
      ShippedSlots()[k].note in NOTE_NUMS && NOTE_NUMS[ShippedSlots()[k].note] == LOWEST_NOTE + k
  {
    ShippedNotesKnown();
    ShippedColorsKnown();
    AccordionIs21();
    KnownSlots(SortedNotes(NOTE_NUMS_ITEMS), SortedColors(Keys(COLOR_RGBS_ITEMS)), NOTE_NUMS, COLOR_RGBS, LOWEST_NOTE);
  }
}
