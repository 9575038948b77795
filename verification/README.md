# MidiGrid in Dafny

MidiGrid is a PyQt MIDI controller: a 4 by 8 grid of pads. Each pad plays
one note of one General MIDI instrument through a pygame MIDI player. This
project models the logic under the GUI and proves properties of it:

- **Validated look-ups** (`Utilities`). Each helper either returns the value
  stored under a key or fails with a fixed `ERR: ...` text. The helpers check
  the value's shape: an integer, an RGB triple in 0..255, or a string. The
  Python values the helpers see are a small datatype (`PyValue`); `int()`,
  `str()` and the `02x` format are written out in `PyBuiltins`.
- **The lookup tables** (`InstrTable`, `NoteTable`, `ColorTable`, over
  `Dicts`). The tables are kept verbatim, in source order:
  - the 125 instruments of the General MIDI Level 1 sound set, programs
    counted from 0;
  - the 39 notes 51..89 of MIDI 1.0, where 60 is middle C;
  - 32 colour names with their RGB triples.

  A dict literal is a list of items read into a map, the last duplicate
  winning. Each reverse table is the inverting comprehension. The lemmas
  show the keys are distinct and the inverse undoes each table in both
  directions.
- **Hex colours** (`ClrUtils`). `GetHexStr` writes a triple as `#rrggbb`;
  `HexStrToRGB` reads it back. This is the notation of CSS Color Module
  Level 3, section 4.2.1.
- **Font-size fitting** (`TextResize`). The button scans font sizes upward,
  stops at the first that does not fit, steps back one and clamps the result
  to its range. The text measurement is a parameter.
- **Pads and the grid**:
  - `MidiButton`: a pad resolves its colour, instrument and note names, and
    sends `On`/`Off` to the player on left-button press and release.
  - `Player`: the player's interface, as a log of events.
  - `Grid`: sorts the notes by number and the colour names alphabetically,
    cuts both to 32, and places the pads in row-major order. The earlier
    copy S04_tMidiGrid/tMidiGrid.py (lines 9-37) has the same constants and
    the same `initUI`, line for line, so one model serves both.
  - `Sorting`: Python's `sorted` and slicing.

The tables, the colour helpers and the look-ups are pure functions with
lemmas. The grid, the pad and the resizing button are classes: their
methods update fields, and the loops carry invariants.

## Model

| member | source | states |
|---|---|---|
| Utilities.ExitOnNoDictVal | S00_Utilities/Utilities.py:21-25 | succeeds exactly when the key is present with a non-`None` value, returning that value; otherwise raises `AssertionError` with `ERR: <n>: "<key>" not found.` |
| Utilities.ExitOnNoIntVal | S00_Utilities/Utilities.py:26-34 | succeeds exactly when the stored value is an int or a string `int()` accepts, returning `int(val)`; a missing key gives the not-found text, a string `int()` refuses exits with `... is not an integer.`, a tuple raises `int()`'s `TypeError` |
| Utilities.ExitOnNoRGBVal | S00_Utilities/Utilities.py:35-41 | succeeds exactly when the stored value is a 3-tuple of ints in 0..255, returning that triple; a missing key gives the not-found text, any other value exits with `... is not a valid RGB tuple.` |
| Utilities.ExitOnNoStrVal | S00_Utilities/Utilities.py:42-48 | succeeds exactly when the stored value is a string, returning it; a missing key gives the not-found text, another value exits with `... is not a string.` |
| Utilities.ExitOnNoStrForRGB | S00_Utilities/Utilities.py:49-55 | the same for a triple key, whose texts show the key without quotes |
| Utilities.IntLookup | S00_Utilities/Utilities.py:26-34 | on a name-to-code table, a present name returns its code and an absent one fails with the not-found text |
| Utilities.RGBLookup | S00_Utilities/Utilities.py:35-41 | on a table of valid triples, a present name returns its triple and an absent one fails with the not-found text |
| Utilities.DecimalTextAccepted | S00_Utilities/Utilities.py:30-31 | the decimal text of any integer, stored as a string, is read back as that integer |
| Utilities.RGBAcceptedExactly | S00_Utilities/Utilities.py:39 | the RGB check accepts a value exactly when it is the tuple of a triple with components in 0..255 |
| Utilities.ScriptDictVal | S00_Utilities/Utilities.py:58-59 | `'a'` in `{'a': '1', ...}` gives `'1'` |
| Utilities.ScriptRGBVal | S00_Utilities/Utilities.py:61-62 | `'red'` gives `(255, 0, 0)` |
| Utilities.ScriptIntVal | S00_Utilities/Utilities.py:64-68 | `'abc'` exits with `ERR: my_dict: Value abc for key "x" is not an integer.` |
| Utilities.ScriptStrVal | S00_Utilities/Utilities.py:69-70 | `'a'` gives the string `'1'` |
| Utilities.ScriptStrValInvalid | S00_Utilities/Utilities.py:72-76 | the value `123` exits with `ERR: my_dict_invalid: Value 123 for key "x" is not a string.` |
| Utilities.ScriptStrForRGB | S00_Utilities/Utilities.py:78-79 | the key `(255, 0, 0)` gives `'red'` |
| Utilities.ScriptMissingTriple | S00_Utilities/Utilities.py:80-83 | the missing triple fails with the text `ERR: my_dict_rgb: (255, 255, 255) not found.`, raised as `AssertionError`, not `SystemExit` |
| PyBuiltins.DecimalRoundTrip | S00_Utilities/Utilities.py:31 | `int(str(n)) == n` for every integer |
| PyBuiltins.Hex02Byte | S00_Utilities/ClrUtils.py:8 | `format(n, '02x')` for n in 0..255 is two lower-case hex digits whose value is n |
| PyBuiltins.HexPairValue | S00_Utilities/ClrUtils.py:14-16 | `int(ab, 16)` of two hex digits of either case is 16·a + b |
| ClrUtils.GetHexStrFormat | S00_Utilities/ClrUtils.py:5-8 | for a valid triple: `#` and six lower-case hex digits, two per component, whose values are the components |
| ClrUtils.RoundTrip | S00_Utilities/ClrUtils.py:5-17 | `HexStrToRGB(GetHexStr(rgb)) == rgb` for every valid triple |
| ClrUtils.ReverseRoundTrip | S00_Utilities/ClrUtils.py:8-16 | for six hex digits h, `HexStrToRGB('#' + h)` succeeds and `GetHexStr` of it is `'#' + lower(h)` |
| ClrUtils.ReadSixDigits | S00_Utilities/ClrUtils.py:12-17 | a text starting with six hex digits reads as the three pair values |
| ClrUtils.TailIgnored | S00_Utilities/ClrUtils.py:12-16 | whatever follows the sixth character after the `#`s does not change the result |
| ClrUtils.SignedFieldAccepted | S00_Utilities/ClrUtils.py:14-16 | as written, `HexStrToRGB('#-10000')` returns `(-1, 0, 0)` |
| ClrUtils.StrictInRange | S00_Utilities/ClrUtils.py:9-17 | the corrected parser returns only components in 0..255 |
| ClrUtils.StrictAgrees | S00_Utilities/ClrUtils.py:9-17 | on a text whose first six characters after the `#`s are hex digits, the corrected parser agrees with the written one |
| ClrUtils.StrictRefusesSign | S00_Utilities/ClrUtils.py:14-16 | the corrected parser refuses `'#-10000'` |
| ClrUtils.StrictRoundTrip | S00_Utilities/ClrUtils.py:5-17 | the corrected parser also reads back every `GetHexStr` |
| Dicts.ToMapKeys | S00_Constants/kNote.py:28-42 | the keys of a dict literal are exactly the keys of its items |
| Dicts.ToMapAt | S00_Constants/kNote.py:28-42 | with distinct keys, each item's key maps to that item's value |
| Dicts.ToMapSize | S00_Constants/kNote.py:28-42 | with distinct keys, the dict has one entry per item |
| Dicts.InvertInjective | S00_Constants/kNote.py:45 | when the values are distinct, the inverting comprehension gives the items turned round, in their order |
| Dicts.InvertRoundTrip | S00_Constants/kNote.py:45 | when keys and values are distinct, the inverse has as many entries and undoes the dict in both directions |
| InstrTable.CodesDistinct | S00_Constants/kInstr.py:51-115 | `INSTR_NAMES` lists 125 items with pairwise distinct codes |
| InstrTable.NamesDistinct | S00_Constants/kInstr.py:52-114 | the 125 display names are pairwise distinct |
| InstrTable.CodesValid | S00_Constants/kInstr.py:18-49 | every code is in 0..127, and 12, 52 and 53 have no entry |
| InstrTable.RoundTrip | S00_Constants/kInstr.py:117 | both tables have 125 entries; `INSTR_NUMS[INSTR_NAMES[c]] == c` and `INSTR_NAMES[INSTR_NUMS[n]] == n` |
| InstrTable.AccordionIs21 | S00_Constants/kInstr.py:18 | `'Accordion'` is program 21, both ways |
| NoteTable.NumbersAscending | S00_Constants/kNote.py:16-42 | the 39 items are listed by ascending number, item i having number 51 + i |
| NoteTable.NamesDistinct | S00_Constants/kNote.py:28-42 | no note name is listed twice |
| NoteTable.RoundTrip | S00_Constants/kNote.py:45 | both tables have 39 entries and undo each other |
| NoteTable.NumbersExactly | S00_Constants/kNote.py:16-45 | the numbers in `NOTE_NAMES` are exactly 51..89 |
| NoteTable.NameAt | S00_Constants/kNote.py:28-45 | `NOTE_NAMES[51 + i]` is the name of item i |
| NoteTable.MiddleCIs60 | S00_Constants/kNote.py:18 | `'Middle_C'` is note 60, both ways |
| NoteTable.NamesVerbatim | S00_Constants/kNote.py:31-41 | the B notes keep their names as written (`'Middle_♭'` and the others); the lowest note is `'Bass_D♯/E♭'` and the highest `'High_F'` |
| ColorTable.TriplesDistinct | S00_Constants/kNamClr.py:28-37 | `COLOR_NAMES` lists 32 items with pairwise distinct triples |
| ColorTable.NamesDistinct | S00_Constants/kNamClr.py:28-37 | the 32 colour names are pairwise distinct |
| ColorTable.TriplesValid | S00_Constants/kNamClr.py:18-25 | every triple in either table has components in 0..255 |
| ColorTable.RoundTrip | S00_Constants/kNamClr.py:39 | both tables have 32 entries and undo each other |
| ColorTable.RgbsItems | S00_Constants/kNamClr.py:39 | `COLOR_RGBS` lists its names in the order `COLOR_NAMES` lists them |
| ColorTable.RedBothWays | S00_Constants/kNamClr.py:18-29 | `COLOR_NAMES` takes `RED` to `'Red'` and `COLOR_RGBS` takes `'Red'` to `(255, 0, 0)` |
| Sorting.Sort | S08_tMidiGrid/tMidiGrid.py:76-77 | `sorted` returns a permutation of its input |
| Sorting.SortSorted | S08_tMidiGrid/tMidiGrid.py:76-77 | the result of `sorted` is in order, for any total preorder |
| Sorting.SortOfSorted | S08_tMidiGrid/tMidiGrid.py:76 | sorting a list already in order leaves it unchanged |
| Sorting.SortElements | S08_tMidiGrid/tMidiGrid.py:76-77 | sorting keeps the length and exactly the elements |
| Sorting.Take | S08_tMidiGrid/tMidiGrid.py:76-77 | `s[:k]` has min(k, len s) elements, the first ones of s |
| Sorting.LexOrder | S08_tMidiGrid/tMidiGrid.py:77 | the order of `str` is total and transitive |
| Sorting.TakeSmallest | S08_tMidiGrid/tMidiGrid.py:76-77 | the first k of a sorted list are a sub-multiset of it, and each comes before every element left out |
| Sorting.SortTake | S08_tMidiGrid/tMidiGrid.py:76-77 | `sorted(s)[:k]` has min(k, len s) elements, in order, drawn from s, each coming before every element left out; with len s ≤ k it is a permutation of s |
| Player.MidiPlayer.constructor | S01_tMidiPlayer/tMidiPlayer.py:35-40 | a new player has sent nothing |
| Player.MidiPlayer.On | S01_tMidiPlayer/tMidiPlayer.py:41-46 | appends exactly one note-on, at volume 127 unless another is given; both codes must be known, because the report line looks them up |
| Player.MidiPlayer.Off | S01_tMidiPlayer/tMidiPlayer.py:47-52 | appends exactly one note-off |
| MidiButton.ResolveInOutcome | S02_tMidiBtn/tMidiBtn.py:59-61 | the instrument is resolved first, then the note, then the colour; the first unknown name fails with its not-found text; known names give their code, code and triple |
| MidiButton.ResolvedKnown | S02_tMidiBtn/tMidiBtn.py:59-61 | a resolved pad's codes map back to its names and its colour is a valid triple |
| MidiButton.MidiBtn.constructor | S02_tMidiBtn/tMidiBtn.py:57-67 | `Instr` and `Note` are `INSTR_NUMS[sInstr]` and `NOTE_NUMS[sNote]` and map back to the names; the colour is `COLOR_RGBS[sNamClr]` and the background is `GetHexStr` of it; the text is `sInstr + "\n" + sNote`; the player is the one given |
| MidiButton.MidiBtn.MousePress | S02_tMidiBtn/tMidiBtn.py:68-70 | the left button appends exactly `NoteOn(Instr, Note, 127)`; any other button appends nothing; every press does so, whatever came before |
| MidiButton.MidiBtn.MouseRelease | S02_tMidiBtn/tMidiBtn.py:71-73 | the left button appends exactly `NoteOff(Instr, Note, 127)`, with or without an earlier press; any other button appends nothing |
| Grid.PadCount | S08_tMidiGrid/tMidiGrid.py:82 | the number of pads is at most 32 and at most each list's length, and equal to one of them: min(32, #notes, #colours) |
| Grid.SortedNotesSpec | S08_tMidiGrid/tMidiGrid.py:76 | the notes taken number min(32, n), are in ascending order of number, form a sub-multiset of the items, and none is higher than any item left out; with at most 32 items, all of them are taken |
| Grid.SortedColorsSpec | S08_tMidiGrid/tMidiGrid.py:77 | the colour names taken number min(32, n), are in `str` order, form a sub-multiset of the names, and each comes before any name left out |
| Grid.SortedNotesOfAscending | S08_tMidiGrid/tMidiGrid.py:76 | items already in ascending order keep that order, and the first 32 are taken |
| Grid.SortedColorsOfFew | S08_tMidiGrid/tMidiGrid.py:77 | with at most 32 names, every name is taken, in ascending order |
| Grid.SlotsPairing | S08_tMidiGrid/tMidiGrid.py:82-84 | the k-th pad pairs the k-th note with the k-th colour; their number is min(32, #notes, #colours) |
| Grid.SlotsCells | S08_tMidiGrid/tMidiGrid.py:79-86 | every pad lies in the grid, at the cell whose row-major index is its position, and no two pads share a cell |
| Grid.CellFilled | S08_tMidiGrid/tMidiGrid.py:79-89 | a cell gets a pad exactly when its index row·8 + col is below the pad count, since the index advances for every cell |
| Grid.PositionsMatch | S08_tMidiGrid/tMidiGrid.py:79-81 | pads added at the row-major positions 0, 1, 2, ... sit at the cells of the slots with the same index |
| Grid.ConsecutiveNotes | S08_tMidiGrid/tMidiGrid.py:76 | items numbered base, base + 1, ... keep their order, and the first 32 are taken |
| Grid.ConsecutiveNotesKnown | S08_tMidiGrid/tMidiGrid.py:76 | of such items with distinct names, the k-th name taken looks up base + k |
| Grid.FewColorsKnown | S08_tMidiGrid/tMidiGrid.py:77 | with at most 32 items, every colour name taken is a key of the dict |
| Grid.KnownSlots | S08_tMidiGrid/tMidiGrid.py:79-89 | when both lists fill the grid with known names, every cell gets a pad and the k-th note looks up base + k |
| Grid.ShippedNotes | S08_tMidiGrid/tMidiGrid.py:76 | with the shipped table, the sorted notes are the first 32 items as they are listed |
| Grid.ShippedNotesKnown | S08_tMidiGrid/tMidiGrid.py:76 | the k-th shipped note taken is note 51 + k |
| Grid.ShippedColors | S08_tMidiGrid/tMidiGrid.py:77 | all 32 shipped colour names are taken, in ascending order |
| Grid.ShippedColorsKnown | S08_tMidiGrid/tMidiGrid.py:77 | each of them is a key of `COLOR_RGBS` |
| Grid.ShippedKnown | S08_tMidiGrid/tMidiGrid.py:76-89 | with the shipped tables all 32 cells get a pad, no name ends the program, and pad k plays note 51 + k, so notes 83..89 are unused |
| Grid.NewPad | S08_tMidiGrid/tMidiGrid.py:84 | a new accordion pad for the colour and note, on the grid's player, holding the instrument and note codes, the colour's triple and background, and the label those names resolve to |
| Grid.MidiGrid.constructor | S08_tMidiGrid/tMidiGrid.py:54-64 | the grid keeps the player and holds 32 pads, the k-th built and resolved for the k-th shipped slot: program 21, note 51 + k, the background of the k-th colour name in order |
| Grid.MidiGrid.InitUI | S08_tMidiGrid/tMidiGrid.py:66-89 | the layout holds 32 new pads, the k-th built from the k-th shipped note and colour at its cell; it plays program 21 (the accordion), note 51 + k, on that colour's background |
| Grid.MidiGrid.Place | S08_tMidiGrid/tMidiGrid.py:79-89 | the nested loops add one new pad per slot, in order, at the slot's cell, with the slot's colour and note and the codes, background and label they resolve to |
| Grid.MidiGrid.PlaceRow | S08_tMidiGrid/tMidiGrid.py:81-89 | one row's columns advance the index by 8 and extend the layout without changing the pads already placed |
| TextResize.Clamp | S06_tTxtReSzBtn/tTxtReSzBtn.py:110 | `max(lo, min(hi, x))` lies in [lo, hi], is x inside the range and the nearer end outside it |
| TextResize.FontSizeFor | S06_tTxtReSzBtn/tTxtReSzBtn.py:101-110 | there is a size exactly when the range is not empty |
| TextResize.LastFitRun | S06_tTxtReSzBtn/tTxtReSzBtn.py:101-107 | the scan ends at or after size − 1, every size up to its end fits, and the next one in range does not |
| TextResize.LastFitAtMisfit | S06_tTxtReSzBtn/tTxtReSzBtn.py:101-107 | a run of fitting sizes ending in a misfit makes the scan end one below the misfit |
| TextResize.LastFitAllFit | S06_tTxtReSzBtn/tTxtReSzBtn.py:101-104 | when every size fits, the scan ends at the maximum |
| TextResize.FontSizeSpec | S06_tTxtReSzBtn/tTxtReSzBtn.py:98-110 | the chosen size is in [MIN, MAX]; it is MIN when MIN does not fit; otherwise every size from MIN up to it fits, and the next one below MAX does not |
| TextResize.AllFitGivesMax | S06_tTxtReSzBtn/tTxtReSzBtn.py:101-110 | if every size fits, MAX is chosen |
| TextResize.FirstMisfitGivesPredecessor | S06_tTxtReSzBtn/tTxtReSzBtn.py:101-110 | otherwise the size chosen is one below the smallest misfit, or MIN when that misfit is MIN |
| TextResize.FitFontSize | S06_tTxtReSzBtn/tTxtReSzBtn.py:98-110 | the loop's result equals `FontSizeFor`; sizes are probed in increasing order from MIN, at most MAX − MIN + 1 of them, each but the last fitting, the last a misfit or MAX |
| TextResize.TxtReSzBtn.constructor | S06_tTxtReSzBtn/tTxtReSzBtn.py:44-62 | stores the range, font name, padding and text, with defaults 4, 50, `'Arial'` and 10, and fits the font to the widget |
| TextResize.TxtReSzBtn.UpdateText | S06_tTxtReSzBtn/tTxtReSzBtn.py:64-71 | changes the text and nothing else, the font included |
| TextResize.TxtReSzBtn.CalcFontSz | S06_tTxtReSzBtn/tTxtReSzBtn.py:74-112 | the font becomes the fitted size for the current text inside the widget less its padding, within [MIN, MAX]; the text and size stay |
| TextResize.TxtReSzBtn.ResizeEvent | S06_tTxtReSzBtn/tTxtReSzBtn.py:114-122 | the widget takes its new size and refits its font; the text stays |

## Left out

- `int()` is modelled for ASCII: whitespace, sign, the `0x` prefix and underscores between digits. Non-ASCII digits and whitespace are not modelled, nor bases other than 10 and 16, nor the limit on the number of digits.
- Bool, float and bytes values reaching `int()` are left out; the value datatype has None, int, str and tuple only.
- In `str()` of a tuple, a string element is always shown between single quotes, unescaped. Python's `repr` switches to double quotes or escapes characters for some strings; that is left out.
- `get_contrastive_text_color` (S00_Utilities/ClrUtils.py:1-4) is left out: it computes a floating-point luminance. The pad's text colour is therefore not part of its state; the pad keeps only the background.
- Qt and pygame I/O are left out: widgets, style sheets, size policies, row and column stretch, `show`, the event loop, the MIDI device, `set_instrument` and `sleep`. The player is a log of the messages it sends. The widget's size and Qt's text measurement are parameters.
- The report lines the player prints are left out. Their one effect kept is that both codes must be in the tables, since looking up an unknown code raises `KeyError`.
- `python -O`, which removes the `assert`s and so the not-found failures, is not modelled.
- `updateGridSize` and the grid's `resizeEvent` (S08_tMidiGrid/tMidiGrid.py:91-111) only resize widgets, so they are not part of this model.
- `tMidiBtnDlg` (S03_tMidiBtnDlg) is a dialog that is never connected to a pad, and the pad copies in S05 and S07 are not part of this model; the `main` demos are left out.
- The `super().__init__` and `super().resizeEvent` calls are left out.
- Sorting.Sort: Python's `sorted` is stable; no lemma states that the model's sort is. Stability matters only for repeated keys, and the grid's sort keys, the note numbers and the colour names, are distinct in the shipped tables.
- TextResize.TxtReSzBtn.constructor: it requires MIN ≤ MAX, because otherwise the scan never runs and `CalcFontSz` reads an unbound `font_size` (an `UnboundLocalError`). The pure `FontSizeFor` models that case as no size.
- Where the design description and the code differ, the model follows the code:
  - the pads keep no Idle/Sounding state, and presses and releases are not de-duplicated;
  - the font size is found by a linear scan, not a binary search;
  - pads have no `Update`;
  - the `kNamClr` docstring names the two colour tables' directions the other way round.

## Findings

| source | as written | input that shows it | evidently intended | confidence | as-written member | corrected member |
|---|---|---|---|---|---|---|
| S00_Utilities/ClrUtils.py:14-16 | each field is read with `int(_, 16)`, which also takes a sign, spaces and `0x` | `'#-10000'` gives `(-1, 0, 0)`, a triple outside 0..255 | a field is exactly two hexadecimal digits, so every component is in 0..255 | not executed | ClrUtils.SignedFieldAccepted | ClrUtils.StrictInRange |
