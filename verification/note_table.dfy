/** The note table: names of the 39 notes a pad can play and their MIDI 1.0
    note numbers (60 is middle C), and the table that turns a number back into
    its name. */
module NoteTable {
  import opened Dicts

  // Note numbers, one constant per note, as the source names them.
  const Bass_D_SHARP_E_FLAT := 51
  const Bass_E := 52
  const Bass_F := 53
  const Bass_F_SHARP_G_FLAT := 54
  const Middle_G := 55
  const Middle_G_SHARP_A_FLAT := 56
  const Middle_A := 57
  const Middle_A_SHARP_B_FLAT := 58
  const Middle_B := 59
  const Middle_C := 60
  const Middle_C_SHARP_D_FLAT := 61
  const Middle_D := 62
  const Middle_D_SHARP_E_FLAT := 63
  const Middle_E := 64
  const Middle_F := 65
  const Treble_F_SHARP_G_FLAT := 66
  const Treble_G := 67
  const Treble_G_SHARP_A_FLAT := 68
  const Treble_A := 69
  const Treble_A_SHARP_B_FLAT := 70
  const Treble_B := 71
  const Treble_C := 72
  const Treble_C_SHARP_D_FLAT := 73
  const Treble_D := 74
  const Treble_D_SHARP_E_FLAT := 75
  const Treble_E := 76
  const Treble_F := 77
  const High_F_SHARP_G_FLAT := 78
  const High_G := 79
  const High_G_SHARP_A_FLAT := 80
  const High_A := 81
  const High_A_SHARP_B_FLAT := 82
  const High_B := 83
  const High_C := 84
  const High_C_SHARP_D_FLAT := 85
  const High_D := 86
  const High_D_SHARP_E_FLAT := 87
  const High_E := 88
  const High_F := 89

  /** The items of `NOTE_NUMS` (name to number) in the order they are
      written, in two runs. The B-natural names are written with a flat sign
      (`Middle_♭`, `Treble_♭`, `High_♭`), and the model keeps them so. */
  const NOTE_NUMS_0: seq<(string, int)> := [
    ("Bass_D♯/E♭", Bass_D_SHARP_E_FLAT), ("Bass_E", Bass_E), ("Bass_F", Bass_F),
    ("Bass_F♯/G♭", Bass_F_SHARP_G_FLAT), ("Middle_G", Middle_G), ("Middle_G♯/A♭", Middle_G_SHARP_A_FLAT),
    ("Middle_A", Middle_A), ("Middle_A♯/B♭", Middle_A_SHARP_B_FLAT), ("Middle_♭", Middle_B),
    ("Middle_C", Middle_C), ("Middle_C♯/D♭", Middle_C_SHARP_D_FLAT), ("Middle_D", Middle_D),
    ("Middle_D♯/E♭", Middle_D_SHARP_E_FLAT), ("Middle_E", Middle_E), ("Middle_F", Middle_F),
    ("Treble_F♯/G♭", Treble_F_SHARP_G_FLAT), ("Treble_G", Treble_G), ("Treble_G♯/A♭", Treble_G_SHARP_A_FLAT),
    ("Treble_A", Treble_A), ("Treble_A♯/B♭", Treble_A_SHARP_B_FLAT)
  ]

  const NOTE_NUMS_1: seq<(string, int)> := [
    ("Treble_♭", Treble_B), ("Treble_C", Treble_C), ("Treble_C♯/D♭", Treble_C_SHARP_D_FLAT),
    ("Treble_D", Treble_D), ("Treble_D♯/E♭", Treble_D_SHARP_E_FLAT), ("Treble_E", Treble_E),
    ("Treble_F", Treble_F), ("High_F♯/G♭", High_F_SHARP_G_FLAT), ("High_G", High_G),
    ("High_G♯/A♭", High_G_SHARP_A_FLAT), ("High_A", High_A), ("High_A♯/B♭", High_A_SHARP_B_FLAT),
    ("High_♭", High_B), ("High_C", High_C), ("High_C♯/D♭", High_C_SHARP_D_FLAT),
    ("High_D", High_D), ("High_D♯/E♭", High_D_SHARP_E_FLAT), ("High_E", High_E),
    ("High_F", High_F)
  ]

  const NOTE_NUMS_ITEMS: seq<(string, int)> := NOTE_NUMS_0 + NOTE_NUMS_1

  /** `NOTE_NUMS`: note name to note number. */
  const NOTE_NUMS: map<string, int> := ToMap(NOTE_NUMS_ITEMS)

  /** `NOTE_NAMES`: the comprehension that turns every item round. */
  const NOTE_NAMES: map<int, string> := ToMap(Invert(NOTE_NUMS_ITEMS))

  /** The lowest and highest note number. */
  const LOWEST_NOTE := 51
  const HIGHEST_NOTE := 89

  lemma Run0Numbers()
    ensures forall i :: 0 <= i < |NOTE_NUMS_0| ==> NOTE_NUMS_0[i].1 == LOWEST_NOTE + i
  {
  }

  lemma Run1Numbers()
    ensures forall i :: 0 <= i < |NOTE_NUMS_1| ==> NOTE_NUMS_1[i].1 == LOWEST_NOTE + 20 + i
  {
  }

  lemma Run0NamesDistinct()
    ensures Distinct(Keys(NOTE_NUMS_0))
  {
  }

  lemma Run1NamesDistinct()
    ensures Distinct(Keys(NOTE_NUMS_1))
  {
  }

  lemma Runs01NamesDisjoint()
    ensures Disjoint(Keys(NOTE_NUMS_0), Keys(NOTE_NUMS_1))
  {
  }

  /** The items are written in ascending order of number, one per number
      from 51 to 89. */
  lemma NumbersAscending()
    ensures |NOTE_NUMS_ITEMS| == HIGHEST_NOTE - LOWEST_NOTE + 1 == 39
    ensures forall i :: 0 <= i < |NOTE_NUMS_ITEMS| ==> NOTE_NUMS_ITEMS[i].1 == LOWEST_NOTE + i
  {
    Run0Numbers();
    Run1Numbers();
  }

  /** No note number is listed twice. */
  lemma NumbersDistinct()
    ensures Distinct(Values(NOTE_NUMS_ITEMS))
  {
    NumbersAscending();
  }

  /** No note name is listed twice. */
  lemma NamesDistinct()
    ensures Distinct(Keys(NOTE_NUMS_ITEMS))
  {
    Run0NamesDistinct();
    Run1NamesDistinct();
    Runs01NamesDisjoint();
    KeysConcat(NOTE_NUMS_0, NOTE_NUMS_1);
    DistinctConcat(Keys(NOTE_NUMS_0), Keys(NOTE_NUMS_1));
  }

  /** Both tables have 39 entries, and each undoes the other:
      `NOTE_NAMES[NOTE_NUMS[n]] == n` and `NOTE_NUMS[NOTE_NAMES[c]] == c`. */
  lemma RoundTrip()
    ensures |NOTE_NUMS| == 39 && |NOTE_NAMES| == 39
    ensures Undoes(NOTE_NUMS, NOTE_NAMES)
    ensures Undoes(NOTE_NAMES, NOTE_NUMS)
  {
    NumbersAscending();
    NamesDistinct();
    NumbersDistinct();
    InvertRoundTrip(NOTE_NUMS_ITEMS);
  }

  /** The numbers in `NOTE_NAMES` are exactly 51..89. */
  lemma NumbersExactly()
    ensures forall c :: c in NOTE_NAMES <==> LOWEST_NOTE <= c <= HIGHEST_NOTE
  {
    NumbersAscending();
    NumbersDistinct();
    InvertInjective(NOTE_NUMS_ITEMS);
    ToMapKeys(Swapped(NOTE_NUMS_ITEMS));
    forall c | LOWEST_NOTE <= c <= HIGHEST_NOTE ensures c in NOTE_NAMES {
      assert Swapped(NOTE_NUMS_ITEMS)[c - LOWEST_NOTE].0 == c;
    }
  }

  /** The name of note number `51 + i` is the `i`-th name listed. */
  lemma NameAt(i: int)
    requires 0 <= i < |NOTE_NUMS_ITEMS|
    ensures LOWEST_NOTE + i in NOTE_NAMES
    ensures NOTE_NAMES[LOWEST_NOTE + i] == NOTE_NUMS_ITEMS[i].0
  {
    NumbersAscending();
    NumbersDistinct();
    InvertInjective(NOTE_NUMS_ITEMS);
    SwappedKeys(NOTE_NUMS_ITEMS);
    ToMapAt(Swapped(NOTE_NUMS_ITEMS), i);
  }

  /** `'Middle_C'` is note 60, and back. */
  lemma MiddleCIs60()
    ensures "Middle_C" in NOTE_NUMS && NOTE_NUMS["Middle_C"] == Middle_C == 60
    ensures 60 in NOTE_NAMES && NOTE_NAMES[60] == "Middle_C"
  {
    NameAt(9);
    NamesDistinct();
    ToMapAt(NOTE_NUMS_ITEMS, 9);
  }

  /** The three B-natural notes keep the names they are written with, and by
      ascending number the first note is `'Bass_D♯/E♭'` and the last `'High_F'`. */
  lemma NamesVerbatim()
    ensures 59 in NOTE_NAMES && NOTE_NAMES[59] == "Middle_♭"
    ensures 71 in NOTE_NAMES && NOTE_NAMES[71] == "Treble_♭"
    ensures 83 in NOTE_NAMES && NOTE_NAMES[83] == "High_♭"
    ensures LOWEST_NOTE in NOTE_NAMES && NOTE_NAMES[LOWEST_NOTE] == "Bass_D♯/E♭"
    ensures HIGHEST_NOTE in NOTE_NAMES && NOTE_NAMES[HIGHEST_NOTE] == "High_F"
  {
    NameAt(8);
    NameAt(20);
    NameAt(32);
    NameAt(0);
    NameAt(38);
  }
}
