/** The colour table: 32 named colours as RGB triples, `COLOR_NAMES` from
    triple to name and its inverse `COLOR_RGBS` from name to triple. (The
    module's own description states the two directions the other way
    round; the definitions below follow the code.) */
module ColorTable {
  import opened Dicts
  import opened Rgb

  // The RGB constants, as the source names them.
  const RED: RGB := (255, 0, 0)
  const GREEN: RGB := (0, 255, 0)
  const BLUE: RGB := (0, 0, 255)
  const YELLOW: RGB := (255, 255, 0)
  const ORANGE: RGB := (255, 165, 0)
  const PURPLE: RGB := (128, 0, 128)
  const CYAN: RGB := (0, 255, 255)
  const MAGENTA: RGB := (255, 0, 255)
  const LIME: RGB := (191, 255, 0)
  const PINK: RGB := (255, 192, 203)
  const TEAL: RGB := (0, 128, 128)
  const LAVENDER: RGB := (230, 230, 250)
  const BROWN: RGB := (165, 42, 42)
  const BEIGE: RGB := (245, 245, 220)
  const MAROON: RGB := (128, 0, 0)
  const MINT: RGB := (189, 252, 201)
  const OLIVE: RGB := (128, 128, 0)
  const CORAL: RGB := (255, 127, 80)
  const NAVY: RGB := (0, 0, 128)
  const GREY: RGB := (128, 128, 128)
  const PEACH: RGB := (255, 229, 180)
  const TURQUOISE: RGB := (64, 224, 208)
  const SKY_BLUE: RGB := (135, 206, 235)
  const PLUM: RGB := (221, 160, 221)
  const GOLD: RGB := (255, 215, 0)
  const SILVER: RGB := (192, 192, 192)
  const BRONZE: RGB := (205, 127, 50)
  const COPPER: RGB := (184, 115, 51)
  const SALMON: RGB := (250, 128, 114)
  const KHAKI: RGB := (240, 230, 140)
  const IVORY: RGB := (255, 255, 240)
  const SCARLET: RGB := (255, 36, 0)

  /** The items of `COLOR_NAMES` (triple to name) in the order they are
      written, in two runs of 16. */
  const COLOR_NAMES_0: seq<(RGB, string)> := [
    (RED, "Red"), (GREEN, "Green"), (BLUE, "Blue"), (YELLOW, "Yellow"),
    (ORANGE, "Orange"), (PURPLE, "Purple"), (CYAN, "Cyan"), (MAGENTA, "Magenta"),
    (LIME, "Lime"), (PINK, "Pink"), (TEAL, "Teal"), (LAVENDER, "Lavender"),
    (BROWN, "Brown"), (BEIGE, "Beige"), (MAROON, "Maroon"), (MINT, "Mint")
  ]

  const COLOR_NAMES_1: seq<(RGB, string)> := [
    (OLIVE, "Olive"), (CORAL, "Coral"), (NAVY, "Navy"), (GREY, "Grey"),
    (PEACH, "Peach"), (TURQUOISE, "Turquoise"), (SKY_BLUE, "Sky Blue"), (PLUM, "Plum"),
    (GOLD, "Gold"), (SILVER, "Silver"), (BRONZE, "Bronze"), (COPPER, "Copper"),
    (SALMON, "Salmon"), (KHAKI, "Khaki"), (IVORY, "Ivory"), (SCARLET, "Scarlet")
  ]

  const COLOR_NAMES_ITEMS: seq<(RGB, string)> := COLOR_NAMES_0 + COLOR_NAMES_1

  /** `COLOR_NAMES`: RGB triple to colour name. */
  const COLOR_NAMES: map<RGB, string> := ToMap(COLOR_NAMES_ITEMS)

  /** `COLOR_RGBS`: the comprehension that turns every item round, colour
      name to RGB triple. */
  const COLOR_RGBS_ITEMS: seq<(string, RGB)> := Invert(COLOR_NAMES_ITEMS)
  const COLOR_RGBS: map<string, RGB> := ToMap(COLOR_RGBS_ITEMS)

  lemma Run0TriplesValid()
    ensures forall i :: 0 <= i < |COLOR_NAMES_0| ==> IsValid(COLOR_NAMES_0[i].0)
  {
  }

  lemma Run1TriplesValid()
    ensures forall i :: 0 <= i < |COLOR_NAMES_1| ==> IsValid(COLOR_NAMES_1[i].0)
  {
  }

  lemma Run0TriplesDistinct()
    ensures Distinct(Keys(COLOR_NAMES_0))
  {
  }

  lemma Run1TriplesDistinct()
    ensures Distinct(Keys(COLOR_NAMES_1))
  {
  }

  lemma Runs01TriplesDisjoint()
    ensures Disjoint(Keys(COLOR_NAMES_0), Keys(COLOR_NAMES_1))
  {
  }

  lemma Run0NamesDistinct()
    ensures Distinct(Values(COLOR_NAMES_0))
  {
  }

  lemma Run1NamesDistinct()
    ensures Distinct(Values(COLOR_NAMES_1))
  {
  }

  lemma Runs01NamesDisjoint()
    ensures Disjoint(Values(COLOR_NAMES_0), Values(COLOR_NAMES_1))
  {
  }

  /** The 32 triples are pairwise distinct. */
  lemma TriplesDistinct()
    ensures |COLOR_NAMES_ITEMS| == 32
    ensures Distinct(Keys(COLOR_NAMES_ITEMS))
  {
    Run0TriplesDistinct();
    Run1TriplesDistinct();
    Runs01TriplesDisjoint();
    KeysConcat(COLOR_NAMES_0, COLOR_NAMES_1);
    DistinctConcat(Keys(COLOR_NAMES_0), Keys(COLOR_NAMES_1));
  }

  /** The 32 names are pairwise distinct. */
  lemma NamesDistinct()
    ensures Distinct(Values(COLOR_NAMES_ITEMS))
  {
    Run0NamesDistinct();
    Run1NamesDistinct();
    Runs01NamesDisjoint();
    ValuesConcat(COLOR_NAMES_0, COLOR_NAMES_1);
    DistinctConcat(Values(COLOR_NAMES_0), Values(COLOR_NAMES_1));
  }

  /** Every listed triple has its three components in 0..255. */
  lemma ItemsValid()
    ensures forall i :: 0 <= i < |COLOR_NAMES_ITEMS| ==> IsValid(COLOR_NAMES_ITEMS[i].0)
  {
    Run0TriplesValid();
    Run1TriplesValid();
  }

  /** Both tables have 32 entries, and each undoes the other:
      `COLOR_RGBS[COLOR_NAMES[t]] == t` and `COLOR_NAMES[COLOR_RGBS[n]] == n`. */
  lemma RoundTrip()
    ensures |COLOR_NAMES| == 32 && |COLOR_RGBS| == 32
    ensures Undoes(COLOR_NAMES, COLOR_RGBS)
    ensures Undoes(COLOR_RGBS, COLOR_NAMES)
  {
    TriplesDistinct();
    NamesDistinct();
    InvertRoundTrip(COLOR_NAMES_ITEMS);
  }

  /** Every triple in either table is a valid RGB triple, so checking the
      colour of a known name never fails. */
  lemma TriplesValid()
    ensures forall t :: t in COLOR_NAMES ==> IsValid(t)
    ensures forall n :: n in COLOR_RGBS ==> IsValid(COLOR_RGBS[n])
  {
    ItemsValid();
    RoundTrip();
    forall t | t in COLOR_NAMES ensures IsValid(t) {
      var i := ToMapIndex(COLOR_NAMES_ITEMS, t);
    }
  }

  /** `COLOR_RGBS` lists the names in the order `COLOR_NAMES` lists them. */
  lemma RgbsItems()
    ensures COLOR_RGBS_ITEMS == Swapped(COLOR_NAMES_ITEMS)
    ensures Keys(COLOR_RGBS_ITEMS) == Values(COLOR_NAMES_ITEMS)
  {
    NamesDistinct();
    InvertInjective(COLOR_NAMES_ITEMS);
    SwappedKeys(COLOR_NAMES_ITEMS);
  }

  /** The directions of the two tables: `COLOR_NAMES` takes `RED` to `'Red'`
      and `COLOR_RGBS` takes `'Red'` to `RED`. */
  lemma RedBothWays()
    ensures RED in COLOR_NAMES && COLOR_NAMES[RED] == "Red"
    ensures "Red" in COLOR_RGBS && COLOR_RGBS["Red"] == RED == (255, 0, 0)
  {
    TriplesDistinct();
    ToMapAt(COLOR_NAMES_ITEMS, 0);
    RoundTrip();
  }
}
