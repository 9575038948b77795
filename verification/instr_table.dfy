/** The instrument table: General MIDI Level 1 program numbers, counted
    from 0, with their display names, and the table that turns a name back
    into its number. */
module InstrTable {
  import opened Dicts

  // Program numbers, one constant per instrument, as the source names them.
  const ACCORDION := 21
  const BANDONEON := 23
  const BRIGHT_PIANO := 1
  const CELESTA := 8
  const CHORUSED_PIANO := 5
  const CLAVINET := 7
  const DULCIMER := 15
  const ELECTRIC_PIANO := 2
  const GERMAN_HARPSICHORD := 6
  const GLOCKENSPIEL := 9
  const GRAND_PIANO := 0
  const HONKYTONK_PIANO := 3
  const MUSIC_BOX := 10
  const RHODES_PIANO := 4
  const VIBRAPHONE := 11
  const XYLOPHONE := 13
  const TUBULAR_BELLS := 14
  const HAMMOND_ORGAN := 16
  const PERCUSSIVE_ORGAN := 17
  const ROCK_ORGAN := 18
  const PIPE_ORGAN_AND_PEDALS := 19
  const REED_ORGAN := 20
  const HOHNER_HARMONICA := 22
  const NYLON_GUITAR := 24
  const STEEL_GUITAR := 25
  const JAZZ_GUITAR := 26
  const CLEAN_GUITAR := 27
  const GUITAR_MUTES := 28
  const STRAT_MARSHALL := 29
  const GARCIA_DIST_GUITAR := 30
  const GUITAR_HARMONICS := 31
  const ACOUSTIC_BASS := 32
  const FINGERED_BASS := 33
  const EPIPHONE_PICK_BASS := 34
  const FRETTLESS_BASS := 35
  const SLAP_BASS_1 := 36
  const SLAP_BASS_2 := 37
  const SYNTH_BASS_1 := 38
  const SYNTH_BASS_2 := 39
  const VIOLIN := 40
  const VIOLA := 41
  const CELLO := 42
  const CONTRABASS := 43
  const TREMELO_STRINGS := 44
  const PIZZICATO_STRINGS := 45
  const HARP := 46
  const TIMPANI_AND_ROLLS := 47
  const STRING_ENSEMBLE_1 := 48
  const STRING_ENSEMBLE_2 := 49
  const SYNTH_STRINGS_1 := 50
  const SYNTH_STRINGS_2 := 51
  const SYNTH_CHOIR_OOHS := 54
  const ORCHESTRA_HIT := 55
  const TRUMPET := 56
  const TROMBONE := 57
  const TUBA := 58
  const TRUMPET_CUP_MUTE := 59
  const FRENCH_HORN := 60
  const BRASS_SECTION := 61
  const SYNTH_BRASS_1 := 62
  const SYNTH_BRASS_2 := 63
  const SOPRANO_SAX := 64
  const ALTO_SAX := 65
  const BREATHY_TENOR_SAX := 66
  const BARITONE_SAX := 67
  const OBOE := 68
  const ENGLISH_HORN := 69
  const BASSOON := 70
  const CLARINET := 71
  const PICCOLO := 72
  const FLUTE := 73
  const RECORDER := 74
  const PAN_FLUTE := 75
  const BOTTLE_CHIFF := 76
  const SHAKUHACHI := 77
  const WHISTLE := 78
  const OCARINA := 79
  const LEAD_1_SQUARE := 80
  const LEAD_2_SAWTOOTH := 81
  const LEAD_3_CALLIOPE := 82
  const LEAD_4_CHIFF := 83
  const LEAD_5_CHARANG := 84
  const LEAD_6_VOICE := 85
  const LEAD_7_FIFTHS := 86
  const LEAD_8_BASSANDLEAD := 87
  const PAD_1_NEW_AGE := 88
  const PAD_2_WARM := 89
  const PAD_3_POLYSYNTH := 90
  const PAD_4_CHOIR := 91
  const PAD_5_BOWED := 92
  const PAD_6_METALLIC := 93
  const PAD_7_HALO := 94
  const PAD_8_SWEEP := 95
  const FX_1_RAIN := 96
  const FX_2_SOUNDTRACK := 97
  const FX_3_CRYSTAL := 98
  const FX_4_ATMOSPHERE := 99
  const FX_5_BRIGHTNESS := 100
  const FX_6_GOBLINS := 101
  const FX_7_ECHOES := 102
  const FX_8_SCIFI := 103
  const SITAR := 104
  const BANJO := 105
  const SHAMISEN := 106
  const KOTO := 107
  const KALIMBA := 108
  const BAGPIPE := 109
  const FIDDLE := 110
  const SHANAI := 111
  const TINKLE_BELL := 112
  const AGOGO := 113
  const STEEL_DRUM := 114
  const WOOD_BLOCK := 115
  const TAIKO_DRUM := 116
  const MELODIC_TOM := 117
  const SYNTH_DRUM := 118
  const REVERSE_CYMBAL := 119
  const GUITAR_FRET_NOISE := 120
  const BREATH_NOISE := 121
  const SEASHORE := 122
  const BIRD_TWEET := 123
  const TELEPHONE_RING := 124
  const HELICOPTER := 125
  const APPLAUSE := 126
  const GUN_SHOT := 127

  /** The items of `INSTR_NAMES` (number to name) in the order they are
      written, split into runs of 25 so that each run can be checked on its
      own. */
  const INSTR_NAMES_0: seq<(int, string)> := [
    (ACCORDION, "Accordion"), (BANDONEON, "Bandoneon"), (BRIGHT_PIANO, "Bright Piano"),
    (CELESTA, "Celesta"), (CHORUSED_PIANO, "Chorused Piano"), (CLAVINET, "Clavinet"),
    (DULCIMER, "Dulcimer"), (ELECTRIC_PIANO, "Electric Piano"), (GERMAN_HARPSICHORD, "German Harpsichord"),
    (GLOCKENSPIEL, "Glockenspiel"), (GRAND_PIANO, "Grand Piano"), (HONKYTONK_PIANO, "Honkytonk Piano"),
    (MUSIC_BOX, "Music Box"), (RHODES_PIANO, "Rhodes Piano"), (VIBRAPHONE, "Vibraphone"),
    (XYLOPHONE, "Xylophone"), (TUBULAR_BELLS, "Tubular Bells"), (HAMMOND_ORGAN, "Hammond Organ"),
    (PERCUSSIVE_ORGAN, "Percussive Organ"), (ROCK_ORGAN, "Rock Organ"), (PIPE_ORGAN_AND_PEDALS, "Pipe Organ & Pedals"),
    (REED_ORGAN, "Reed Organ"), (HOHNER_HARMONICA, "Hohner Harmonica"), (NYLON_GUITAR, "Nylon Guitar"),
    (STEEL_GUITAR, "Steel Guitar")
  ]

  const INSTR_NAMES_1: seq<(int, string)> := [
    (JAZZ_GUITAR, "Jazz Guitar"), (CLEAN_GUITAR, "Clean Guitar"), (GUITAR_MUTES, "Guitar Mutes"),
    (STRAT_MARSHALL, "Strat. Marshall"), (GARCIA_DIST_GUITAR, "Garcia Dist. Guitar"), (GUITAR_HARMONICS, "Guitar Harmonics"),
    (ACOUSTIC_BASS, "Acoustic Bass"), (FINGERED_BASS, "Fingered Bass"), (EPIPHONE_PICK_BASS, "Epiphone Pick Bass"),
    (FRETTLESS_BASS, "Frettless Bass"), (SLAP_BASS_1, "Slap Bass 1"), (SLAP_BASS_2, "Slap Bass 2"),
    (SYNTH_BASS_1, "Synth Bass 1"), (SYNTH_BASS_2, "Synth Bass 2"), (VIOLIN, "Violin"),
    (VIOLA, "Viola"), (CELLO, "Cello"), (CONTRABASS, "Contrabass"),
    (TREMELO_STRINGS, "Tremelo Strings"), (PIZZICATO_STRINGS, "Pizzicato Strings"), (HARP, "Harp"),
    (TIMPANI_AND_ROLLS, "Timpani and Rolls"), (STRING_ENSEMBLE_1, "String Ensemble 1"), (STRING_ENSEMBLE_2, "String Ensemble 2"),
    (SYNTH_STRINGS_1, "Synth Strings 1")
  ]

  const INSTR_NAMES_2: seq<(int, string)> := [
    (SYNTH_STRINGS_2, "Synth Strings 2"), (SYNTH_CHOIR_OOHS, "Synth Choir Oohs"), (ORCHESTRA_HIT, "Orchestra Hit"),
    (TRUMPET, "Trumpet"), (TROMBONE, "Trombone"), (TUBA, "Tuba"),
    (TRUMPET_CUP_MUTE, "Trumpet Cup Mute"), (FRENCH_HORN, "French Horn"), (BRASS_SECTION, "Brass Section"),
    (SYNTH_BRASS_1, "Synth Brass 1"), (SYNTH_BRASS_2, "Synth Brass 2"), (SOPRANO_SAX, "Soprano Sax"),
    (ALTO_SAX, "Alto Sax"), (BREATHY_TENOR_SAX, "Breathy Tenor Sax"), (BARITONE_SAX, "Baritone Sax"),
    (OBOE, "Oboe"), (ENGLISH_HORN, "English Horn"), (BASSOON, "Bassoon"),
    (CLARINET, "Clarinet"), (PICCOLO, "Piccolo"), (FLUTE, "Flute"),
    (RECORDER, "Recorder"), (PAN_FLUTE, "Pan Flute"), (BOTTLE_CHIFF, "Bottle Chiff"),
    (SHAKUHACHI, "Shakuhachi")
  ]

  const INSTR_NAMES_3: seq<(int, string)> := [
    (WHISTLE, "Whistle"), (OCARINA, "Ocarina"), (LEAD_1_SQUARE, "Lead 1 (Square)"),
    (LEAD_2_SAWTOOTH, "Lead 2 (Sawtooth)"), (LEAD_3_CALLIOPE, "Lead 3 (Calliope)"), (LEAD_4_CHIFF, "Lead 4 (Chiff)"),
    (LEAD_5_CHARANG, "Lead 5 (Charang)"), (LEAD_6_VOICE, "Lead 6 (Voice)"), (LEAD_7_FIFTHS, "Lead 7 (Fifths)"),
    (LEAD_8_BASSANDLEAD, "Lead 8 (Bass&Lead)"), (PAD_1_NEW_AGE, "Pad 1 (New Age)"), (PAD_2_WARM, "Pad 2 (Warm)"),
    (PAD_3_POLYSYNTH, "Pad 3 (Polysynth)"), (PAD_4_CHOIR, "Pad 4 (Choir)"), (PAD_5_BOWED, "Pad 5 (Bowed)"),
    (PAD_6_METALLIC, "Pad 6 (Metallic)"), (PAD_7_HALO, "Pad 7 (Halo)"), (PAD_8_SWEEP, "Pad 8 (Sweep)"),
    (FX_1_RAIN, "FX 1 (Rain)"), (FX_2_SOUNDTRACK, "FX 2 (Soundtrack)"), (FX_3_CRYSTAL, "FX 3 (Crystal)"),
    (FX_4_ATMOSPHERE, "FX 4 (Atmosphere)"), (FX_5_BRIGHTNESS, "FX 5 (Brightness)"), (FX_6_GOBLINS, "FX 6 (Goblins)"),
    (FX_7_ECHOES, "FX 7 (Echoes)")
  ]

  const INSTR_NAMES_4: seq<(int, string)> := [
    (FX_8_SCIFI, "FX 8 (Sci-Fi)"), (SITAR, "Sitar"), (BANJO, "Banjo"),
    (SHAMISEN, "Shamisen"), (KOTO, "Koto"), (KALIMBA, "Kalimba"),
    (BAGPIPE, "Bagpipe"), (FIDDLE, "Fiddle"), (SHANAI, "Shanai"),
    (TINKLE_BELL, "Tinkle Bell"), (AGOGO, "Agogo"), (STEEL_DRUM, "Steel Drum"),
    (WOOD_BLOCK, "Wood Block"), (TAIKO_DRUM, "Taiko Drum"), (MELODIC_TOM, "Melodic Tom"),
    (SYNTH_DRUM, "Synth Drum"), (REVERSE_CYMBAL, "Reverse Cymbal"), (GUITAR_FRET_NOISE, "Guitar Fret Noise"),
    (BREATH_NOISE, "Breath Noise"), (SEASHORE, "Seashore"), (BIRD_TWEET, "Bird Tweet"),
    (TELEPHONE_RING, "Telephone Ring"), (HELICOPTER, "Helicopter"), (APPLAUSE, "Applause"),
    (GUN_SHOT, "Gun Shot")
  ]

  const INSTR_NAMES_ITEMS: seq<(int, string)> :=
    INSTR_NAMES_0 + INSTR_NAMES_1 + INSTR_NAMES_2 + INSTR_NAMES_3 + INSTR_NAMES_4

  /** `INSTR_NAMES`: program number to display name. */
  const INSTR_NAMES: map<int, string> := ToMap(INSTR_NAMES_ITEMS)

  /** `INSTR_NUMS`: the comprehension that turns every item round. */
  const INSTR_NUMS: map<string, int> := ToMap(Invert(INSTR_NAMES_ITEMS))

  /** A General MIDI program number that the table lists: 0..127 except the
      three numbers that have no entry. */
  predicate ValidCode(c: int) {
    0 <= c < 128 && c != 12 && c != 52 && c != 53
  }

  lemma Run0CodesDistinct()
    ensures Distinct(Keys(INSTR_NAMES_0))
  {
  }

  lemma Run0NamesDistinct()
    ensures Distinct(Values(INSTR_NAMES_0))
  {
  }

  lemma Run0CodesValid()
    ensures forall i :: 0 <= i < |INSTR_NAMES_0| ==> ValidCode(INSTR_NAMES_0[i].0)
  {
  }

  lemma Run1CodesDistinct()
    ensures Distinct(Keys(INSTR_NAMES_1))
  {
  }

  lemma Run1NamesDistinct()
    ensures Distinct(Values(INSTR_NAMES_1))
  {
  }

  lemma Run1CodesValid()
    ensures forall i :: 0 <= i < |INSTR_NAMES_1| ==> ValidCode(INSTR_NAMES_1[i].0)
  {
  }

  lemma Run2CodesDistinct()
    ensures Distinct(Keys(INSTR_NAMES_2))
  {
  }

  lemma Run2NamesDistinct()
    ensures Distinct(Values(INSTR_NAMES_2))
  {
  }

  lemma Run2CodesValid()
    ensures forall i :: 0 <= i < |INSTR_NAMES_2| ==> ValidCode(INSTR_NAMES_2[i].0)
  {
  }

  lemma Run3CodesDistinct()
    ensures Distinct(Keys(INSTR_NAMES_3))
  {
  }

  lemma Run3NamesDistinct()
    ensures Distinct(Values(INSTR_NAMES_3))
  {
  }

  lemma Run3CodesValid()
    ensures forall i :: 0 <= i < |INSTR_NAMES_3| ==> ValidCode(INSTR_NAMES_3[i].0)
  {
  }

  lemma Run4CodesDistinct()
    ensures Distinct(Keys(INSTR_NAMES_4))
  {
  }

  lemma Run4NamesDistinct()
    ensures Distinct(Values(INSTR_NAMES_4))
  {
  }

  lemma Run4CodesValid()
    ensures forall i :: 0 <= i < |INSTR_NAMES_4| ==> ValidCode(INSTR_NAMES_4[i].0)
  {
  }

  lemma Runs01CodesDisjoint()
    ensures Disjoint(Keys(INSTR_NAMES_0), Keys(INSTR_NAMES_1))
  {
  }

  lemma Runs01NamesDisjoint()
    ensures Disjoint(Values(INSTR_NAMES_0), Values(INSTR_NAMES_1))
  {
  }

  lemma Runs02CodesDisjoint()
    ensures Disjoint(Keys(INSTR_NAMES_0), Keys(INSTR_NAMES_2))
  {
  }

  lemma Runs02NamesDisjoint()
    ensures Disjoint(Values(INSTR_NAMES_0), Values(INSTR_NAMES_2))
  {
  }

  lemma Runs03CodesDisjoint()
    ensures Disjoint(Keys(INSTR_NAMES_0), Keys(INSTR_NAMES_3))
  {
  }

  lemma Runs03NamesDisjoint()
    ensures Disjoint(Values(INSTR_NAMES_0), Values(INSTR_NAMES_3))
  {
  }

  lemma Runs04CodesDisjoint()
    ensures Disjoint(Keys(INSTR_NAMES_0), Keys(INSTR_NAMES_4))
  {
  }

  lemma Runs04NamesDisjoint()
    ensures Disjoint(Values(INSTR_NAMES_0), Values(INSTR_NAMES_4))
  {
  }

  lemma Runs12CodesDisjoint()
    ensures Disjoint(Keys(INSTR_NAMES_1), Keys(INSTR_NAMES_2))
  {
  }

  lemma Runs12NamesDisjoint()
    ensures Disjoint(Values(INSTR_NAMES_1), Values(INSTR_NAMES_2))
  {
  }

  lemma Runs13CodesDisjoint()
    ensures Disjoint(Keys(INSTR_NAMES_1), Keys(INSTR_NAMES_3))
  {
  }

  lemma Runs13NamesDisjoint()
    ensures Disjoint(Values(INSTR_NAMES_1), Values(INSTR_NAMES_3))
  {
  }

  lemma Runs14CodesDisjoint()
    ensures Disjoint(Keys(INSTR_NAMES_1), Keys(INSTR_NAMES_4))
  {
  }

  lemma Runs14NamesDisjoint()
    ensures Disjoint(Values(INSTR_NAMES_1), Values(INSTR_NAMES_4))
  {
  }

  lemma Runs23CodesDisjoint()
    ensures Disjoint(Keys(INSTR_NAMES_2), Keys(INSTR_NAMES_3))
  {
  }

  lemma Runs23NamesDisjoint()
    ensures Disjoint(Values(INSTR_NAMES_2), Values(INSTR_NAMES_3))
  {
  }

  lemma Runs24CodesDisjoint()
    ensures Disjoint(Keys(INSTR_NAMES_2), Keys(INSTR_NAMES_4))
  {
  }

  lemma Runs24NamesDisjoint()
    ensures Disjoint(Values(INSTR_NAMES_2), Values(INSTR_NAMES_4))
  {
  }

  lemma Runs34CodesDisjoint()
    ensures Disjoint(Keys(INSTR_NAMES_3), Keys(INSTR_NAMES_4))
  {
  }

  lemma Runs34NamesDisjoint()
    ensures Disjoint(Values(INSTR_NAMES_3), Values(INSTR_NAMES_4))
  {
  }

  /** Five runs, none with a repeat and no two sharing an element, join into
      a sequence without repeats. */
  lemma DistinctJoin<T>(a: seq<T>, b: seq<T>, c: seq<T>, d: seq<T>, e: seq<T>)
    requires Distinct(a) && Distinct(b) && Distinct(c) && Distinct(d) && Distinct(e)
    requires Disjoint(a, b) && Disjoint(a, c) && Disjoint(a, d) && Disjoint(a, e)
    requires Disjoint(b, c) && Disjoint(b, d) && Disjoint(b, e)
    requires Disjoint(c, d) && Disjoint(c, e) && Disjoint(d, e)
    ensures Distinct(a + b + c + d + e)
  {
    DistinctConcat(a, b);
    DisjointConcat(a, b, c);
    DistinctConcat(a + b, c);
    DisjointConcat(a, b, d);
    DisjointConcat(a + b, c, d);
    DistinctConcat(a + b + c, d);
    DisjointConcat(a, b, e);
    DisjointConcat(a + b, c, e);
    DisjointConcat(a + b + c, d, e);
    DistinctConcat(a + b + c + d, e);
  }

  lemma ItemsKeys()
    ensures Keys(INSTR_NAMES_ITEMS)
         == Keys(INSTR_NAMES_0) + Keys(INSTR_NAMES_1) + Keys(INSTR_NAMES_2)
          + Keys(INSTR_NAMES_3) + Keys(INSTR_NAMES_4)
  {
    KeysConcat(INSTR_NAMES_0, INSTR_NAMES_1);
    KeysConcat(INSTR_NAMES_0 + INSTR_NAMES_1, INSTR_NAMES_2);
    KeysConcat(INSTR_NAMES_0 + INSTR_NAMES_1 + INSTR_NAMES_2, INSTR_NAMES_3);
    KeysConcat(INSTR_NAMES_0 + INSTR_NAMES_1 + INSTR_NAMES_2 + INSTR_NAMES_3, INSTR_NAMES_4);
  }

  lemma ItemsValues()
    ensures Values(INSTR_NAMES_ITEMS)
         == Values(INSTR_NAMES_0) + Values(INSTR_NAMES_1) + Values(INSTR_NAMES_2)
          + Values(INSTR_NAMES_3) + Values(INSTR_NAMES_4)
  {
    ValuesConcat(INSTR_NAMES_0, INSTR_NAMES_1);
    ValuesConcat(INSTR_NAMES_0 + INSTR_NAMES_1, INSTR_NAMES_2);
    ValuesConcat(INSTR_NAMES_0 + INSTR_NAMES_1 + INSTR_NAMES_2, INSTR_NAMES_3);
    ValuesConcat(INSTR_NAMES_0 + INSTR_NAMES_1 + INSTR_NAMES_2 + INSTR_NAMES_3, INSTR_NAMES_4);
  }

  /** The 125 program numbers are pairwise distinct. */
  lemma CodesDistinct()
    ensures |INSTR_NAMES_ITEMS| == 125
    ensures Distinct(Keys(INSTR_NAMES_ITEMS))
  {
    Run0CodesDistinct(); Run1CodesDistinct(); Run2CodesDistinct();
    Run3CodesDistinct(); Run4CodesDistinct();
    Runs01CodesDisjoint(); Runs02CodesDisjoint(); Runs03CodesDisjoint(); Runs04CodesDisjoint();
    Runs12CodesDisjoint(); Runs13CodesDisjoint(); Runs14CodesDisjoint();
    Runs23CodesDisjoint(); Runs24CodesDisjoint(); Runs34CodesDisjoint();
    ItemsKeys();
    DistinctJoin(Keys(INSTR_NAMES_0), Keys(INSTR_NAMES_1), Keys(INSTR_NAMES_2),
                 Keys(INSTR_NAMES_3), Keys(INSTR_NAMES_4));
  }

  /** The 125 display names are pairwise distinct. */
  lemma NamesDistinct()
    ensures Distinct(Values(INSTR_NAMES_ITEMS))
  {
    Run0NamesDistinct(); Run1NamesDistinct(); Run2NamesDistinct();
    Run3NamesDistinct(); Run4NamesDistinct();
    Runs01NamesDisjoint(); Runs02NamesDisjoint(); Runs03NamesDisjoint(); Runs04NamesDisjoint();
    Runs12NamesDisjoint(); Runs13NamesDisjoint(); Runs14NamesDisjoint();
    Runs23NamesDisjoint(); Runs24NamesDisjoint(); Runs34NamesDisjoint();
    ItemsValues();
    DistinctJoin(Values(INSTR_NAMES_0), Values(INSTR_NAMES_1), Values(INSTR_NAMES_2),
                 Values(INSTR_NAMES_3), Values(INSTR_NAMES_4));
  }

  /** Every listed item carries a program number in 0..127 other than 12, 52
      and 53. */
  lemma ItemsValid()
    ensures forall i :: 0 <= i < |INSTR_NAMES_ITEMS| ==> ValidCode(INSTR_NAMES_ITEMS[i].0)
  {
    Run0CodesValid(); Run1CodesValid(); Run2CodesValid(); Run3CodesValid(); Run4CodesValid();
  }

  /** Every number in `INSTR_NAMES` is a program number in 0..127, and 12, 52
      and 53 have no entry. */
  lemma CodesValid()
    ensures forall c :: c in INSTR_NAMES ==> ValidCode(c)
    ensures 12 !in INSTR_NAMES && 52 !in INSTR_NAMES && 53 !in INSTR_NAMES
  {
    ItemsValid();
    forall c | c in INSTR_NAMES ensures ValidCode(c) {
      var i := ToMapIndex(INSTR_NAMES_ITEMS, c);
    }
  }

  /** Both tables have 125 entries, and each undoes the other:
      `INSTR_NUMS[INSTR_NAMES[c]] == c` and `INSTR_NAMES[INSTR_NUMS[n]] == n`. */
  lemma RoundTrip()
    ensures |INSTR_NAMES| == 125 && |INSTR_NUMS| == 125
    ensures Undoes(INSTR_NAMES, INSTR_NUMS)
    ensures Undoes(INSTR_NUMS, INSTR_NAMES)
  {
    CodesDistinct();
    NamesDistinct();
    InvertRoundTrip(INSTR_NAMES_ITEMS);
  }

  /** `'Accordion'` is program number 21, and back. */
  lemma AccordionIs21()
    ensures "Accordion" in INSTR_NUMS && INSTR_NUMS["Accordion"] == ACCORDION == 21
    ensures 21 in INSTR_NAMES && INSTR_NAMES[21] == "Accordion"
  {
    CodesDistinct();
    ToMapAt(INSTR_NAMES_ITEMS, 0);
    RoundTrip();
  }
}
