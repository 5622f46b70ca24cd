/**
 * Spelled pitches and music21-style interval names.
 *
 * A pitch is a letter (C=0 .. B=6), a chromatic alteration (sharps
 * positive, flats negative) and an octave.  Pitch space `Ps` and pitch
 * class follow music21: C4 is 60.  Interval names are computed from the
 * letter distance and the semitone distance, reduced to one octave and
 * undirected, as music21's `Interval.simpleName` does; the rule engine
 * compares these names (not semitone counts) to recognise fifths and
 * octaves.
 */
module Pitches {

  /** The seven note letters C D E F G A B, numbered 0..6. */
  type Letter = x: int | 0 <= x < 7

  /** Semitones above C of the natural note of each letter (the major scale). */
  function NaturalOffset(l: Letter): (r: int)
    ensures 0 <= r <= 11
  {
    [0, 2, 4, 5, 7, 9, 11][l]
  }

  /** A note name without octave, such as a chord root: `C`, `F#`, `B-`. */
  datatype NoteName = NoteName(letter: Letter, alter: int)

  /** A note with octave, such as `G4` or `B-2`. */
  datatype Pitch = Pitch(letter: Letter, alter: int, octave: int)

  function Name(p: Pitch): NoteName {
    NoteName(p.letter, p.alter)
  }

  function AtOctave(n: NoteName, octave: int): Pitch {
    Pitch(n.letter, n.alter, octave)
  }

  /** music21's `ps`: 60 for C4, one unit per semitone. */
  function Ps(p: Pitch): int {
    12 * (p.octave + 1) + NaturalOffset(p.letter) + p.alter
  }

  /** Pitch class of a note name, 0..11 (C = 0). */
  function NameClass(n: NoteName): (r: int)
    ensures 0 <= r < 12
  {
    (NaturalOffset(n.letter) + n.alter) % 12
  }

  /** Pitch class of a pitch: its pitch space modulo 12. */
  function PitchClass(p: Pitch): (r: int)
    ensures 0 <= r < 12
    ensures r == NameClass(Name(p))
  {
    ShiftByOctaves(NaturalOffset(p.letter) + p.alter, p.octave + 1);
    Ps(p) % 12
  }

  /** Adding whole octaves never changes a class modulo 12. */
  lemma ShiftByOctaves(x: int, k: int)
    ensures (12 * k + x) % 12 == x % 12
  {
  }

  /** Letters counted from C0: the diatonic position music21 uses for generic intervals. */
  function DiatonicNumber(p: Pitch): int {
    p.letter + 7 * p.octave
  }

  function Abs(x: int): (r: int)
    ensures r >= 0 && (r == x || r == -x)
  {
    if x < 0 then -x else x
  }

  /** The same pitch `k` octaves higher (lower when `k` is negative). */
  function OctavesUp(p: Pitch, k: int): (r: Pitch)
    ensures Ps(r) == Ps(p) + 12 * k
    ensures DiatonicNumber(r) == DiatonicNumber(p) + 7 * k
    ensures Name(r) == Name(p)
  {
    Pitch(p.letter, p.alter, p.octave + k)
  }

  /**
   * The pitch `steps` letters and `semis` semitones away from `p`,
   * spelled on the letter reached: music21's `transpose` by an interval
   * whose generic size is `steps` and whose width is `semis`.
   */
  function Transpose(p: Pitch, steps: int, semis: int): (r: Pitch)
    ensures DiatonicNumber(r) == DiatonicNumber(p) + steps
    ensures Ps(r) == Ps(p) + semis
  {
    var dn := DiatonicNumber(p) + steps;
    var l: Letter := dn % 7;
    var o := dn / 7;
    Pitch(l, Ps(p) + semis - 12 * (o + 1) - NaturalOffset(l), o)
  }

  /** Transposition of a note name (computed from octave 4; the octave is then dropped). */
  function TransposeName(n: NoteName, steps: int, semis: int): (r: NoteName)
    ensures NameClass(r) == (NameClass(n) + semis) % 12
  {
    var p := AtOctave(n, 4);
    var q := Transpose(p, steps, semis);
    assert PitchClass(q) == (Ps(p) + semis) % 12;
    ShiftByOctaves(NaturalOffset(n.letter) + n.alter + semis, 5);
    ShiftByOctaves(NameClass(n) + semis, (NaturalOffset(n.letter) + n.alter) / 12);
    Name(q)
  }

  // ---------------------------------------------------------------
  // Interval names
  // ---------------------------------------------------------------

  /** Interval quality: perfect, major, minor, or augmented/diminished `times` times over. */
  datatype Specifier = Perfect | Major | Minor | Augmented(times: nat) | Diminished(times: nat)

  /** A simple interval name such as P5 (`IntervalName(Perfect, 5)`), m3 or d5. */
  datatype IntervalName = IntervalName(spec: Specifier, number: int)

  const P1 := IntervalName(Perfect, 1)
  const P4 := IntervalName(Perfect, 4)
  const P5 := IntervalName(Perfect, 5)
  const A5 := IntervalName(Augmented(1), 5)
  const D5 := IntervalName(Diminished(1), 5)
  const M3 := IntervalName(Major, 3)
  const m3 := IntervalName(Minor, 3)
  const A3 := IntervalName(Augmented(1), 3)

  /** Unisons, fourths and fifths take the perfect series of qualities. */
  predicate IsPerfectType(simple: int) {
    simple == 1 || simple == 4 || simple == 5
  }

  /** Generic size of the undirected interval from `p` to `q` (1 = unison, 8 = octave, ...). */
  function GenericSize(p: Pitch, q: Pitch): (r: int)
    ensures r >= 1
  {
    Abs(DiatonicNumber(q) - DiatonicNumber(p)) + 1
  }

  /**
   * Semitones measured in the direction of the letters: upward width of
   * the interval when `q`'s letter is above `p`'s, downward width when it
   * is below, and the absolute width for a unison of letters.
   */
  function OrientedSemitones(p: Pitch, q: Pitch): int {
    var ds := DiatonicNumber(q) - DiatonicNumber(p);
    var semis := Ps(q) - Ps(p);
    if ds > 0 then semis else if ds < 0 then -semis else Abs(semis)
  }

  /**
   * The specifier for a generic interval whose width exceeds (or falls
   * short of) the major/perfect width by `deviation` semitones.
   */
  function SpecifierOf(simple: int, deviation: int): (r: Specifier)
    ensures r == Perfect ==> IsPerfectType(simple) && deviation == 0
    ensures r == Major ==> !IsPerfectType(simple) && deviation == 0
    ensures r == Minor ==> !IsPerfectType(simple) && deviation == -1
    ensures r.Augmented? ==> r.times >= 1 && r.times == deviation
  {
    if IsPerfectType(simple) then
      if deviation == 0 then Perfect
      else if deviation > 0 then Augmented(deviation)
      else Diminished(-deviation)
    else
      if deviation == 0 then Major
      else if deviation == -1 then Minor
      else if deviation > 0 then Augmented(deviation)
      else Diminished(-deviation - 1)
  }

  /** The simple name of an interval of generic size `g` spanning `oriented` semitones. */
  function NameOfSize(g: int, oriented: int): (r: IntervalName)
    requires g >= 1
    ensures 1 <= r.number <= 7
    ensures r.number == (g - 1) % 7 + 1
  {
    var simple := (g - 1) % 7 + 1;
    var normal := NaturalOffset(simple - 1) + 12 * ((g - 1) / 7);
    IntervalName(SpecifierOf(simple, oriented - normal), simple)
  }

  /** music21's `simpleName`, undirected: octaves and their compounds reduce to 1. */
  function SimpleName(p: Pitch, q: Pitch): (r: IntervalName)
    ensures 1 <= r.number <= 7
  {
    NameOfSize(GenericSize(p, q), OrientedSemitones(p, q))
  }

  /** `is_perfect_fifth`: the simple name is P5 (harmonic_rules.py:471-491). */
  predicate IsPerfectFifth(p: Pitch, q: Pitch) {
    SimpleName(p, q) == P5
  }

  /** `is_augmented_fifth`: the simple name is A5. */
  predicate IsAugmentedFifth(p: Pitch, q: Pitch) {
    SimpleName(p, q) == A5
  }

  /** `is_diminished_fifth`: the simple name is d5. */
  predicate IsDiminishedFifth(p: Pitch, q: Pitch) {
    SimpleName(p, q) == D5
  }

  /** `is_fifth`: a perfect or augmented fifth. */
  predicate IsFifth(p: Pitch, q: Pitch) {
    IsPerfectFifth(p, q) || IsAugmentedFifth(p, q)
  }

  /** `is_octave`: the simple name is P8 or P1 (the undirected simple name of an octave is P1). */
  predicate IsOctave(p: Pitch, q: Pitch) {
    SimpleName(p, q) == P1
  }

  // ---------------------------------------------------------------
  // Properties of interval names
  // ---------------------------------------------------------------

  /** The name does not depend on which note is given first (tests/debug_df001.py:37-38). */
  lemma SimpleNameSymmetric(p: Pitch, q: Pitch)
    ensures SimpleName(p, q) == SimpleName(q, p)
  {
    assert GenericSize(p, q) == GenericSize(q, p);
    assert OrientedSemitones(p, q) == OrientedSemitones(q, p);
  }

  /**
   * Moving the upper note up an octave keeps the simple name (P12 is
   * named P5).  A unison of letters whose second note lies below the
   * first (C#4 to C4) is the one exception: it is an augmented unison,
   * while C#4 to C5 is a diminished octave.
   */
  lemma SimpleNameOctaveInvariant(p: Pitch, q: Pitch)
    requires DiatonicNumber(q) > DiatonicNumber(p)
      || (DiatonicNumber(q) == DiatonicNumber(p) && Ps(q) >= Ps(p))
    ensures SimpleName(p, OctavesUp(q, 1)) == SimpleName(p, q)
  {
    var q' := OctavesUp(q, 1);
    assert GenericSize(p, q') == GenericSize(p, q) + 7;
    assert OrientedSemitones(p, q') == OrientedSemitones(p, q) + 12;
    NameOfCompound(GenericSize(p, q), OrientedSemitones(p, q));
  }

  /** An interval one octave wider (7 letters, 12 semitones) has the same simple name. */
  lemma NameOfCompound(g: int, oriented: int)
    requires g >= 1
    ensures NameOfSize(g + 7, oriented + 12) == NameOfSize(g, oriented)
  {
    assert (g + 7 - 1) % 7 == (g - 1) % 7;
    assert (g + 7 - 1) / 7 == (g - 1) / 7 + 1;
  }

  /**
   * A perfect fifth, in the name-based sense, is exactly a letter
   * distance of a fifth (plus whole octaves) spanning 7 semitones (plus
   * the same number of octaves) in the direction of the letters.
   */
  lemma PerfectFifthCharacterised(p: Pitch, q: Pitch)
    ensures IsPerfectFifth(p, q) <==>
      var ds := Abs(DiatonicNumber(q) - DiatonicNumber(p));
      ds % 7 == 4 && OrientedSemitones(p, q) == 7 + 12 * (ds / 7)
  {
  }

  /** An octave (or unison), in the name-based sense. */
  lemma OctaveCharacterised(p: Pitch, q: Pitch)
    ensures IsOctave(p, q) <==>
      var ds := Abs(DiatonicNumber(q) - DiatonicNumber(p));
      ds % 7 == 0 && OrientedSemitones(p, q) == 12 * (ds / 7)
  {
  }
}
