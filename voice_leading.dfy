/**
 * The voice-leading helpers the rules share: chord-factor bucketing,
 * motion classification, melodic distance and scale-degree information
 * relative to a key.
 */
module VoiceLeading {
  import opened Wrappers
  import opened Pitches
  import opened Keys

  /** A chord factor: '1', '3', '5', '7', '9', or '?' for a note that is none of them. */
  datatype Factor = Root | Third | Fifth | Seventh | Ninth | NoFactor

  /** Bucketing of the distance above the root, in semitones modulo 12. */
  function FactorOfDistance(d: int): (r: Factor)
    requires 0 <= d < 12
    ensures r == NoFactor <==> d == 5 || d == 9
  {
    if d == 0 then Root
    else if d == 3 || d == 4 then Third
    else if 6 <= d <= 8 then Fifth
    else if d == 10 || d == 11 then Seventh
    else if d == 1 || d == 2 then Ninth
    else NoFactor
  }

  /** `get_chord_factor`: the factor a note plays above a root, from pitch classes only. */
  function ChordFactor(note: Pitch, root: NoteName): (r: Factor)
    ensures r == Root <==> PitchClass(note) == NameClass(root)
  {
    Keys.ClassDistance(PitchClass(note), NameClass(root), 0);
    FactorOfDistance((PitchClass(note) - NameClass(root)) % 12)
  }

  /** A note moved by whole octaves keeps its factor. */
  lemma ChordFactorOctaveInvariant(note: Pitch, root: NoteName, k: int)
    ensures ChordFactor(OctavesUp(note, k), root) == ChordFactor(note, root)
  {
  }

  /** Enharmonic notes (same pitch class, any spelling or octave) have the same factor. */
  lemma ChordFactorByClass(n1: Pitch, n2: Pitch, root: NoteName)
    requires PitchClass(n1) == PitchClass(n2)
    ensures ChordFactor(n1, root) == ChordFactor(n2, root)
  {
  }

  /** Motion of two voices: `get_motion_type`. */
  datatype Motion = Parallel | Contrary | Oblique | Static

  /** The motion of two voices moving by `d1` and `d2` semitones. */
  function MotionOf(d1: int, d2: int): (r: Motion)
    ensures r == Static <==> d1 == 0 && d2 == 0
    ensures r == Oblique <==> (d1 == 0) != (d2 == 0)
    ensures r == Parallel <==> d1 * d2 > 0
    ensures r == Contrary <==> d1 * d2 < 0
  {
    if d1 == 0 && d2 == 0 then Static
    else if d1 == 0 || d2 == 0 then Oblique
    else if (d1 > 0 && d2 > 0) || (d1 < 0 && d2 < 0) then Parallel
    else Contrary
  }

  /** Semitones from `p` to `q`, negative when `q` is lower. */
  function Semitones(p: Pitch, q: Pitch): int {
    Ps(q) - Ps(p)
  }

  /** Motion of voice 1 (from `v1a` to `v1b`) against voice 2 (from `v2a` to `v2b`). */
  function MotionType(v1a: Pitch, v1b: Pitch, v2a: Pitch, v2b: Pitch): Motion {
    MotionOf(Semitones(v1a, v1b), Semitones(v2a, v2b))
  }

  /** Which voice is named first does not matter. */
  lemma MotionSymmetric(v1a: Pitch, v1b: Pitch, v2a: Pitch, v2b: Pitch)
    ensures MotionType(v1a, v1b, v2a, v2b) == MotionType(v2a, v2b, v1a, v1b)
  {
    var d1 := Semitones(v1a, v1b);
    var d2 := Semitones(v2a, v2b);
    assert d1 * d2 == d2 * d1;
  }

  /** `is_leap`: a melodic move wider than `threshold` semitones in either direction. */
  predicate IsLeap(p: Pitch, q: Pitch, threshold: int) {
    Abs(Semitones(p, q)) > threshold
  }

  /** The examples in `is_leap`'s documentation: C4-D4 is a step, C4-E4 and C4-G4 are leaps. */
  lemma IsLeapExamples()
    ensures !IsLeap(Pitch(0, 0, 4), Pitch(1, 0, 4), 2)
    ensures IsLeap(Pitch(0, 0, 4), Pitch(2, 0, 4), 2)
    ensures IsLeap(Pitch(0, 0, 4), Pitch(4, 0, 4), 2)
  {
  }

  /** What `get_scale_degree_info` reports about a note in a key. */
  datatype DegreeInfo = DegreeInfo(degree: int, semitonesFromTonic: int, isLeadingTone: bool)

  /** Chromatic distance above the tonic mapped to a scale degree; 11 is the leading tone. */
  function DegreeOfDistance(d: int): (r: int)
    requires 0 <= d < 12
    ensures 1 <= r <= 7
  {
    [1, 2, 2, 3, 3, 4, 4, 5, 6, 6, 7, 7][d]
  }

  /** `get_scale_degree_info`: distance of the note above the tonic (at octave 4), reduced modulo 12. */
  function ScaleDegreeInfo(p: Pitch, k: Key): (r: DegreeInfo)
    ensures 1 <= r.degree <= 7
    ensures r.semitonesFromTonic == (PitchClass(p) - NameClass(k.tonic)) % 12
    ensures r.isLeadingTone <==> PitchClass(p) == (NameClass(k.tonic) + 11) % 12
  {
    var t := AtOctave(k.tonic, 4);
    var semis := (Ps(p) - Ps(t)) % 12;
    DifferenceModTwelve(Ps(p), Ps(t));
    assert Ps(p) % 12 == PitchClass(p);
    assert Ps(t) % 12 == PitchClass(t) == NameClass(k.tonic);
    Keys.ClassDistance(PitchClass(p), NameClass(k.tonic), 11);
    DegreeInfo(DegreeOfDistance(semis), semis, semis == 11)
  }

  /** The class of a difference is the difference of the classes. */
  lemma DifferenceModTwelve(a: int, b: int)
    ensures (a - b) % 12 == (a % 12 - b % 12) % 12
  {
    var qa, qb := a / 12, b / 12;
    assert a == 12 * qa + a % 12;
    assert b == 12 * qb + b % 12;
    assert a - b == 12 * (qa - qb) + (a % 12 - b % 12);
    Pitches.ShiftByOctaves(a % 12 - b % 12, qa - qb);
  }

  /** Each spelled step of the key, in any octave, is reported as its own degree. */
  lemma ScaleStepDegree(k: Key, i: int, octave: int)
    requires 0 <= i < 7
    ensures ScaleDegreeInfo(AtOctave(ScaleName(k, i), octave), k).degree == i + 1
  {
    var t := NameClass(k.tonic);
    var d := ModeSteps(k.mode)[i];
    var pc := PitchClass(AtOctave(ScaleName(k, i), octave));
    assert pc == (t + d) % 12;
    Keys.ClassDistance(pc, t, d);
  }

  /** Roman numerals of the seven degrees, as `get_degree_from_chord` lists them. */
  function DegreeLabels(m: Mode): (r: seq<string>)
    ensures |r| == 7
  {
    match m
    case MajorMode => ["I", "ii", "iii", "IV", "V", "vi", "vii°"]
    case MinorMode => ["i", "ii°", "III", "iv", "V", "VI", "vii°"]
  }

  /** `get_degree_from_chord`: the numeral of the root's degree, or "?" without a root. */
  function DegreeFromChord(root: Option<NoteName>, k: Key): (r: string)
    ensures root.None? <==> r == "?"
    ensures root.Some? ==> r in DegreeLabels(k.mode)
  {
    if root.None? then "?"
    else DegreeLabels(k.mode)[ScaleDegreeInfo(AtOctave(root.value, 4), k).degree - 1]
  }

  /** A root spelled as step `i` of the key gets the `i`-th numeral of the mode. */
  lemma DegreeFromChordOfStep(k: Key, i: int)
    requires 0 <= i < 7
    ensures DegreeFromChord(Some(ScaleName(k, i)), k) == DegreeLabels(k.mode)[i]
  {
    ScaleStepDegree(k, i, 4);
  }
}
