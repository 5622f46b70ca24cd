/**
 * Keys and their spelled scales, as music21's `Key` provides them to the
 * analysers: a tonic name and a mode, the seven scale-step names obtained
 * by transposing the tonic, and scale degrees looked up by note name.
 * The minor scale is the natural minor scale that `Key.getScale()`
 * returns for a minor key.
 */
module Keys {
  import opened Wrappers
  import opened Pitches

  datatype Mode = MajorMode | MinorMode

  /** A parsed key such as "C major" or "A minor". */
  datatype Key = Key(tonic: NoteName, mode: Mode)

  /** The fallback key "C major" the rules use when a chord carries no key. */
  const CMajor := Key(NoteName(0, 0), MajorMode)

  /** Semitones above the tonic of the seven steps of the scale of each mode. */
  function ModeSteps(m: Mode): (r: seq<int>)
    ensures |r| == 7 && r[0] == 0
    ensures forall i | 0 <= i < 7 :: 0 <= r[i] < 12
  {
    match m
    case MajorMode => [0, 2, 4, 5, 7, 9, 11]
    case MinorMode => [0, 2, 3, 5, 7, 8, 10]
  }

  /** The spelled name of scale step `i` (0 = tonic): the tonic transposed by the step's interval. */
  function ScaleName(k: Key, i: int): (r: NoteName)
    requires 0 <= i < 7
    ensures NameClass(r) == (NameClass(k.tonic) + ModeSteps(k.mode)[i]) % 12
    ensures r.letter == (k.tonic.letter + i) % 7
  {
    var p := AtOctave(k.tonic, 4);
    var r := TransposeName(k.tonic, i, ModeSteps(k.mode)[i]);
    assert r.letter == (DiatonicNumber(p) + i) % 7;
    assert DiatonicNumber(p) + i == 7 * 4 + (k.tonic.letter + i);
    ShiftByWeeks(k.tonic.letter + i, 4);
    r
  }

  /** Adding whole octaves of letters never changes a letter. */
  lemma ShiftByWeeks(x: int, q: int)
    ensures (7 * q + x) % 7 == x % 7
  {
  }

  /** The pitch classes of the scale, tonic first (`[p.pitchClass for p in scale.getPitches()]`). */
  function ScaleClasses(k: Key): (r: seq<int>)
    ensures |r| == 7
    ensures forall i | 0 <= i < 7 :: r[i] == NameClass(ScaleName(k, i))
  {
    seq(7, i requires 0 <= i < 7 => NameClass(ScaleName(k, i)))
  }

  /** A pitch class belongs to the key's scale. */
  predicate IsDiatonicClass(k: Key, pc: int) {
    pc in ScaleClasses(k)
  }

  /** Scale membership depends only on the distance from the tonic. */
  lemma DiatonicByDistance(k: Key, pc: int)
    requires 0 <= pc < 12
    ensures IsDiatonicClass(k, pc) <==> (pc - NameClass(k.tonic)) % 12 in ModeSteps(k.mode)
  {
    var t := NameClass(k.tonic);
    var steps := ModeSteps(k.mode);
    if IsDiatonicClass(k, pc) {
      var i :| 0 <= i < 7 && ScaleClasses(k)[i] == pc;
      ClassDistance(pc, t, steps[i]);
    }
    if (pc - t) % 12 in steps {
      var i :| 0 <= i < 7 && steps[i] == (pc - t) % 12;
      ClassDistance(pc, t, steps[i]);
      assert ScaleClasses(k)[i] == pc;
    }
  }

  /** `pc` lies `d` semitones above `t` (modulo 12) exactly when `(pc - t) % 12 == d`. */
  lemma ClassDistance(pc: int, t: int, d: int)
    requires 0 <= pc < 12 && 0 <= t < 12 && 0 <= d < 12
    ensures pc == (t + d) % 12 <==> (pc - t) % 12 == d
  {
    if t + d < 12 {
      assert (t + d) % 12 == t + d;
    } else {
      assert (t + d) % 12 == t + d - 12;
    }
    if pc >= t {
      assert (pc - t) % 12 == pc - t;
    } else {
      assert (pc - t) % 12 == pc - t + 12;
    }
  }

  /**
   * music21's `getScaleDegreeFromPitch`, which compares names: the degree
   * (1..7) of the step spelled exactly `n`, if any.
   */
  function DegreeOfName(k: Key, n: NoteName): (r: Option<int>)
    ensures r.Some? ==> 1 <= r.value <= 7 && ScaleName(k, r.value - 1) == n
    ensures r.None? ==> forall i | 0 <= i < 7 :: ScaleName(k, i) != n
  {
    FindDegree(k, n, 0)
  }

  function FindDegree(k: Key, n: NoteName, from: int): (r: Option<int>)
    requires 0 <= from <= 7
    ensures r.Some? ==> from + 1 <= r.value <= 7 && ScaleName(k, r.value - 1) == n
    ensures r.None? ==> forall i | from <= i < 7 :: ScaleName(k, i) != n
    decreases 7 - from
  {
    if from == 7 then None
    else if ScaleName(k, from) == n then Some(from + 1)
    else FindDegree(k, n, from + 1)
  }

  /** A note spelled as a scale step sounds a diatonic pitch class. */
  lemma DegreeOfNameIsDiatonic(k: Key, n: NoteName)
    requires DegreeOfName(k, n).Some?
    ensures IsDiatonicClass(k, NameClass(n))
  {
    var d := DegreeOfName(k, n).value;
    assert ScaleClasses(k)[d - 1] == NameClass(n);
  }

  /** The spelled steps of C major are the seven natural notes. */
  lemma CMajorNaturals(i: int)
    requires 0 <= i < 7
    ensures ScaleName(CMajor, i) == NoteName(i, 0)
  {
    if i == 0 {
    } else if i == 1 {
    } else if i == 2 {
    } else if i == 3 {
    } else if i == 4 {
    } else if i == 5 {
    } else {
    }
  }
}
