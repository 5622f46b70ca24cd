/**
 * The detectors of the interval rules: parallel fifths and octaves,
 * direct fifths and octaves, and unequal fifths (a diminished fifth
 * moving to a perfect one).  Each scans a fixed sequence of voice pairs
 * and reports the first pair that meets all of its conditions.
 */
module IntervalRules {
  import opened Wrappers
  import opened Pitches
  import opened VoiceLeading
  import opened Voicing
  import opened RuleCore

  /** The motion of the two voices of `p` from the first chord to the second. */
  function PairMotion(c1: ChordData, c2: ChordData, p: VoicePair): Motion
    requires AllPresent(c1, c2, p.0, p.1)
  {
    MotionType(c1.notes[p.0], c2.notes[p.0], c1.notes[p.1], c2.notes[p.1])
  }

  /** Signed semitones moved by voice `v` from the first chord to the second. */
  function Moved(c1: ChordData, c2: ChordData, v: Voice): int
    requires v in c1.notes && v in c2.notes
  {
    Semitones(c1.notes[v], c2.notes[v])
  }

  /** The finding for a pair, voices in the order the pair names them. */
  function PairReport(p: VoicePair, m: Option<Motion>): Detection {
    Detection(0, [p.0, p.1], m)
  }

  // ---------------------------------------------------------------------
  // Parallel fifths and octaves
  // ---------------------------------------------------------------------

  /**
   * A pair in fifths (P5 or A5) in both chords, moving in parallel or in
   * contrary motion.
   */
  predicate ParallelFifthsAt(c1: ChordData, c2: ChordData, p: VoicePair) {
    AllPresent(c1, c2, p.0, p.1)
    && IsFifth(c1.notes[p.0], c1.notes[p.1]) && IsFifth(c2.notes[p.0], c2.notes[p.1])
    && PairMotion(c1, c2, p) in {Parallel, Contrary}
  }

  /** `ParallelFifthsRule._detect_violation`: the first pair in fifths that moves. */
  function ParallelFifths(c1: ChordData, c2: ChordData): (r: Option<Detection>)
    ensures r.None? <==> forall i | 0 <= i < |UpperFirstPairs| :: !ParallelFifthsAt(c1, c2, UpperFirstPairs[i])
    ensures forall i | 0 <= i < |UpperFirstPairs| && ParallelFifthsAt(c1, c2, UpperFirstPairs[i])
              && (forall j | 0 <= j < i :: !ParallelFifthsAt(c1, c2, UpperFirstPairs[j])) ::
              r == Some(PairReport(UpperFirstPairs[i], Some(PairMotion(c1, c2, UpperFirstPairs[i]))))
  {
    var hit := p => ParallelFifthsAt(c1, c2, p);
    FirstHitIsFirst(UpperFirstPairs, hit);
    match FirstHit(UpperFirstPairs, hit)
    case None => None
    case Some(i) =>
      var p := UpperFirstPairs[i];
      Some(PairReport(p, Some(PairMotion(c1, c2, p))))
  }

  /** A pair at an octave or unison (P8 or P1) in both chords, moving in parallel or in contrary motion. */
  predicate ParallelOctavesAt(c1: ChordData, c2: ChordData, p: VoicePair) {
    AllPresent(c1, c2, p.0, p.1)
    && IsOctave(c1.notes[p.0], c1.notes[p.1]) && IsOctave(c2.notes[p.0], c2.notes[p.1])
    && PairMotion(c1, c2, p) in {Parallel, Contrary}
  }

  /** `ParallelOctavesRule._detect_violation`: the first pair in octaves that moves. */
  function ParallelOctaves(c1: ChordData, c2: ChordData): (r: Option<Detection>)
    ensures r.None? <==> forall i | 0 <= i < |UpperFirstPairs| :: !ParallelOctavesAt(c1, c2, UpperFirstPairs[i])
    ensures forall i | 0 <= i < |UpperFirstPairs| && ParallelOctavesAt(c1, c2, UpperFirstPairs[i])
              && (forall j | 0 <= j < i :: !ParallelOctavesAt(c1, c2, UpperFirstPairs[j])) ::
              r == Some(PairReport(UpperFirstPairs[i], Some(PairMotion(c1, c2, UpperFirstPairs[i]))))
  {
    var hit := p => ParallelOctavesAt(c1, c2, p);
    FirstHitIsFirst(UpperFirstPairs, hit);
    match FirstHit(UpperFirstPairs, hit)
    case None => None
    case Some(i) =>
      var p := UpperFirstPairs[i];
      Some(PairReport(p, Some(PairMotion(c1, c2, p))))
  }

  /**
   * Oblique and static motion never make parallel fifths or octaves: a
   * report always carries parallel or contrary motion.
   */
  lemma ParallelReportsMoveBothVoices(c1: ChordData, c2: ChordData)
    ensures ParallelFifths(c1, c2).Some? ==> ParallelFifths(c1, c2).value.motion in {Some(Parallel), Some(Contrary)}
    ensures ParallelOctaves(c1, c2).Some? ==> ParallelOctaves(c1, c2).value.motion in {Some(Parallel), Some(Contrary)}
  {
    var pf := FirstHit(UpperFirstPairs, p => ParallelFifthsAt(c1, c2, p));
    var po := FirstHit(UpperFirstPairs, p => ParallelOctavesAt(c1, c2, p));
    if pf.Some? {
      assert ParallelFifthsAt(c1, c2, UpperFirstPairs[pf.value]);
    }
    if po.Some? {
      assert ParallelOctavesAt(c1, c2, UpperFirstPairs[po.value]);
    }
  }

  // ---------------------------------------------------------------------
  // Direct fifths and octaves
  // ---------------------------------------------------------------------

  /** The soprano-bass pair, in either order. */
  predicate IsOuterPair(p: VoicePair) {
    (p.0 == B || p.1 == B) && (p.0 == S || p.1 == S)
  }

  /**
   * The pedagogical allowances of the direct fifths rule: between soprano
   * and bass, a soprano step (at most 2 semitones) against a bass leap of
   * 3 to 7 semitones; between any other pair, exactly one voice moving by
   * step.
   */
  predicate DirectFifthsAllowed(c1: ChordData, c2: ChordData, p: VoicePair)
    requires AllPresent(c1, c2, p.0, p.1)
  {
    var m1, m2 := Abs(Moved(c1, c2, p.0)), Abs(Moved(c1, c2, p.1));
    if IsOuterPair(p) then
      var sopranoStep := if p.0 == S then m1 <= 2 else m2 <= 2;
      var bassMove := if p.0 == S then m2 else m1;
      sopranoStep && 3 <= bassMove <= 7
    else
      (m1 <= 2) != (m2 <= 2)
  }

  /**
   * A pair arriving at a perfect fifth in parallel motion from something
   * other than a perfect or diminished fifth, without an allowance.
   */
  predicate DirectFifthsAt(c1: ChordData, c2: ChordData, p: VoicePair) {
    AllPresent(c1, c2, p.0, p.1)
    && IsPerfectFifth(c2.notes[p.0], c2.notes[p.1])
    && !IsPerfectFifth(c1.notes[p.0], c1.notes[p.1])
    && !IsDiminishedFifth(c1.notes[p.0], c1.notes[p.1])
    && PairMotion(c1, c2, p) == Parallel
    && !DirectFifthsAllowed(c1, c2, p)
  }

  /** `DirectFifthsRule._detect_violation`: the first pair reaching a fifth by direct motion. */
  function DirectFifths(c1: ChordData, c2: ChordData): (r: Option<Detection>)
    ensures r.None? <==> forall i | 0 <= i < |UpperFirstPairs| :: !DirectFifthsAt(c1, c2, UpperFirstPairs[i])
    ensures forall i | 0 <= i < |UpperFirstPairs| && DirectFifthsAt(c1, c2, UpperFirstPairs[i])
              && (forall j | 0 <= j < i :: !DirectFifthsAt(c1, c2, UpperFirstPairs[j])) ::
              r == Some(PairReport(UpperFirstPairs[i], None))
  {
    var hit := p => DirectFifthsAt(c1, c2, p);
    FirstHitIsFirst(UpperFirstPairs, hit);
    match FirstHit(UpperFirstPairs, hit)
    case None => None
    case Some(i) => Some(PairReport(UpperFirstPairs[i], None))
  }

  /**
   * The allowances of the direct octaves rule: between soprano and bass,
   * the soprano rising one semitone while the bass rises five; between any
   * other pair, exactly one voice moving by step.
   */
  predicate DirectOctavesAllowed(c1: ChordData, c2: ChordData, p: VoicePair)
    requires AllPresent(c1, c2, p.0, p.1)
  {
    var d1, d2 := Moved(c1, c2, p.0), Moved(c1, c2, p.1);
    if IsOuterPair(p) then
      var soprano := if p.0 == S then d1 else d2;
      var bass := if p.0 == S then d2 else d1;
      soprano == 1 && bass == 5
    else
      (Abs(d1) <= 2) != (Abs(d2) <= 2)
  }

  /** A pair arriving at an octave in parallel motion from something other than an octave, without an allowance. */
  predicate DirectOctavesAt(c1: ChordData, c2: ChordData, p: VoicePair) {
    AllPresent(c1, c2, p.0, p.1)
    && IsOctave(c2.notes[p.0], c2.notes[p.1])
    && !IsOctave(c1.notes[p.0], c1.notes[p.1])
    && PairMotion(c1, c2, p) == Parallel
    && !DirectOctavesAllowed(c1, c2, p)
  }

  /** `DirectOctavesRule._detect_violation`: the first pair reaching an octave by direct motion. */
  function DirectOctaves(c1: ChordData, c2: ChordData): (r: Option<Detection>)
    ensures r.None? <==> forall i | 0 <= i < |UpperFirstPairs| :: !DirectOctavesAt(c1, c2, UpperFirstPairs[i])
    ensures forall i | 0 <= i < |UpperFirstPairs| && DirectOctavesAt(c1, c2, UpperFirstPairs[i])
              && (forall j | 0 <= j < i :: !DirectOctavesAt(c1, c2, UpperFirstPairs[j])) ::
              r == Some(PairReport(UpperFirstPairs[i], None))
  {
    var hit := p => DirectOctavesAt(c1, c2, p);
    FirstHitIsFirst(UpperFirstPairs, hit);
    match FirstHit(UpperFirstPairs, hit)
    case None => None
    case Some(i) => Some(PairReport(UpperFirstPairs[i], None))
  }

  /** `DirectOctavesRule._calculate_confidence` (and that of direct fifths): banded by the reported voices, 0 without a report. */
  function DirectConfidence(d: Option<Detection>): (r: int)
    ensures d.None? <==> r == 0
    ensures d.Some? ==> r == PairConfidence(d.value.voices)
  {
    if d.None? then 0 else PairConfidence(d.value.voices)
  }

  /** A pair never has direct and parallel octaves at once: the direct rule requires the pair not to start at an octave. */
  lemma DirectAndParallelOctavesExclusive(c1: ChordData, c2: ChordData, p: VoicePair)
    ensures !(DirectOctavesAt(c1, c2, p) && ParallelOctavesAt(c1, c2, p))
  {
  }

  /**
   * Direct and parallel fifths both fire on a pair only when the pair
   * starts at an augmented fifth: the direct rule leaves perfect starting
   * fifths to the parallel rule but not augmented ones.
   */
  lemma DirectAndParallelFifthsOverlap(c1: ChordData, c2: ChordData, p: VoicePair)
    requires DirectFifthsAt(c1, c2, p) && ParallelFifthsAt(c1, c2, p)
    ensures IsAugmentedFifth(c1.notes[p.0], c1.notes[p.1])
  {
  }

  // ---------------------------------------------------------------------
  // Unequal fifths
  // ---------------------------------------------------------------------

  /** Simple names of a tenth (or third): M3, m3 and A3; the compound names never occur as simple names. */
  const TenthNames: set<IntervalName> := {M3, m3, A3}

  /** `_has_parallel_tenths_BS`: bass and soprano a tenth (or third) apart in both chords and moving in parallel. */
  predicate ParallelTenthsBS(c1: ChordData, c2: ChordData) {
    AllPresent(c1, c2, B, S)
    && SimpleName(c1.notes[B], c1.notes[S]) in TenthNames
    && SimpleName(c2.notes[B], c2.notes[S]) in TenthNames
    && MotionType(c1.notes[B], c2.notes[B], c1.notes[S], c2.notes[S]) == Parallel
  }

  /** A pair moving from a diminished to a perfect fifth, unless bass and soprano move in parallel tenths. */
  predicate UnequalFifthsAt(c1: ChordData, c2: ChordData, p: VoicePair) {
    AllPresent(c1, c2, p.0, p.1)
    && IsDiminishedFifth(c1.notes[p.0], c1.notes[p.1])
    && IsPerfectFifth(c2.notes[p.0], c2.notes[p.1])
    && !ParallelTenthsBS(c1, c2)
  }

  /** `UnequalFifthsRule._detect_violation`: the first pair with the bass that goes from d5 to P5. */
  function UnequalFifths(c1: ChordData, c2: ChordData): (r: Option<Detection>)
    ensures r.None? <==> forall i | 0 <= i < |BassPairs| :: !UnequalFifthsAt(c1, c2, BassPairs[i])
    ensures forall i | 0 <= i < |BassPairs| && UnequalFifthsAt(c1, c2, BassPairs[i])
              && (forall j | 0 <= j < i :: !UnequalFifthsAt(c1, c2, BassPairs[j])) ::
              r == Some(PairReport(BassPairs[i], None))
  {
    var hit := p => UnequalFifthsAt(c1, c2, p);
    FirstHitIsFirst(BassPairs, hit);
    match FirstHit(BassPairs, hit)
    case None => None
    case Some(i) => Some(PairReport(BassPairs[i], None))
  }

  /** Parallel tenths between bass and soprano silence the unequal fifths rule entirely, whichever pair holds the fifths. */
  lemma ParallelTenthsSilenceUnequalFifths(c1: ChordData, c2: ChordData)
    requires ParallelTenthsBS(c1, c2)
    ensures UnequalFifths(c1, c2).None?
  {
  }

  /** Unequal fifths always involve the bass. */
  lemma UnequalFifthsInvolveBass(c1: ChordData, c2: ChordData)
    ensures UnequalFifths(c1, c2).Some? ==> UnequalFifths(c1, c2).value.voices[0] == B
  {
    var f := FirstHit(BassPairs, p => UnequalFifthsAt(c1, c2, p));
    if f.Some? {
      assert BassPairs[f.value].0 == B;
    }
  }

  /** A pair has unequal fifths or direct fifths, never both: the direct rule skips a starting d5. */
  lemma UnequalAndDirectFifthsExclusive(c1: ChordData, c2: ChordData, p: VoicePair)
    ensures !(UnequalFifthsAt(c1, c2, p) && DirectFifthsAt(c1, c2, p))
  {
  }
}
