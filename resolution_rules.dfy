/**
 * The detectors of the resolution rules: the leading tone of a dominant
 * chord must rise to the tonic, and the seventh of a chord must fall by
 * step.
 */
module ResolutionRules {
  import opened Wrappers
  import opened Pitches
  import opened Keys
  import opened Text
  import opened VoiceLeading
  import opened Voicing
  import opened ContextAnalysis
  import opened ChordKnowledge
  import opened ChordBridge
  import opened RuleCore

  // ---------------------------------------------------------------------
  // Leading tone
  // ---------------------------------------------------------------------

  /** A numeral of dominant function: V..., vii°... or viiø.... */
  predicate IsDominantNumeral(d: string) {
    StartsWith(d, "V") || StartsWith(d, "vii°") || StartsWith(d, "viiø")
  }

  /** The degree labels the rule treats as diatonic; "II°" stands where the minor supertonic "ii°" is meant. */
  const DiatonicNumerals: set<string> :=
    {"I", "ii", "iii", "IV", "V", "vi", "vii°", "i", "II°", "III", "iv", "VII", "VI"}

  /** Destinations on the submediant, where a deceptive resolution is allowed to fall to the sixth degree. */
  const SubmediantNumerals: set<string> := {"vi", "VI", "VIb", "bVI"}

  /** How a note of the first chord qualifies as a leading tone. */
  datatype LeadingToneKind = NotLeadingTone | KeyLeadingTone | LocalLeadingTone

  /**
   * The key's leading tone in a chord on V or vii; failing that, the major
   * third of a chord whose root moves a fourth or fifth and whose degree
   * label is secondary ("/") or not diatonic (a local, secondary leading
   * tone).
   */
  function LeadingToneKindOf(c1: ChordData, c2: ChordData, n1: Pitch, k: Key): (r: LeadingToneKind)
    ensures r == KeyLeadingTone ==> PitchClass(n1) == (NameClass(k.tonic) + 11) % 12
    ensures r == LocalLeadingTone ==> c1.root.Some? && (PitchClass(n1) - NameClass(c1.root.value)) % 12 == 4
    ensures r == KeyLeadingTone <==> ScaleDegreeInfo(n1, k).isLeadingTone && IsDominantNumeral(DegreeFromChord(c1.root, k))
    ensures r == LocalLeadingTone ==>
      && c2.root.Some? && SimpleName(AtOctave(c1.root.value, 4), AtOctave(c2.root.value, 4)) in {P4, P5}
      && (Contains(c1.degree.GetOr("?"), "/") || c1.degree.GetOr("?") !in DiatonicNumerals)
  {
    if ScaleDegreeInfo(n1, k).isLeadingTone && IsDominantNumeral(DegreeFromChord(c1.root, k)) then
      KeyLeadingTone
    else if c1.root.Some? && c2.root.Some?
      && SimpleName(AtOctave(c1.root.value, 4), AtOctave(c2.root.value, 4)) in {P4, P5}
      && (Contains(c1.degree.GetOr("?"), "/") || c1.degree.GetOr("?") !in DiatonicNumerals)
      && (PitchClass(n1) - NameClass(c1.root.value)) % 12 == 4
    then
      LocalLeadingTone
    else
      NotLeadingTone
  }

  /** A destination chord that excuses a key leading tone from resolving: it is known and neither on the submediant nor on the tonic. */
  predicate ElsewhereDestination(deg2: string) {
    deg2 != "?" && deg2 !in SubmediantNumerals && deg2 !in {"I", "i"}
  }

  /** In a major key, a bass leading tone moving to the root of vi (V6 to vi). */
  predicate DeceptiveBassException(c2: ChordData, v: Voice, n2: Pitch, kind: LeadingToneKind, k: Key) {
    v == B && kind != LocalLeadingTone && k.mode == MajorMode
    && DegreeFromChord(c2.root, k) == "vi"
    && c2.root.Some? && ChordFactor(n2, c2.root.value) == Root
  }

  /** The voice directly above an inner voice: S above A, A above T. */
  function VoiceAbove(v: Voice): Voice
    requires v == A || v == T
  {
    if v == A then S else A
  }

  /** An alto or tenor leading tone falling to the fifth while the voice above takes the root. */
  predicate IndirectResolution(c2: ChordData, v: Voice, n2: Pitch) {
    (v == A || v == T) && c2.root.Some?
    && ChordFactor(n2, c2.root.value) == Fifth
    && VoiceAbove(v) in c2.notes && ChordFactor(c2.notes[VoiceAbove(v)], c2.root.value) == Root
  }

  /**
   * What lets a leading tone of voice `v` go unresolved: a first chord on
   * III, landing on the tonic degree, rising a semitone, a known
   * destination other than the tonic or the submediant (for the key's
   * leading tone), a V-VII pair, the deceptive bass and the indirect
   * resolution.
   */
  predicate LeadingToneExcused(c1: ChordData, c2: ChordData, v: Voice, n1: Pitch, n2: Pitch,
                               kind: LeadingToneKind, k: Key) {
    DegreeFromChord(c1.root, k) in {"III", "iii"}
    || ScaleDegreeInfo(n2, k).degree == 1
    || Semitones(n1, n2) == 1
    || (ElsewhereDestination(DegreeFromChord(c2.root, k)) && kind != LocalLeadingTone)
    || IsVVIIPair(c1, c2)
    || DeceptiveBassException(c2, v, n2, kind, k)
    || IndirectResolution(c2, v, n2)
  }

  /** A leading tone of kind `kind` in voice `v`, moving from `n1` to `n2`, that is reported. */
  predicate UnresolvedLeadingTone(c1: ChordData, c2: ChordData, v: Voice, n1: Pitch, n2: Pitch,
                                  kind: LeadingToneKind, k: Key) {
    kind != NotLeadingTone && !LeadingToneExcused(c1, c2, v, n1, n2, kind, k)
  }

  /** A voice of the first chord holding a leading tone that sounds in the second chord without resolving or being excused. */
  predicate UnresolvedLeadingToneAt(c1: ChordData, c2: ChordData, v: Voice) {
    IsPart(v) && v in c1.notes && v in c2.notes
    && UnresolvedLeadingTone(c1, c2, v, c1.notes[v], c2.notes[v],
                             LeadingToneKindOf(c1, c2, c1.notes[v], KeyOrDefault(c1)), KeyOrDefault(c1))
  }

  /** `LeadingToneResolutionRule._detect_violation`: the first voice, in the record's order, with an unresolved leading tone. */
  function LeadingToneResolution(c1: ChordData, c2: ChordData): (r: Option<Detection>)
    ensures r.None? <==> forall i | 0 <= i < |c1.order| :: !UnresolvedLeadingToneAt(c1, c2, c1.order[i])
    ensures forall i | 0 <= i < |c1.order| && UnresolvedLeadingToneAt(c1, c2, c1.order[i])
              && (forall j | 0 <= j < i :: !UnresolvedLeadingToneAt(c1, c2, c1.order[j])) ::
              r == Some(Detection(0, [c1.order[i]], None))
    ensures r.Some? ==> |r.value.voices| == 1 && UnresolvedLeadingToneAt(c1, c2, r.value.voices[0])
  {
    var hit := v => UnresolvedLeadingToneAt(c1, c2, v);
    FirstHitIsFirst(c1.order, hit);
    match FirstHit(c1.order, hit)
    case None => None
    case Some(i) => Some(Detection(0, [c1.order[i]], None))
  }

  /** A leading tone that rises a semitone, or reaches the tonic degree, is never reported. */
  lemma ResolvedLeadingToneNotReported(c1: ChordData, c2: ChordData, v: Voice)
    requires v in c1.notes && v in c2.notes
    requires Semitones(c1.notes[v], c2.notes[v]) == 1 || ScaleDegreeInfo(c2.notes[v], KeyOrDefault(c1)).degree == 1
    ensures LeadingToneResolution(c1, c2) != Some(Detection(0, [v], None))
  {
  }

  /** A V-VII pair, a chord on III and a second chord without the voice all silence the rule. */
  lemma LeadingToneSilenced(c1: ChordData, c2: ChordData)
    requires IsVVIIPair(c1, c2) || DegreeFromChord(c1.root, KeyOrDefault(c1)) in {"III", "iii"}
    ensures LeadingToneResolution(c1, c2).None?
  {
  }

  /**
   * In C major, the leading tone B of a G chord in the bass moving to the
   * root A of an A minor chord (V6 to vi) is not reported.
   */
  lemma DeceptiveBassExample(c1: ChordData, c2: ChordData)
    requires c1.key == Some(CMajor) && c1.root == Some(NoteName(4, 0))
    requires c2.root == Some(NoteName(5, 0))
    requires B in c1.notes && c1.notes[B] == Pitch(6, 0, 3)
    requires B in c2.notes && c2.notes[B] == Pitch(5, 0, 3)
    ensures !UnresolvedLeadingToneAt(c1, c2, B)
  {
    BIsKeyLeadingToneOfV(c1, c2);
    ADeceptiveBass(c2);
  }

  lemma BIsKeyLeadingToneOfV(c1: ChordData, c2: ChordData)
    requires c1.root == Some(NoteName(4, 0))
    ensures LeadingToneKindOf(c1, c2, Pitch(6, 0, 3), CMajor) == KeyLeadingTone
  {
    CMajorNumeral(4);
    assert ScaleDegreeInfo(Pitch(6, 0, 3), CMajor).isLeadingTone;
  }

  lemma ADeceptiveBass(c2: ChordData)
    requires c2.root == Some(NoteName(5, 0))
    ensures DeceptiveBassException(c2, B, Pitch(5, 0, 3), KeyLeadingTone, CMajor)
  {
    CMajorNumeral(5);
    assert ChordFactor(Pitch(5, 0, 3), NoteName(5, 0)) == Root;
  }

  /** The natural note on step `i` of C major gets the `i`-th numeral. */
  lemma CMajorNumeral(i: int)
    requires 0 <= i < 7
    ensures DegreeFromChord(Some(NoteName(i, 0)), CMajor) == DegreeLabels(MajorMode)[i]
  {
    DegreeFromChordOfStep(CMajor, i);
    CMajorNaturals(i);
  }

  // ---------------------------------------------------------------------
  // Seventh
  // ---------------------------------------------------------------------

  /** A seventh in voice `v` that does not fall by one or two semitones into the second chord. */
  predicate SeventhUnresolvedAt(c1: ChordData, c2: ChordData, v: Voice) {
    v in c1.notes && v in c2.notes && Semitones(c1.notes[v], c2.notes[v]) !in {-1, -2}
  }

  /**
   * The record rebuilt from the `Chord` object before the change-of-voicing
   * test: its inversion is the object's, which defaults to 0.
   */
  function ObjectRecord(c: ChordData): (r: ChordData)
    ensures r.inversion == Some(c.inversion.GetOr(0))
    ensures r.(inversion := c.inversion) == c
  {
    c.(inversion := Some(c.inversion.GetOr(0)))
  }

  /** The path taken when the first chord has no `Chord` object: scan the record's voices, in its order, by factor. */
  function SeventhResolutionLegacy(c1: ChordData, c2: ChordData): (r: Option<Detection>)
  {
    if c1.root.None? || IsVoicingChange(c1, c2) then None
    else
      match FirstHit(c1.order, v => IsPart(v) && v in c1.notes
                                    && ChordFactor(c1.notes[v], c1.root.value) == Seventh
                                    && SeventhUnresolvedAt(c1, c2, v))
      case None => None
      case Some(i) => Some(Detection(0, [c1.order[i]], None))
  }

  /** The legacy path is reached only for records without a root or without voices, and on those it never reports. */
  lemma SeventhLegacyNeverReports(c1: ChordData, c2: ChordData)
    requires !HasChordObject(c1)
    ensures SeventhResolutionLegacy(c1, c2).None?
  {
  }

  /**
   * `SeventhResolutionRule._detect_violation`: with a `Chord` object, no
   * report on a change of voicing, otherwise the first voice (S, A, T, B)
   * holding the seventh that does not fall by step; without one, the
   * legacy path.
   */
  function SeventhResolution(c1: ChordData, c2: ChordData): (r: Option<Detection>)
    ensures HasChordObject(c1) && IsVoicingChange(ObjectRecord(c1), c2) ==> r.None?
    ensures r.Some? ==> |r.value.voices| == 1 && r.value.chordIndex == 0
    ensures r.Some? ==> var v := r.value.voices[0];
      IsPart(v) && v in c1.notes && c1.root.Some?
      && ChordFactor(c1.notes[v], c1.root.value) == Seventh && SeventhUnresolvedAt(c1, c2, v)
  {
    if HasChordObject(c1) then
      if IsVoicingChange(ObjectRecord(c1), c2) then None
      else
        var sevenths := VoicesWithFactor(ObjectFactors(c1), Seventh);
        match FirstHit(sevenths, v => SeventhUnresolvedAt(c1, c2, v))
        case None => None
        case Some(i) => Some(Detection(0, [sevenths[i]], None))
    else
      SeventhLegacyNeverReports(c1, c2);
      SeventhResolutionLegacy(c1, c2)
  }

  /** `SeventhResolutionRule._detect_violation`, building the `Chord` object as the source does. */
  method DetectSeventhResolution(c1: ChordData, c2: ChordData) returns (r: Option<Detection>)
    ensures r == SeventhResolution(c1, c2)
  {
    var obj := DictToChordSafe(c1);
    if obj == null {
      return SeventhResolutionLegacy(c1, c2);
    }
    var rebuilt := c1.(inversion := Some(obj.inversion));
    if IsVoicingChange(rebuilt, c2) {
      return None;
    }
    var sevenths := obj.GetVoicesWithFactor(Seventh);
    assert rebuilt == ObjectRecord(c1) && sevenths == VoicesWithFactor(ObjectFactors(c1), Seventh);
    r := FirstUnresolvedSeventh(c1, c2, sevenths);
  }

  /** The loop of `_detect_violation` over the voices holding the seventh: the first that does not fall by step. */
  method FirstUnresolvedSeventh(c1: ChordData, c2: ChordData, sevenths: seq<Voice>) returns (r: Option<Detection>)
    requires forall k | 0 <= k < |sevenths| :: sevenths[k] in c1.notes
    ensures r == match FirstHit(sevenths, v => SeventhUnresolvedAt(c1, c2, v))
                 case None => None
                 case Some(i) => Some(Detection(0, [sevenths[i]], None))
  {
    ghost var hit := v => SeventhUnresolvedAt(c1, c2, v);
    var i := 0;
    while i < |sevenths|
      invariant 0 <= i <= |sevenths|
      invariant FirstHitFrom(sevenths, hit, 0) == FirstHitFrom(sevenths, hit, i)
    {
      var v := sevenths[i];
      if v in c2.notes && Semitones(c1.notes[v], c2.notes[v]) !in {-1, -2} {
        return Some(Detection(0, [v], None));
      }
      i := i + 1;
    }
    return None;
  }

  /**
   * With a `Chord` object, the report is the first voice in S, A, T, B
   * order whose note is the seventh and does not fall by step; there is
   * none exactly when every seventh resolves (or is absent from the
   * second chord).
   */
  lemma SeventhFirstUnresolved(c1: ChordData, c2: ChordData)
    requires HasChordObject(c1) && !IsVoicingChange(ObjectRecord(c1), c2)
    ensures var sevenths := VoicesWithFactor(ObjectFactors(c1), Seventh);
      SeventhResolution(c1, c2).None? <==> forall i | 0 <= i < |sevenths| :: !SeventhUnresolvedAt(c1, c2, sevenths[i])
    ensures var sevenths := VoicesWithFactor(ObjectFactors(c1), Seventh);
      forall i | 0 <= i < |sevenths| && SeventhUnresolvedAt(c1, c2, sevenths[i])
        && (forall j | 0 <= j < i :: !SeventhUnresolvedAt(c1, c2, sevenths[j])) ::
        SeventhResolution(c1, c2) == Some(Detection(0, [sevenths[i]], None))
  {
    FirstHitIsFirst(VoicesWithFactor(ObjectFactors(c1), Seventh), v => SeventhUnresolvedAt(c1, c2, v));
  }

  /**
   * Two records without an 'inversion' field that are a change of voicing
   * of each other are still checked by the seventh rule: the rebuilt
   * record carries inversion 0, which differs from the second record's
   * missing inversion.
   */
  lemma SeventhIgnoresRevoicingWithoutInversion(c1: ChordData, c2: ChordData)
    requires c1.inversion.None? && c2.inversion.None?
    ensures !IsVoicingChange(ObjectRecord(c1), c2)
  {
  }
}
