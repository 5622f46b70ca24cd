/**
 * The detectors of the rules about the layout of a chord and the motion of
 * single voices: crossing, spacing, overlap, doubled leading tone or
 * seventh, leaps beyond the octave and omitted factors.
 */
module TextureRules {
  import opened Wrappers
  import opened Pitches
  import opened Text
  import opened VoiceLeading
  import opened Voicing
  import opened ChordKnowledge
  import opened ChordBridge
  import opened RuleCore

  // ---------------------------------------------------------------------
  // Voice crossing, maximum distance, overlap
  // ---------------------------------------------------------------------

  /** The lower voice of the pair sounds strictly above the upper one in the chord. */
  predicate CrossedAt(c: ChordData, p: VoicePair) {
    p.0 in c.notes && p.1 in c.notes && Ps(c.notes[p.0]) > Ps(c.notes[p.1])
  }

  /** `VoiceCrossingRule._detect_violation`: the first crossed pair among B-T, T-A, A-S of the first chord. */
  function VoiceCrossing(c1: ChordData, c2: ChordData): (r: Option<Detection>)
    ensures r.None? <==> forall i | 0 <= i < |AdjacentPairs| :: !CrossedAt(c1, AdjacentPairs[i])
    ensures forall i | 0 <= i < |AdjacentPairs| && CrossedAt(c1, AdjacentPairs[i])
              && (forall j | 0 <= j < i :: !CrossedAt(c1, AdjacentPairs[j])) ::
              r == Some(Detection(0, [AdjacentPairs[i].0, AdjacentPairs[i].1], None))
  {
    var hit := p => CrossedAt(c1, p);
    FirstHitIsFirst(AdjacentPairs, hit);
    match FirstHit(AdjacentPairs, hit)
    case None => None
    case Some(i) => Some(Detection(0, [AdjacentPairs[i].0, AdjacentPairs[i].1], None))
  }

  /** The two voices of the pair lie more than an octave apart in the chord. */
  predicate TooWideAt(c: ChordData, p: VoicePair) {
    p.0 in c.notes && p.1 in c.notes && Abs(Ps(c.notes[p.1]) - Ps(c.notes[p.0])) > 12
  }

  /** `MaximumDistanceRule._detect_violation`: the first of A-S and T-A of the first chord wider than an octave. */
  function MaximumDistance(c1: ChordData, c2: ChordData): (r: Option<Detection>)
    ensures r.None? <==> forall i | 0 <= i < |SpacedPairs| :: !TooWideAt(c1, SpacedPairs[i])
    ensures forall i | 0 <= i < |SpacedPairs| && TooWideAt(c1, SpacedPairs[i])
              && (forall j | 0 <= j < i :: !TooWideAt(c1, SpacedPairs[j])) ::
              r == Some(Detection(0, [SpacedPairs[i].0, SpacedPairs[i].1], None))
  {
    var hit := p => TooWideAt(c1, p);
    FirstHitIsFirst(SpacedPairs, hit);
    match FirstHit(SpacedPairs, hit)
    case None => None
    case Some(i) => Some(Detection(0, [SpacedPairs[i].0, SpacedPairs[i].1], None))
  }

  /**
   * The upper voice of the pair moves below where the lower one was, or
   * the lower voice moves above where the upper one was.
   */
  predicate OverlapAt(c1: ChordData, c2: ChordData, p: VoicePair) {
    AllPresent(c1, c2, p.0, p.1)
    && (Ps(c2.notes[p.1]) < Ps(c1.notes[p.0]) || Ps(c2.notes[p.0]) > Ps(c1.notes[p.1]))
  }

  /** `VoiceOverlapRule._detect_violation`: the first overlapping pair among B-T, T-A, A-S. */
  function VoiceOverlap(c1: ChordData, c2: ChordData): (r: Option<Detection>)
    ensures r.None? <==> forall i | 0 <= i < |AdjacentPairs| :: !OverlapAt(c1, c2, AdjacentPairs[i])
    ensures forall i | 0 <= i < |AdjacentPairs| && OverlapAt(c1, c2, AdjacentPairs[i])
              && (forall j | 0 <= j < i :: !OverlapAt(c1, c2, AdjacentPairs[j])) ::
              r == Some(Detection(0, [AdjacentPairs[i].0, AdjacentPairs[i].1], None))
  {
    var hit := p => OverlapAt(c1, c2, p);
    FirstHitIsFirst(AdjacentPairs, hit);
    match FirstHit(AdjacentPairs, hit)
    case None => None
    case Some(i) => Some(Detection(0, [AdjacentPairs[i].0, AdjacentPairs[i].1], None))
  }

  /** Crossing and spacing look at the first chord only. */
  lemma VerticalRulesReadFirstChord(c1: ChordData, c2: ChordData, c2': ChordData)
    ensures VoiceCrossing(c1, c2) == VoiceCrossing(c1, c2')
    ensures MaximumDistance(c1, c2) == MaximumDistance(c1, c2')
  {
  }

  /** The tenor-bass distance is never limited: a spacing report never names the bass. */
  lemma MaximumDistanceSparesBass(c1: ChordData, c2: ChordData)
    ensures MaximumDistance(c1, c2).Some? ==> B !in MaximumDistance(c1, c2).value.voices
  {
    var i := FirstHit(SpacedPairs, p => TooWideAt(c1, p));
    if i.Some? {
      assert MaximumDistance(c1, c2).value.voices == [SpacedPairs[i.value].0, SpacedPairs[i.value].1];
    }
  }

  /** Voices in unison, or in their proper order, never cross. */
  lemma OrderedVoicesNeverCross(c1: ChordData, c2: ChordData)
    requires forall v, u | v in c1.notes && u in c1.notes && (v, u) in AdjacentPairs :: Ps(c1.notes[v]) <= Ps(c1.notes[u])
    ensures VoiceCrossing(c1, c2).None?
  {
    forall i | 0 <= i < |AdjacentPairs|
      ensures !CrossedAt(c1, AdjacentPairs[i])
    {
      assert (AdjacentPairs[i].0, AdjacentPairs[i].1) in AdjacentPairs;
    }
  }

  /**
   * A chord repeated with the same notes overlaps exactly where it
   * crosses, so the two rules then report the same pair.
   */
  lemma RepeatedChordOverlapIsCrossing(c1: ChordData, c2: ChordData)
    requires c2.notes == c1.notes
    ensures VoiceOverlap(c1, c2) == VoiceCrossing(c1, c2)
  {
    assert forall p :: OverlapAt(c1, c2, p) <==> CrossedAt(c1, p);
  }

  // ---------------------------------------------------------------------
  // Doubled leading tone and doubled seventh
  // ---------------------------------------------------------------------

  /** The root the doubling rules use: the chord's root, or else the name of the bass note. */
  function FactorRoot(c: ChordData): (r: Option<NoteName>)
    ensures c.root.Some? ==> r == c.root
    ensures r.None? <==> c.root.None? && B !in c.notes
  {
    if c.root.Some? then c.root
    else if B in c.notes then Some(Name(c.notes[B]))
    else None
  }

  /** The voices, in S, A, T, B order, whose note is factor `f` above `root`. */
  function FactorVoices(c: ChordData, root: NoteName, f: Factor): (r: seq<Voice>)
    ensures forall v :: v in r <==> IsPart(v) && v in c.notes && ChordFactor(c.notes[v], root) == f
  {
    assert forall v :: v in SATB <==> IsPart(v);
    Filter(SATB, v => v in c.notes && ChordFactor(c.notes[v], root) == f)
  }

  /** The loop over S, A, T, B collecting the voices that carry factor `f`. */
  method CollectFactorVoices(c: ChordData, root: NoteName, f: Factor) returns (vs: seq<Voice>)
    ensures vs == FactorVoices(c, root, f)
  {
    vs := [];
    var i := 0;
    while i < 4
      invariant 0 <= i <= 4
      invariant vs == Filter(SATB[..i], v => v in c.notes && ChordFactor(c.notes[v], root) == f)
    {
      var v := SATB[i];
      assert SATB[..i + 1][..i] == SATB[..i];
      if v in c.notes && ChordFactor(c.notes[v], root) == f {
        vs := vs + [v];
      }
      i := i + 1;
    }
    assert SATB[..4] == SATB;
  }

  /** The voices found always come in S, A, T, B order. */
  lemma FactorVoicesOrdered(c: ChordData, root: NoteName, f: Factor)
    ensures InVoiceOrder(FactorVoices(c, root, f))
  {
    assert forall v :: v in SATB <==> IsPart(v);
    FilterKeepsOrder(SATB, v => v in c.notes && ChordFactor(c.notes[v], root) == f, Rank);
  }

  /** The voices of a chord that hold factor `f`, when there are at least two of them. */
  function Doubled(c: ChordData, f: Factor): (r: Option<seq<Voice>>)
    ensures r.Some? <==> FactorRoot(c).Some? && |FactorVoices(c, FactorRoot(c).value, f)| > 1
    ensures r.Some? ==> r.value == FactorVoices(c, FactorRoot(c).value, f)
  {
    match FactorRoot(c)
    case None => None
    case Some(root) =>
      var vs := FactorVoices(c, root, f);
      if |vs| > 1 then Some(vs) else None
  }

  /** The degree labels that make a chord dominant for the doubled-leading-tone rule: V, vii°, V/… and vii…/…. */
  predicate IsDominantDegree(d: Option<string>) {
    Truthy(d)
    && (d.value in {"V", "vii°"} || StartsWith(d.value, "V/") || (StartsWith(d.value, "vii") && Contains(d.value, "/")))
  }

  /** `_check_chord_for_duplicated_leading_tone`: the third of a dominant chord in more than one voice. */
  function DoubledLeadingTone(c: ChordData): (r: Option<seq<Voice>>)
    ensures r.Some? ==> IsDominantDegree(c.degree) && r == Doubled(c, Third)
    ensures IsDominantDegree(c.degree) ==> r == Doubled(c, Third)
  {
    if IsDominantDegree(c.degree) then Doubled(c, Third) else None
  }

  /**
   * A per-chord check applied to the first chord and, only when that one
   * is clean, to the second, whose report then carries chord index 1.
   */
  function EitherChord(r1: Option<seq<Voice>>, r2: Option<seq<Voice>>): (r: Option<Detection>)
    ensures r1.Some? ==> r == Some(Detection(0, r1.value, None))
    ensures r1.None? && r2.Some? ==> r == Some(Detection(1, r2.value, None))
    ensures r.None? <==> r1.None? && r2.None?
  {
    if r1.Some? then Some(Detection(0, r1.value, None))
    else if r2.Some? then Some(Detection(1, r2.value, None))
    else None
  }

  /** `DuplicatedLeadingToneRule._detect_violation`. */
  function DuplicatedLeadingTone(c1: ChordData, c2: ChordData): (r: Option<Detection>)
  {
    EitherChord(DoubledLeadingTone(c1), DoubledLeadingTone(c2))
  }

  /** `DuplicatedSeventhRule._detect_violation`: the seventh in more than one voice, whatever the degree. */
  function DuplicatedSeventh(c1: ChordData, c2: ChordData): (r: Option<Detection>)
  {
    EitherChord(Doubled(c1, Seventh), Doubled(c2, Seventh))
  }

  /**
   * A doubled-leading-tone report names the chord it was found in; that
   * chord is dominant and the report lists exactly its voices holding the
   * third, at least two of them; the second chord is reported only when
   * the first is clean.
   */
  lemma DuplicatedLeadingToneReport(c1: ChordData, c2: ChordData)
    ensures var r := DuplicatedLeadingTone(c1, c2);
      r.Some? ==> r.value.chordIndex in {0, 1} && var c := if r.value.chordIndex == 0 then c1 else c2;
        IsDominantDegree(c.degree) && FactorRoot(c).Some? && |r.value.voices| >= 2
        && (forall v :: v in r.value.voices <==> IsPart(v) && v in c.notes && ChordFactor(c.notes[v], FactorRoot(c).value) == Third)
    ensures DuplicatedLeadingTone(c1, c2).Some? && DuplicatedLeadingTone(c1, c2).value.chordIndex == 1 ==>
      DoubledLeadingTone(c1).None?
    ensures !IsDominantDegree(c1.degree) && !IsDominantDegree(c2.degree) ==> DuplicatedLeadingTone(c1, c2).None?
  {
  }

  /** A doubled-seventh report lists exactly the voices of its chord holding the seventh, at least two of them. */
  lemma DuplicatedSeventhReport(c1: ChordData, c2: ChordData)
    ensures var r := DuplicatedSeventh(c1, c2);
      r.Some? ==> r.value.chordIndex in {0, 1} && var c := if r.value.chordIndex == 0 then c1 else c2;
        FactorRoot(c).Some? && |r.value.voices| >= 2
        && (forall v :: v in r.value.voices <==> IsPart(v) && v in c.notes && ChordFactor(c.notes[v], FactorRoot(c).value) == Seventh)
    ensures DuplicatedSeventh(c1, c2).None? <==> Doubled(c1, Seventh).None? && Doubled(c2, Seventh).None?
  {
  }

  /** The doubled-factor check of one chord, as the source runs it: root fallback, then the loop. */
  method CheckDoubled(c: ChordData, f: Factor) returns (r: Option<seq<Voice>>)
    ensures r == Doubled(c, f)
  {
    var root := FactorRoot(c);
    if root.None? {
      return None;
    }
    var vs := CollectFactorVoices(c, root.value, f);
    if |vs| > 1 {
      r := Some(vs);
    } else {
      r := None;
    }
  }

  /** `DuplicatedLeadingToneRule._detect_violation`, step by step. */
  method DetectDuplicatedLeadingTone(c1: ChordData, c2: ChordData) returns (r: Option<Detection>)
    ensures r == DuplicatedLeadingTone(c1, c2)
  {
    var r1: Option<seq<Voice>> := None;
    if IsDominantDegree(c1.degree) {
      r1 := CheckDoubled(c1, Third);
    }
    if r1.Some? {
      return Some(Detection(0, r1.value, None));
    }
    var r2: Option<seq<Voice>> := None;
    if IsDominantDegree(c2.degree) {
      r2 := CheckDoubled(c2, Third);
    }
    if r2.Some? {
      return Some(Detection(1, r2.value, None));
    }
    return None;
  }

  /** `DuplicatedSeventhRule._detect_violation`, step by step. */
  method DetectDuplicatedSeventh(c1: ChordData, c2: ChordData) returns (r: Option<Detection>)
    ensures r == DuplicatedSeventh(c1, c2)
  {
    var r1 := CheckDoubled(c1, Seventh);
    if r1.Some? {
      return Some(Detection(0, r1.value, None));
    }
    var r2 := CheckDoubled(c2, Seventh);
    if r2.Some? {
      return Some(Detection(1, r2.value, None));
    }
    return None;
  }

  // ---------------------------------------------------------------------
  // Excessive melodic motion
  // ---------------------------------------------------------------------

  /** Voice `v` sounds in both chords and moves by more than an octave. */
  predicate LeapsBeyondOctave(c1: ChordData, c2: ChordData, v: Voice) {
    v in c1.notes && v in c2.notes && Abs(Ps(c2.notes[v]) - Ps(c1.notes[v])) > 12
  }

  /** The voices, in S, A, T, B order, that leap beyond the octave. */
  function ExcessiveLeapVoices(c1: ChordData, c2: ChordData): (r: seq<Voice>)
    ensures forall v :: v in r <==> IsPart(v) && LeapsBeyondOctave(c1, c2, v)
    ensures InVoiceOrder(r)
  {
    assert forall v :: v in SATB <==> IsPart(v);
    FilterKeepsOrder(SATB, v => LeapsBeyondOctave(c1, c2, v), Rank);
    Filter(SATB, v => LeapsBeyondOctave(c1, c2, v))
  }

  /** `ExcessiveMelodicMotionRule._detect_violation`: every leaping voice, shown on the second chord. */
  function ExcessiveMelodicMotion(c1: ChordData, c2: ChordData): (r: Option<Detection>)
    ensures r.None? <==> forall v | IsPart(v) :: !LeapsBeyondOctave(c1, c2, v)
    ensures r.Some? ==> r.value.chordIndex == 1 && r.value.motion.None?
    ensures r.Some? ==> forall v :: v in r.value.voices <==> IsPart(v) && LeapsBeyondOctave(c1, c2, v)
  {
    var vs := ExcessiveLeapVoices(c1, c2);
    if |vs| > 0 then
      assert vs[0] in vs;
      Some(Detection(1, vs, None))
    else
      assert vs == [];
      None
  }

  /** The loop of `ExcessiveMelodicMotionRule._detect_violation`. */
  method DetectExcessiveMelodicMotion(c1: ChordData, c2: ChordData) returns (r: Option<Detection>)
    ensures r == ExcessiveMelodicMotion(c1, c2)
  {
    var vs: seq<Voice> := [];
    var i := 0;
    while i < 4
      invariant 0 <= i <= 4
      invariant vs == Filter(SATB[..i], v => LeapsBeyondOctave(c1, c2, v))
    {
      var v := SATB[i];
      assert SATB[..i + 1][..i] == SATB[..i];
      if v in c1.notes && v in c2.notes && Abs(Ps(c2.notes[v]) - Ps(c1.notes[v])) > 12 {
        vs := vs + [v];
      }
      i := i + 1;
    }
    assert SATB[..4] == SATB;
    if |vs| > 0 {
      r := Some(Detection(1, vs, None));
    } else {
      r := None;
    }
  }

  /** A leap of exactly an octave is allowed. */
  lemma OctaveLeapAllowed(c1: ChordData, c2: ChordData, v: Voice)
    requires v in c1.notes && v in c2.notes && Ps(c2.notes[v]) == Ps(c1.notes[v]) + 12
    ensures ExcessiveMelodicMotion(c1, c2).Some? ==> v !in ExcessiveMelodicMotion(c1, c2).value.voices
  {
  }

  // ---------------------------------------------------------------------
  // Improper omission
  // ---------------------------------------------------------------------

  /** The special chord types the analyser marks, which are exempt from the omission rule. */
  const ExemptTypes: set<string> := {"+6it", "+6fr", "+6al", "N", "dominante_secundaria", "prestamo_menor"}

  predicate OmissionExempt(c: ChordData) {
    Truthy(c.tipoEspecial) && c.tipoEspecial.value in ExemptTypes
  }

  /** The report of a missing factor: the first chord, no particular voice ('?'). */
  const OmissionReport := Detection(0, [Unplaced], None)

  /** The chord has a `Chord` object of a known type, so `get_missing_factors` decides. */
  predicate UsesChordObject(c: ChordData) {
    HasChordObject(c) && ObjectType(c).Some? && ObjectType(c).value != UnknownType
  }

  /** Some S, A, T or B note of the chord is factor `f` above its root. */
  predicate Sounds(c: ChordData, f: Factor)
    requires c.root.Some?
  {
    HasFactor(FactorsOf(c.notes, c.root.value), f)
  }

  /** The object's factor map is the factor map of the chord's parts. */
  lemma ObjectFactorsOfParts(c: ChordData)
    requires c.root.Some?
    ensures ObjectFactors(c) == FactorsOf(c.notes, c.root.value)
  {
  }

  /**
   * The check through the `Chord` object: a missing third, or else a
   * missing seventh in a chord whose quality names a seventh or whose
   * degree starts with 'V'.
   */
  function ObjectOmission(c: ChordData): (r: Option<Detection>)
    requires UsesChordObject(c)
    ensures r.Some? ==> r.value == OmissionReport
    ensures r.Some? <==> !Sounds(c, Third) || (NumFactors(ObjectType(c).value) == Some(4) && !Sounds(c, Seventh))
  {
    var missing := MissingFactors(ObjectFactors(c), ObjectType(c));
    ObjectFactorsOfParts(c);
    assert Seventh in missing ==> Contains(c.quality.GetOr(""), "seventh") by {
      if Seventh in missing {
        FourFactorQualitiesNameSeventh(c.quality.value);
      }
    }
    if Third in missing then Some(OmissionReport)
    else if Seventh in missing && (Contains(c.quality.GetOr(""), "seventh") || StartsWith(c.degree.GetOr(""), "V")) then
      Some(OmissionReport)
    else None
  }

  /** The factors other than '?' that the notes of the voices `vs` form above `root`. */
  function PresentAlong(vs: seq<Voice>, c: ChordData, root: NoteName): (r: set<Factor>)
    ensures NoFactor !in r
  {
    if |vs| == 0 then {}
    else
      var v := vs[|vs| - 1];
      PresentAlong(vs[..|vs| - 1], c, root)
      + (if v in c.notes && ChordFactor(c.notes[v], root) != NoFactor then {ChordFactor(c.notes[v], root)} else {})
  }

  /** A factor is gathered exactly when it is not '?' and one of the voices sounds it. */
  lemma {:induction false} PresentAlongMembers(vs: seq<Voice>, c: ChordData, root: NoteName, f: Factor)
    ensures f in PresentAlong(vs, c, root) <==>
      f != NoFactor && exists v | v in vs && v in c.notes :: ChordFactor(c.notes[v], root) == f
  {
    if |vs| > 0 {
      var init, last := vs[..|vs| - 1], vs[|vs| - 1];
      PresentAlongMembers(init, c, root, f);
      assert vs == init + [last];
      if f != NoFactor && exists v | v in vs && v in c.notes :: ChordFactor(c.notes[v], root) == f {
        var v :| v in vs && v in c.notes && ChordFactor(c.notes[v], root) == f;
        if v != last {
          assert v in init;
        }
      }
    }
  }

  /** The loop of `_legacy_check_omissions` gathering the factors present. */
  method CollectPresentFactors(c: ChordData, root: NoteName) returns (present: set<Factor>)
    ensures present == PresentAlong(SATB, c, root)
  {
    present := {};
    var i := 0;
    while i < 4
      invariant 0 <= i <= 4
      invariant present == PresentAlong(SATB[..i], c, root)
    {
      var v := SATB[i];
      assert SATB[..i + 1][..i] == SATB[..i];
      if v in c.notes {
        var f := ChordFactor(c.notes[v], root);
        if f != NoFactor {
          present := present + {f};
        }
      }
      i := i + 1;
    }
    assert SATB[..4] == SATB;
  }

  /** A factor other than '?' is present exactly when some part sounds it. */
  lemma PresentIffSounds(vs: seq<Voice>, c: ChordData, f: Factor)
    requires forall v :: v in vs <==> IsPart(v)
    requires c.root.Some? && f != NoFactor
    ensures f in PresentAlong(vs, c, c.root.value) <==> Sounds(c, f)
  {
    var vf := FactorsOf(c.notes, c.root.value);
    PresentAlongMembers(vs, c, c.root.value, f);
    if Sounds(c, f) {
      var v :| v in vf && vf[v] == f;
      assert v in vs;
    }
    if f in PresentAlong(vs, c, c.root.value) {
      var v :| v in vs && v in c.notes && ChordFactor(c.notes[v], c.root.value) == f;
      assert vf[v] == f;
    }
  }

  /** The legacy check sees a third, or a seventh, exactly when some part sounds it. */
  lemma LegacyPresence(c: ChordData)
    ensures c.root.Some? ==>
      (Third in PresentAlong(SATB, c, c.root.value) <==> Sounds(c, Third))
      && (Seventh in PresentAlong(SATB, c, c.root.value) <==> Sounds(c, Seventh))
  {
    if c.root.Some? {
      assert forall v :: v in SATB <==> IsPart(v);
      PresentIffSounds(SATB, c, Third);
      PresentIffSounds(SATB, c, Seventh);
    }
  }

  /**
   * `_legacy_check_omissions`: without a root, nothing; otherwise a
   * missing third, or else a missing seventh in a chord whose degree names
   * V7 or vii°7 or whose quality names a seventh.
   */
  function LegacyOmission(c: ChordData): (r: Option<Detection>)
    ensures r.Some? ==> r.value == OmissionReport && c.root.Some?
    ensures c.root.Some? ==> (r.Some? <==> !Sounds(c, Third) || (LegacyNamesSeventh(c) && !Sounds(c, Seventh)))
  {
    if c.root.None? then None
    else
      LegacyPresence(c);
      var present := PresentAlong(SATB, c, c.root.value);
      if Third !in present then Some(OmissionReport)
      else if LegacyNamesSeventh(c) && Seventh !in present then Some(OmissionReport)
      else None
  }

  /** The legacy check's test for a seventh chord: the degree names V7 or vii°7, or the quality names a seventh. */
  predicate LegacyNamesSeventh(c: ChordData) {
    var degree, quality := c.degree.GetOr(""), c.quality.GetOr("");
    Contains(degree, "V7") || Contains(degree, "vii°7") || Contains(Lower(quality), "seventh")
  }

  /** Without a known chord type, a chord named as a seventh chord whose seventh does not sound is reported. */
  lemma LegacySeventhReported(c1: ChordData, c2: ChordData)
    requires !OmissionExempt(c1) && !UsesChordObject(c1) && c1.root.Some?
    requires LegacyNamesSeventh(c1) && !Sounds(c1, Seventh)
    ensures ImproperOmission(c1, c2).Some?
  {
  }

  /**
   * `ImproperOmissionRule._detect_violation`: only the first chord is
   * checked; exempt special chords are skipped; a known chord type goes
   * through the object, anything else through the legacy check.
   */
  function ImproperOmission(c1: ChordData, c2: ChordData): (r: Option<Detection>)
    ensures OmissionExempt(c1) ==> r.None?
    ensures r.Some? ==> r.value == OmissionReport && c1.root.Some?
    ensures r.Some? ==> !Sounds(c1, Third) || !Sounds(c1, Seventh)
    ensures !OmissionExempt(c1) && c1.root.Some? && !Sounds(c1, Third) ==> r.Some?
  {
    if OmissionExempt(c1) then None
    else if UsesChordObject(c1) then
      ObjectFactorsOfParts(c1);
      ObjectOmission(c1)
    else
      LegacyPresence(c1);
      LegacyOmission(c1)
  }

  /** `ImproperOmissionRule._detect_violation`, building the `Chord` object as the source does. */
  method DetectImproperOmission(c1: ChordData, c2: ChordData) returns (r: Option<Detection>)
    ensures r == ImproperOmission(c1, c2)
  {
    if Truthy(c1.tipoEspecial) && c1.tipoEspecial.value in ExemptTypes {
      return None;
    }
    var obj := DictToChordSafe(c1);
    if obj == null || obj.chordType.None? || obj.chordType.value == UnknownType {
      assert !UsesChordObject(c1);
      if c1.root.None? {
        return None;
      }
      var present := CollectPresentFactors(c1, c1.root.value);
      if Third !in present {
        r := Some(OmissionReport);
      } else if LegacyNamesSeventh(c1) && Seventh !in present {
        r := Some(OmissionReport);
      } else {
        r := None;
      }
      assert r == LegacyOmission(c1);
      return;
    }
    var missing := obj.GetMissingFactors();
    assert UsesChordObject(c1) && missing == MissingFactors(ObjectFactors(c1), ObjectType(c1));
    if Third in missing {
      r := Some(OmissionReport);
    } else if Seventh in missing && (Contains(c1.quality.GetOr(""), "seventh") || StartsWith(c1.degree.GetOr(""), "V")) {
      r := Some(OmissionReport);
    } else {
      r := None;
    }
    assert r == ObjectOmission(c1);
  }

  /** A chord with a root but no voices is reported for a missing third. */
  lemma RootWithoutVoicesMissesThird(c1: ChordData, c2: ChordData)
    requires !OmissionExempt(c1) && c1.root.Some?
    requires forall v | IsPart(v) :: v !in c1.notes
    ensures ImproperOmission(c1, c2) == Some(OmissionReport)
  {
    assert FactorsOf(c1.notes, c1.root.value) == map[];
  }

  /** Every known four-factor quality names a seventh. */
  lemma FourFactorQualitiesNameSeventh(q: string)
    requires q in KnownQualities && NumFactors(QualityToChordType(q)) == Some(4)
    ensures Contains(q, "seventh")
  {
    assert q != "major" && q != "minor" && q != "diminished";
    SeventhQualitiesNameSeventh(q);
  }

  /** The five seventh-chord quality names each end in "seventh". */
  lemma SeventhQualitiesNameSeventh(q: string)
    requires q in {"dominant-seventh", "diminished-seventh", "half-diminished-seventh", "major-seventh", "minor-seventh"}
    ensures Contains(q, "seventh")
  {
    var n := |q| - 7;
    if q == "dominant-seventh" {
      assert q[n..] == "seventh";
    } else if q == "diminished-seventh" {
      assert q[n..] == "seventh";
    } else if q == "half-diminished-seventh" {
      assert q[n..] == "seventh";
    } else if q == "major-seventh" {
      assert q[n..] == "seventh";
    } else {
      assert q[n..] == "seventh";
    }
    EndsWithContains(q, "seventh");
  }

  /**
   * Through the object, a missing seventh is always reported: the quality
   * test then always holds, so the degree test is never needed.
   */
  lemma ObjectOmissionReportsMissingSeventh(c: ChordData)
    requires UsesChordObject(c)
    ensures ObjectOmission(c).Some? <==>
      var missing := MissingFactors(ObjectFactors(c), ObjectType(c)); Third in missing || Seventh in missing
  {
    var missing := MissingFactors(ObjectFactors(c), ObjectType(c));
    if Seventh in missing {
      FourFactorQualitiesNameSeventh(c.quality.value);
    }
  }
}
