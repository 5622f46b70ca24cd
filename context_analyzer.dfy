/**
 * `ContextAnalyzer`: the contextual exceptions the rules consult, a
 * change of voicing of the same chord and the V-VII pair.  Modulation
 * and sequence detection are stubs in the source (no modulation, never
 * in a pattern) and are represented by constants.
 */
module ContextAnalysis {
  import opened Wrappers
  import opened Pitches
  import opened Voicing

  /** Pitch classes sounding in the four voices. */
  function PitchClasses(c: ChordData): set<int> {
    set v | v in c.notes && IsPart(v) :: PitchClass(c.notes[v])
  }

  /** The notes sounding in the four voices, as a set (which voice sings each is forgotten). */
  function NoteSet(c: ChordData): set<Pitch> {
    set v | v in c.notes && IsPart(v) :: c.notes[v]
  }

  /** Same root, quality and inversion (absent fields compare equal). */
  predicate SameChordLabel(c1: ChordData, c2: ChordData) {
    c1.root == c2.root && c1.quality == c2.quality && c1.inversion == c2.inversion
  }

  /**
   * `is_voicing_change` (harmonic_rules.py:95-156): the same chord with
   * the same pitch classes, but not the same set of notes.
   */
  predicate IsVoicingChange(c1: ChordData, c2: ChordData) {
    SameChordLabel(c1, c2) && PitchClasses(c1) == PitchClasses(c2) && NoteSet(c1) != NoteSet(c2)
  }

  /** A chord is never a change of voicing of itself. */
  lemma VoicingChangeIrreflexive(c: ChordData)
    ensures !IsVoicingChange(c, c)
  {
  }

  lemma VoicingChangeSymmetric(c1: ChordData, c2: ChordData)
    ensures IsVoicingChange(c1, c2) <==> IsVoicingChange(c2, c1)
  {
  }

  /**
   * Moving one voice by whole octaves onto a note the chord does not yet
   * sound (close C3-E3-G3-C4 to open C3-G3-C4-E4, say) is a change of
   * voicing.
   */
  lemma OctaveMoveIsVoicingChange(c: ChordData, v: Voice, k: int)
    requires IsPart(v) && v in c.notes
    requires OctavesUp(c.notes[v], k) !in NoteSet(c)
    ensures IsVoicingChange(c, c.(notes := c.notes[v := OctavesUp(c.notes[v], k)]))
  {
    var moved := OctavesUp(c.notes[v], k);
    var c' := c.(notes := c.notes[v := moved]);
    assert PitchClass(moved) == PitchClass(c.notes[v]);
    forall pc | pc in PitchClasses(c)
      ensures pc in PitchClasses(c')
    {
      var u :| u in c.notes && IsPart(u) && PitchClass(c.notes[u]) == pc;
      if u == v {
        assert PitchClass(c'.notes[v]) == pc;
      } else {
        assert c'.notes[u] == c.notes[u];
      }
    }
    forall pc | pc in PitchClasses(c')
      ensures pc in PitchClasses(c)
    {
      var u :| u in c'.notes && IsPart(u) && PitchClass(c'.notes[u]) == pc;
      if u == v {
        assert PitchClass(c.notes[v]) == pc;
      } else {
        assert c.notes[u] == c'.notes[u];
      }
    }
    assert moved in NoteSet(c');
  }

  /** `chord.get('function', chord.get('funcion', ''))`. */
  function FunctionLabel(c: ChordData): string {
    if c.harmonicFunction.Some? then c.harmonicFunction.value else c.funcion.GetOr("")
  }

  /** `chord.get('degree_num', 0)`. */
  function DegreeNumber(c: ChordData): int {
    c.degreeNum.GetOr(0)
  }

  /** `is_V_VII_pair` (harmonic_rules.py:188-216), in the source's order of tests. */
  predicate IsVVIIPair(c1: ChordData, c2: ChordData) {
    var f1, f2 := FunctionLabel(c1), FunctionLabel(c2);
    if {DegreeNumber(c1), DegreeNumber(c2)} != {5, 7} then false
    else if f1 == "D" && f2 == "D" then true
    else if f1 == "" || f2 == "" then true
    else f1 == "D" || f2 == "D"
  }

  /**
   * A V-VII pair is exactly a pair of degrees 5 and 7, in either order,
   * in which some function is missing or some function is dominant.
   */
  lemma VVIIPairCharacterised(c1: ChordData, c2: ChordData)
    ensures IsVVIIPair(c1, c2) <==>
      ((DegreeNumber(c1) == 5 && DegreeNumber(c2) == 7) || (DegreeNumber(c1) == 7 && DegreeNumber(c2) == 5))
      && (FunctionLabel(c1) == "" || FunctionLabel(c2) == ""
          || FunctionLabel(c1) == "D" || FunctionLabel(c2) == "D")
  {
    var d1, d2 := DegreeNumber(c1), DegreeNumber(c2);
    if {d1, d2} == {5, 7} {
      assert d1 in {5, 7} && d2 in {5, 7};
      assert 5 in {d1, d2} && 7 in {d1, d2};
    }
    if (d1 == 5 && d2 == 7) || (d1 == 7 && d2 == 5) {
      assert {d1, d2} == {5, 7};
    }
  }

  /** `detect_modulation` is a stub: it never reports a modulation. */
  const DetectedModulation: Option<string> := None

  /** `is_in_pattern` is a stub: no progression is treated as part of a sequence. */
  const InPattern := false
}
