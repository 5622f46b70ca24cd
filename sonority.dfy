/**
 * A chord as the tonal analyser sees it after music21 has built it from
 * the voices' note names: its pitches, and music21's answers about its
 * root, quality and inversion.
 */
module Sonority {
  import opened Wrappers
  import opened Pitches
  import opened Keys

  /** What music21's `Chord` answers; `root` is `None` when `chord.root()` finds none. */
  datatype ChordFacts = ChordFacts(
    pitches: seq<Pitch>,
    root: Option<Pitch>,
    quality: string,
    inversion: int,
    containsSeventh: bool,
    isDominantSeventh: bool,
    isHalfDiminishedSeventh: bool)

  /** `set(p.pitchClass for p in acorde.pitches)`. */
  function ClassesOf(pitches: seq<Pitch>): (r: set<int>)
    ensures forall pc | pc in r :: 0 <= pc < 12
    ensures forall i | 0 <= i < |pitches| :: PitchClass(pitches[i]) in r
    ensures forall pc | pc in r :: exists i | 0 <= i < |pitches| :: PitchClass(pitches[i]) == pc
  {
    set i | 0 <= i < |pitches| :: PitchClass(pitches[i])
  }

  /** Every pitch of the chord sounds a pitch class of the key's scale. */
  predicate AllDiatonic(k: Key, pitches: seq<Pitch>) {
    forall i | 0 <= i < |pitches| :: IsDiatonicClass(k, PitchClass(pitches[i]))
  }

  /**
   * The loop of `detectar_dominante_secundaria` (and of `_es_diatonico`):
   * scan the pitches in order for one outside the scale, and stop at the
   * first.
   */
  method FindChromaticPitch(k: Key, pitches: seq<Pitch>) returns (found: bool)
    ensures found <==> !AllDiatonic(k, pitches)
  {
    var scale := ScaleClasses(k);
    found := false;
    var i := 0;
    while i < |pitches|
      invariant 0 <= i <= |pitches|
      invariant forall j | 0 <= j < i :: IsDiatonicClass(k, PitchClass(pitches[j]))
    {
      if PitchClass(pitches[i]) !in scale {
        found := true;
        break;
      }
      i := i + 1;
    }
  }
}
