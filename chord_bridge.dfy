/**
 * `_dict_to_chord_safe`: how the rules turn a chord record into a `Chord`
 * object, and the functions of the record that give the object's fields.
 */
module ChordBridge {
  import opened Wrappers
  import opened Pitches
  import opened VoiceLeading
  import opened Voicing
  import opened ChordKnowledge

  /** The S, A, T and B entries of a record. */
  function PartNotes(c: ChordData): (r: map<Voice, Pitch>)
    ensures forall v :: v in r <==> v in c.notes && IsPart(v)
    ensures forall v | v in r :: r[v] == c.notes[v]
  {
    map v | v in c.notes && IsPart(v) :: c.notes[v]
  }

  /** A record becomes a `Chord` when it has a root and at least one voice. */
  predicate HasChordObject(c: ChordData) {
    c.root.Some? && PartNotes(c).Keys != {}
  }

  /** The factor map of the record's `Chord`. */
  function ObjectFactors(c: ChordData): (r: map<Voice, Factor>)
    ensures PartsOnly(r)
  {
    AnalyzedFactors(PartNotes(c), c.root)
  }

  /** The chord type of the record's `Chord`. */
  function ObjectType(c: ChordData): Option<ChordType> {
    ChordTypeOf(c.root, c.quality)
  }

  /** `_dict_to_chord_safe`: no object without a root or without any voice; the inversion defaults to 0. */
  method DictToChordSafe(c: ChordData) returns (o: Chord?)
    ensures o == null <==> !HasChordObject(c)
    ensures o != null ==> fresh(o) && o.Valid()
    ensures o != null ==> o.voices == PartNotes(c) && o.root == c.root && o.quality == c.quality
    ensures o != null ==> o.key == c.key && o.inversion == c.inversion.GetOr(0)
    ensures o != null ==> o.voiceFactors == ObjectFactors(c) && o.chordType == ObjectType(c)
  {
    if c.root.None? {
      return null;
    }
    var voices: map<Voice, Pitch> := map[];
    var i := 0;
    while i < 4
      invariant 0 <= i <= 4
      invariant forall v :: v in voices <==> v in c.notes && v in SATB[..i]
      invariant forall v | v in voices :: voices[v] == c.notes[v]
    {
      var v := SATB[i];
      assert SATB[..i + 1] == SATB[..i] + [v];
      if v in c.notes {
        voices := voices[v := c.notes[v]];
      }
      i := i + 1;
    }
    assert SATB[..4] == SATB;
    assert forall v :: v in SATB <==> IsPart(v);
    assert voices == PartNotes(c);
    if voices.Keys == {} {
      return null;
    }
    o := new Chord(voices, c.root, c.quality, c.key, c.inversion.GetOr(0));
  }
}
