/**
 * The chord record the rule engine receives: one optional pitch per voice
 * plus the fields of the harmonic analysis (root, quality, inversion,
 * degree, degree number, harmonic function, special type and key).
 * A field that is `None` is absent from the record.
 */
module Voicing {
  import opened Wrappers
  import opened Pitches
  import opened Keys

  /**
   * The four voices, plus `Unplaced`: the "?" the omission rule reports
   * when a missing factor belongs to no voice.
   */
  datatype Voice = S | A | T | B | Unplaced

  /** The four real voices in the order the factor analysis visits them. */
  const SATB: seq<Voice> := [S, A, T, B]

  predicate IsPart(v: Voice) {
    v != Unplaced
  }

  datatype ChordData = ChordData(
    notes: map<Voice, Pitch>,
    /** The order of the voice entries in the record (dictionary order). */
    order: seq<Voice>,
    root: Option<NoteName>,
    quality: Option<string>,
    inversion: Option<int>,
    degree: Option<string>,
    degreeNum: Option<int>,
    /** The field 'function'. */
    harmonicFunction: Option<string>,
    /** The field 'funcion', read when 'function' is absent. */
    funcion: Option<string>,
    tipoEspecial: Option<string>,
    key: Option<Key>)

  /** `chord.get(voice)`. */
  function NoteOf(c: ChordData, v: Voice): Option<Pitch> {
    if v in c.notes then Some(c.notes[v]) else None
  }

  /** The four notes of a voice pair in two chords, when all of them are present. */
  predicate AllPresent(c1: ChordData, c2: ChordData, v1: Voice, v2: Voice) {
    v1 in c1.notes && v2 in c1.notes && v1 in c2.notes && v2 in c2.notes
  }

  /** Python truthiness of an optional string: present and non-empty. */
  predicate Truthy(s: Option<string>) {
    s.Some? && s.value != ""
  }

  /** The evaluation context of a progression: only its key is read. */
  datatype Context = Context(key: Option<Key>)

  /** `validate`'s key injection: a chord without a key takes the context's key. */
  function InjectKey(c: ChordData, ctx: Context): (r: ChordData)
    ensures r.key == (if c.key.Some? then c.key else ctx.key)
    ensures r.(key := c.key) == c
  {
    if ctx.key.Some? && c.key.None? then c.(key := ctx.key) else c
  }

  /** `chord.get('key', 'C major')`. */
  function KeyOrDefault(c: ChordData): Key {
    c.key.GetOr(CMajor)
  }
}
