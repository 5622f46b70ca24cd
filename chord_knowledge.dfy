/**
 * The chord-factor model of chord_knowledge.py: the chord types with
 * their factor counts and figured-bass tables, the `Chord` object that
 * derives a factor per voice when it is built, its vertical queries, and
 * `Progression`, which pairs the factors of each voice across two chords.
 *
 * The queries are specified on the value of the factor map
 * (`map<Voice, Factor>`), so that the rules, which are functions, can
 * use them too; the classes answer them from their fields.
 */
module ChordKnowledge {
  import opened Wrappers
  import opened Pitches
  import opened Keys
  import opened VoiceLeading
  import opened Voicing

  /** The entries of `CHORD_DEFINITIONS` a quality can map to, plus 'unknown'. */
  datatype ChordType =
    | MajorTriad | MinorTriad | DiminishedTriad
    | DominantSeventh | DiminishedSeventh | HalfDiminished | MajorSeventh | MinorSeventh
    | UnknownType

  /** The music21 quality names `QUALITY_TO_CHORD_TYPE` knows. */
  const KnownQualities: set<string> := {
    "major", "minor", "diminished", "dominant-seventh", "diminished-seventh",
    "half-diminished-seventh", "major-seventh", "minor-seventh"
  }

  /** `QUALITY_TO_CHORD_TYPE.get(quality)`, with 'unknown' for any other name. */
  function QualityToChordType(q: string): (r: ChordType)
    ensures r == UnknownType <==> q !in KnownQualities
  {
    if q == "major" then MajorTriad
    else if q == "minor" then MinorTriad
    else if q == "diminished" then DiminishedTriad
    else if q == "dominant-seventh" then DominantSeventh
    else if q == "diminished-seventh" then DiminishedSeventh
    else if q == "half-diminished-seventh" then HalfDiminished
    else if q == "major-seventh" then MajorSeventh
    else if q == "minor-seventh" then MinorSeventh
    else UnknownType
  }

  /** No two known qualities map to the same chord type. */
  lemma QualityMapInjective(q1: string, q2: string)
    requires q1 in KnownQualities && q2 in KnownQualities
    requires QualityToChordType(q1) == QualityToChordType(q2)
    ensures q1 == q2
  {
  }

  /** `num_factors` of the definition; an unknown type has no definition. */
  function NumFactors(t: ChordType): (r: Option<int>)
    ensures r.None? <==> t == UnknownType
    ensures r.Some? ==> (r.value == 3 <==> t in {MajorTriad, MinorTriad, DiminishedTriad})
    ensures r.Some? ==> r.value == 3 || r.value == 4
  {
    match t
    case MajorTriad => Some(3)
    case MinorTriad => Some(3)
    case DiminishedTriad => Some(3)
    case UnknownType => None
    case _ => Some(4)
  }

  /** The `figured_bass` table of each definition, by inversion. */
  function FiguredBassTable(t: ChordType): map<int, string> {
    match t
    case MajorTriad => map[0 := "5/3", 1 := "6", 2 := "6/4"]
    case MinorTriad => map[0 := "5/3", 1 := "6", 2 := "6/4"]
    case DiminishedTriad => map[0 := "5♭", 1 := "6", 2 := "+6/3"]
    case DominantSeventh => map[0 := "7/+", 1 := "6/5-", 2 := "+6", 3 := "+4"]
    case DiminishedSeventh => map[0 := "7-", 1 := "6-/5-", 2 := "+6", 3 := "+4"]
    case HalfDiminished => map[0 := "7", 1 := "6/5♭", 2 := "+6", 3 := "+4"]
    case MajorSeventh => map[0 := "7", 1 := "6/5", 2 := "4/3", 3 := "2"]
    case MinorSeventh => map[0 := "7", 1 := "6/5", 2 := "4/3", 3 := "2"]
    case UnknownType => map[]
  }

  /** Every defined type has a figure for each of its positions: one per factor. */
  lemma FiguredBassCoversInversions(t: ChordType, inversion: int)
    requires NumFactors(t).Some? && 0 <= inversion < NumFactors(t).value
    ensures inversion in FiguredBassTable(t)
  {
  }

  // ---------------------------------------------------------------
  // Factor maps and their queries
  // ---------------------------------------------------------------

  /** A factor map names only the four real voices. */
  predicate PartsOnly(vf: map<Voice, Factor>) {
    forall v | v in vf :: IsPart(v)
  }

  /** The factor of every present voice above `root` (`_analyze_factors`). */
  function FactorsOf(notes: map<Voice, Pitch>, root: NoteName): (r: map<Voice, Factor>)
    ensures PartsOnly(r)
    ensures forall v :: v in r <==> v in notes && IsPart(v)
  {
    map v | v in notes && IsPart(v) :: ChordFactor(notes[v], root)
  }

  /** `get_factor_for_voice`: '?' for a voice with no factor. */
  function FactorFor(vf: map<Voice, Factor>, v: Voice): Factor {
    if v in vf then vf[v] else NoFactor
  }

  /** Position of a real voice in the order S, A, T, B. */
  function Rank(v: Voice): int {
    match v
    case S => 0
    case A => 1
    case T => 2
    case B => 3
    case Unplaced => 4
  }

  /** The voices of `vs` (in order) that the factor map assigns `f`. */
  function SelectWithFactor(vs: seq<Voice>, vf: map<Voice, Factor>, f: Factor): (r: seq<Voice>)
    ensures forall v :: v in r <==> v in vs && v in vf && vf[v] == f
    ensures |r| <= |vs|
  {
    if |vs| == 0 then []
    else (if vs[0] in vf && vf[vs[0]] == f then [vs[0]] else []) + SelectWithFactor(vs[1..], vf, f)
  }

  /** A sequence of real voices in strictly increasing S, A, T, B order. */
  predicate InVoiceOrder(r: seq<Voice>) {
    forall i, j | 0 <= i < j < |r| :: Rank(r[i]) < Rank(r[j])
  }

  /** Putting in front a voice that precedes everything in an ordered list keeps it ordered. */
  lemma OrderedCons(h: seq<Voice>, t: seq<Voice>, first: Voice)
    requires h == [] || h == [first]
    requires InVoiceOrder(t) && forall u | u in t :: Rank(first) < Rank(u)
    ensures InVoiceOrder(h + t)
  {
    var r := h + t;
    forall i, j | 0 <= i < j < |r| ensures Rank(r[i]) < Rank(r[j]) {
      assert r[j] == t[j - |h|] && r[j] in t;
      if i >= |h| {
        assert r[i] == t[i - |h|];
      }
    }
  }

  /** The voices after the first of an ordered list are ordered and all come later. */
  lemma OrderedTail(vs: seq<Voice>)
    requires |vs| > 0 && InVoiceOrder(vs)
    ensures InVoiceOrder(vs[1..])
    ensures forall u | u in vs[1..] :: Rank(vs[0]) < Rank(u)
  {
    forall u | u in vs[1..] ensures Rank(vs[0]) < Rank(u) {
      var k :| 0 <= k < |vs[1..]| && vs[1..][k] == u;
      assert vs[k + 1] == u;
    }
  }

  /** Selecting from voices in S, A, T, B order keeps that order. */
  lemma {:induction false} SelectKeepsOrder(vs: seq<Voice>, vf: map<Voice, Factor>, f: Factor)
    requires InVoiceOrder(vs)
    ensures InVoiceOrder(SelectWithFactor(vs, vf, f))
  {
    if |vs| > 0 {
      OrderedTail(vs);
      SelectKeepsOrder(vs[1..], vf, f);
      var h := if vs[0] in vf && vf[vs[0]] == f then [vs[0]] else [];
      OrderedCons(h, SelectWithFactor(vs[1..], vf, f), vs[0]);
    }
  }

  /**
   * `get_voices_with_factor`: exactly the voices whose factor is `f`, in
   * S, A, T, B order (the order in which the factor map was filled).
   */
  function VoicesWithFactor(vf: map<Voice, Factor>, f: Factor): (r: seq<Voice>)
    requires PartsOnly(vf)
    ensures forall v :: v in r <==> v in vf && vf[v] == f
    ensures InVoiceOrder(r) && |r| <= 4
  {
    SelectKeepsOrder(SATB, vf, f);
    SelectWithFactor(SATB, vf, f)
  }

  /** The factors of the voices of `vs` that the map covers, in the order of `vs`. */
  function ValuesAlong(vs: seq<Voice>, vf: map<Voice, Factor>): (r: seq<Factor>)
    ensures |r| <= |vs|
    ensures forall f :: f in r <==> exists v | v in vs && v in vf :: vf[v] == f
  {
    if |vs| == 0 then []
    else
      var head := if vs[0] in vf then [vf[vs[0]]] else [];
      head + ValuesAlong(vs[1..], vf)
  }

  /** The factors in S, A, T, B order: `voice_factors.values()`. */
  function FactorValues(vf: map<Voice, Factor>): (r: seq<Factor>)
    ensures |r| <= 4
    ensures PartsOnly(vf) ==> forall f :: f in r <==> f in vf.Values
  {
    assert forall v :: v in SATB <==> IsPart(v);
    ValuesAlong(SATB, vf)
  }

  lemma {:induction false} SelectCountsValues(vs: seq<Voice>, vf: map<Voice, Factor>, f: Factor)
    ensures |SelectWithFactor(vs, vf, f)| == multiset(ValuesAlong(vs, vf))[f]
  {
    if |vs| > 0 {
      SelectCountsValues(vs[1..], vf, f);
    }
  }

  /** Voices carrying `f` are as many as the occurrences of `f` among the factors. */
  lemma VoicesWithFactorCount(vf: map<Voice, Factor>, f: Factor)
    requires PartsOnly(vf)
    ensures |VoicesWithFactor(vf, f)| == multiset(FactorValues(vf))[f]
  {
    SelectCountsValues(SATB, vf, f);
  }

  /** `has_factor`: some voice carries `f`. */
  predicate HasFactor(vf: map<Voice, Factor>, f: Factor) {
    f in vf.Values
  }

  /** `has_factor(f)` holds exactly when `get_voices_with_factor(f)` is non-empty. */
  lemma HasFactorIffVoices(vf: map<Voice, Factor>, f: Factor)
    requires PartsOnly(vf)
    ensures HasFactor(vf, f) <==> |VoicesWithFactor(vf, f)| > 0
  {
    var r := VoicesWithFactor(vf, f);
    if HasFactor(vf, f) {
      var v :| v in vf && vf[v] == f;
      assert v in r;
    }
    if |r| > 0 {
      assert r[0] in r;
      assert vf[r[0]] == f;
    }
  }

  /** `is_complete`: root, third and fifth all sound. */
  predicate IsComplete(vf: map<Voice, Factor>) {
    {Root, Third, Fifth} <= vf.Values
  }

  /** The factors a chord type's definition requires: 1-3-5, plus 7 for four-factor types. */
  function RequiredFactors(t: ChordType): (r: set<Factor>)
    ensures NumFactors(t) == Some(3) ==> r == {Root, Third, Fifth}
    ensures NumFactors(t) == Some(4) ==> r == {Root, Third, Fifth, Seventh}
    ensures NumFactors(t).None? ==> r == {}
  {
    match NumFactors(t)
    case None => {}
    case Some(n) => if n == 3 then {Root, Third, Fifth} else {Root, Third, Fifth, Seventh}
  }

  /** `get_missing_factors`: required factors that no voice carries. */
  function MissingFactors(vf: map<Voice, Factor>, t: Option<ChordType>): (r: set<Factor>)
    ensures t.None? || t == Some(UnknownType) ==> r == {}
    ensures t.Some? ==> r <= RequiredFactors(t.value)
    ensures forall f | f in r :: !HasFactor(vf, f)
    ensures t.Some? ==> forall f | f in RequiredFactors(t.value) :: f in r || HasFactor(vf, f)
  {
    if t.None? then {} else RequiredFactors(t.value) - vf.Values
  }

  /** A triad (or seventh chord) is complete when nothing it requires is missing. */
  lemma CompleteIffNothingMissingForTriads(vf: map<Voice, Factor>, t: ChordType)
    requires NumFactors(t) == Some(3)
    ensures IsComplete(vf) <==> MissingFactors(vf, Some(t)) == {}
  {
    if MissingFactors(vf, Some(t)) == {} {
      assert Root !in MissingFactors(vf, Some(t));
      assert Third !in MissingFactors(vf, Some(t));
      assert Fifth !in MissingFactors(vf, Some(t));
    }
  }

  /** `get_figured_bass`: the definition's figure for the inversion, '?' when there is none. */
  function FiguredBass(t: Option<ChordType>, inversion: int): (r: string)
    ensures t.None? ==> r == "?"
    ensures t.Some? && inversion in FiguredBassTable(t.value) ==> r == FiguredBassTable(t.value)[inversion]
    ensures t.Some? && inversion !in FiguredBassTable(t.value) ==> r == "?"
  {
    if t.Some? && inversion in FiguredBassTable(t.value) then FiguredBassTable(t.value)[inversion] else "?"
  }

  /** `chord_type` as `__post_init__` leaves it: only a chord with a root and a quality gets one. */
  function ChordTypeOf(root: Option<NoteName>, quality: Option<string>): (r: Option<ChordType>)
    ensures r.Some? <==> root.Some? && Truthy(quality)
    ensures r.Some? ==> r.value == QualityToChordType(quality.value)
  {
    if root.None? && Truthy(quality) then None
    else if Truthy(quality) then Some(QualityToChordType(quality.value))
    else None
  }

  /** The factor map `__post_init__` leaves: empty without a root. */
  function AnalyzedFactors(voices: map<Voice, Pitch>, root: Option<NoteName>): (r: map<Voice, Factor>)
    ensures PartsOnly(r)
    ensures root.None? ==> r == map[]
    ensures root.Some? ==> r == FactorsOf(voices, root.value)
  {
    if root.None? then map[] else FactorsOf(voices, root.value)
  }

  // ---------------------------------------------------------------
  // The Chord object
  // ---------------------------------------------------------------

  /** `Chord`: an SATB chord with the factor of each voice, derived once when it is built. */
  class Chord {
    var voices: map<Voice, Pitch>
    var root: Option<NoteName>
    var quality: Option<string>
    var key: Option<Key>
    var inversion: int
    var voiceFactors: map<Voice, Factor>
    var chordType: Option<ChordType>
    var hasSeventh: bool

    /** The factor map names only real voices, as the construction leaves it. */
    predicate Valid()
      reads this
    {
      PartsOnly(voiceFactors)
    }

    /** `__post_init__` with `_analyze_factors`: one factor per present voice, S, A, T, B in turn. */
    constructor (voices: map<Voice, Pitch>, root: Option<NoteName>, quality: Option<string>,
                 key: Option<Key>, inversion: int)
      ensures Valid()
      ensures this.voices == voices && this.root == root && this.quality == quality
      ensures this.key == key && this.inversion == inversion
      ensures voiceFactors == AnalyzedFactors(voices, root)
      ensures chordType == ChordTypeOf(root, quality)
      ensures hasSeventh <==> Seventh in voiceFactors.Values
    {
      var vf: map<Voice, Factor> := map[];
      var ct: Option<ChordType> := None;
      // Without a root a named quality ends the analysis before anything is recorded.
      if Truthy(quality) && root.Some? {
        ct := Some(QualityToChordType(quality.value));
      }
      if root.Some? {
        var i := 0;
        while i < 4
          invariant 0 <= i <= 4
          invariant forall v :: v in vf <==> v in voices && v in SATB[..i]
          invariant forall v | v in vf :: v in voices && vf[v] == ChordFactor(voices[v], root.value)
        {
          var v := SATB[i];
          assert SATB[..i + 1] == SATB[..i] + [v];
          if v in voices {
            vf := vf[v := ChordFactor(voices[v], root.value)];
          }
          i := i + 1;
        }
        assert SATB[..4] == SATB;
        assert forall v :: v in SATB <==> IsPart(v);
        assert vf == FactorsOf(voices, root.value);
      }
      this.voices := voices;
      this.root := root;
      this.quality := quality;
      this.key := key;
      this.inversion := inversion;
      voiceFactors := vf;
      chordType := ct;
      hasSeventh := Seventh in vf.Values;
    }

    /** `get_factor_for_voice`: the voice's factor, or '?' for a voice the analysis did not record. */
    function GetFactorForVoice(v: Voice): (r: Factor)
      reads this
      ensures v in voiceFactors ==> r == voiceFactors[v]
      ensures v !in voiceFactors ==> r == NoFactor
    {
      FactorFor(voiceFactors, v)
    }

    /** `get_voices_with_factor`: the voices holding `f`, in S, A, T, B order. */
    function GetVoicesWithFactor(f: Factor): (r: seq<Voice>)
      reads this
      requires Valid()
      ensures forall v :: v in r <==> v in voiceFactors && voiceFactors[v] == f
      ensures InVoiceOrder(r)
    {
      VoicesWithFactor(voiceFactors, f)
    }

    /** `has_factor`: some voice holds `f`. */
    predicate HasFactorQuery(f: Factor)
      reads this
      requires Valid()
      ensures HasFactorQuery(f) <==> |GetVoicesWithFactor(f)| > 0
    {
      HasFactorIffVoices(voiceFactors, f);
      HasFactor(voiceFactors, f)
    }

    /** `is_complete`: root, third and fifth all sound. */
    predicate IsCompleteQuery()
      reads this
      ensures IsCompleteQuery() <==> HasFactor(voiceFactors, Root) && HasFactor(voiceFactors, Third) && HasFactor(voiceFactors, Fifth)
    {
      IsComplete(voiceFactors)
    }

    /** `get_missing_factors`: the required factors of the chord type that no voice holds. */
    function GetMissingFactors(): (r: set<Factor>)
      reads this
      ensures forall f :: f in r <==> chordType.Some? && f in RequiredFactors(chordType.value) && !HasFactor(voiceFactors, f)
    {
      MissingFactors(voiceFactors, chordType)
    }

    /** `get_figured_bass`: the chord type's figure for the inversion, or '?'. */
    function GetFiguredBass(): (r: string)
      reads this
      ensures chordType.Some? && inversion in FiguredBassTable(chordType.value) ==> r == FiguredBassTable(chordType.value)[inversion]
      ensures r != "?" ==> chordType.Some? && inversion in FiguredBassTable(chordType.value)
    {
      FiguredBass(chordType, inversion)
    }

    /**
     * `get_doubled_factors`: counts each factor other than '?' over the
     * factors in S, A, T, B order, then keeps the counted factors, in the
     * order they were first counted, whose count exceeds one.
     */
    method GetDoubledFactors() returns (r: seq<Factor>)
      ensures r == DoubledFactors(FactorValues(voiceFactors))
    {
      var vals := FactorValues(voiceFactors);
      var counts, seen := CountFactors(vals);
      r := KeepCounted(vals, counts, seen);
    }
  }

  /** The list comprehension of `get_doubled_factors`: the counted factors seen more than once. */
  method KeepCounted(vals: seq<Factor>, counts: map<Factor, int>, seen: seq<Factor>) returns (r: seq<Factor>)
    requires forall f :: f in counts <==> f in seen
    requires forall f | f in counts :: counts[f] == multiset(vals)[f]
    ensures r == KeepDoubled(seen, vals)
  {
    r := [];
    var j := 0;
    while j < |seen|
      invariant 0 <= j <= |seen|
      invariant r == KeepDoubled(seen[..j], vals)
    {
      assert seen[..j + 1] == seen[..j] + [seen[j]];
      KeepStep(seen[..j], seen[j], vals);
      assert seen[j] in counts;
      if counts[seen[j]] > 1 {
        r := r + [seen[j]];
      }
      j := j + 1;
    }
    assert seen[..j] == seen;
  }

  /**
   * The counting pass of `get_doubled_factors`: the count of every factor
   * other than '?', with the factors in the order the dictionary received them.
   */
  method CountFactors(vals: seq<Factor>) returns (counts: map<Factor, int>, seen: seq<Factor>)
    ensures seen == DistinctFactors(vals)
    ensures forall f :: f in counts <==> f in seen
    ensures forall f | f in counts :: counts[f] == multiset(vals)[f]
  {
    counts := map[];
    seen := [];
    var i := 0;
    while i < |vals|
      invariant 0 <= i <= |vals|
      invariant seen == DistinctFactors(vals[..i])
      invariant forall f :: f in counts <==> f in seen
      invariant forall f | f in counts :: counts[f] == multiset(vals[..i])[f]
    {
      var f := vals[i];
      assert vals[..i + 1] == vals[..i] + [f];
      DistinctStep(vals[..i], f);
      if f != NoFactor {
        if f in counts {
          counts := counts[f := counts[f] + 1];
        } else {
          counts := counts[f := 1];
          seen := seen + [f];
        }
      }
      i := i + 1;
    }
    assert vals[..i] == vals;
  }

  /** The factors other than '?' of `s`, each once, in order of first appearance. */
  function DistinctFactors(s: seq<Factor>): (r: seq<Factor>)
    ensures forall f :: f in r <==> f != NoFactor && f in s
  {
    if |s| == 0 then []
    else
      var d := DistinctFactors(s[..|s| - 1]);
      var x := s[|s| - 1];
      assert s == s[..|s| - 1] + [x];
      if x != NoFactor && x !in d then d + [x] else d
  }

  lemma DistinctStep(s: seq<Factor>, x: Factor)
    ensures DistinctFactors(s + [x])
         == if x != NoFactor && x !in DistinctFactors(s) then DistinctFactors(s) + [x] else DistinctFactors(s)
  {
    assert (s + [x])[..|s|] == s;
  }

  lemma KeepStep(seen: seq<Factor>, x: Factor, s: seq<Factor>)
    ensures KeepDoubled(seen + [x], s)
         == if multiset(s)[x] > 1 then KeepDoubled(seen, s) + [x] else KeepDoubled(seen, s)
  {
    assert (seen + [x])[..|seen|] == seen;
  }

  /** The entries of `seen`, in order, that occur more than once in `s`. */
  function KeepDoubled(seen: seq<Factor>, s: seq<Factor>): (r: seq<Factor>)
    ensures forall f :: f in r <==> f in seen && multiset(s)[f] > 1
  {
    if |seen| == 0 then []
    else
      var k := KeepDoubled(seen[..|seen| - 1], s);
      var x := seen[|seen| - 1];
      assert seen == seen[..|seen| - 1] + [x];
      if multiset(s)[x] > 1 then k + [x] else k
  }

  /** What `get_doubled_factors` returns for the factors `s`, in the order counted. */
  function DoubledFactors(s: seq<Factor>): seq<Factor> {
    KeepDoubled(DistinctFactors(s), s)
  }

  /** A factor is reported doubled exactly when it is a real factor that occurs twice or more. */
  lemma DoubledFactorsMembers(s: seq<Factor>, f: Factor)
    ensures f in DoubledFactors(s) <==> f != NoFactor && multiset(s)[f] > 1
  {
  }

  /** Index of the first occurrence of `x` in `s` (|s| when absent). */
  function FirstIndex(s: seq<Factor>, x: Factor): (r: int)
    ensures 0 <= r <= |s|
    ensures r < |s| ==> s[r] == x && x !in s[..r]
    ensures r == |s| ==> x !in s
  {
    if |s| == 0 then 0
    else if s[0] == x then 0
    else
      var k := FirstIndex(s[1..], x);
      assert s[..k + 1] == [s[0]] + s[1..][..k];
      1 + k
  }

  /** The first occurrence of a value in a prefix is its first occurrence in the whole. */
  lemma FirstIndexInPrefix(s: seq<Factor>, m: int, x: Factor)
    requires 0 <= m <= |s| && x in s[..m]
    ensures FirstIndex(s, x) == FirstIndex(s[..m], x)
  {
  }

  /** The entries of `r` appear in `s` in increasing order of their first occurrence. */
  predicate InFirstAppearanceOrder(r: seq<Factor>, s: seq<Factor>) {
    forall i, j | 0 <= i < j < |r| :: FirstIndex(s, r[i]) < FirstIndex(s, r[j])
  }

  /** Appending a value that first appears after everything already listed keeps the order. */
  lemma OrderedAppend(k: seq<Factor>, x: Factor, s: seq<Factor>)
    requires InFirstAppearanceOrder(k, s)
    requires forall y | y in k :: FirstIndex(s, y) < FirstIndex(s, x)
    ensures InFirstAppearanceOrder(k + [x], s)
  {
    var r := k + [x];
    forall i, j | 0 <= i < j < |r| ensures FirstIndex(s, r[i]) < FirstIndex(s, r[j]) {
      assert r[i] == k[i] && r[i] in k;
      if j < |k| {
        assert r[j] == k[j];
      }
    }
  }

  /** A prefix of an ordered list is ordered, and every entry precedes the last one. */
  lemma OrderedDropLast(seen: seq<Factor>, s: seq<Factor>)
    requires |seen| > 0 && InFirstAppearanceOrder(seen, s)
    ensures InFirstAppearanceOrder(seen[..|seen| - 1], s)
    ensures forall y | y in seen[..|seen| - 1] :: FirstIndex(s, y) < FirstIndex(s, seen[|seen| - 1])
  {
    var n := |seen| - 1;
    var p := seen[..n];
    forall i, j | 0 <= i < j < |p| ensures FirstIndex(s, p[i]) < FirstIndex(s, p[j]) {
      assert p[i] == seen[i] && p[j] == seen[j];
    }
    forall y | y in p ensures FirstIndex(s, y) < FirstIndex(s, seen[n]) {
      var a :| 0 <= a < n && p[a] == y;
      assert seen[a] == y;
    }
  }

  lemma {:induction false} DistinctFactorsOrdered(s: seq<Factor>)
    ensures InFirstAppearanceOrder(DistinctFactors(s), s)
  {
    if |s| > 0 {
      var p := s[..|s| - 1];
      DistinctFactorsOrdered(p);
      OrderedInExtension(DistinctFactors(p), s, |s| - 1);
      DistinctLastOrdered(s);
    }
  }

  /** An order by first appearance in a prefix of `s` is one in `s`, and all of it lies in that prefix. */
  lemma OrderedInExtension(d: seq<Factor>, s: seq<Factor>, n: int)
    requires 0 <= n <= |s|
    requires InFirstAppearanceOrder(d, s[..n]) && forall y | y in d :: y in s[..n]
    ensures InFirstAppearanceOrder(d, s)
    ensures forall y | y in d :: FirstIndex(s, y) < n
  {
    forall y | y in d ensures FirstIndex(s, y) == FirstIndex(s[..n], y) < n {
      FirstIndexInPrefix(s, n, y);
    }
    forall i, j | 0 <= i < j < |d| ensures FirstIndex(s, d[i]) < FirstIndex(s, d[j]) {
      assert d[i] in d && d[j] in d;
    }
  }

  /** The last entry of `s` is appended only when it is new, and then it first appears last. */
  lemma DistinctLastOrdered(s: seq<Factor>)
    requires |s| > 0
    requires InFirstAppearanceOrder(DistinctFactors(s[..|s| - 1]), s)
    requires forall y | y in DistinctFactors(s[..|s| - 1]) :: FirstIndex(s, y) < |s| - 1
    ensures InFirstAppearanceOrder(DistinctFactors(s), s)
  {
    var n := |s| - 1;
    var p, x := s[..n], s[n];
    var d := DistinctFactors(p);
    if x != NoFactor && x !in d {
      assert x !in p;
      assert FirstIndex(s, x) == n;
      OrderedAppend(d, x, s);
      assert DistinctFactors(s) == d + [x];
    } else {
      assert DistinctFactors(s) == d;
    }
  }

  lemma {:induction false} KeepDoubledOrdered(seen: seq<Factor>, s: seq<Factor>)
    requires InFirstAppearanceOrder(seen, s)
    ensures InFirstAppearanceOrder(KeepDoubled(seen, s), s)
  {
    if |seen| > 0 {
      OrderedDropLast(seen, s);
      KeepDoubledOrdered(seen[..|seen| - 1], s);
      KeepDoubledStep(seen, s);
    }
  }

  /** Keeping or dropping a last entry that first appears after all others keeps the kept ones ordered. */
  lemma KeepDoubledStep(seen: seq<Factor>, s: seq<Factor>)
    requires |seen| > 0
    requires InFirstAppearanceOrder(KeepDoubled(seen[..|seen| - 1], s), s)
    requires forall y | y in seen[..|seen| - 1] :: FirstIndex(s, y) < FirstIndex(s, seen[|seen| - 1])
    ensures InFirstAppearanceOrder(KeepDoubled(seen, s), s)
  {
    var p, x := seen[..|seen| - 1], seen[|seen| - 1];
    var k := KeepDoubled(p, s);
    if multiset(s)[x] > 1 {
      assert forall y | y in k :: y in p;
      OrderedAppend(k, x, s);
      assert KeepDoubled(seen, s) == k + [x];
    } else {
      assert KeepDoubled(seen, s) == k;
    }
  }

  /** The doubled factors come in the order in which each first appears in `s`. */
  lemma DoubledFactorsOrdered(s: seq<Factor>)
    ensures InFirstAppearanceOrder(DoubledFactors(s), s)
  {
    DistinctFactorsOrdered(s);
    KeepDoubledOrdered(DistinctFactors(s), s);
  }

  // ---------------------------------------------------------------
  // Progression
  // ---------------------------------------------------------------

  /** The factor pair of a voice across two factor maps (`get_factor_movement`). */
  function MovementOf(vf1: map<Voice, Factor>, vf2: map<Voice, Factor>, v: Voice): (Factor, Factor) {
    (FactorFor(vf1, v), FactorFor(vf2, v))
  }

  function SelectWithMovement(vs: seq<Voice>, vf1: map<Voice, Factor>, vf2: map<Voice, Factor>,
                              from: Factor, to: Factor): (r: seq<Voice>)
    ensures forall v :: v in r <==> v in vs && MovementOf(vf1, vf2, v) == (from, to)
  {
    if |vs| == 0 then []
    else
      var head := if MovementOf(vf1, vf2, vs[0]) == (from, to) then [vs[0]] else [];
      head + SelectWithMovement(vs[1..], vf1, vf2, from, to)
  }

  /** `get_voices_with_movement`: the voices, in S, A, T, B order, whose factor goes from `from` to `to`. */
  function VoicesWithMovement(vf1: map<Voice, Factor>, vf2: map<Voice, Factor>,
                              from: Factor, to: Factor): (r: seq<Voice>)
    ensures forall v :: v in r <==> IsPart(v) && MovementOf(vf1, vf2, v) == (from, to)
    ensures InVoiceOrder(r)
  {
    assert forall v :: v in SATB <==> IsPart(v);
    MovementKeepsOrder(SATB, vf1, vf2, from, to);
    SelectWithMovement(SATB, vf1, vf2, from, to)
  }

  lemma {:induction false} MovementKeepsOrder(vs: seq<Voice>, vf1: map<Voice, Factor>, vf2: map<Voice, Factor>,
                                              from: Factor, to: Factor)
    requires InVoiceOrder(vs)
    ensures InVoiceOrder(SelectWithMovement(vs, vf1, vf2, from, to))
  {
    if |vs| > 0 {
      OrderedTail(vs);
      MovementKeepsOrder(vs[1..], vf1, vf2, from, to);
      var h := if MovementOf(vf1, vf2, vs[0]) == (from, to) then [vs[0]] else [];
      OrderedCons(h, SelectWithMovement(vs[1..], vf1, vf2, from, to), vs[0]);
    }
  }

  /** `get_all_factor_movements`: the factor pair of each of the four voices. */
  function AllFactorMovements(vf1: map<Voice, Factor>, vf2: map<Voice, Factor>): (r: map<Voice, (Factor, Factor)>)
    ensures r.Keys == {S, A, T, B}
    ensures forall v | v in r :: r[v] == MovementOf(vf1, vf2, v)
  {
    map v | v in {S, A, T, B} :: MovementOf(vf1, vf2, v)
  }

  /** `Progression`: two chords read voice by voice. */
  class Progression {
    const chord1: Chord
    const chord2: Chord

    constructor (chord1: Chord, chord2: Chord)
      ensures this.chord1 == chord1 && this.chord2 == chord2
    {
      this.chord1 := chord1;
      this.chord2 := chord2;
    }

    /** `get_factor_movement`: the voice's factor in each chord, '?' where the chord records none. */
    function GetFactorMovement(v: Voice): (r: (Factor, Factor))
      reads chord1, chord2
      ensures r.0 == (if v in chord1.voiceFactors then chord1.voiceFactors[v] else NoFactor)
      ensures r.1 == (if v in chord2.voiceFactors then chord2.voiceFactors[v] else NoFactor)
      ensures r == (chord1.GetFactorForVoice(v), chord2.GetFactorForVoice(v))
    {
      MovementOf(chord1.voiceFactors, chord2.voiceFactors, v)
    }

    /** `get_voices_with_movement`: the voices, in S, A, T, B order, moving from factor `from` to factor `to`. */
    function GetVoicesWithMovement(from: Factor, to: Factor): (r: seq<Voice>)
      reads chord1, chord2
      ensures forall v :: v in r <==> IsPart(v) && GetFactorMovement(v) == (from, to)
    {
      VoicesWithMovement(chord1.voiceFactors, chord2.voiceFactors, from, to)
    }

    /** `get_all_factor_movements`: the movement of each of S, A, T and B. */
    function GetAllFactorMovements(): (r: map<Voice, (Factor, Factor)>)
      reads chord1, chord2
      ensures r.Keys == {S, A, T, B}
      ensures forall v | v in r :: r[v] == GetFactorMovement(v)
    {
      AllFactorMovements(chord1.voiceFactors, chord2.voiceFactors)
    }
  }

  // ---------------------------------------------------------------
  // The examples of tests/test_chord_knowledge.py
  // ---------------------------------------------------------------

  const C3 := Pitch(0, 0, 3)
  const E3 := Pitch(2, 0, 3)
  const G4 := Pitch(4, 0, 4)
  const C5 := Pitch(0, 0, 5)
  const G2 := Pitch(4, 0, 2)
  const B3 := Pitch(6, 0, 3)
  const D4 := Pitch(1, 0, 4)
  const F4 := Pitch(3, 0, 4)
  const B4 := Pitch(6, 0, 4)
  const C4 := Pitch(0, 0, 4)
  const E4 := Pitch(2, 0, 4)
  const RootC := NoteName(0, 0)
  const RootG := NoteName(4, 0)

  /** The factor map of a chord with all four voices present. */
  lemma FactorsOfFour(b: Pitch, t: Pitch, a: Pitch, s: Pitch, root: NoteName)
    ensures FactorsOf(map[B := b, T := t, A := a, S := s], root)
         == map[B := ChordFactor(b, root), T := ChordFactor(t, root), A := ChordFactor(a, root), S := ChordFactor(s, root)]
  {
    var notes := map[B := b, T := t, A := a, S := s];
    var r := FactorsOf(notes, root);
    var m := map[B := ChordFactor(b, root), T := ChordFactor(t, root), A := ChordFactor(a, root), S := ChordFactor(s, root)];
    assert r.Keys == m.Keys;
    assert r[B] == m[B] && r[T] == m[T] && r[A] == m[A] && r[S] == m[S];
  }

  lemma DominantFactors()
    ensures ChordFactor(G2, RootG) == Root && ChordFactor(B3, RootG) == Third
    ensures ChordFactor(D4, RootG) == Fifth && ChordFactor(F4, RootG) == Seventh
    ensures ChordFactor(B4, RootG) == Third
  {
  }

  lemma TonicFactors()
    ensures ChordFactor(C3, RootC) == Root && ChordFactor(E3, RootC) == Third
    ensures ChordFactor(G4, RootC) == Fifth && ChordFactor(C5, RootC) == Root
    ensures ChordFactor(C4, RootC) == Root && ChordFactor(E4, RootC) == Third
  {
  }

  /** The factor values of a chord in which all four voices sound. */
  lemma WalkValues(vf: map<Voice, Factor>)
    requires S in vf && A in vf && T in vf && B in vf
    ensures FactorValues(vf) == [vf[S], vf[A], vf[T], vf[B]]
  {
    var s3: seq<Voice>, s2: seq<Voice>, s1: seq<Voice> := [B], [T, B], [A, T, B];
    assert s3[1..] == [] && s2[1..] == s3 && s1[1..] == s2 && SATB[1..] == s1;
    assert ValuesAlong(s3, vf) == [vf[B]];
    assert ValuesAlong(s2, vf) == [vf[T], vf[B]];
    assert ValuesAlong(s1, vf) == [vf[A], vf[T], vf[B]];
  }

  predicate NoRepeats<X(==)>(r: seq<X>) {
    forall i, j | 0 <= i < j < |r| :: r[i] != r[j]
  }

  lemma {:induction false} NoRepeatsCard<X>(r: seq<X>)
    requires NoRepeats(r)
    ensures |set u | u in r| == |r|
  {
    if |r| > 0 {
      NoRepeatsCard(r[1..]);
      assert (set u | u in r) == {r[0]} + (set u | u in r[1..]);
      assert r[0] !in (set u | u in r[1..]);
    }
  }

  /** A list without repeats whose only member is `x` is `[x]`. */
  lemma SingleOf<X>(r: seq<X>, x: X)
    requires NoRepeats(r) && forall u :: u in r <==> u == x
    ensures r == [x]
  {
    NoRepeatsCard(r);
    assert (set u | u in r) == {x};
    assert r[0] in r;
  }

  /** The factor maps of the test chords. */
  lemma TonicMaps()
    ensures FactorsOf(map[B := C3, T := E3, A := G4, S := C5], RootC) == map[B := Root, T := Third, A := Fifth, S := Root]
    ensures FactorsOf(map[B := C3, T := C4, A := E4, S := C5], RootC) == map[B := Root, T := Root, A := Third, S := Root]
  {
    FactorsOfFour(C3, E3, G4, C5, RootC);
    FactorsOfFour(C3, C4, E4, C5, RootC);
    TonicFactors();
  }

  lemma DominantMaps()
    ensures FactorsOf(map[B := G2, T := B3, A := D4, S := F4], RootG) == map[B := Root, T := Third, A := Fifth, S := Seventh]
    ensures FactorsOf(map[B := G2, T := B3, A := F4, S := B4], RootG) == map[B := Root, T := Third, A := Seventh, S := Third]
  {
    FactorsOfFour(G2, B3, D4, F4, RootG);
    FactorsOfFour(G2, B3, F4, B4, RootG);
    DominantFactors();
  }

  /** C major in root position, B C3, T E3, A G4, S C5: root, third, fifth and the root doubled. */
  lemma MajorTriadExample(vf: map<Voice, Factor>)
    requires vf == FactorsOf(map[B := C3, T := E3, A := G4, S := C5], RootC)
    ensures vf == map[B := Root, T := Third, A := Fifth, S := Root]
    ensures FiguredBass(ChordTypeOf(Some(RootC), Some("major")), 0) == "5/3"
  {
    TonicMaps();
  }

  /** The factor queries on the C major chord above. */
  lemma MajorTriadQueries(vf: map<Voice, Factor>)
    requires vf == map[B := Root, T := Third, A := Fifth, S := Root]
    ensures IsComplete(vf) && !HasFactor(vf, Seventh)
    ensures MissingFactors(vf, Some(MajorTriad)) == {}
    ensures FactorValues(vf) == [Root, Fifth, Third, Root]
  {
    assert vf[B] == Root && vf[T] == Third && vf[A] == Fifth;
    WalkValues(vf);
  }

  /** Its only doubled factor is the root. */
  lemma RootDoubledExample(vals: seq<Factor>)
    requires vals == [Root, Fifth, Third, Root]
    ensures DoubledFactors(vals) == [Root]
  {
    assert multiset(vals)[Root] == 2 && multiset(vals)[Fifth] == 1 && multiset(vals)[Third] == 1;
    forall u ensures u in DoubledFactors(vals) <==> u == Root {
      DoubledFactorsMembers(vals, u);
    }
    DoubledFactorsOrdered(vals);
    SingleOf(DoubledFactors(vals), Root);
  }

  /** G7 in root position, B G2, T B3, A D4, S F4: the seventh is in the soprano, the third in the tenor. */
  lemma DominantSeventhExample(vf: map<Voice, Factor>)
    requires vf == FactorsOf(map[B := G2, T := B3, A := D4, S := F4], RootG)
    ensures VoicesWithFactor(vf, Seventh) == [S]
    ensures VoicesWithFactor(vf, Third) == [T]
  {
    DominantMaps();
    SingleOf(VoicesWithFactor(vf, Seventh), S);
    SingleOf(VoicesWithFactor(vf, Third), T);
  }

  /** The figures of a dominant seventh in root position and first inversion. */
  lemma DominantSeventhFigures()
    ensures FiguredBass(ChordTypeOf(Some(RootG), Some("dominant-seventh")), 0) == "7/+"
    ensures FiguredBass(ChordTypeOf(Some(RootG), Some("dominant-seventh")), 1) == "6/5-"
  {
  }

  /** G7 without its fifth, B G2, T B3, A F4, S B4: incomplete, the fifth missing, the third doubled. */
  lemma IncompleteSeventhExample(vf: map<Voice, Factor>)
    requires vf == FactorsOf(map[B := G2, T := B3, A := F4, S := B4], RootG)
    ensures vf == map[B := Root, T := Third, A := Seventh, S := Third]
  {
    DominantMaps();
  }

  /** The factor queries on the incomplete G7 above. */
  lemma IncompleteSeventhQueries(vf: map<Voice, Factor>)
    requires vf == map[B := Root, T := Third, A := Seventh, S := Third]
    ensures !IsComplete(vf)
    ensures MissingFactors(vf, Some(DominantSeventh)) == {Fifth}
    ensures multiset(FactorValues(vf))[Third] == 2
  {
    WalkValues(vf);
    assert FactorValues(vf) == [Third, Seventh, Third, Root];
    assert vf.Values == {Root, Third, Seventh} by {
      assert vf[B] == Root && vf[T] == Third && vf[A] == Seventh;
    }
  }

  /** V7 to I (G2 B3 D4 F4 to C3 C4 E4 C5): the soprano goes 7 to 1 and the tenor 3 to 1. */
  lemma DominantResolutionExample(vf1: map<Voice, Factor>, vf2: map<Voice, Factor>)
    requires vf1 == FactorsOf(map[B := G2, T := B3, A := D4, S := F4], RootG)
    requires vf2 == FactorsOf(map[B := C3, T := C4, A := E4, S := C5], RootC)
    ensures vf1 == map[B := Root, T := Third, A := Fifth, S := Seventh]
    ensures vf2 == map[B := Root, T := Root, A := Third, S := Root]
  {
    DominantMaps();
    TonicMaps();
  }

  /** The factor movements of that resolution. */
  lemma DominantResolutionMovements(vf1: map<Voice, Factor>, vf2: map<Voice, Factor>)
    requires vf1 == map[B := Root, T := Third, A := Fifth, S := Seventh]
    requires vf2 == map[B := Root, T := Root, A := Third, S := Root]
    ensures AllFactorMovements(vf1, vf2) == map[B := (Root, Root), T := (Third, Root), A := (Fifth, Third), S := (Seventh, Root)]
    ensures VoicesWithMovement(vf1, vf2, Seventh, Root) == [S]
    ensures VoicesWithMovement(vf1, vf2, Third, Root) == [T]
  {
    SingleOf(VoicesWithMovement(vf1, vf2, Seventh, Root), S);
    SingleOf(VoicesWithMovement(vf1, vf2, Third, Root), T);
    var m := AllFactorMovements(vf1, vf2);
    assert m.Keys == {S, A, T, B};
    assert m[B] == (Root, Root) && m[T] == (Third, Root) && m[A] == (Fifth, Third) && m[S] == (Seventh, Root);
  }
}
