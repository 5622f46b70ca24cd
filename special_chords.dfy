/**
 * `DetectorAcordesEspeciales`: the Neapolitan (a major triad on the
 * lowered second degree) and the three augmented-sixth chords, which all
 * hold the lowered sixth degree, the tonic and the raised fourth degree.
 * Only pitch classes matter, so each characteristic degree is the pitch
 * class a given interval above the tonic.
 */
module SpecialChords {
  import opened Wrappers
  import opened Pitches
  import opened Keys
  import opened Sonority

  /** `tonica.transpose(interval).pitchClass` for an interval of `steps` letters and `semis` semitones. */
  function SobreTonica(k: Key, steps: int, semis: int): (r: int)
    ensures 0 <= r < 12
    ensures r == (NameClass(k.tonic) + semis) % 12
  {
    NameClass(TransposeName(k.tonic, steps, semis))
  }

  // ---------------------------------------------------------------
  // The Neapolitan
  // ---------------------------------------------------------------

  /**
   * `detectar_napolitana`: the chord has a root, the root sounds a minor
   * second above the tonic, and the chord is a major triad. The inversion
   * is not looked at.
   */
  function EsNapolitana(k: Key, c: ChordFacts): (r: bool)
    ensures r <==> c.root.Some? && PitchClass(c.root.value) == (NameClass(k.tonic) + 1) % 12 && c.quality == "major"
  {
    var bII := SobreTonica(k, 1, 1);
    if c.root.None? then false
    else if PitchClass(c.root.value) != bII then false
    else c.quality == "major"
  }

  /** The Neapolitan's root lies outside the scale, in either mode: no step of a scale lies a semitone above its tonic. */
  lemma NapolitanaIsChromatic(k: Key, c: ChordFacts)
    requires EsNapolitana(k, c)
    ensures !IsDiatonicClass(k, PitchClass(c.root.value))
  {
    var pc := PitchClass(c.root.value);
    var t := NameClass(k.tonic);
    ClassDistance(pc, t, 1);
    DiatonicByDistance(k, pc);
  }

  // ---------------------------------------------------------------
  // Augmented sixths
  // ---------------------------------------------------------------

  /** `TipoAcordeEspecial`'s three augmented sixths. */
  datatype SextaAumentada = Italiana | Francesa | Alemana

  /** The enum's value, which the analysis shows as the chord's label. */
  function Valor(s: SextaAumentada): (r: string)
    ensures |r| == 4 && r[..2] == "+6"
  {
    match s
    case Italiana => "+6it"
    case Francesa => "+6fr"
    case Alemana => "+6al"
  }

  /** Different kinds have different labels. */
  lemma ValorInjective(s: SextaAumentada, t: SextaAumentada)
    ensures Valor(s) == Valor(t) <==> s == t
  {
  }

  /** The lowered sixth degree (a minor sixth above the tonic). */
  function SextaMenor(k: Key): int { SobreTonica(k, 5, 8) }
  /** The raised fourth degree (an augmented fourth above the tonic). */
  function CuartaAumentada(k: Key): int { SobreTonica(k, 3, 6) }
  /** The second degree (a major second above the tonic). */
  function Segunda(k: Key): int { SobreTonica(k, 1, 2) }
  /** The lowered third degree (a minor third above the tonic). */
  function TerceraMenor(k: Key): int { SobreTonica(k, 2, 3) }
  /** The tonic's pitch class. */
  function ClaseTonica(k: Key): int { NameClass(k.tonic) }

  /** The core of every augmented sixth: lowered sixth, raised fourth and tonic. */
  predicate NucleoSexta(k: Key, pcs: set<int>) {
    SextaMenor(k) in pcs && CuartaAumentada(k) in pcs && ClaseTonica(k) in pcs
  }

  /**
   * `detectar_sexta_aumentada`, on the chord's set of pitch classes:
   * with the core present, three classes make an Italian sixth; four make
   * a German sixth when the lowered third is among them, else a French
   * sixth when the second is; anything else is no augmented sixth.
   */
  function DetectarSextaAumentada(k: Key, c: ChordFacts): (r: Option<SextaAumentada>)
    ensures var pcs := ClassesOf(c.pitches);
      && (r == Some(Italiana) <==> NucleoSexta(k, pcs) && |pcs| == 3)
      && (r == Some(Alemana) <==> NucleoSexta(k, pcs) && |pcs| == 4 && TerceraMenor(k) in pcs)
      && (r == Some(Francesa) <==> NucleoSexta(k, pcs) && |pcs| == 4 && TerceraMenor(k) !in pcs && Segunda(k) in pcs)
  {
    var pcs := ClassesOf(c.pitches);
    if SextaMenor(k) !in pcs || CuartaAumentada(k) !in pcs then None
    else if ClaseTonica(k) !in pcs then None
    else if |pcs| == 3 then Some(Italiana)
    else if |pcs| == 4 then
      if TerceraMenor(k) in pcs then Some(Alemana)
      else if Segunda(k) in pcs then Some(Francesa)
      else None
    else None
  }

  /** The lowered sixth lies an augmented sixth (ten semitones) below the raised fourth. */
  lemma SextaSpansAugmentedSixth(k: Key)
    ensures (CuartaAumentada(k) - SextaMenor(k)) % 12 == 10
  {
  }

  /** The five characteristic classes are pairwise different. */
  lemma CharacteristicClassesDistinct(k: Key)
    ensures |{SextaMenor(k), ClaseTonica(k), CuartaAumentada(k)}| == 3
    ensures |{SextaMenor(k), ClaseTonica(k), Segunda(k), CuartaAumentada(k)}| == 4
    ensures |{SextaMenor(k), ClaseTonica(k), TerceraMenor(k), CuartaAumentada(k)}| == 4
    ensures Segunda(k) != TerceraMenor(k)
  {
    var t := ClaseTonica(k);
    ShiftsDistinct(t);
    var b6, s4, m2, m3 := SextaMenor(k), CuartaAumentada(k), Segunda(k), TerceraMenor(k);
    ThreeDistinct(b6, t, s4);
    FourDistinct(b6, t, m2, s4);
    FourDistinct(b6, t, m3, s4);
  }

  lemma ThreeDistinct(a: int, b: int, c: int)
    requires a != b && a != c && b != c
    ensures |{a, b, c}| == 3
  {
    assert {a, b, c} == {a, b} + {c};
  }

  lemma FourDistinct(a: int, b: int, c: int, d: int)
    requires a != b && a != c && a != d && b != c && b != d && c != d
    ensures |{a, b, c, d}| == 4
  {
    ThreeDistinct(a, b, c);
    assert {a, b, c, d} == {a, b, c} + {d};
  }

  /** Shifting a class by 0, 2, 3, 6 or 8 semitones gives five different classes. */
  lemma ShiftsDistinct(t: int)
    requires 0 <= t < 12
    ensures var b6, s4, m2, m3 := (t + 8) % 12, (t + 6) % 12, (t + 2) % 12, (t + 3) % 12;
      b6 != t && b6 != s4 && b6 != m2 && b6 != m3 && s4 != t && s4 != m2 && s4 != m3
      && m2 != t && m3 != t && m2 != m3
  {
    if t < 4 {
      assert (t + 8) % 12 == t + 8;
    } else {
      assert (t + 8) % 12 == t - 4;
    }
    if t < 6 {
      assert (t + 6) % 12 == t + 6;
    } else {
      assert (t + 6) % 12 == t - 6;
    }
    if t < 9 {
      assert (t + 2) % 12 == t + 2 && (t + 3) % 12 == t + 3;
    } else if t < 10 {
      assert (t + 2) % 12 == t + 2 && (t + 3) % 12 == t - 9;
    } else {
      assert (t + 2) % 12 == t - 10 && (t + 3) % 12 == t - 9;
    }
  }

  /** Lowered sixth, tonic and raised fourth are the Italian sixth. */
  lemma ItalianSixthRecognised(k: Key, c: ChordFacts)
    requires ClassesOf(c.pitches) == {SextaMenor(k), ClaseTonica(k), CuartaAumentada(k)}
    ensures DetectarSextaAumentada(k, c) == Some(Italiana)
  {
    CharacteristicClassesDistinct(k);
  }

  /** Adding the second gives the French sixth. */
  lemma FrenchSixthRecognised(k: Key, c: ChordFacts)
    requires ClassesOf(c.pitches) == {SextaMenor(k), ClaseTonica(k), Segunda(k), CuartaAumentada(k)}
    ensures DetectarSextaAumentada(k, c) == Some(Francesa)
  {
    CharacteristicClassesDistinct(k);
    var pcs := ClassesOf(c.pitches);
    assert TerceraMenor(k) !in pcs;
  }

  /** Adding the lowered third instead gives the German sixth. */
  lemma GermanSixthRecognised(k: Key, c: ChordFacts)
    requires ClassesOf(c.pitches) == {SextaMenor(k), ClaseTonica(k), TerceraMenor(k), CuartaAumentada(k)}
    ensures DetectarSextaAumentada(k, c) == Some(Alemana)
  {
    CharacteristicClassesDistinct(k);
  }

  /** The result is present only for three or four classes that include the core. */
  lemma SextaNeedsCore(k: Key, c: ChordFacts)
    requires DetectarSextaAumentada(k, c).Some?
    ensures NucleoSexta(k, ClassesOf(c.pitches))
    ensures |ClassesOf(c.pitches)| == 3 || |ClassesOf(c.pitches)| == 4
  {
  }
}
