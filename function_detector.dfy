/**
 * `DetectorFunciones`: secondary dominants and secondary leading-tone
 * chords (a chromatic major, dominant-seventh or diminished chord that
 * resolves to a degree II..VI of the key), and chords borrowed from the
 * parallel minor.
 */
module FunctionDetection {
  import opened Wrappers
  import opened Pitches
  import opened Keys
  import opened Cipher
  import opened Sonority

  /** `GRADOS_MAYOR`: the diatonic numeral and quality of degrees 1..7 (at positions 0..6) of a major key. */
  const GradosMayor: seq<(string, string)> := [
    ("I", "major"), ("ii", "minor"), ("iii", "minor"), ("IV", "major"),
    ("V", "major"), ("vi", "minor"), ("vii°", "diminished")]

  /** `GRADOS_MENOR`: the same for the harmonic minor. */
  const GradosMenor: seq<(string, string)> := [
    ("i", "minor"), ("ii°", "diminished"), ("III", "major"), ("iv", "minor"),
    ("V", "major"), ("VI", "major"), ("vii°", "diminished")]

  /** The diatonic numeral of degree `d` (1..7) in the mode: `GRADOS_MAYOR[d][0]` or `GRADOS_MENOR[d][0]`. */
  function NumeralDiatonico(m: Mode, d: int): string
    requires 1 <= d <= 7
  {
    if m == MajorMode then GradosMayor[d - 1].0 else GradosMenor[d - 1].0
  }

  /** `_pitch_a_grado`'s list: the upper-case numeral of degrees 1..7. */
  const Grados: seq<string> := ["", "I", "II", "III", "IV", "V", "VI", "VII"]

  /** The degrees a secondary function may aim at. */
  const ObjetivosValidos: seq<string> := ["II", "III", "IV", "V", "VI"]

  /** `objetivos_formato`: how the target is written in each mode. */
  const ObjetivosMayor: map<string, string> := map["II" := "ii", "III" := "iii", "IV" := "IV", "V" := "V", "VI" := "vi"]
  const ObjetivosMenor: map<string, string> := map["II" := "ii°", "III" := "III", "IV" := "iv", "V" := "V", "VI" := "VI"]

  /** The figures of a secondary diminished seventh; they differ from the traductor's diminished table. */
  const SecundariaDisminuida: map<int, string> := map[0 := "7t", 1 := "6,5t", 2 := "4,3t", 3 := "2"]

  /** `es_disminuido`: a diminished triad or a half-diminished seventh. */
  predicate EsDisminuido(c: ChordFacts) {
    c.quality == "diminished" || c.isHalfDiminishedSeventh
  }

  /** The chord may act as a secondary function: dominant seventh, major, or diminished. */
  predicate CalidadSecundaria(c: ChordFacts) {
    c.isDominantSeventh || c.quality == "major" || EsDisminuido(c)
  }

  /** The semitones from the root up to the target: 1 for a leading-tone chord, 5 for a dominant. */
  function Salto(c: ChordFacts): int {
    if EsDisminuido(c) then 1 else 5
  }

  /**
   * The chord it resolves to: a secondary leading-tone chord goes up a
   * minor second, a secondary dominant up a perfect fourth.
   */
  function Objetivo(c: ChordFacts): (r: NoteName)
    requires c.root.Some?
    ensures NameClass(r) == (PitchClass(c.root.value) + Salto(c)) % 12
  {
    var root := Name(c.root.value);
    if EsDisminuido(c) then TransposeName(root, 1, 1) else TransposeName(root, 3, 5)
  }

  /**
   * `_pitch_a_grado` of the target: the degree of the key whose spelled
   * step is the target's name, if any.
   */
  function GradoObjetivo(k: Key, c: ChordFacts): (r: Option<int>)
    requires c.root.Some?
    ensures r.Some? ==> 1 <= r.value <= 7 && ScaleName(k, r.value - 1) == Objetivo(c)
    ensures r.None? ==> forall i | 0 <= i < 7 :: ScaleName(k, i) != Objetivo(c)
    ensures r.Some? ==> NameClass(ScaleName(k, r.value - 1)) == (PitchClass(c.root.value) + Salto(c)) % 12
  {
    var t := Objetivo(c);
    var n := DegreeOfName(k, t);
    assert n.Some? ==> NameClass(ScaleName(k, n.value - 1)) == NameClass(t);
    n
  }

  /** The value `detectar_dominante_secundaria` returns. */
  datatype Secundaria = Secundaria(tipo: string, objetivo: string, tieneSeptima: bool, cifrado: string, inversion: int)

  /** The label of the target degree as written in the key's mode (`objetivos_formato.get(g, g)`). */
  function ObjetivoRomano(m: Mode, grado: string): string {
    var formato := if m == MajorMode then ObjetivosMayor else ObjetivosMenor;
    if grado in formato then formato[grado] else grado
  }

  /**
   * The three tables agree: the degrees whose upper-case numeral is a
   * valid target are II..VI, and each is written as the diatonic numeral
   * of that degree in the mode.
   */
  lemma TargetTablesAgree(m: Mode, d: int)
    requires 1 <= d <= 7
    ensures Grados[d] in ObjetivosValidos <==> 2 <= d <= 6
    ensures 2 <= d <= 6 ==> ObjetivoRomano(m, Grados[d]) == NumeralDiatonico(m, d)
  {
    if d == 1 {
    } else if d == 2 {
    } else if d == 3 {
    } else if d == 4 {
    } else if d == 5 {
    } else if d == 6 {
    } else {
    }
  }

  /** `grados[d].upper() in ['II', 'III', 'IV', 'V', 'VI']`: the target is one of degrees 2..6. */
  function EsObjetivoValido(d: int): (b: bool)
    requires 1 <= d <= 7
    ensures b <==> 2 <= d <= 6
  {
    TargetTablesAgree(MajorMode, d);
    Grados[d] in ObjetivosValidos
  }

  /** The target of degree `d` as the result writes it: the diatonic numeral of that degree in the mode. */
  function FormatoObjetivo(m: Mode, d: int): (r: string)
    requires 2 <= d <= 6
    ensures r == NumeralDiatonico(m, d)
  {
    TargetTablesAgree(m, d);
    ObjetivoRomano(m, Grados[d])
  }

  /**
   * Everything `detectar_dominante_secundaria` does once the chord is
   * known to be chromatic. The result is present exactly when the chord
   * can act as a secondary function, has a root, and its target is spelled
   * as degree II..VI of the key; the target is then written as the key's
   * own diatonic numeral of that degree (`GRADOS_MAYOR` / `GRADOS_MENOR`).
   */
  function AnalisisSecundario(k: Key, c: ChordFacts): (r: Option<Secundaria>)
    ensures r.Some? <==> CalidadSecundaria(c) && c.root.Some?
                         && GradoObjetivo(k, c).Some? && 2 <= GradoObjetivo(k, c).value <= 6
    ensures r.Some? ==>
      var d := GradoObjetivo(k, c).value;
      && r.value.objetivo == NumeralDiatonico(k.mode, d)
      && (r.value.tipo == "V" <==> !EsDisminuido(c))
      && r.value.tieneSeptima == (c.isDominantSeventh || c.containsSeventh)
      && r.value.inversion == c.inversion
    ensures r.Some? ==> r.value.tipo == TipoSecundario(c) && r.value.cifrado == CifradoSecundario(c)
    ensures r.Some? && c.isDominantSeventh ==> r.value.cifrado == CifradoSeptimaDominante(c.inversion)
    ensures r.Some? && !c.isDominantSeventh && !c.containsSeventh ==> r.value.cifrado == CifradoTriada(c.inversion)
  {
    if !CalidadSecundaria(c) || c.root.None? then None
    else
      match GradoObjetivo(k, c)
      case None => None
      case Some(d) =>
        if !EsObjetivoValido(d) then None
        else
          Some(Secundaria(TipoSecundario(c), FormatoObjetivo(k.mode, d),
                          c.isDominantSeventh || c.containsSeventh, CifradoSecundario(c), c.inversion))
  }

  /** "V" for a secondary dominant, "viiø" or "vii°" for a secondary leading-tone chord. */
  function TipoSecundario(c: ChordFacts): (r: string)
    ensures r == "V" <==> !EsDisminuido(c)
    ensures EsDisminuido(c) ==> r == (if c.isHalfDiminishedSeventh then "viiø" else "vii°")
  {
    if EsDisminuido(c) then (if c.isHalfDiminishedSeventh then "viiø" else "vii°") else "V"
  }

  /**
   * The figure: the dominant-seventh table for a dominant seventh, the
   * secondary diminished table for a diminished chord with a seventh, the
   * triad table otherwise.
   */
  function CifradoSecundario(c: ChordFacts): (r: string)
    ensures c.isDominantSeventh ==> r == CifradoSeptimaDominante(c.inversion)
    ensures !c.isDominantSeventh && EsDisminuido(c) && c.containsSeventh ==> r == Lookup(SecundariaDisminuida, c.inversion, "7t")
    ensures !c.isDominantSeventh && !(EsDisminuido(c) && c.containsSeventh) ==> r == CifradoTriada(c.inversion)
  {
    if c.isDominantSeventh then CifradoSeptimaDominante(c.inversion)
    else if EsDisminuido(c) && c.containsSeventh then Lookup(SecundariaDisminuida, c.inversion, "7t")
    else CifradoTriada(c.inversion)
  }

  /**
   * `detectar_dominante_secundaria`: nothing for a chord whose pitches are
   * all in the scale, otherwise the analysis above.
   */
  function DominanteSecundaria(k: Key, c: ChordFacts): (r: Option<Secundaria>)
    ensures AllDiatonic(k, c.pitches) ==> r.None?
    ensures r.Some? <==> !AllDiatonic(k, c.pitches) && AnalisisSecundario(k, c).Some?
    ensures r.Some? ==> r == AnalisisSecundario(k, c)
  {
    if AllDiatonic(k, c.pitches) then None else AnalisisSecundario(k, c)
  }

  /** The detector as the source runs it: the chromatic scan, then the analysis. */
  method DetectarDominanteSecundaria(k: Key, c: ChordFacts) returns (r: Option<Secundaria>)
    ensures r == DominanteSecundaria(k, c)
  {
    var cromatico := FindChromaticPitch(k, c.pitches);
    if !cromatico {
      return None;
    }
    r := AnalisisSecundario(k, c);
  }

  /**
   * A secondary dominant lies a fifth above its target: the target degree
   * sounds five semitones above the chord's root (one semitone for a
   * secondary leading-tone chord).
   */
  lemma SecondaryTargetAbove(k: Key, c: ChordFacts)
    requires DominanteSecundaria(k, c).Some?
    ensures c.root.Some? && GradoObjetivo(k, c).Some? && 2 <= GradoObjetivo(k, c).value <= 6
    ensures NameClass(ScaleName(k, GradoObjetivo(k, c).value - 1))
            == (PitchClass(c.root.value) + (if EsDisminuido(c) then 1 else 5)) % 12
  {
    var r := AnalisisSecundario(k, c);
    assert r.Some?;
    var d := GradoObjetivo(k, c).value;
    assert NameClass(ScaleName(k, d - 1)) == (PitchClass(c.root.value) + Salto(c)) % 12;
  }

  /**
   * `obtener_funcion`: degrees 1 and 6 are tonic, 4 and 2 subdominant,
   * 5 and 7 dominant, anything else tonic; the quality is not looked at.
   * It is the same map as the translator's.
   */
  function ObtenerFuncion(grado: int, calidad: string): (r: HarmonicFunction)
    ensures r == FuncionDeGrado(grado)
  {
    if grado == 1 || grado == 6 then Tonica
    else if grado == 4 || grado == 2 then Subdominante
    else if grado == 5 || grado == 7 then Dominante
    else Tonica
  }

  /** The value `detectar_prestamo_menor` returns. */
  datatype Prestamo = Prestamo(rnMinor: Numeral, base: string, inversion: int, tieneSeptima: bool, gradoNum: int)

  /** The numerals of the parallel minor that count as borrowed. */
  const PrestamosPermitidos: seq<string> := ["i", "iv", "bVI", "bVII", "ii°", "v", "bIII"]

  /**
   * `detectar_prestamo_menor`, given the chord's analysis in the parallel
   * minor key: only in a major key, and only for the listed numerals.
   */
  function DetectarPrestamoMenor(k: Key, rnMinor: Numeral): (r: Option<Prestamo>)
    ensures r.Some? <==> k.mode == MajorMode && rnMinor.romanNumeral in PrestamosPermitidos
    ensures r.Some? ==> r.value.rnMinor == rnMinor && r.value.base == rnMinor.romanNumeral
                        && r.value.inversion == rnMinor.inversion && r.value.tieneSeptima == rnMinor.containsSeventh
                        && r.value.gradoNum == rnMinor.scaleDegree
  {
    if k.mode != MajorMode then None
    else if rnMinor.romanNumeral !in PrestamosPermitidos then None
    else Some(Prestamo(rnMinor, rnMinor.romanNumeral, rnMinor.inversion, rnMinor.containsSeventh, rnMinor.scaleDegree))
  }
}
