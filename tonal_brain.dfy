/**
 * `CerebroTonal`, the analyser's entry point: it keeps the tonal context
 * and analyses one chord given as the voices' note names. The analysis
 * starts from the translation of music21's roman numeral and lets, in this
 * order, a Neapolitan, an augmented sixth, a secondary function or a
 * borrowed chord take it over; a chromatic chord that none of them
 * explains and whose label carries an accidental is marked with "?".
 */
module TonalBrain {
  import opened Wrappers
  import opened Text
  import opened Pitches
  import opened Keys
  import opened Cipher
  import opened Sonority
  import opened FunctionDetection
  import opened SpecialChords
  import opened TonalContext

  // ---------------------------------------------------------------
  // The notes
  // ---------------------------------------------------------------

  /** One note as `analizar_acorde` keeps it: empty notes are dropped, every 'b' becomes music21's '-'. */
  function Normalizada(n: string): (r: seq<string>)
    ensures n == "" ==> r == []
    ensures n != "" ==> r == [ReplaceAll(n, "b", "-")]
  {
    if n != "" then [ReplaceAll(n, "b", "-")] else []
  }

  /** The notes music21 is given, from the voices' notes (voice, note) in the dictionary's order. */
  function NotasValidasDe(notas: seq<(string, string)>): seq<string>
    decreases |notas|
  {
    if |notas| == 0 then [] else NotasValidasDe(notas[..|notas| - 1]) + Normalizada(notas[|notas| - 1].1)
  }

  /** The filtering loop of `analizar_acorde`. */
  method NotasValidas(notas: seq<(string, string)>) returns (r: seq<string>)
    ensures r == NotasValidasDe(notas)
  {
    r := [];
    var i := 0;
    while i < |notas|
      invariant 0 <= i <= |notas|
      invariant r == NotasValidasDe(notas[..i])
    {
      var n := notas[i].1;
      if n != "" {
        r := r + [ReplaceAll(n, "b", "-")];
      }
      assert notas[..i + 1][..i] == notas[..i];
      i := i + 1;
    }
    assert notas[..|notas|] == notas;
  }

  /**
   * The notes kept are exactly the non-empty ones, each with its flats
   * written '-': none is empty, none has a 'b' left, and every non-empty
   * note of the input is among them.
   */
  lemma {:induction false} NotasValidasSpec(notas: seq<(string, string)>)
    ensures |NotasValidasDe(notas)| <= |notas|
    ensures forall n | n in NotasValidasDe(notas) :: n != "" && 'b' !in n
    ensures forall j | 0 <= j < |notas| && notas[j].1 != "" :: ReplaceAll(notas[j].1, "b", "-") in NotasValidasDe(notas)
    ensures forall n | n in NotasValidasDe(notas) :: exists j | 0 <= j < |notas| :: notas[j].1 != "" && n == ReplaceAll(notas[j].1, "b", "-")
    decreases |notas|
  {
    if |notas| > 0 {
      var init := notas[..|notas| - 1];
      var last := notas[|notas| - 1].1;
      NotasValidasSpec(init);
      if last != "" {
        ReplaceCharRemoves(last, 'b', "-");
        ReplaceCharKeepsLength(last, 'b', '-');
      }
      forall n | n in NotasValidasDe(notas)
        ensures exists j | 0 <= j < |notas| :: notas[j].1 != "" && n == ReplaceAll(notas[j].1, "b", "-")
      {
        if n in NotasValidasDe(init) {
          var j :| 0 <= j < |init| && init[j].1 != "" && n == ReplaceAll(init[j].1, "b", "-");
          assert notas[j] == init[j];
        } else {
          assert n == ReplaceAll(notas[|notas| - 1].1, "b", "-");
        }
      }
      forall j | 0 <= j < |notas| && notas[j].1 != ""
        ensures ReplaceAll(notas[j].1, "b", "-") in NotasValidasDe(notas)
      {
        if j < |notas| - 1 {
          assert notas[j] == init[j];
        }
      }
    }
  }

  // ---------------------------------------------------------------
  // The ninth
  // ---------------------------------------------------------------

  /** `p` lies a minor or major ninth (13 or 14 semitones) above the root, and is not the root itself. */
  predicate EsNovena(root: Pitch, p: Pitch) {
    p != root && (Ps(p) - Ps(root) == 13 || Ps(p) - Ps(root) == 14)
  }

  /** The chord has a root and some pitch a ninth above it. */
  predicate TieneNovenaEn(c: ChordFacts) {
    c.root.Some? && exists i | 0 <= i < |c.pitches| :: EsNovena(c.root.value, c.pitches[i])
  }

  /** `_tiene_novena`: scan the pitches, skipping the root, for one 13 or 14 semitones above it. */
  method TieneNovena(c: ChordFacts) returns (r: bool)
    ensures r <==> TieneNovenaEn(c)
  {
    if c.root.None? {
      return false;
    }
    var root := c.root.value;
    var i := 0;
    while i < |c.pitches|
      invariant 0 <= i <= |c.pitches|
      invariant forall j | 0 <= j < i :: !EsNovena(root, c.pitches[j])
    {
      var p := c.pitches[i];
      i := i + 1;
      if p == root {
        continue;
      }
      var semis := Ps(p) - Ps(root);
      if semis == 13 || semis == 14 {
        return true;
      }
    }
    return false;
  }

  /** A ninth sounds the minor or major second of the root, an octave higher. */
  lemma NovenaIsCompoundSecond(root: Pitch, p: Pitch)
    requires EsNovena(root, p)
    ensures PitchClass(p) == (PitchClass(root) + (Ps(p) - Ps(root) - 12)) % 12
  {
    var a := Ps(root);
    var d := Ps(p) - a;
    var q, x := a / 12, a % 12;
    assert Ps(p) == 12 * q + (x + d);
    ShiftByOctaves(x + d, q);
    ShiftByOctaves(x + d - 12, 1);
  }

  // ---------------------------------------------------------------
  // Diatonic test
  // ---------------------------------------------------------------

  /** `_es_diatonico`: every pitch of the chord sounds a pitch class of the scale. */
  method EsDiatonico(k: Key, c: ChordFacts) returns (r: bool)
    ensures r <==> AllDiatonic(k, c.pitches)
  {
    var cromatico := FindChromaticPitch(k, c.pitches);
    r := !cromatico;
  }

  // ---------------------------------------------------------------
  // Borrowing from the parallel minor
  // ---------------------------------------------------------------

  /** The fallback list of `analizar_acorde`: numerals of the key itself that read as borrowed. */
  const PrestamosComunes: seq<string> := ["i", "iv", "ii°", "v", "bVI", "bVII", "bIII", "bII"]

  /**
   * The borrowing `analizar_acorde` works with: the detector's, and, when
   * it finds none in a major key, the key's own numeral if it is one of
   * the common borrowings. `numeral` is the chord's numeral in the key,
   * `rnMinor` its numeral in the parallel minor.
   */
  function PrestamoModal(k: Key, numeral: Numeral, rnMinor: Numeral): (r: Option<Prestamo>)
    ensures r.Some? <==> k.mode == MajorMode && (rnMinor.romanNumeral in PrestamosPermitidos || numeral.romanNumeral in PrestamosComunes)
    ensures DetectarPrestamoMenor(k, rnMinor).Some? ==> r == DetectarPrestamoMenor(k, rnMinor)
    ensures r.Some? && DetectarPrestamoMenor(k, rnMinor).None? ==>
      r.value == Prestamo(numeral, numeral.romanNumeral, numeral.inversion, numeral.containsSeventh, numeral.scaleDegree)
  {
    var detectado := DetectarPrestamoMenor(k, rnMinor);
    if detectado.None? && k.mode == MajorMode && numeral.romanNumeral in PrestamosComunes then
      Some(Prestamo(numeral, numeral.romanNumeral, numeral.inversion, numeral.containsSeventh, numeral.scaleDegree))
    else detectado
  }

  // ---------------------------------------------------------------
  // The analysis, step by step
  // ---------------------------------------------------------------

  /**
   * The ninth adjustment: the ninth is recorded, and a chord with a ninth
   * gets the figure "9" after its label; on the fifth degree it counts as
   * having a seventh too.
   */
  function ConNovena(t: Traduccion, novena: bool): (r: Traduccion)
    ensures r.tieneNovena == novena
    ensures r.grado == t.grado && r.gradoNum == t.gradoNum && r.funcion == t.funcion && r.inversion == t.inversion
    ensures novena ==> r.cifrado == "9" && r.textoCompleto == t.grado + "9"
                       && r.tieneSeptima == (t.tieneSeptima || t.gradoNum == 5)
    ensures !novena ==> r.cifrado == t.cifrado && r.textoCompleto == t.textoCompleto && r.tieneSeptima == t.tieneSeptima
  {
    var t := t.(tieneNovena := novena);
    if !novena then t
    else if t.gradoNum == 5 then t.(cifrado := "9", textoCompleto := t.grado + "9", tieneSeptima := true)
    else t.(cifrado := "9", textoCompleto := t.grado + "9")
  }

  /** What takes the analysis over, if anything. */
  datatype Especial = PorNapolitana | PorSexta(sexta: SextaAumentada) | PorSecundaria(sec: Secundaria) | PorPrestamo(pre: Prestamo) | SinEspecial

  /** The priority: Neapolitan, then augmented sixth, then secondary function, then borrowing. */
  function Eleccion(napolitana: bool, sexta: Option<SextaAumentada>, secundaria: Option<Secundaria>, prestamo: Option<Prestamo>): (r: Especial)
    ensures napolitana ==> r == PorNapolitana
    ensures !napolitana && sexta.Some? ==> r == PorSexta(sexta.value)
    ensures !napolitana && sexta.None? && secundaria.Some? ==> r == PorSecundaria(secundaria.value)
    ensures !napolitana && sexta.None? && secundaria.None? && prestamo.Some? ==> r == PorPrestamo(prestamo.value)
    ensures r == SinEspecial <==> !napolitana && sexta.None? && secundaria.None? && prestamo.None?
  {
    if napolitana then PorNapolitana
    else if sexta.Some? then PorSexta(sexta.value)
    else if secundaria.Some? then PorSecundaria(secundaria.value)
    else if prestamo.Some? then PorPrestamo(prestamo.value)
    else SinEspecial
  }

  /** `tipo_especial` of the result. */
  function TipoEspecial(e: Especial): (r: Option<string>)
    ensures r.None? <==> e == SinEspecial
  {
    match e
    case PorNapolitana => Some("N")
    case PorSexta(s) => Some(Valor(s))
    case PorSecundaria(_) => Some("dominante_secundaria")
    case PorPrestamo(_) => Some("prestamo_menor")
    case SinEspecial => None
  }

  /** The borrowed numerals that act as subdominants. */
  const BasesSubdominantes: seq<string> := ["iv", "ii°", "bVI", "bVII"]

  /** The function of a borrowed chord: subdominant for the listed numerals, else that of its degree. */
  function FuncionPrestamo(p: Prestamo): (r: HarmonicFunction)
    ensures p.base in BasesSubdominantes ==> r == Subdominante
    ensures p.base !in BasesSubdominantes ==> r == FuncionDeGrado(p.gradoNum)
  {
    if p.base in BasesSubdominantes then Subdominante else FuncionDeGrado(p.gradoNum)
  }

  /** A seventh chord's figure from the general table, a triad's from the triad table. */
  function CifradoPorSeptima(septima: bool, inversion: int): (r: string)
    ensures septima ==> r == CifradoSeptimaGeneral(inversion)
    ensures !septima ==> r == CifradoTriada(inversion)
  {
    if septima then CifradoSeptimaGeneral(inversion) else CifradoTriada(inversion)
  }

  /** The label of a secondary function and its full text, the figure between the kind and the target. */
  function TextoSecundaria(d: Secundaria): (r: string)
    ensures r == d.tipo + d.cifrado + "/" + d.objetivo
  {
    if d.cifrado != "" then d.tipo + d.cifrado + "/" + d.objetivo else d.tipo + "/" + d.objetivo
  }

  /**
   * The translation once the special reading, if any, has taken over: the
   * label, figure, text and function it sets, and the seventh and
   * inversion where it sets them.
   */
  function Aplicar(t: Traduccion, e: Especial, c: ChordFacts): (r: Traduccion)
    ensures r.gradoNum == t.gradoNum && r.tieneNovena == t.tieneNovena
    ensures e == SinEspecial ==> r == t
    ensures e == PorNapolitana ==>
      && r.grado == "bII" && r.cifrado == CifradoPorSeptima(c.containsSeventh, c.inversion)
      && r.textoCompleto == "bII" + r.cifrado && r.funcion == Subdominante
      && r.tieneSeptima == c.containsSeventh && r.inversion == c.inversion
    ensures e.PorSexta? ==>
      && r.grado == Valor(e.sexta) && r.textoCompleto == Valor(e.sexta) && r.cifrado == ""
      && r.funcion == Subdominante && r.tieneSeptima == t.tieneSeptima && r.inversion == t.inversion
    ensures e.PorSecundaria? ==>
      && r.grado == e.sec.tipo + "/" + e.sec.objetivo && r.textoCompleto == e.sec.tipo + e.sec.cifrado + "/" + e.sec.objetivo
      && r.cifrado == e.sec.cifrado && r.funcion == Dominante
      && r.tieneSeptima == e.sec.tieneSeptima && r.inversion == e.sec.inversion
    ensures e.PorPrestamo? ==>
      var rn := e.pre.rnMinor;
      && r.grado == GradoStr(rn.romanNumeral, rn.quality, rn.isHalfDiminishedSeventh, rn.isDiminishedSeventh)
      && r.cifrado == CifradoPorSeptima(e.pre.tieneSeptima, rn.inversion)
      && r.textoCompleto == r.grado + r.cifrado && r.funcion == FuncionPrestamo(e.pre)
      && r.tieneSeptima == e.pre.tieneSeptima && r.inversion == rn.inversion
  {
    match e
    case PorNapolitana =>
      var cifrado := CifradoPorSeptima(c.containsSeventh, c.inversion);
      t.(textoCompleto := "bII" + cifrado, grado := "bII", cifrado := cifrado, tieneSeptima := c.containsSeventh,
         inversion := c.inversion, funcion := Subdominante)
    case PorSexta(s) =>
      t.(textoCompleto := Valor(s), grado := Valor(s), cifrado := "", funcion := Subdominante)
    case PorSecundaria(d) =>
      t.(textoCompleto := TextoSecundaria(d), grado := d.tipo + "/" + d.objetivo, cifrado := d.cifrado,
         tieneSeptima := d.tieneSeptima, inversion := d.inversion, funcion := Dominante)
    case PorPrestamo(p) =>
      var rn := p.rnMinor;
      var grado := GradoStr(rn.romanNumeral, rn.quality, rn.isHalfDiminishedSeventh, rn.isDiminishedSeventh);
      var cifrado := CifradoPorSeptima(p.tieneSeptima, rn.inversion);
      t.(textoCompleto := grado + cifrado, grado := grado, cifrado := cifrado, tieneSeptima := p.tieneSeptima,
         inversion := rn.inversion, funcion := FuncionPrestamo(p))
    case SinEspecial => t
  }

  /** The chromatic labels the analysis accepts without a question mark. */
  const Aceptados: seq<string> := ["bII", "bIII", "bVI", "bVII", "N", "iv", "v", "ii°", "vii°7"]

  /** A label that is not accepted and carries a flat or a sharp. */
  predicate GradoExtrano(g: string) {
    g !in Aceptados && ('b' in g || '#' in g)
  }

  /**
   * The refinement step: a chromatic chord with no special reading whose
   * label is strange gets "?" after its label and its text. The source
   * tests for a leading 'b' or '#' or one anywhere; the first two are
   * implied by the last two.
   */
  function Marcar(t: Traduccion, esDiatonico: bool, tipo: Option<string>): (r: Traduccion)
    ensures !esDiatonico && tipo.None? && GradoExtrano(t.grado) ==> r == t.(grado := t.grado + "?", textoCompleto := t.textoCompleto + "?")
    ensures !(!esDiatonico && tipo.None? && GradoExtrano(t.grado)) ==> r == t
  {
    var g := t.grado;
    ContainsChar(g, 'b');
    ContainsChar(g, '#');
    if !esDiatonico && tipo.None? && g !in Aceptados
       && (StartsWith(g, "b") || StartsWith(g, "#") || Contains(g, "b") || Contains(g, "#"))
    then t.(textoCompleto := t.textoCompleto + "?", grado := t.grado + "?")
    else t
  }

  // ---------------------------------------------------------------
  // The result
  // ---------------------------------------------------------------

  /** The dictionary `analizar_acorde` returns; `funcion` is the function's symbol, or "" when empty. */
  datatype Analisis = Analisis(
    grado: string,
    gradoNum: int,
    cifradoEuropeo: string,
    textoCompleto: string,
    funcion: string,
    esDiatonico: bool,
    tipoEspecial: Option<string>,
    tieneSeptima: bool,
    tieneNovena: bool,
    inversion: int,
    notas: seq<(string, string)>,
    fundamental: Option<NoteName>,
    tipo: Option<string>)

  /** `_resultado_vacio`: nothing found, diatonic, the notes handed back. */
  function ResultadoVacio(notas: seq<(string, string)>): Analisis {
    Analisis("", 0, "", "", "", true, None, false, false, 0, notas, None, None)
  }

  /** The special reading `analizar_acorde` applies to the chord. */
  function EspecialDe(k: Key, c: ChordFacts, numeral: Numeral, rnMinor: Numeral): Especial {
    Eleccion(EsNapolitana(k, c), DetectarSextaAumentada(k, c), DominanteSecundaria(k, c), PrestamoModal(k, numeral, rnMinor))
  }

  /** The translation with the ninth, the special reading and the marking applied. */
  function TraduccionFinal(k: Key, c: ChordFacts, numeral: Numeral, rnMinor: Numeral): Traduccion {
    var e := EspecialDe(k, c, numeral, rnMinor);
    var t := Aplicar(ConNovena(Traducir(numeral), TieneNovenaEn(c)), e, c);
    Marcar(t, AllDiatonic(k, c.pitches), TipoEspecial(e))
  }

  /**
   * `analizar_acorde` in key `k` (the context's key as music21 builds
   * it). `c` is what music21 answers about the chord of the kept notes,
   * `numeral` its roman numeral in `k` and `rnMinor` its numeral in the
   * parallel minor. Fewer than two notes give the empty result.
   */
  function AnalisisAcorde(k: Key, notas: seq<(string, string)>, c: ChordFacts, numeral: Numeral, rnMinor: Numeral): (r: Analisis)
    ensures r.notas == notas
    ensures |NotasValidasDe(notas)| < 2 ==> r == ResultadoVacio(notas)
    ensures |NotasValidasDe(notas)| >= 2 ==>
      && r.esDiatonico == AllDiatonic(k, c.pitches) && r.gradoNum == numeral.scaleDegree
      && r.tieneNovena == TieneNovenaEn(c) && r.tipoEspecial == TipoEspecial(EspecialDe(k, c, numeral, rnMinor))
      && r.tipo == Some(numeral.quality) && r.fundamental == (if c.root.Some? then Some(Name(c.root.value)) else None)
  {
    if |NotasValidasDe(notas)| < 2 then ResultadoVacio(notas)
    else
      var e := EspecialDe(k, c, numeral, rnMinor);
      var t := TraduccionFinal(k, c, numeral, rnMinor);
      var fundamental := if c.root.Some? then Some(Name(c.root.value)) else None;
      Analisis(t.grado, t.gradoNum, t.cifrado, t.textoCompleto, Symbol(t.funcion), AllDiatonic(k, c.pitches),
               TipoEspecial(e), t.tieneSeptima, t.tieneNovena, t.inversion, notas, fundamental, Some(numeral.quality))
  }

  // ---------------------------------------------------------------
  // What the analysis promises
  // ---------------------------------------------------------------

  /** A Neapolitan is labelled bII with its figure, as a subdominant, whatever else the chord could be. */
  lemma NapolitanaFirst(k: Key, notas: seq<(string, string)>, c: ChordFacts, numeral: Numeral, rnMinor: Numeral)
    requires |NotasValidasDe(notas)| >= 2 && EsNapolitana(k, c)
    ensures var r := AnalisisAcorde(k, notas, c, numeral, rnMinor);
      && r.tipoEspecial == Some("N") && r.grado == "bII" && r.textoCompleto == "bII" + r.cifradoEuropeo
      && r.cifradoEuropeo == CifradoPorSeptima(c.containsSeventh, c.inversion)
      && r.funcion == Symbol(Subdominante) && r.tieneSeptima == c.containsSeventh && r.inversion == c.inversion
  {
    assert EspecialDe(k, c, numeral, rnMinor) == PorNapolitana;
  }

  /** An augmented sixth that is not a Neapolitan is labelled by its kind alone, as a subdominant. */
  lemma SextaSecond(k: Key, notas: seq<(string, string)>, c: ChordFacts, numeral: Numeral, rnMinor: Numeral)
    requires |NotasValidasDe(notas)| >= 2 && !EsNapolitana(k, c) && DetectarSextaAumentada(k, c).Some?
    ensures var r := AnalisisAcorde(k, notas, c, numeral, rnMinor);
      var s := DetectarSextaAumentada(k, c).value;
      && r.tipoEspecial == Some(Valor(s)) && r.grado == Valor(s) && r.textoCompleto == Valor(s)
      && r.cifradoEuropeo == "" && r.funcion == Symbol(Subdominante)
      && r.tieneSeptima == ConNovena(Traducir(numeral), TieneNovenaEn(c)).tieneSeptima
      && r.inversion == ConNovena(Traducir(numeral), TieneNovenaEn(c)).inversion
  {
    assert EspecialDe(k, c, numeral, rnMinor) == PorSexta(DetectarSextaAumentada(k, c).value);
  }

  /**
   * A secondary function, when nothing above applies, is labelled
   * kind/target with the figure after the kind, and always as a dominant.
   */
  lemma SecundariaThird(k: Key, notas: seq<(string, string)>, c: ChordFacts, numeral: Numeral, rnMinor: Numeral)
    requires |NotasValidasDe(notas)| >= 2 && !EsNapolitana(k, c) && DetectarSextaAumentada(k, c).None?
    requires DominanteSecundaria(k, c).Some?
    ensures var r := AnalisisAcorde(k, notas, c, numeral, rnMinor);
      var d := DominanteSecundaria(k, c).value;
      && r.tipoEspecial == Some("dominante_secundaria") && r.grado == d.tipo + "/" + d.objetivo
      && r.textoCompleto == d.tipo + d.cifrado + "/" + d.objetivo
      && r.cifradoEuropeo == d.cifrado && r.funcion == Symbol(Dominante)
      && r.tieneSeptima == d.tieneSeptima && r.inversion == d.inversion
  {
    assert EspecialDe(k, c, numeral, rnMinor) == PorSecundaria(DominanteSecundaria(k, c).value);
  }

  /** A borrowed chord, when nothing above applies, is labelled with its numeral in the parallel minor and its figure. */
  lemma PrestamoFourth(k: Key, notas: seq<(string, string)>, c: ChordFacts, numeral: Numeral, rnMinor: Numeral)
    requires |NotasValidasDe(notas)| >= 2 && !EsNapolitana(k, c) && DetectarSextaAumentada(k, c).None?
    requires DominanteSecundaria(k, c).None? && PrestamoModal(k, numeral, rnMinor).Some?
    ensures var r := AnalisisAcorde(k, notas, c, numeral, rnMinor);
      var p := PrestamoModal(k, numeral, rnMinor).value;
      var rn := p.rnMinor;
      && k.mode == MajorMode
      && r.tipoEspecial == Some("prestamo_menor")
      && r.grado == GradoStr(rn.romanNumeral, rn.quality, rn.isHalfDiminishedSeventh, rn.isDiminishedSeventh)
      && r.textoCompleto == r.grado + r.cifradoEuropeo
      && r.cifradoEuropeo == CifradoPorSeptima(p.tieneSeptima, rn.inversion)
      && r.funcion == Symbol(FuncionPrestamo(p))
      && r.tieneSeptima == p.tieneSeptima && r.inversion == rn.inversion
  {
    assert EspecialDe(k, c, numeral, rnMinor) == PorPrestamo(PrestamoModal(k, numeral, rnMinor).value);
  }

  /**
   * With no special reading the result is the translation of the numeral:
   * its label (with "?" exactly when the chord is chromatic and the label
   * strange), the function of its degree, and, when the chord has a ninth,
   * the figure "9" and, on the fifth degree, a seventh.
   */
  lemma PlainTranslation(k: Key, notas: seq<(string, string)>, c: ChordFacts, numeral: Numeral, rnMinor: Numeral)
    requires |NotasValidasDe(notas)| >= 2 && EspecialDe(k, c, numeral, rnMinor) == SinEspecial
    ensures var r := AnalisisAcorde(k, notas, c, numeral, rnMinor);
      var t := Traducir(numeral);
      var marcado := !AllDiatonic(k, c.pitches) && GradoExtrano(t.grado);
      && r.tipoEspecial.None?
      && r.grado == (if marcado then t.grado + "?" else t.grado)
      && r.funcion == Symbol(FuncionDeGrado(numeral.scaleDegree))
      && r.inversion == numeral.inversion
      && (TieneNovenaEn(c) ==> r.cifradoEuropeo == "9" && r.textoCompleto == t.grado + "9" + (if marcado then "?" else ""))
      && (!TieneNovenaEn(c) ==> r.cifradoEuropeo == t.cifrado && r.textoCompleto == t.grado + t.cifrado + (if marcado then "?" else ""))
      && r.tieneSeptima == (TieneSeptima(numeral) || (TieneNovenaEn(c) && numeral.scaleDegree == 5))
  {
  }

  /** Only a chromatic chord without a special reading is ever marked. */
  lemma MarkOnlyUnexplainedChromatic(k: Key, notas: seq<(string, string)>, c: ChordFacts, numeral: Numeral, rnMinor: Numeral)
    requires |NotasValidasDe(notas)| >= 2
    ensures var e := EspecialDe(k, c, numeral, rnMinor);
      var t := Aplicar(ConNovena(Traducir(numeral), TieneNovenaEn(c)), e, c);
      var r := AnalisisAcorde(k, notas, c, numeral, rnMinor);
      r.grado == t.grado + "?" <==> !AllDiatonic(k, c.pitches) && e == SinEspecial && GradoExtrano(t.grado)
  {
    var e := EspecialDe(k, c, numeral, rnMinor);
    var t := Aplicar(ConNovena(Traducir(numeral), TieneNovenaEn(c)), e, c);
    assert |t.grado + "?"| != |t.grado|;
  }

  // ---------------------------------------------------------------
  // The analyser
  // ---------------------------------------------------------------

  /** `CerebroTonal`: the tonal context it owns, and the operations on it. */
  class CerebroTonal {
    const contexto: ContextoTonal

    /** A fresh context for the tonic, major exactly when the mode string is "major". */
    constructor(tonica: string, modo: string)
      ensures fresh(contexto)
      ensures contexto.tonica == tonica && contexto.modo == ModeOf(modo) && contexto.tonalidadLocal == None
      ensures contexto.Consistent()
    {
      contexto := new ContextoTonal(tonica, ModeOf(modo), None);
    }

    /** `establecer_tonalidad`: the context takes the new key. */
    method EstablecerTonalidad(tonica: string, modo: string)
      modifies contexto
      ensures contexto.tonica == tonica && contexto.modo == ModeOf(modo) && contexto.tonalidadLocal == None
      ensures contexto.Consistent()
    {
      contexto.EstablecerTonalidad(tonica, modo);
    }

    /** `obtener_armadura_vexflow`. */
    method ObtenerArmaduraVexflow() returns (r: string)
      ensures r == VexflowKey(contexto.tonica, contexto.modo)
    {
      if contexto.modo == MajorMode {
        r := contexto.tonica;
      } else {
        r := contexto.tonica + "m";
      }
    }

    /**
     * `analizar_acorde` on the context's key `k`: the filtering, the ninth
     * scan, the diatonic scan and the detectors, then the special reading
     * and the marking.
     */
    method AnalizarAcorde(k: Key, notas: seq<(string, string)>, c: ChordFacts, numeral: Numeral, rnMinor: Numeral)
      returns (r: Analisis)
      requires k.mode == contexto.modo
      ensures r == AnalisisAcorde(k, notas, c, numeral, rnMinor)
    {
      var validas := NotasValidas(notas);
      if |validas| < 2 {
        return ResultadoVacio(notas);
      }
      var novena := TieneNovena(c);
      var t := ConNovena(Traducir(numeral), novena);
      var esDiatonico := EsDiatonico(k, c);
      var secundaria := DetectarDominanteSecundaria(k, c);
      var prestamo := PrestamoModal(k, numeral, rnMinor);
      var e := Eleccion(EsNapolitana(k, c), DetectarSextaAumentada(k, c), secundaria, prestamo);
      t := Aplicar(t, e, c);
      var tipo := TipoEspecial(e);
      t := Marcar(t, esDiatonico, tipo);
      var fundamental := if c.root.Some? then Some(Name(c.root.value)) else None;
      r := Analisis(t.grado, t.gradoNum, t.cifrado, t.textoCompleto, Symbol(t.funcion), esDiatonico,
                    tipo, t.tieneSeptima, t.tieneNovena, t.inversion, notas, fundamental, Some(numeral.quality));
    }
  }
}
