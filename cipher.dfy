/**
 * `TraductorCifrado`: the translation of a music21 roman-numeral analysis
 * into the figures taught in European conservatories ("6,5t" for a
 * dominant seventh in first inversion, "6,4" for a second-inversion triad),
 * the degree label with its quality sign, and the harmonic function of a
 * degree. The analysis itself (`RomanNumeral`) comes from music21 and is
 * given here as a `Numeral` value holding the answers of its queries.
 */
module Cipher {
  import opened Text

  /** `FuncionArmonica`: tonic, subdominant or dominant function. */
  datatype HarmonicFunction = Tonica | Subdominante | Dominante

  /** The enum's value: "T", "S" or "D". */
  function Symbol(f: HarmonicFunction): (r: string)
    ensures |r| == 1
  {
    match f
    case Tonica => "T"
    case Subdominante => "S"
    case Dominante => "D"
  }

  /** Different functions have different symbols. */
  lemma SymbolInjective(f: HarmonicFunction, g: HarmonicFunction)
    ensures Symbol(f) == Symbol(g) <==> f == g
  {
  }

  /**
   * `_obtener_funcion` (and `obtener_funcion`, which ignores its quality
   * argument): a total map from degrees to functions. Degrees 5 and 7 are
   * dominant, 2 and 4 subdominant, and every other number, the mediant
   * and out-of-range values included, tonic.
   */
  function FuncionDeGrado(grado: int): (r: HarmonicFunction)
    ensures r == Dominante <==> grado == 5 || grado == 7
    ensures r == Subdominante <==> grado == 2 || grado == 4
    ensures r == Tonica <==> grado != 2 && grado != 4 && grado != 5 && grado != 7
  {
    if grado == 1 || grado == 6 then Tonica
    else if grado == 2 || grado == 4 then Subdominante
    else if grado == 5 || grado == 7 then Dominante
    else Tonica
  }

  // ---------------------------------------------------------------
  // Figure tables
  // ---------------------------------------------------------------

  /** `mapeo.get(inversion, default)`. */
  function Lookup(table: map<int, string>, inversion: int, default: string): (r: string)
    ensures inversion in table ==> r == table[inversion]
    ensures inversion !in table ==> r == default
  {
    if inversion in table then table[inversion] else default
  }

  const SeptimaDominante: map<int, string> := map[0 := "7,+", 1 := "6,5t", 2 := "+6", 3 := "+4"]
  const SeptimaDisminuida: map<int, string> := map[0 := "7t", 1 := "+6,5t", 2 := "+4,3", 3 := "+2"]
  const SeptimaSensible: map<int, string> := map[0 := "7,5t", 1 := "+6,5", 2 := "+4,3", 3 := "4,+2"]
  const SeptimaGeneral: map<int, string> := map[0 := "7", 1 := "6,5", 2 := "4,3", 3 := "2"]
  const Triada: map<int, string> := map[0 := "", 1 := "6", 2 := "6,4"]

  /** `_cifrado_septima_dominante`: the root-position V7 is "7,+"; an inversion outside 0..3 falls back to a plain "7". */
  function CifradoSeptimaDominante(inversion: int): (r: string)
    ensures r == "7" <==> !(0 <= inversion <= 3)
  {
    Lookup(SeptimaDominante, inversion, "7")
  }

  /** `_cifrado_septima_disminuida`. */
  function CifradoSeptimaDisminuida(inversion: int): (r: string)
    ensures r == "7t" <==> !(1 <= inversion <= 3)
  {
    Lookup(SeptimaDisminuida, inversion, "7t")
  }

  /** `_cifrado_septima_sensible`. */
  function CifradoSeptimaSensible(inversion: int): (r: string)
    ensures r == "7,5t" <==> !(1 <= inversion <= 3)
  {
    Lookup(SeptimaSensible, inversion, "7,5t")
  }

  /** `_cifrado_septima_general`. */
  function CifradoSeptimaGeneral(inversion: int): (r: string)
    ensures r == "7" <==> !(1 <= inversion <= 3)
  {
    Lookup(SeptimaGeneral, inversion, "7")
  }

  /** `_cifrado_triada`: the root position carries no figure, and neither does an unknown inversion. */
  function CifradoTriada(inversion: int): (r: string)
    ensures r == "" <==> !(1 <= inversion <= 2)
  {
    Lookup(Triada, inversion, "")
  }

  /**
   * Within each table the figure tells the inversion: two different
   * inversions of the table never share a figure, so the figure can be
   * read back as the inversion.
   */
  lemma FiguresTellInversionsApart(i: int, j: int)
    requires 0 <= i < j <= 3
    ensures CifradoSeptimaDominante(i) != CifradoSeptimaDominante(j)
    ensures CifradoSeptimaDisminuida(i) != CifradoSeptimaDisminuida(j)
    ensures CifradoSeptimaSensible(i) != CifradoSeptimaSensible(j)
    ensures CifradoSeptimaGeneral(i) != CifradoSeptimaGeneral(j)
    ensures j <= 2 ==> CifradoTriada(i) != CifradoTriada(j)
  {
  }

  /**
   * Outside the table the diminished, half-diminished, general-seventh and
   * triad figures fall back to their root-position figure; only the
   * dominant seventh falls back to a figure ("7") of its own.
   */
  lemma UnknownInversionFigures(inversion: int)
    requires !(0 <= inversion <= 3)
    ensures CifradoSeptimaDisminuida(inversion) == CifradoSeptimaDisminuida(0)
    ensures CifradoSeptimaSensible(inversion) == CifradoSeptimaSensible(0)
    ensures CifradoSeptimaGeneral(inversion) == CifradoSeptimaGeneral(0)
    ensures CifradoTriada(inversion) == CifradoTriada(0)
    ensures forall k | 0 <= k <= 3 :: CifradoSeptimaDominante(inversion) != CifradoSeptimaDominante(k)
  {
  }

  // ---------------------------------------------------------------
  // The roman numeral and its translation
  // ---------------------------------------------------------------

  /** What music21's `RomanNumeral` answers about a chord in a key. */
  datatype Numeral = Numeral(
    scaleDegree: int,
    figure: string,
    romanNumeral: string,
    quality: string,
    containsSeventh: bool,
    isDominantSeventh: bool,
    isDiminishedSeventh: bool,
    isHalfDiminishedSeventh: bool,
    inversion: int)

  /**
   * `_obtener_grado_str`: the numeral with the quality sign it lacks —
   * "ø" for a half-diminished seventh, "°" for a diminished seventh or a
   * diminished chord (an "o" already there counts for the latter), "+"
   * for an augmented chord; a sign already present is not repeated.
   */
  function GradoStr(rn: string, quality: string, halfDiminished: bool, diminishedSeventh: bool): (r: string)
    ensures r == rn || r == rn + "ø" || r == rn + "°" || r == rn + "+"
    ensures halfDiminished ==> Contains(r, "ø")
    ensures !halfDiminished && diminishedSeventh ==> Contains(r, "°")
    ensures !halfDiminished && !diminishedSeventh && quality == "diminished" ==> Contains(r, "°") || Contains(r, "o")
    ensures !halfDiminished && !diminishedSeventh && quality == "augmented" ==> Contains(r, "+")
    ensures !halfDiminished && !diminishedSeventh && quality != "diminished" && quality != "augmented" ==> r == rn
  {
    if halfDiminished then SignAdded(rn, "ø")
    else if diminishedSeventh then SignAdded(rn, "°")
    else if quality == "diminished" then
      if Contains(rn, "o") then rn else SignAdded(rn, "°")
    else if quality == "augmented" then SignAdded(rn, "+")
    else rn
  }

  /** `if sign not in s: s += sign`. */
  function SignAdded(s: string, sign: string): (r: string)
    ensures Contains(r, sign)
    ensures r == s || r == s + sign
    ensures Contains(s, sign) ==> r == s
  {
    if Contains(s, sign) then s
    else
      assert EndsWith(s + sign, sign) by { assert (s + sign)[|s + sign| - |sign|..] == sign; }
      EndsWithContains(s + sign, sign);
      s + sign
  }

  /** Formatting a label a second time changes nothing: the sign added is then present. */
  lemma GradoStrIdempotent(rn: string, quality: string, halfDiminished: bool, diminishedSeventh: bool)
    ensures var g := GradoStr(rn, quality, halfDiminished, diminishedSeventh);
      GradoStr(g, quality, halfDiminished, diminishedSeventh) == g
  {
  }

  /**
   * The seventh test of `traducir`: music21 reports a seventh, or the
   * figure shows one — a '7' that is not part of "17", one of "65", "43",
   * "42", or a final '2' that is not the end of "12".
   */
  predicate TieneSeptima(n: Numeral) {
    n.containsSeventh
    || (Contains(n.figure, "7") && !Contains(n.figure, "17"))
    || Contains(n.figure, "65")
    || Contains(n.figure, "43")
    || Contains(n.figure, "42")
    || (EndsWith(n.figure, "2") && !EndsWith(n.figure, "12"))
  }

  predicate EsDominante(n: Numeral) {
    n.isDominantSeventh || n.scaleDegree == 5
  }

  predicate EsDisminuida(n: Numeral) {
    n.isDiminishedSeventh || Contains(n.figure, "o7")
  }

  predicate EsSensible(n: Numeral) {
    n.isHalfDiminishedSeventh || Contains(n.figure, "/o") || Contains(n.figure, "ø")
  }

  /** The figure `traducir` chooses: a seventh table by the kind of seventh, or the triad table. */
  function Cifrado(n: Numeral): (r: string)
    ensures !TieneSeptima(n) ==> r == CifradoTriada(n.inversion)
    ensures TieneSeptima(n) && EsDisminuida(n) ==> r == CifradoSeptimaDisminuida(n.inversion)
    ensures TieneSeptima(n) && !EsDisminuida(n) && EsSensible(n) ==> r == CifradoSeptimaSensible(n.inversion)
    ensures TieneSeptima(n) && !EsDisminuida(n) && !EsSensible(n)
            ==> r == if EsDominante(n) then CifradoSeptimaDominante(n.inversion) else CifradoSeptimaGeneral(n.inversion)
  {
    if TieneSeptima(n) then
      if EsDominante(n) && !(EsDisminuida(n) || EsSensible(n)) then CifradoSeptimaDominante(n.inversion)
      else if EsDisminuida(n) then CifradoSeptimaDisminuida(n.inversion)
      else if EsSensible(n) then CifradoSeptimaSensible(n.inversion)
      else CifradoSeptimaGeneral(n.inversion)
    else CifradoTriada(n.inversion)
  }

  /** The dictionary `traducir` returns. */
  datatype Traduccion = Traduccion(
    grado: string,
    gradoNum: int,
    cifrado: string,
    funcion: HarmonicFunction,
    textoCompleto: string,
    tieneSeptima: bool,
    tieneNovena: bool,
    inversion: int)

  /**
   * `traducir`: the degree label, the figure and the function of one
   * numeral. The full text is the label followed by the figure, the
   * function is that of the scale degree, and a ninth is never reported
   * here (the caller detects it).
   */
  function Traducir(n: Numeral): (r: Traduccion)
    ensures r.grado == GradoStr(n.romanNumeral, n.quality, n.isHalfDiminishedSeventh, n.isDiminishedSeventh)
    ensures r.textoCompleto == r.grado + r.cifrado
    ensures r.gradoNum == n.scaleDegree && r.funcion == FuncionDeGrado(n.scaleDegree)
    ensures r.tieneSeptima == TieneSeptima(n) && !r.tieneNovena && r.inversion == n.inversion
    ensures r.cifrado == Cifrado(n)
  {
    var grado := GradoStr(n.romanNumeral, n.quality, n.isHalfDiminishedSeventh, n.isDiminishedSeventh);
    var cifrado := Cifrado(n);
    Traduccion(grado, n.scaleDegree, cifrado, FuncionDeGrado(n.scaleDegree), grado + cifrado, TieneSeptima(n), false, n.inversion)
  }

  /**
   * A figure naming an inverted seventh ("65", "43", "42") marks a seventh
   * even when music21 does not report one (an incomplete chord, say).
   */
  lemma InvertedSeventhFiguresMarkSeventh(n: Numeral)
    requires Contains(n.figure, "65") || Contains(n.figure, "43") || Contains(n.figure, "42")
    ensures Traducir(n).tieneSeptima
  {
  }

  /**
   * A dominant seventh ("V65" on degree 5, no diminished or
   * half-diminished sign) is figured from the dominant table: "6,5t" in
   * first inversion, "+4" in third.
   */
  lemma DominantSeventhFigures(n: Numeral)
    requires n.scaleDegree == 5 && TieneSeptima(n)
    requires !n.isDiminishedSeventh && !n.isHalfDiminishedSeventh
    requires !Contains(n.figure, "o7") && !Contains(n.figure, "/o") && !Contains(n.figure, "ø")
    ensures Traducir(n).cifrado == CifradoSeptimaDominante(n.inversion)
    ensures n.inversion == 1 ==> Traducir(n).textoCompleto == Traducir(n).grado + "6,5t"
    ensures n.inversion == 3 ==> Traducir(n).textoCompleto == Traducir(n).grado + "+4"
    ensures Traducir(n).funcion == Dominante
  {
  }

  /** A diminished-seventh sign wins over the dominant reading, even on degree 5. */
  lemma DiminishedSignWins(n: Numeral)
    requires TieneSeptima(n) && EsDisminuida(n)
    ensures Traducir(n).cifrado == CifradoSeptimaDisminuida(n.inversion)
  {
  }

  /** A triad in second inversion is figured "6,4": "I" becomes "I6,4". */
  lemma SecondInversionTriad(n: Numeral)
    requires !TieneSeptima(n) && n.inversion == 2
    ensures Traducir(n).cifrado == "6,4"
    ensures Traducir(n).textoCompleto == Traducir(n).grado + "6,4"
  {
  }
}
