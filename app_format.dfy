/**
 * `format_errors_for_app`: how an error record is placed on a beat and a
 * measure and how its voices are listed, from the lowest up.
 */
module AppFormat {
  import opened Voicing
  import opened HarmonicRules

  /** The position of a voice from the bass up; anything else sorts last. */
  function LowToHighRank(v: Voice): (r: int)
    ensures v != Unplaced ==> 0 <= r <= 3
  {
    match v
    case B => 0
    case T => 1
    case A => 2
    case S => 3
    case Unplaced => 999
  }

  /** Two voices with the same rank are the same voice. */
  lemma RankInjective(u: Voice, v: Voice)
    ensures LowToHighRank(u) == LowToHighRank(v) <==> u == v
  {
  }

  predicate SortedLowToHigh(s: seq<Voice>) {
    forall i, j | 0 <= i < j < |s| :: LowToHighRank(s[i]) <= LowToHighRank(s[j])
  }

  /** Insert `x` after every voice ranked no higher. */
  function Insert(x: Voice, s: seq<Voice>): (r: seq<Voice>)
    ensures |r| == |s| + 1
  {
    if |s| == 0 then [x]
    else if LowToHighRank(x) < LowToHighRank(s[0]) then [x] + s
    else [s[0]] + Insert(x, s[1..])
  }

  /** Inserting adds `x` once and keeps every other voice as often as before. */
  lemma {:induction false} InsertPermutes(x: Voice, s: seq<Voice>)
    ensures multiset(Insert(x, s)) == multiset(s) + multiset{x}
  {
    if |s| > 0 && LowToHighRank(x) >= LowToHighRank(s[0]) {
      InsertPermutes(x, s[1..]);
      assert s == [s[0]] + s[1..];
    }
  }

  /** Inserting into a sorted list keeps it sorted. */
  lemma {:induction false} InsertSorted(x: Voice, s: seq<Voice>)
    requires SortedLowToHigh(s)
    ensures SortedLowToHigh(Insert(x, s))
    ensures forall k | 0 <= k < |Insert(x, s)| :: LowToHighRank(Insert(x, s)[k]) >= LowToHighRank(x)
                                                  || (|s| > 0 && LowToHighRank(Insert(x, s)[k]) >= LowToHighRank(s[0]))
  {
    if |s| > 0 && LowToHighRank(x) >= LowToHighRank(s[0]) {
      InsertSorted(x, s[1..]);
      var tail := Insert(x, s[1..]);
      assert forall k | 0 <= k < |tail| :: LowToHighRank(s[0]) <= LowToHighRank(tail[k]);
    }
  }

  /**
   * `sorted(voices, key=...)`: a stable sort by rank. The voices come out
   * from the bass up, and they are the same voices, as often as before.
   */
  function SortLowToHigh(vs: seq<Voice>): (r: seq<Voice>)
    ensures SortedLowToHigh(r)
    ensures multiset(r) == multiset(vs)
    ensures |r| == |vs|
  {
    if |vs| == 0 then []
    else
      var init, last := vs[..|vs| - 1], vs[|vs| - 1];
      assert vs == init + [last];
      InsertSorted(last, SortLowToHigh(init));
      InsertPermutes(last, SortLowToHigh(init));
      Insert(last, SortLowToHigh(init))
  }

  /** `nombres_voces.get(v, v)`: the Spanish name of the voice, '?' left as it is. */
  function VoiceName(v: Voice): (r: string)
    ensures |r| > 0
  {
    match v
    case S => "Soprano"
    case A => "Contralto"
    case T => "Tenor"
    case B => "Bajo"
    case Unplaced => "?"
  }

  /** `'-'.join(names)`. */
  function JoinWithDash(names: seq<string>): (r: string)
    ensures (forall i | 0 <= i < |names| :: |names[i]| > 0) ==> (r == "" <==> names == [])
  {
    if |names| == 0 then ""
    else if |names| == 1 then names[0]
    else names[0] + "-" + JoinWithDash(names[1..])
  }

  /** The names of the voices, in the order given. */
  function NamesOf(vs: seq<Voice>): (r: seq<string>)
    ensures |r| == |vs|
    ensures forall i | 0 <= i < |vs| :: r[i] == VoiceName(vs[i])
  {
    seq(|vs|, i requires 0 <= i < |vs| => VoiceName(vs[i]))
  }

  /** A formatted error; the 'id', 'mensaje' and colour strings are not modelled. */
  datatype AppError = AppError(
    tiempoIndex: int,
    measure: int,
    beat: int,
    mensajeCorto: string,
    voces: seq<Voice>,
    confidence: int,
    rule: string)

  /**
   * One error as `format_errors_for_app` formats it: the beat index moves
   * to the second chord when the error is there, the index becomes a
   * measure and a beat of four-beat measures (Python's floor division and
   * modulo, which agree with Dafny's for the divisor 4), and the short
   * message lists the sorted voice names in parentheses.
   */
  function FormatError(e: RuleError, tiempoIndex: int): (r: AppError)
    ensures r.tiempoIndex == tiempoIndex + e.chordIndex
    ensures 1 <= r.beat <= 4 && (r.measure - 1) * 4 + (r.beat - 1) == r.tiempoIndex
    ensures SortedLowToHigh(r.voces) && multiset(r.voces) == multiset(e.voices)
    ensures r.mensajeCorto == e.shortMsg <==> e.voices == []
    ensures e.voices != [] ==> r.mensajeCorto == e.shortMsg + " (" + JoinWithDash(NamesOf(r.voces)) + ")"
    ensures r.confidence == e.confidence && r.rule == e.rule
  {
    var index := tiempoIndex + e.chordIndex;
    var sorted := SortLowToHigh(e.voices);
    var voces := JoinWithDash(NamesOf(sorted));
    var msg := if voces != "" then e.shortMsg + " (" + voces + ")" else e.shortMsg;
    assert voces == "" <==> e.voices == [];
    assert voces != "" ==> |msg| > |e.shortMsg|;
    AppError(index, index / 4 + 1, index % 4 + 1, msg, sorted, e.confidence, e.rule)
  }

  /** The measure and the beat determine the beat index, and the other way round. */
  lemma MeasureBeatDetermineIndex(e1: RuleError, t1: int, e2: RuleError, t2: int)
    ensures var f1, f2 := FormatError(e1, t1), FormatError(e2, t2);
      (f1.measure == f2.measure && f1.beat == f2.beat) <==> f1.tiempoIndex == f2.tiempoIndex
  {
  }

  /** Beat 1 of measure 1 is the first beat index; every fourth index starts a measure. */
  lemma FirstBeatOfMeasure(e: RuleError, tiempoIndex: int)
    requires (tiempoIndex + e.chordIndex) % 4 == 0
    ensures FormatError(e, tiempoIndex).beat == 1
    ensures FormatError(e, tiempoIndex).measure == (tiempoIndex + e.chordIndex) / 4 + 1
  {
  }
}
