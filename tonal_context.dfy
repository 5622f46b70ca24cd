/**
 * The active key of the tonal analyser (`ContextoTonal`): a tonic as the
 * user wrote it ("C", "F#", "Bb", "B-"), a mode, an optional local key
 * for tonicisations, and the number of sharps (positive) or flats
 * (negative) of the key signature, recomputed whenever the key changes.
 */
module TonalContext {
  import opened Wrappers
  import opened Text
  import opened Keys

  /** Major tonics in the order their signatures gain a sharp: C has none, C# seven. */
  const SharpOrder: seq<string> := ["C", "G", "D", "A", "E", "B", "F#", "C#"]

  /** Major tonics in the order their signatures gain a flat: C has none, Cb seven. */
  const FlatOrder: seq<string> := ["C", "F", "Bb", "Eb", "Ab", "Db", "Gb", "Cb"]

  /** Python's `x in s` together with `s.index(x)`: the first position holding `x`, if any. */
  function Find(s: seq<string>, x: string): (r: Option<nat>)
    ensures r.Some? <==> x in s
    ensures r.Some? ==> r.value < |s| && s[r.value] == x && forall j | 0 <= j < r.value :: s[j] != x
  {
    FindFrom(s, x, 0)
  }

  function FindFrom(s: seq<string>, x: string, from: nat): (r: Option<nat>)
    requires from <= |s|
    ensures r.Some? <==> x in s[from..]
    ensures r.Some? ==> from <= r.value < |s| && s[r.value] == x && forall j | from <= j < r.value :: s[j] != x
    decreases |s| - from
  {
    if from == |s| then None
    else if s[from] == x then Some(from)
    else
      assert x in s[from..] <==> x == s[from] || x in s[from + 1..];
      FindFrom(s, x, from + 1)
  }

  /** The tonic as the flat order spells it: sharps dropped, music21's '-' written 'b'. */
  function FlatSpelling(tonica: string): string {
    ReplaceAll(ReplaceAll(tonica, "#", ""), "-", "b")
  }

  /**
   * `_calcular_armadura`. A major tonic in the sharp order gets its
   * position there; otherwise a major tonic whose flat spelling is in the
   * flat order gets minus its position there; anything else, and every
   * minor key, gets 0. The position in the flat order is looked up on the
   * string replaced in the other order ('-' first, then '#'), which is the
   * same string, so the lookup cannot fail.
   */
  function Armadura(tonica: string, modo: Mode): (r: int)
    ensures -7 <= r <= 7
    ensures modo == MajorMode && tonica in SharpOrder ==> r >= 0 && SharpOrder[r] == tonica
    ensures modo == MajorMode && tonica !in SharpOrder && FlatSpelling(tonica) in FlatOrder
            ==> r <= 0 && FlatOrder[-r] == FlatSpelling(tonica)
    ensures (modo == MinorMode || (tonica !in SharpOrder && FlatSpelling(tonica) !in FlatOrder)) ==> r == 0
  {
    if modo == MinorMode then 0
    else match Find(SharpOrder, tonica)
      case Some(i) => i
      case None => FlatSignature(tonica)
  }

  /**
   * The flat branch: minus the position of the flat spelling in the flat
   * order, 0 when it is not there. The position is looked up on the string
   * replaced in the other order ('-' first, then '#'), which is the same
   * string, so the lookup cannot fail.
   */
  function FlatSignature(tonica: string): (r: int)
    ensures -7 <= r <= 0
    ensures r == match Find(FlatOrder, FlatSpelling(tonica)) case None => 0 case Some(i) => -(i as int)
  {
    if Find(FlatOrder, FlatSpelling(tonica)).None? then 0
    else
      ReplaceCharsCommute(tonica, '#', "", '-', "b");
      -(Find(FlatOrder, ReplaceAll(ReplaceAll(tonica, "-", "b"), "#", "")).value as int)
  }

  /** The reference table of major keys and their signatures (`TONALIDADES_MAYORES`). */
  const MajorKeySignatures: seq<(string, int)> := [
    ("Cb", -7), ("Gb", -6), ("Db", -5), ("Ab", -4), ("Eb", -3),
    ("Bb", -2), ("F", -1), ("C", 0), ("G", 1), ("D", 2),
    ("A", 3), ("E", 4), ("B", 5), ("F#", 6), ("C#", 7)]

  predicate Distinct(s: seq<string>) {
    forall i, j | 0 <= i < j < |s| :: s[i] != s[j]
  }

  /** In a list without repetitions, `index` finds each element at its own position. */
  lemma FindDistinct(s: seq<string>, k: nat)
    requires Distinct(s) && k < |s|
    ensures Find(s, s[k]) == Some(k)
  {
  }

  /** Facts about the two orders, checked entry by entry. */
  lemma OrdersFacts()
    ensures Distinct(SharpOrder) && Distinct(FlatOrder)
    ensures forall k | 0 <= k < |SharpOrder| :: '-' !in SharpOrder[k] && 'b' !in SharpOrder[k]
    ensures forall k | 0 <= k < |FlatOrder| :: '-' !in FlatOrder[k] && '#' !in FlatOrder[k]
    ensures forall k | 1 <= k < |FlatOrder| :: FlatOrder[k] !in SharpOrder
  {
  }

  /** A major tonic of the sharp order has as many sharps as its position. */
  lemma SharpKeysAgree(k: nat)
    requires k < |SharpOrder|
    ensures Armadura(SharpOrder[k], MajorMode) == k
  {
    OrdersFacts();
    FindDistinct(SharpOrder, k);
  }

  /** A major tonic of the flat order, other than C, has as many flats as its position. */
  lemma FlatKeysAgree(k: nat)
    requires 1 <= k < |FlatOrder|
    ensures Armadura(FlatOrder[k], MajorMode) == -(k as int)
  {
    OrdersFacts();
    var t := FlatOrder[k];
    NoSharpIn(t);
    NoMinusIn(t);
    FindDistinct(FlatOrder, k);
  }

  /** Every major key of the reference table gets the signature the table lists. */
  lemma MajorTableAgrees()
    ensures forall i | 0 <= i < |MajorKeySignatures| ::
      Armadura(MajorKeySignatures[i].0, MajorMode) == MajorKeySignatures[i].1
  {
    forall i | 0 <= i < |MajorKeySignatures|
      ensures Armadura(MajorKeySignatures[i].0, MajorMode) == MajorKeySignatures[i].1
    {
      if i < 7 {
        assert MajorKeySignatures[i] == (FlatOrder[7 - i], i - 7);
        FlatKeysAgree(7 - i);
      } else {
        assert MajorKeySignatures[i] == (SharpOrder[i - 7], i - 7);
        SharpKeysAgree(i - 7);
      }
    }
  }

  /** The flat-spelled tonics of the table carry no '#'. */
  lemma NoSharpIn(t: string)
    requires '#' !in t
    ensures ReplaceAll(t, "#", "") == t
  {
    ContainsChar(t, '#');
    ReplaceAbsent(t, "#", "");
  }

  lemma NoMinusIn(t: string)
    requires '-' !in t
    ensures ReplaceAll(t, "-", "b") == t
  {
    ContainsChar(t, '-');
    ReplaceAbsent(t, "-", "b");
  }

  /**
   * The user's spelling "Bb" and music21's spelling "B-" of a tonic give
   * the same signature: rewriting every '-' as 'b' never changes it.
   */
  lemma FlatSpellingsAgree(tonica: string, modo: Mode)
    ensures Armadura(ReplaceAll(tonica, "-", "b"), modo) == Armadura(tonica, modo)
  {
    var u := ReplaceAll(tonica, "-", "b");
    ReplaceCharRemoves(tonica, '-', "b");
    NoMinusIn(u);
    ReplaceCharsCommute(tonica, '#', "", '-', "b");
    ReplaceCharsCommute(u, '#', "", '-', "b");
    assert FlatSpelling(u) == FlatSpelling(tonica);
    if '-' in tonica {
      OrdersFacts();
      MinusBecomesB(tonica);
      assert tonica !in SharpOrder;
      assert u !in SharpOrder;
    } else {
      NoMinusIn(tonica);
    }
  }

  /** A tonic with a '-' has a 'b' once the '-' are replaced. */
  lemma {:induction false} MinusBecomesB(s: string)
    requires '-' in s
    ensures 'b' in ReplaceAll(s, "-", "b")
    decreases |s|
  {
    ReplaceCharHead(s, '-', "b");
    if s[0] != '-' {
      MinusBecomesB(s[1..]);
    }
  }

  /** `Modo.MAYOR if modo == "major" else Modo.MENOR`. */
  function ModeOf(modo: string): (r: Mode)
    ensures r == MajorMode <==> modo == "major"
  {
    if modo == "major" then MajorMode else MinorMode
  }

  /** `ContextoTonal`: the key in force, with its signature kept up to date. */
  class ContextoTonal {
    var tonica: string
    var modo: Mode
    var tonalidadLocal: Option<string>
    var armadura: int

    /** The signature always matches the tonic and the mode. */
    ghost predicate Consistent()
      reads this
    {
      armadura == Armadura(tonica, modo)
    }

    /** The dataclass constructor; `__post_init__` computes the signature. */
    constructor(tonica: string, modo: Mode, tonalidadLocal: Option<string>)
      ensures this.tonica == tonica && this.modo == modo && this.tonalidadLocal == tonalidadLocal
      ensures Consistent()
    {
      this.tonica := tonica;
      this.modo := modo;
      this.tonalidadLocal := tonalidadLocal;
      armadura := 0;
      new;
      CalcularArmadura();
    }

    /** `_calcular_armadura`: only the signature changes. */
    method CalcularArmadura()
      modifies this
      ensures tonica == old(tonica) && modo == old(modo) && tonalidadLocal == old(tonalidadLocal)
      ensures Consistent()
    {
      armadura := Armadura(tonica, modo);
    }

    /**
     * `establecer_tonalidad`: the new tonic, major exactly when the mode
     * string is "major", no local key, and the signature of the new key.
     */
    method EstablecerTonalidad(tonica: string, modo: string)
      modifies this
      ensures this.tonica == tonica && this.modo == ModeOf(modo)
      ensures tonalidadLocal == None
      ensures Consistent()
    {
      this.tonica := tonica;
      this.modo := if modo == "major" then MajorMode else MinorMode;
      tonalidadLocal := None;
      CalcularArmadura();
    }
  }

  /** `obtener_armadura_vexflow`: the tonic for a major key, the tonic and 'm' for a minor one. */
  function VexflowKey(tonica: string, modo: Mode): (r: string)
    ensures modo == MajorMode ==> r == tonica
    ensures modo == MinorMode ==> |r| == |tonica| + 1 && r[..|tonica|] == tonica && r[|tonica|] == 'm'
  {
    if modo == MajorMode then tonica else tonica + "m"
  }

  /** For tonics without an 'm', the VexFlow name gives back the tonic and the mode. */
  lemma VexflowKeyInjective(t1: string, m1: Mode, t2: string, m2: Mode)
    requires 'm' !in t1 && 'm' !in t2
    ensures VexflowKey(t1, m1) == VexflowKey(t2, m2) <==> t1 == t2 && m1 == m2
  {
    var v1, v2 := VexflowKey(t1, m1), VexflowKey(t2, m2);
    if v1 == v2 && m1 == MinorMode && m2 == MinorMode {
      assert t1 == v1[..|v1| - 1] == t2;
    }
  }
}
