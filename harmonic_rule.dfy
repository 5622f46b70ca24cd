/**
 * `HarmonicRule`: the fourteen rules, what each one detects, how sure it is
 * of a finding, the exception checks that can excuse a finding, and
 * `validate`, which turns a finding into an error record.
 */
module HarmonicRules {
  import opened Wrappers
  import opened Text
  import opened VoiceLeading
  import opened Voicing
  import opened ContextAnalysis
  import opened RuleCore
  import opened IntervalRules
  import opened ResolutionRules
  import opened TextureRules

  /** The rule classes, one per concrete `HarmonicRule` subclass. */
  datatype RuleKind =
    | ParallelFifthsRule | ParallelOctavesRule | DirectFifthsRule | DirectOctavesRule
    | UnequalFifthsRule | LeadingToneResolutionRule | SeventhResolutionRule
    | VoiceCrossingRule | MaximumDistanceRule | VoiceOverlapRule
    | DuplicatedLeadingToneRule | DuplicatedSeventhRule
    | ExcessiveMelodicMotionRule | ImproperOmissionRule

  /** `RuleTier`. */
  datatype Tier = Critical | Important | Advanced

  /** `RuleTier.value`. */
  function TierValue(t: Tier): (r: int)
    ensures 1 <= r <= 3
    ensures r == 1 <==> t == Critical
    ensures r == 3 <==> t == Advanced
  {
    match t
    case Critical => 1
    case Important => 2
    case Advanced => 3
  }

  /** The `name` each rule passes to `HarmonicRule.__init__`. */
  function RuleName(k: RuleKind): string {
    match k
    case ParallelFifthsRule => "parallel_fifths"
    case ParallelOctavesRule => "parallel_octaves"
    case DirectFifthsRule => "direct_fifths"
    case DirectOctavesRule => "direct_octaves"
    case UnequalFifthsRule => "unequal_fifths"
    case LeadingToneResolutionRule => "leading_tone_resolution"
    case SeventhResolutionRule => "seventh_resolution"
    case VoiceCrossingRule => "voice_crossing"
    case MaximumDistanceRule => "maximum_distance"
    case VoiceOverlapRule => "voice_overlap"
    case DuplicatedLeadingToneRule => "duplicated_leading_tone"
    case DuplicatedSeventhRule => "duplicated_seventh"
    case ExcessiveMelodicMotionRule => "excessive_melodic_motion"
    case ImproperOmissionRule => "improper_omission"
  }

  /** Rule names identify the rules: no two rules share one. */
  lemma RuleNamesDistinct(k1: RuleKind, k2: RuleKind)
    ensures RuleName(k1) == RuleName(k2) <==> k1 == k2
  {
  }

  /** The `short_msg` of each rule. */
  function ShortMsg(k: RuleKind): string {
    match k
    case ParallelFifthsRule => "Quintas paralelas"
    case ParallelOctavesRule => "Octavas paralelas"
    case DirectFifthsRule => "Quinta directa"
    case DirectOctavesRule => "Octava directa"
    case UnequalFifthsRule => "Quintas desiguales"
    case LeadingToneResolutionRule => "Sensible sin resolver"
    case SeventhResolutionRule => "Séptima sin resolver"
    case VoiceCrossingRule => "Cruzamiento de voces"
    case MaximumDistanceRule => "Distancia excesiva entre voces"
    case VoiceOverlapRule => "Invasión de voces"
    case DuplicatedLeadingToneRule => "Sensible duplicada"
    case DuplicatedSeventhRule => "Séptima duplicada"
    case ExcessiveMelodicMotionRule => "Salto melódico excesivo"
    case ImproperOmissionRule => "Factor omitido"
  }

  /** The tier of each rule: spacing, overlap, melodic leaps and omissions are important, the rest critical. */
  function TierOf(k: RuleKind): (r: Tier)
    ensures r != Advanced
    ensures r == Important <==> k in {MaximumDistanceRule, VoiceOverlapRule, ExcessiveMelodicMotionRule, ImproperOmissionRule}
  {
    match k
    case MaximumDistanceRule => Important
    case VoiceOverlapRule => Important
    case ExcessiveMelodicMotionRule => Important
    case ImproperOmissionRule => Important
    case _ => Critical
  }

  /** `_detect_violation` of each rule. */
  function Detect(k: RuleKind, c1: ChordData, c2: ChordData): Option<Detection> {
    match k
    case ParallelFifthsRule => ParallelFifths(c1, c2)
    case ParallelOctavesRule => ParallelOctaves(c1, c2)
    case DirectFifthsRule => DirectFifths(c1, c2)
    case DirectOctavesRule => DirectOctaves(c1, c2)
    case UnequalFifthsRule => UnequalFifths(c1, c2)
    case LeadingToneResolutionRule => LeadingToneResolution(c1, c2)
    case SeventhResolutionRule => SeventhResolution(c1, c2)
    case VoiceCrossingRule => VoiceCrossing(c1, c2)
    case MaximumDistanceRule => MaximumDistance(c1, c2)
    case VoiceOverlapRule => VoiceOverlap(c1, c2)
    case DuplicatedLeadingToneRule => DuplicatedLeadingTone(c1, c2)
    case DuplicatedSeventhRule => DuplicatedSeventh(c1, c2)
    case ExcessiveMelodicMotionRule => ExcessiveMelodicMotion(c1, c2)
    case ImproperOmissionRule => ImproperOmission(c1, c2)
  }

  /** `_detect_violation`, running the detectors that the source writes as loops. */
  method DetectViolation(k: RuleKind, c1: ChordData, c2: ChordData) returns (d: Option<Detection>)
    ensures d == Detect(k, c1, c2)
  {
    match k {
      case SeventhResolutionRule => d := DetectSeventhResolution(c1, c2);
      case DuplicatedLeadingToneRule => d := DetectDuplicatedLeadingTone(c1, c2);
      case DuplicatedSeventhRule => d := DetectDuplicatedSeventh(c1, c2);
      case ExcessiveMelodicMotionRule => d := DetectExcessiveMelodicMotion(c1, c2);
      case ImproperOmissionRule => d := DetectImproperOmission(c1, c2);
      case _ => d := Detect(k, c1, c2);
    }
  }

  /**
   * `_calculate_confidence` of each rule: 100 by default; the direct
   * fifths and octaves grade the reported pair, unequal fifths give 90,
   * spacing and overlap 80, melodic leaps 90, omissions 85. The rules that
   * grade a finding look for it again and give 0 when there is none.
   */
  function Confidence(k: RuleKind, c1: ChordData, c2: ChordData): (r: int)
    ensures Detect(k, c1, c2).Some? ==> r in {70, 80, 85, 90, 100}
    ensures (k in {ParallelFifthsRule, ParallelOctavesRule, LeadingToneResolutionRule, SeventhResolutionRule,
                   VoiceCrossingRule, DuplicatedLeadingToneRule, DuplicatedSeventhRule}) ==> r == 100
  {
    match k
    case DirectFifthsRule => DirectConfidence(DirectFifths(c1, c2))
    case DirectOctavesRule => DirectConfidence(DirectOctaves(c1, c2))
    case UnequalFifthsRule => if UnequalFifths(c1, c2).None? then 0 else 90
    case MaximumDistanceRule => 80
    case VoiceOverlapRule => 80
    case ExcessiveMelodicMotionRule => 90
    case ImproperOmissionRule => 85
    case _ => 100
  }

  // ---------------------------------------------------------------------
  // Exceptions
  // ---------------------------------------------------------------------

  /** What calling an exception check gives: true, false, or an exception raised. */
  datatype Outcome = Holds | DoesNotHold | Raises

  /**
   * An exception check: the V-VII pair, the change of voicing, the
   * diminished second fifth (not written yet: never true), or any other
   * callable a caller registers.
   */
  datatype ExceptionCheck =
    | VVIIPairCheck
    | VoicingChangeCheck
    | SecondFifthDiminishedCheck
    | ForeignCheck(run: (ChordData, ChordData, Context) -> Outcome)

  /** An entry of `exceptions`, as `add_exception` stores it. */
  datatype RuleException = RuleException(name: string, check: ExceptionCheck, description: string)

  /** Calling the check on the two chords and the context. */
  function Run(e: ExceptionCheck, c1: ChordData, c2: ChordData, ctx: Context): (r: Outcome)
    ensures e == SecondFifthDiminishedCheck ==> r == DoesNotHold
    ensures e == VVIIPairCheck ==> (r == Holds <==> IsVVIIPair(c1, c2))
    ensures e == VoicingChangeCheck ==> (r == Holds <==> IsVoicingChange(c1, c2))
  {
    match e
    case VVIIPairCheck => if IsVVIIPair(c1, c2) then Holds else DoesNotHold
    case VoicingChangeCheck => if IsVoicingChange(c1, c2) then Holds else DoesNotHold
    case SecondFifthDiminishedCheck => DoesNotHold
    case ForeignCheck(run) => run(c1, c2, ctx)
  }

  /** A check excuses a finding only when it returns true; one that raises is passed over. */
  predicate Excuses(e: RuleException, c1: ChordData, c2: ChordData, ctx: Context) {
    Run(e.check, c1, c2, ctx) == Holds
  }

  /** Some registered check excuses the finding. */
  predicate AnyExcuses(exceptions: seq<RuleException>, c1: ChordData, c2: ChordData, ctx: Context) {
    exists i | 0 <= i < |exceptions| :: Excuses(exceptions[i], c1, c2, ctx)
  }

  /** The exceptions each rule registers when it is built: three for parallel fifths, one for direct fifths. */
  function DefaultExceptions(k: RuleKind): (r: seq<RuleException>)
    ensures k !in {ParallelFifthsRule, DirectFifthsRule} ==> r == []
  {
    match k
    case ParallelFifthsRule => [
      RuleException("V_VII_pair", VVIIPairCheck, "Permitido entre V-VII o VII-V: ambos tienen función dominante"),
      RuleException("voicing_change", VoicingChangeCheck, "Permitido en cambio de disposición del mismo acorde"),
      RuleException("second_diminished", SecondFifthDiminishedCheck, "Permitido cuando la segunda quinta es disminuida (P5→d5)")]
    case DirectFifthsRule => [
      RuleException("voicing_change", VoicingChangeCheck, "Permitido en cambio de disposición del mismo acorde")]
    case _ => []
  }

  /** Parallel fifths are excused exactly by a V-VII pair or a change of voicing. */
  lemma ParallelFifthsExcuses(c1: ChordData, c2: ChordData, ctx: Context)
    ensures AnyExcuses(DefaultExceptions(ParallelFifthsRule), c1, c2, ctx)
      <==> IsVVIIPair(c1, c2) || IsVoicingChange(c1, c2)
  {
    var exs := DefaultExceptions(ParallelFifthsRule);
    if IsVVIIPair(c1, c2) {
      assert Excuses(exs[0], c1, c2, ctx);
    } else if IsVoicingChange(c1, c2) {
      assert Excuses(exs[1], c1, c2, ctx);
    }
  }

  // ---------------------------------------------------------------------
  // validate
  // ---------------------------------------------------------------------

  /** The error record `validate` returns; colour and full message are not modelled. */
  datatype RuleError = RuleError(
    rule: string,
    shortMsg: string,
    confidence: int,
    chordIndex: int,
    voices: seq<Voice>,
    tier: int,
    motion: Motion)

  /** The short message for the motion found: 'paralelas' becomes 'consecutivas' unless the motion is parallel. */
  function MessageFor(base: string, motion: Motion): (r: string)
    ensures motion == Parallel ==> r == base
  {
    if motion == Parallel then base else ReplaceAll(base, "paralelas", "consecutivas")
  }

  /** Replacing a pattern that comes right after a prefix which cannot begin it. */
  lemma {:induction false} ReplaceAfterPrefix(pre: string, pattern: string, replacement: string)
    requires |pattern| > 0 && pattern[0] !in pre
    ensures ReplaceAll(pre + pattern, pattern, replacement) == pre + replacement
    decreases |pre|
  {
    if |pre| == 0 {
      assert pre + pattern == pattern;
      assert pattern[|pattern|..] == [];
    } else {
      var s := pre + pattern;
      assert s[0] == pre[0] && s[0] != pattern[0];
      assert s[1..] == pre[1..] + pattern;
      ReplaceAfterPrefix(pre[1..], pattern, replacement);
      assert [pre[0]] + (pre[1..] + replacement) == pre + replacement;
    }
  }

  /**
   * On contrary motion a message "<noun> paralelas" becomes "<noun>
   * consecutivas", as for "Quintas paralelas" and "Octavas paralelas".
   */
  lemma ConsecutiveMessage(noun: string)
    requires 'p' !in noun
    ensures MessageFor(noun + " paralelas", Contrary) == noun + " consecutivas"
  {
    ReplaceAfterPrefix(noun + " ", "paralelas", "consecutivas");
    assert noun + " " + "paralelas" == noun + " paralelas";
    assert noun + " " + "consecutivas" == noun + " consecutivas";
  }

  /** The record built from a finding: the motion defaults to parallel. */
  function ErrorRecord(k: RuleKind, d: Detection, confidence: int): (r: RuleError)
    ensures r.rule == RuleName(k) && r.tier == TierValue(TierOf(k)) && r.confidence == confidence
    ensures r.chordIndex == d.chordIndex && r.voices == d.voices
    ensures r.motion == d.motion.GetOr(Parallel)
    ensures r.motion == Parallel ==> r.shortMsg == ShortMsg(k)
  {
    var motion := d.motion.GetOr(Parallel);
    RuleError(RuleName(k), MessageFor(ShortMsg(k), motion), confidence, d.chordIndex, d.voices,
              TierValue(TierOf(k)), motion)
  }

  /**
   * `HarmonicRule.validate` on the rule's state: nothing when disabled;
   * otherwise the chords take the context's key, the detector runs on
   * them, and a finding no exception excuses becomes an error record.
   */
  function Validation(k: RuleKind, enabled: bool, exceptions: seq<RuleException>,
                      c1: ChordData, c2: ChordData, ctx: Context): (r: Option<RuleError>)
    ensures !enabled ==> r.None?
    ensures r.Some? <==> enabled && Detect(k, InjectKey(c1, ctx), InjectKey(c2, ctx)).Some?
                         && !AnyExcuses(exceptions, InjectKey(c1, ctx), InjectKey(c2, ctx), ctx)
    ensures r.Some? ==> var d := Detect(k, InjectKey(c1, ctx), InjectKey(c2, ctx)).value;
      r.value.rule == RuleName(k) && r.value.tier == TierValue(TierOf(k))
      && r.value.chordIndex == d.chordIndex && r.value.voices == d.voices
      && r.value.motion == d.motion.GetOr(Parallel)
    ensures r.Some? ==> r.value.confidence in {70, 80, 85, 90, 100}
  {
    if !enabled then None
    else
      var d1, d2 := InjectKey(c1, ctx), InjectKey(c2, ctx);
      match Detect(k, d1, d2)
      case None => None
      case Some(d) =>
        if AnyExcuses(exceptions, d1, d2, ctx) then None
        else Some(ErrorRecord(k, d, Confidence(k, d1, d2)))
  }

  /** A check that raises, or returns false, never changes what `validate` gives. */
  lemma NonHoldingCheckIsInert(k: RuleKind, enabled: bool, exceptions: seq<RuleException>, e: RuleException,
                               c1: ChordData, c2: ChordData, ctx: Context)
    requires Run(e.check, InjectKey(c1, ctx), InjectKey(c2, ctx), ctx) != Holds
    ensures Validation(k, enabled, exceptions + [e], c1, c2, ctx) == Validation(k, enabled, exceptions, c1, c2, ctx)
  {
    var d1, d2 := InjectKey(c1, ctx), InjectKey(c2, ctx);
    var exs := exceptions + [e];
    if AnyExcuses(exs, d1, d2, ctx) {
      var i :| 0 <= i < |exs| && Excuses(exs[i], d1, d2, ctx);
      assert i < |exceptions| && exs[i] == exceptions[i];
    }
    if AnyExcuses(exceptions, d1, d2, ctx) {
      var i :| 0 <= i < |exceptions| && Excuses(exceptions[i], d1, d2, ctx);
      assert exs[i] == exceptions[i];
    }
  }

  /** A check that returns true silences the rule, wherever it stands in the list. */
  lemma HoldingCheckSilences(k: RuleKind, enabled: bool, exceptions: seq<RuleException>, i: int,
                             c1: ChordData, c2: ChordData, ctx: Context)
    requires 0 <= i < |exceptions|
    requires Run(exceptions[i].check, InjectKey(c1, ctx), InjectKey(c2, ctx), ctx) == Holds
    ensures Validation(k, enabled, exceptions, c1, c2, ctx).None?
  {
    assert Excuses(exceptions[i], InjectKey(c1, ctx), InjectKey(c2, ctx), ctx);
  }

  /** Exceptions only remove errors: whatever is reported with them is reported without them. */
  lemma ExceptionsOnlySuppress(k: RuleKind, enabled: bool, exceptions: seq<RuleException>,
                               c1: ChordData, c2: ChordData, ctx: Context)
    ensures Validation(k, enabled, exceptions, c1, c2, ctx).Some? ==>
      Validation(k, enabled, exceptions, c1, c2, ctx) == Validation(k, enabled, [], c1, c2, ctx)
  {
  }

  /** The loop of `validate` over the exceptions: stop at the first check that returns true, pass over one that raises. */
  method CheckExceptions(exceptions: seq<RuleException>, c1: ChordData, c2: ChordData, ctx: Context)
    returns (excused: bool)
    ensures excused == AnyExcuses(exceptions, c1, c2, ctx)
  {
    var i := 0;
    while i < |exceptions|
      invariant 0 <= i <= |exceptions|
      invariant forall j | 0 <= j < i :: !Excuses(exceptions[j], c1, c2, ctx)
    {
      var outcome := Run(exceptions[i].check, c1, c2, ctx);
      if outcome == Holds {
        assert Excuses(exceptions[i], c1, c2, ctx);
        return true;
      }
      i := i + 1;
    }
    return false;
  }

  /** `HarmonicRule`: a rule's fixed identity, its enabled flag and its list of exceptions. */
  class HarmonicRule {
    /** The rule's class; its name, tier and message follow from it. */
    const kind: RuleKind
    var enabled: bool
    var exceptions: seq<RuleException>

    /** `self.name`. */
    function Name(): string {
      RuleName(kind)
    }

    /** `self.tier`. */
    function RuleTier(): Tier {
      TierOf(kind)
    }

    /** `self.short_msg`. */
    function ShortMessage(): string {
      ShortMsg(kind)
    }

    /** A rule of class `kind` as its `__init__` leaves it: enabled, with its own exceptions registered. */
    constructor (kind: RuleKind)
      ensures this.kind == kind
      ensures enabled && exceptions == DefaultExceptions(kind)
    {
      this.kind := kind;
      enabled := true;
      exceptions := DefaultExceptions(kind);
    }

    /** `add_exception`: append a named check. */
    method AddException(exceptionName: string, check: ExceptionCheck, description: string)
      modifies this
      ensures exceptions == old(exceptions) + [RuleException(exceptionName, check, description)]
      ensures enabled == old(enabled)
    {
      exceptions := exceptions + [RuleException(exceptionName, check, description)];
    }

    /** `validate`: the first check that returns true excuses the finding; a raising check is skipped. */
    method Validate(c1: ChordData, c2: ChordData, ctx: Context) returns (r: Option<RuleError>)
      ensures r == Validation(kind, enabled, exceptions, c1, c2, ctx)
    {
      if !enabled {
        return None;
      }
      var d1, d2 := InjectKey(c1, ctx), InjectKey(c2, ctx);
      var violation := DetectViolation(kind, d1, d2);
      if violation.None? {
        return None;
      }
      var excused := CheckExceptions(exceptions, d1, d2, ctx);
      if excused {
        return None;
      }
      var confidence := Confidence(kind, d1, d2);
      var motion := violation.value.motion.GetOr(Parallel);
      r := Some(RuleError(Name(), MessageFor(ShortMessage(), motion), confidence, violation.value.chordIndex, violation.value.voices,
                          TierValue(RuleTier()), motion));
    }
  }
}
