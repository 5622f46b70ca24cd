/**
 * `RulesEngine`: the registered rules in order, the key it adds to a
 * context that has none, validation of a pair of chords against every
 * enabled rule, switching rules on and off by name, the active rules of a
 * tier, and the formatting of the errors for the application.
 */
module Engine {
  import opened Wrappers
  import opened Keys
  import opened Voicing
  import opened RuleCore
  import opened HarmonicRules
  import opened AppFormat

  /** The rules registered by `_register_default_rules`, in order. */
  const DefaultKinds: seq<RuleKind> := [
    ParallelFifthsRule, ParallelOctavesRule, DirectFifthsRule, DirectOctavesRule, UnequalFifthsRule,
    LeadingToneResolutionRule, SeventhResolutionRule, VoiceCrossingRule, MaximumDistanceRule, VoiceOverlapRule,
    DuplicatedLeadingToneRule, DuplicatedSeventhRule, ExcessiveMelodicMotionRule, ImproperOmissionRule]

  /** The default rules are the fourteen rule classes, each once. */
  lemma DefaultKindsAreAllRules(k: RuleKind)
    ensures k in DefaultKinds
    ensures forall i, j | 0 <= i < j < |DefaultKinds| :: DefaultKinds[i] != DefaultKinds[j]
  {
  }

  /** An optional value as a list of at most one element. */
  function AsList<T>(o: Option<T>): (r: seq<T>)
    ensures |r| <= 1 && (r == [] <==> o.None?)
    ensures forall e | e in r :: o == Some(e)
  {
    match o
    case Some(e) => [e]
    case None => []
  }

  /** What `f` gives for each element, where it gives something, in order. */
  function CollectedBy<S, E>(ss: seq<S>, f: S -> Option<E>): (r: seq<E>)
    ensures |r| <= |ss|
  {
    if |ss| == 0 then []
    else CollectedBy(ss[..|ss| - 1], f) + AsList(f(ss[|ss| - 1]))
  }

  /** How many elements satisfy `p`. */
  function Count<S>(ss: seq<S>, p: S -> bool): (r: nat)
    ensures r <= |ss|
  {
    if |ss| == 0 then 0
    else Count(ss[..|ss| - 1], p) + (if p(ss[|ss| - 1]) then 1 else 0)
  }

  lemma CollectedBySnoc<S, E>(ss: seq<S>, s: S, f: S -> Option<E>)
    ensures CollectedBy(ss + [s], f) == CollectedBy(ss, f) + AsList(f(s))
  {
    assert (ss + [s])[..|ss|] == ss;
  }

  lemma CollectedByStep<S, E>(ss: seq<S>, i: int, f: S -> Option<E>)
    requires 0 <= i < |ss|
    ensures CollectedBy(ss[..i + 1], f) == CollectedBy(ss[..i], f) + AsList(f(ss[i]))
  {
    assert ss[..i + 1][..i] == ss[..i];
  }

  lemma {:induction false} CollectedByAppend<S, E>(xs: seq<S>, ys: seq<S>, f: S -> Option<E>)
    ensures CollectedBy(xs + ys, f) == CollectedBy(xs, f) + CollectedBy(ys, f)
    decreases |ys|
  {
    if |ys| == 0 {
      assert xs + ys == xs;
    } else {
      var init, last := ys[..|ys| - 1], ys[|ys| - 1];
      assert xs + ys == (xs + init) + [last];
      CollectedBySnoc(xs + init, last, f);
      CollectedByAppend(xs, init, f);
    }
  }

  lemma {:induction false} CollectedByBound<S, E>(ss: seq<S>, f: S -> Option<E>, p: S -> bool)
    requires forall i | 0 <= i < |ss| :: f(ss[i]).Some? ==> p(ss[i])
    ensures |CollectedBy(ss, f)| <= Count(ss, p)
  {
    if |ss| > 0 {
      CollectedByBound(ss[..|ss| - 1], f, p);
    }
  }

  lemma {:induction false} CollectedByFrom<S, E>(ss: seq<S>, f: S -> Option<E>, e: E)
    requires e in CollectedBy(ss, f)
    ensures exists i | 0 <= i < |ss| :: f(ss[i]) == Some(e)
  {
    var init := ss[..|ss| - 1];
    if e in CollectedBy(init, f) {
      CollectedByFrom(init, f, e);
      var i :| 0 <= i < |init| && f(init[i]) == Some(e);
      assert ss[i] == init[i];
    }
  }

  lemma CollectedByDrop<S, E>(pre: seq<S>, s: S, post: seq<S>, f: S -> Option<E>)
    requires f(s).None?
    ensures CollectedBy(pre + [s] + post, f) == CollectedBy(pre + post, f)
  {
    CollectedByAppend(pre + [s], post, f);
    CollectedBySnoc(pre, s, f);
    CollectedByAppend(pre, post, f);
  }

  /** What `validate` reads of a rule. */
  datatype RuleState = RuleState(kind: RuleKind, enabled: bool, exceptions: seq<RuleException>)

  function StateOf(x: HarmonicRule): RuleState
    reads x
  {
    RuleState(x.kind, x.enabled, x.exceptions)
  }

  /** The state of each rule, in order. */
  function States(rs: seq<HarmonicRule>): (r: seq<RuleState>)
    reads rs
    ensures |r| == |rs| && forall i | 0 <= i < |rs| :: r[i] == StateOf(rs[i])
  {
    seq(|rs|, i reads rs requires 0 <= i < |rs| => StateOf(rs[i]))
  }

  lemma StatesAppend(rs1: seq<HarmonicRule>, rs2: seq<HarmonicRule>)
    ensures States(rs1 + rs2) == States(rs1) + States(rs2)
  {
  }

  /** What `validate` gives for a rule in the given state. */
  function ValidateState(c1: ChordData, c2: ChordData, ctx: Context): (f: RuleState -> Option<RuleError>)
  {
    (s: RuleState) => Validation(s.kind, s.enabled, s.exceptions, c1, c2, ctx)
  }

  /** The errors of the rules `rs`, in the order of the rules. */
  function Collected(rs: seq<HarmonicRule>, c1: ChordData, c2: ChordData, ctx: Context): (r: seq<RuleError>)
    reads rs
  {
    CollectedBy(States(rs), ValidateState(c1, c2, ctx))
  }

  /** How many of the rules are enabled. */
  function EnabledCount(rs: seq<HarmonicRule>): (r: nat)
    reads rs
    ensures r <= |rs|
  {
    Count(States(rs), (s: RuleState) => s.enabled)
  }

  /** At most one error per enabled rule. */
  lemma CollectedBound(rs: seq<HarmonicRule>, c1: ChordData, c2: ChordData, ctx: Context)
    ensures |Collected(rs, c1, c2, ctx)| <= EnabledCount(rs)
  {
    CollectedByBound(States(rs), ValidateState(c1, c2, ctx), (s: RuleState) => s.enabled);
  }

  /** Every error comes from an enabled rule whose validation produced it. */
  lemma CollectedFromEnabled(rs: seq<HarmonicRule>, c1: ChordData, c2: ChordData, ctx: Context, e: RuleError)
    requires e in Collected(rs, c1, c2, ctx)
    ensures exists i | 0 <= i < |rs| :: rs[i].enabled && Validation(rs[i].kind, true, rs[i].exceptions, c1, c2, ctx) == Some(e)
  {
    CollectedByFrom(States(rs), ValidateState(c1, c2, ctx), e);
  }

  /** A disabled rule adds nothing: dropping it from the list leaves the same errors. */
  lemma DisabledRuleIsSilent(pre: seq<HarmonicRule>, x: HarmonicRule, post: seq<HarmonicRule>,
                             c1: ChordData, c2: ChordData, ctx: Context)
    requires !x.enabled
    ensures Collected(pre + [x] + post, c1, c2, ctx) == Collected(pre + post, c1, c2, ctx)
  {
    StatesAppend(pre + [x], post);
    StatesAppend(pre, [x]);
    StatesAppend(pre, post);
    assert States(pre + [x] + post) == States(pre) + [StateOf(x)] + States(post);
    assert ValidateState(c1, c2, ctx)(StateOf(x)).None?;
    CollectedByDrop(States(pre), StateOf(x), States(post), ValidateState(c1, c2, ctx));
  }

  /** The index of the first rule with the given name. */
  function FirstNamed(rs: seq<HarmonicRule>, ruleName: string): (r: Option<nat>)
    ensures r.Some? ==> r.value < |rs| && rs[r.value].Name() == ruleName
    ensures r.Some? ==> forall j | 0 <= j < r.value :: rs[j].Name() != ruleName
    ensures r.None? <==> forall j | 0 <= j < |rs| :: rs[j].Name() != ruleName
  {
    FirstHit(rs, (x: HarmonicRule) => x.Name() == ruleName)
  }

  /** The rules among `rs` that are enabled and, when a tier is given, of that tier. */
  function ActiveAmong(rs: seq<HarmonicRule>, tier: Option<Tier>): (r: seq<HarmonicRule>)
    reads rs
    ensures forall x | x in r :: x in rs && x.enabled && (tier.None? || x.RuleTier() == tier.value)
    ensures forall i | 0 <= i < |rs| && rs[i].enabled && (tier.None? || rs[i].RuleTier() == tier.value) :: rs[i] in r
    ensures |r| <= |rs|
  {
    if |rs| == 0 then []
    else
      var last := rs[|rs| - 1];
      ActiveAmong(rs[..|rs| - 1], tier) + (if last.enabled && (tier.None? || last.RuleTier() == tier.value) then [last] else [])
  }

  /** The filter `get_active_rules` applies to one rule. */
  predicate QualifiesActive(x: HarmonicRule, tier: Option<Tier>)
    reads x
  {
    x.enabled && (tier.None? || x.RuleTier() == tier.value)
  }

  /** A single rule is kept exactly when it qualifies, so a rule registered twice is kept twice. */
  lemma ActiveAmongSingleton(x: HarmonicRule, tier: Option<Tier>)
    ensures ActiveAmong([x], tier) == (if QualifiesActive(x, tier) then [x] else [])
  {
    assert [x][..0] == [];
  }

  /** Filtering distributes over concatenation: the comprehension keeps registration order. */
  lemma {:induction false} ActiveAmongAppend(a: seq<HarmonicRule>, b: seq<HarmonicRule>, tier: Option<Tier>)
    ensures ActiveAmong(a + b, tier) == ActiveAmong(a, tier) + ActiveAmong(b, tier)
  {
    if |b| == 0 {
      assert a + b == a;
    } else {
      var last := b[|b| - 1];
      assert (a + b)[..|a + b| - 1] == a + b[..|b| - 1];
      assert (a + b)[|a + b| - 1] == last;
      ActiveAmongAppend(a, b[..|b| - 1], tier);
    }
  }

  /** The context `validate_progression` hands to every rule: the engine's key is added when there is none. */
  function EngineContext(key: Key, ctx: Option<Context>): (r: Context)
    ensures r.key.Some?
    ensures ctx.Some? && ctx.value.key.Some? ==> r == ctx.value
    ensures ctx.None? || ctx.value.key.None? ==> r.key == Some(key)
  {
    match ctx
    case None => Context(Some(key))
    case Some(c) => if c.key.None? then c.(key := Some(key)) else c
  }

  class RulesEngine {
    /** The key the engine was created with (`self.key` and `self.mode`). */
    const key: Key
    var rules: seq<HarmonicRule>

    /** The first `n` registered rules are the first `n` default rules, enabled, with their own exceptions. */
    ghost predicate DefaultsUpTo(n: nat)
      reads this, rules
    {
      |rules| == n <= |DefaultKinds| &&
      forall i | 0 <= i < n ::
        rules[i].kind == DefaultKinds[i] && rules[i].enabled
        && rules[i].exceptions == DefaultExceptions(DefaultKinds[i])
    }

    /** `__init__`: an engine for the key, with the default rules registered. */
    constructor (key: Key)
      ensures this.key == key
      ensures DefaultsUpTo(|DefaultKinds|)
    {
      this.key := key;
      rules := [];
      new;
      RegisterDefaultRules();
    }

    /** `_register_default_rules`: the fourteen default rules, in order, after those already registered. */
    method RegisterDefaultRules()
      requires rules == []
      modifies this
      ensures DefaultsUpTo(|DefaultKinds|)
    {
      RegisterDefault(0);
      RegisterDefault(1);
      RegisterDefault(2);
      RegisterDefault(3);
      RegisterDefault(4);
      RegisterDefault(5);
      RegisterDefault(6);
      RegisterDefault(7);
      RegisterDefault(8);
      RegisterDefault(9);
      RegisterDefault(10);
      RegisterDefault(11);
      RegisterDefault(12);
      RegisterDefault(13);
    }

    /** `self.register_rule(...Rule())` for the default rule at position `n`. */
    method RegisterDefault(n: nat)
      requires n < |DefaultKinds| && DefaultsUpTo(n)
      modifies this
      ensures DefaultsUpTo(n + 1)
    {
      var rule := new HarmonicRule(DefaultKinds[n]);
      RegisterRule(rule);
    }

    /** `register_rule`: append the rule. */
    method RegisterRule(rule: HarmonicRule)
      modifies this
      ensures rules == old(rules) + [rule]
    {
      rules := rules + [rule];
    }

    /**
     * `validate_progression`: run every enabled rule, in order, on the two
     * chords with the engine's key added to the context, and collect what
     * they find.
     */
    method ValidateProgression(c1: ChordData, c2: ChordData, ctx: Option<Context>) returns (errors: seq<RuleError>)
      ensures errors == Collected(rules, c1, c2, EngineContext(key, ctx))
    {
      var context := EngineContext(key, ctx);
      ghost var states, validate := States(rules), ValidateState(c1, c2, context);
      errors := [];
      var i := 0;
      while i < |rules|
        invariant 0 <= i <= |rules|
        invariant errors == CollectedBy(states[..i], validate)
      {
        CollectedByStep(states, i, validate);
        var found := RunRule(rules[i], c1, c2, context);
        errors := errors + found;
        i := i + 1;
      }
      assert states[..|rules|] == states;
    }

    /** One turn of the loop of `validate_progression`: a disabled rule is skipped, an enabled one validated. */
    static method RunRule(rule: HarmonicRule, c1: ChordData, c2: ChordData, context: Context) returns (found: seq<RuleError>)
      ensures found == AsList(ValidateState(c1, c2, context)(StateOf(rule)))
    {
      found := [];
      if rule.enabled {
        var e := rule.Validate(c1, c2, context);
        if e.Some? {
          found := [e.value];
        }
      }
    }

    /** `enable_rule`: the first rule of that name is switched on; nothing else changes. */
    method EnableRule(ruleName: string)
      modifies rules
      ensures FirstNamed(rules, ruleName).Some? ==> rules[FirstNamed(rules, ruleName).value].enabled
      ensures forall x | x in rules && (FirstNamed(rules, ruleName).None? || x != rules[FirstNamed(rules, ruleName).value]) ::
        x.enabled == old(x.enabled)
      ensures forall x | x in rules :: x.exceptions == old(x.exceptions)
    {
      var i := 0;
      while i < |rules|
        invariant 0 <= i <= |rules|
        invariant forall j | 0 <= j < i :: rules[j].Name() != ruleName
      {
        if rules[i].Name() == ruleName {
          rules[i].enabled := true;
          return;
        }
        i := i + 1;
      }
    }

    /** `disable_rule`: the first rule of that name is switched off; nothing else changes. */
    method DisableRule(ruleName: string)
      modifies rules
      ensures FirstNamed(rules, ruleName).Some? ==> !rules[FirstNamed(rules, ruleName).value].enabled
      ensures forall x | x in rules && (FirstNamed(rules, ruleName).None? || x != rules[FirstNamed(rules, ruleName).value]) ::
        x.enabled == old(x.enabled)
      ensures forall x | x in rules :: x.exceptions == old(x.exceptions)
    {
      var i := 0;
      while i < |rules|
        invariant 0 <= i <= |rules|
        invariant forall j | 0 <= j < i :: rules[j].Name() != ruleName
      {
        if rules[i].Name() == ruleName {
          rules[i].enabled := false;
          return;
        }
        i := i + 1;
      }
    }

    /** `get_active_rules`: the enabled rules, of the given tier when there is one, in order. */
    function ActiveRules(tier: Option<Tier>): (r: seq<HarmonicRule>)
      reads this, rules
      ensures forall x | x in r :: x in rules && x.enabled && (tier.None? || x.RuleTier() == tier.value)
      ensures forall i | 0 <= i < |rules| && rules[i].enabled && (tier.None? || rules[i].RuleTier() == tier.value) :: rules[i] in r
    {
      ActiveAmong(rules, tier)
    }

    /** `format_errors_for_app`: each error formatted in turn; the measure number passed in is not used. */
    method FormatErrorsForApp(errors: seq<RuleError>, compas: int, tiempoIndex: int) returns (formatted: seq<AppError>)
      ensures |formatted| == |errors|
      ensures forall i | 0 <= i < |errors| :: formatted[i] == FormatError(errors[i], tiempoIndex)
    {
      formatted := [];
      var i := 0;
      while i < |errors|
        invariant 0 <= i <= |errors|
        invariant formatted == FormatAll(errors[..i], tiempoIndex)
      {
        formatted := formatted + [FormatError(errors[i], tiempoIndex)];
        assert errors[..i + 1][..i] == errors[..i];
        i := i + 1;
      }
      assert errors[..|errors|] == errors;
      FormatAllPointwise(errors, tiempoIndex);
    }
  }

  /** The errors formatted one by one, in order. */
  function FormatAll(errors: seq<RuleError>, tiempoIndex: int): seq<AppError>
    decreases |errors|
  {
    if |errors| == 0 then [] else FormatAll(errors[..|errors| - 1], tiempoIndex) + [FormatError(errors[|errors| - 1], tiempoIndex)]
  }

  lemma {:induction false} FormatAllPointwise(errors: seq<RuleError>, tiempoIndex: int)
    ensures |FormatAll(errors, tiempoIndex)| == |errors|
    ensures forall i | 0 <= i < |errors| :: FormatAll(errors, tiempoIndex)[i] == FormatError(errors[i], tiempoIndex)
    decreases |errors|
  {
    if |errors| > 0 {
      var init := errors[..|errors| - 1];
      FormatAllPointwise(init, tiempoIndex);
      forall i | 0 <= i < |errors|
        ensures FormatAll(errors, tiempoIndex)[i] == FormatError(errors[i], tiempoIndex)
      {
        if i < |errors| - 1 {
          assert errors[i] == init[i];
        }
      }
    }
  }

  /** Switching a rule off by name silences it: the engine then reports what the other rules report. */
  lemma DisabledByNameIsSilent(rs: seq<HarmonicRule>, ruleName: string, c1: ChordData, c2: ChordData, ctx: Context)
    requires FirstNamed(rs, ruleName).Some? && !rs[FirstNamed(rs, ruleName).value].enabled
    ensures var i := FirstNamed(rs, ruleName).value;
      Collected(rs, c1, c2, ctx) == Collected(rs[..i] + rs[i + 1..], c1, c2, ctx)
  {
    var i := FirstNamed(rs, ruleName).value;
    assert rs == rs[..i] + [rs[i]] + rs[i + 1..];
    DisabledRuleIsSilent(rs[..i], rs[i], rs[i + 1..], c1, c2, ctx);
  }
}
