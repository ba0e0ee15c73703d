/**
 Obfuscation rules: compiling configured patterns into rules, deciding whether a
 rule triggers on a span attribute, and masking a value with the rule set
 (the core of `PatternObfuscatory`).
 */
module Rules {
  import opened Results
  import opened Regex

  /** One configured obfuscation pattern (`ObfuscationPattern`). */
  datatype PatternSpec = PatternSpec(
    pattern: string,
    checkKey: bool,
    checkData: bool,
    caseInsensitive: bool,
    replaceRegex: Option<string>)

  /** A rule built from a pattern whose regexes compiled. */
  datatype Rule = Rule(
    trigger: string,
    checkKey: bool,
    checkData: bool,
    caseInsensitive: bool,
    replace: Option<string>)

  /** Why a pattern could not be turned into a rule. */
  datatype CompileError = InvalidTrigger(pattern: string) | InvalidMask(regex: string)

  /** Every regex of `spec` compiles with the spec's case sensitivity. */
  predicate SpecCompiles(e: Engine, spec: PatternSpec)
  {
    && e.compiles(spec.pattern, spec.caseInsensitive)
    && (spec.replaceRegex.Some? ==> e.compiles(spec.replaceRegex.value, spec.caseInsensitive))
  }

  /** `rule` carries exactly the pattern and flags of `spec`. */
  predicate RuleOf(rule: Rule, spec: PatternSpec)
  {
    && rule.trigger == spec.pattern
    && rule.checkKey == spec.checkKey
    && rule.checkData == spec.checkData
    && rule.caseInsensitive == spec.caseInsensitive
    && rule.replace == spec.replaceRegex
  }

  /** Compiles one pattern; a malformed trigger is reported before a malformed mask. */
  function CompileRule(e: Engine, spec: PatternSpec): (r: Result<Rule, CompileError>)
    ensures r.Ok? <==> SpecCompiles(e, spec)
    ensures r.Ok? ==> RuleOf(r.value, spec)
    ensures r == Err(InvalidTrigger(spec.pattern)) <==> !e.compiles(spec.pattern, spec.caseInsensitive)
    ensures e.compiles(spec.pattern, spec.caseInsensitive) && !SpecCompiles(e, spec) ==>
              r == Err(InvalidMask(spec.replaceRegex.value))
  {
    if !e.compiles(spec.pattern, spec.caseInsensitive) then
      Err(InvalidTrigger(spec.pattern))
    else match spec.replaceRegex
      case Some(p) =>
        if e.compiles(p, spec.caseInsensitive) then
          Ok(Rule(spec.pattern, spec.checkKey, spec.checkData, spec.caseInsensitive, spec.replaceRegex))
        else
          Err(InvalidMask(p))
      case None =>
        Ok(Rule(spec.pattern, spec.checkKey, spec.checkData, spec.caseInsensitive, None))
  }

  /** Every pattern of `specs` compiles. */
  predicate AllCompile(e: Engine, specs: seq<PatternSpec>)
  {
    forall i :: 0 <= i < |specs| ==> SpecCompiles(e, specs[i])
  }

  /** `rules` are the rules of `specs`, one per pattern and in the same order. */
  predicate CompiledFrom(rules: seq<Rule>, specs: seq<PatternSpec>)
  {
    |rules| == |specs| && forall i :: 0 <= i < |specs| ==> RuleOf(rules[i], specs[i])
  }

  /** Compiles all patterns in order; the first failure discards the whole set. */
  function CompileAll(e: Engine, specs: seq<PatternSpec>): (r: Result<seq<Rule>, CompileError>)
    ensures r.Ok? <==> AllCompile(e, specs)
    ensures r.Ok? ==> CompiledFrom(r.value, specs)
    ensures r.Err? ==> exists i :: 0 <= i < |specs| && CompileRule(e, specs[i]) == Err(r.error)
                                   && AllCompile(e, specs[..i])
  {
    if |specs| == 0 then Ok([])
    else match CompileRule(e, specs[0])
      case Err(err) =>
        assert specs[..0] == [];
        Err(err)
      case Ok(rule) =>
        match CompileAll(e, specs[1..])
        case Err(err) =>
          ghost var i :| 0 <= i < |specs[1..]| && CompileRule(e, specs[1..][i]) == Err(err)
                         && AllCompile(e, specs[1..][..i]);
          assert specs[..i + 1] == [specs[0]] + specs[1..][..i];
          Err(err)
        case Ok(rest) =>
          assert forall i :: 0 < i < |specs| ==> specs[i] == specs[1..][i - 1];
          Ok([rule] + rest)
  }

  /** Whether `rule` triggers on the attribute `key` = `value`: its trigger regex is
      found in the key when the key is checked, or in the value when the value is. */
  predicate Triggers(e: Engine, rule: Rule, key: string, value: string)
  {
    || (rule.checkKey && e.find(rule.trigger, rule.caseInsensitive, key))
    || (rule.checkData && e.find(rule.trigger, rule.caseInsensitive, value))
  }

  /** Some rule of `rules` triggers on the attribute. */
  predicate AnyTriggers(e: Engine, rules: seq<Rule>, key: string, value: string)
  {
    exists i :: 0 <= i < |rules| && Triggers(e, rules[i], key, value)
  }

  /** `rules[i]` is the first rule that triggers on the attribute. */
  predicate IsFirstTrigger(e: Engine, rules: seq<Rule>, key: string, value: string, i: int)
  {
    && 0 <= i < |rules|
    && Triggers(e, rules[i], key, value)
    && forall j :: 0 <= j < i ==> !Triggers(e, rules[j], key, value)
  }

  /** The value `rule` masks `value` into: the whole value becomes the mask token,
      unless the rule has a custom replacement regex. */
  function Mask(e: Engine, rule: Rule, value: string): string
  {
    match rule.replace
    case None => MaskToken
    case Some(p) => e.mask(p, rule.caseInsensitive, value)
  }

  /** The value written for the attribute `key` = `value` under `rules`: masked by the
      first triggering rule, and unchanged when no rule triggers. */
  function ObfuscateValue(e: Engine, rules: seq<Rule>, key: string, value: string): (r: string)
    ensures !AnyTriggers(e, rules, key, value) ==> r == value
    ensures AnyTriggers(e, rules, key, value) ==>
              exists i :: IsFirstTrigger(e, rules, key, value, i) && r == Mask(e, rules[i], value)
  {
    if |rules| == 0 then value
    else if Triggers(e, rules[0], key, value) then
      assert IsFirstTrigger(e, rules, key, value, 0);
      Mask(e, rules[0], value)
    else
      var r := ObfuscateValue(e, rules[1..], key, value);
      assert forall i :: 0 < i < |rules| ==> rules[i] == rules[1..][i - 1];
      if AnyTriggers(e, rules[1..], key, value) then
        ghost var i :| IsFirstTrigger(e, rules[1..], key, value, i) && r == Mask(e, rules[1..][i], value);
        assert IsFirstTrigger(e, rules, key, value, i + 1);
        r
      else
        r
  }

  /** At most one rule is the first to trigger. */
  lemma FirstTriggerUnique(e: Engine, rules: seq<Rule>, key: string, value: string, i: int, j: int)
    requires IsFirstTrigger(e, rules, key, value, i)
    requires IsFirstTrigger(e, rules, key, value, j)
    ensures i == j
  {
  }

  /** The value written is determined by the first triggering rule alone. */
  lemma ObfuscateValueUsesFirstTrigger(e: Engine, rules: seq<Rule>, key: string, value: string, i: int)
    requires IsFirstTrigger(e, rules, key, value, i)
    ensures ObfuscateValue(e, rules, key, value) == Mask(e, rules[i], value)
  {
    var r := ObfuscateValue(e, rules, key, value);
    var k :| IsFirstTrigger(e, rules, key, value, k) && r == Mask(e, rules[k], value);
    FirstTriggerUnique(e, rules, key, value, i, k);
  }

  /** Rule sets are evaluated front to back: a rule behind one that triggers has no effect,
      and a prefix in which nothing triggers has none either. */
  lemma {:induction false} ObfuscateValueAppend(e: Engine, rules1: seq<Rule>, rules2: seq<Rule>, key: string, value: string)
    ensures ObfuscateValue(e, rules1 + rules2, key, value) ==
              if AnyTriggers(e, rules1, key, value) then ObfuscateValue(e, rules1, key, value)
              else ObfuscateValue(e, rules2, key, value)
  {
    if |rules1| == 0 {
      assert rules1 + rules2 == rules2;
    } else {
      assert (rules1 + rules2)[0] == rules1[0];
      assert (rules1 + rules2)[1..] == rules1[1..] + rules2;
      if !Triggers(e, rules1[0], key, value) {
        ObfuscateValueAppend(e, rules1[1..], rules2, key, value);
        assert AnyTriggers(e, rules1, key, value) <==> AnyTriggers(e, rules1[1..], key, value) by {
          assert forall i :: 0 < i < |rules1| ==> rules1[i] == rules1[1..][i - 1];
          if AnyTriggers(e, rules1[1..], key, value) {
            var i :| 0 <= i < |rules1[1..]| && Triggers(e, rules1[1..][i], key, value);
            assert Triggers(e, rules1[i + 1], key, value);
          }
        }
      }
    }
  }

  /** Every rule of `rules` masks the whole value. */
  predicate WholeValueMasks(rules: seq<Rule>)
  {
    forall i :: 0 <= i < |rules| ==> rules[i].replace.None?
  }

  /** When every rule masks the whole value, the outcome is a pure OR over the rules:
      the value becomes the mask token exactly when some rule triggers. */
  lemma WholeValueMaskOutcome(e: Engine, rules: seq<Rule>, key: string, value: string)
    requires WholeValueMasks(rules)
    ensures ObfuscateValue(e, rules, key, value) ==
              if AnyTriggers(e, rules, key, value) then MaskToken else value
  {
    var r := ObfuscateValue(e, rules, key, value);
    if AnyTriggers(e, rules, key, value) {
      var i :| IsFirstTrigger(e, rules, key, value, i) && r == Mask(e, rules[i], value);
    }
  }

  /** With whole-value masks the configured order of the rules does not matter:
      any rearrangement of the same rules writes the same value. */
  lemma WholeValueMaskOrderIrrelevant(e: Engine, rules1: seq<Rule>, rules2: seq<Rule>, key: string, value: string)
    requires multiset(rules1) == multiset(rules2)
    requires WholeValueMasks(rules1)
    ensures ObfuscateValue(e, rules1, key, value) == ObfuscateValue(e, rules2, key, value)
  {
    assert WholeValueMasks(rules2) by {
      forall j | 0 <= j < |rules2|
        ensures rules2[j].replace.None?
      {
        assert rules2[j] in multiset(rules1);
        var i :| 0 <= i < |rules1| && rules1[i] == rules2[j];
      }
    }
    SameRulesTriggerAlike(e, rules1, rules2, key, value);
    SameRulesTriggerAlike(e, rules2, rules1, key, value);
    WholeValueMaskOutcome(e, rules1, key, value);
    WholeValueMaskOutcome(e, rules2, key, value);
  }

  /** If some rule of `rules1` triggers, so does the same rule in any rearrangement. */
  lemma SameRulesTriggerAlike(e: Engine, rules1: seq<Rule>, rules2: seq<Rule>, key: string, value: string)
    requires multiset(rules1) == multiset(rules2)
    ensures AnyTriggers(e, rules1, key, value) ==> AnyTriggers(e, rules2, key, value)
  {
    if AnyTriggers(e, rules1, key, value) {
      var i :| 0 <= i < |rules1| && Triggers(e, rules1[i], key, value);
      assert rules1[i] in multiset(rules2);
      var j :| 0 <= j < |rules2| && rules2[j] == rules1[i];
    }
  }
}
