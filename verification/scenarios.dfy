/**
 The scenarios of the obfuscation manager's tests, stated for every regex engine that
 knows the test patterns. Pattern flags a scenario leaves unset are lemma parameters,
 except `checkData`, which the happy-path expectations force to be off by default.
 */
module Scenarios {
  import opened Results
  import opened Regex
  import opened Rules
  import opened Obfuscatories
  import opened Management

  /** The three calls the happy-path scenarios make on one span. */
  const Calls: seq<(string, string)> := [("abc", "abc"), ("ABC", "abc"), ("DEF", "123")]

  /** Case-sensitive "[a-z]+" on keys plus "[0-9]+" on values. */
  function HappyPathSettings(digitsCheckKey: bool, digitsCaseInsensitive: bool): Settings
  {
    Settings(true, [PatternSpec(Lower, true, false, false, None),
                    PatternSpec(Digits, digitsCheckKey, true, digitsCaseInsensitive, None)])
  }

  /** The span the happy-path calls leave behind. */
  const HappyPathSpan: seq<Attribute> :=
    [Attribute("abc", MaskToken), Attribute("ABC", "abc"), Attribute("DEF", MaskToken)]

  /** The filter a fresh manager publishes after one `update` with `settings`. */
  function Published(e: Engine, settings: Settings, monitoringEnabled: bool): Obfuscatory
  {
    Update(e, settings, monitoringEnabled, Untouched).state.current
  }

  /** Everything observed after one `update` with `settings` on a fresh manager,
      followed by one `putSpanAttribute` per pair on a fresh span. */
  function Run(e: Engine, settings: Settings, monitoringEnabled: bool, pairs: seq<(string, string)>): Observed
  {
    var u := Update(e, settings, monitoringEnabled, Untouched);
    PutAll(e, u.state.current, u.observed, pairs)
  }

  /** The test's lifecycle through the manager class: construct, `update()`, then
      `obfuscatorySupplier().get()` hands out exactly the filter the lemmas speak about. */
  method ManagerLifecycle(e: Engine, settings: Settings, monitoringEnabled: bool) returns (f: Obfuscatory)
    ensures f == Published(e, settings, monitoringEnabled)
  {
    var m := new ObfuscationManager(e);
    m.Rebuild(settings, monitoringEnabled);
    f := m.Current();
  }

  /** An unbalanced pattern makes the manager publish the no-op filter. */
  lemma PatternCompileError(e: Engine, checkKey: bool, checkData: bool, caseInsensitive: bool)
    requires KnowsTestPatterns(e)
    ensures Published(e, Settings(true, [PatternSpec(Malformed, checkKey, checkData, caseInsensitive, None)]), false)
              == Noop
  {
    var specs := [PatternSpec(Malformed, checkKey, checkData, caseInsensitive, None)];
    assert !SpecCompiles(e, specs[0]);
  }

  /** Key rule and value rule combine with OR: a lower-case key or a digit value is masked,
      anything else passes through; one write per call and no scope opened. */
  lemma HappyPath(e: Engine, digitsCheckKey: bool, digitsCaseInsensitive: bool)
    requires KnowsTestPatterns(e)
    ensures Published(e, HappyPathSettings(digitsCheckKey, digitsCaseInsensitive), false).Pattern?
    ensures Run(e, HappyPathSettings(digitsCheckKey, digitsCaseInsensitive), false, Calls)
              == Observed(HappyPathSpan, [], 1)
  {
    var settings := HappyPathSettings(digitsCheckKey, digitsCaseInsensitive);
    assert AllCompile(e, settings.patterns);
    var u := Update(e, settings, false, Untouched);
    var f := u.state.current;
    assert f.Pattern? && u.observed == Observed([], [], 1);
    var r := PutAll(e, f, u.observed, Calls);
    assert Run(e, settings, false, Calls) == r;
    HappyPathValues(e, f, digitsCheckKey, digitsCaseInsensitive);
    ExpectedWrites(e, f, u.observed, Calls, HappyPathSpan);
    RepeatEmpty<string>(3);
  }

  /** The values the happy-path rules write for the three calls, through any filter
      that wraps exactly those rules. */
  lemma HappyPathValues(e: Engine, f: Obfuscatory, digitsCheckKey: bool, digitsCaseInsensitive: bool)
    requires KnowsTestPatterns(e)
    requires Unwrapped(f).Pattern?
    requires CompiledFrom(Unwrapped(f).rules, HappyPathSettings(digitsCheckKey, digitsCaseInsensitive).patterns)
    ensures EffectiveValue(e, f, "abc", "abc") == MaskToken
    ensures EffectiveValue(e, f, "ABC", "abc") == "abc"
    ensures EffectiveValue(e, f, "DEF", "123") == MaskToken
  {
    var rules := Unwrapped(f).rules;
    var specs := HappyPathSettings(digitsCheckKey, digitsCaseInsensitive).patterns;
    assert RuleOf(rules[0], specs[0]) && RuleOf(rules[1], specs[1]);
    assert IsFirstTrigger(e, rules, "abc", "abc", 0);
    ObfuscateValueUsesFirstTrigger(e, rules, "abc", "abc", 0);
    assert !AnyTriggers(e, rules, "ABC", "abc");
    assert IsFirstTrigger(e, rules, "DEF", "123", 1);
    ObfuscateValueUsesFirstTrigger(e, rules, "DEF", "123", 1);
  }

  /** Obfuscation switched off publishes the no-op filter: every value is written unchanged. */
  lemma NotEnabled(e: Engine, patterns: seq<PatternSpec>)
    ensures Published(e, Settings(false, patterns), false) == Noop
    ensures Run(e, Settings(false, patterns), false, Calls) ==
              Observed([Attribute("abc", "abc"), Attribute("ABC", "abc"), Attribute("DEF", "123")], [], 0)
  {
    ExpectedWrites(e, Noop, Untouched, Calls,
                   [Attribute("abc", "abc"), Attribute("ABC", "abc"), Attribute("DEF", "123")]);
  }

  /** A rule with the replacement regex "[b-z]+" still writes the triggered value as the
      mask token, and leaves the values of non-triggering calls unchanged. */
  lemma HappyPathWithReplacementRegex(e: Engine)
    requires KnowsTestPatterns(e)
    ensures Published(e, Settings(true, [PatternSpec(Lower, true, false, false, Some(FromB))]), false).Pattern?
    ensures Run(e, Settings(true, [PatternSpec(Lower, true, false, false, Some(FromB))]), false, Calls).span ==
              [Attribute("abc", MaskToken), Attribute("ABC", "abc"), Attribute("DEF", "123")]
  {
    var settings := Settings(true, [PatternSpec(Lower, true, false, false, Some(FromB))]);
    assert SpecCompiles(e, settings.patterns[0]);
    var u := Update(e, settings, false, Untouched);
    var rules := Unwrapped(u.state.current).rules;
    assert RuleOf(rules[0], settings.patterns[0]);
    assert IsFirstTrigger(e, rules, "abc", "abc", 0);
    ObfuscateValueUsesFirstTrigger(e, rules, "abc", "abc", 0);
    assert !AnyTriggers(e, rules, "ABC", "abc");
    assert !AnyTriggers(e, rules, "DEF", "123");
    ExpectedWrites(e, u.state.current, u.observed, Calls,
                   [Attribute("abc", MaskToken), Attribute("ABC", "abc"), Attribute("DEF", "123")]);
  }

  /** A case-insensitive "[a-z]+" key rule triggers on "abc" and on "ABC": exactly one
      attribute is written per key, and neither holds the original value "abc". */
  lemma HappyPathCaseInsensitive(e: Engine)
    requires KnowsTestPatterns(e)
    ensures Published(e, Settings(true, [PatternSpec(Lower, true, false, true, None)]), false).Pattern?
    ensures var span := Run(e, Settings(true, [PatternSpec(Lower, true, false, true, None)]), false,
                            [("abc", "abc"), ("ABC", "abc")]).span;
            && |span| == 2 && span[0].key == "abc" && span[1].key == "ABC"
            && forall i :: 0 <= i < |span| ==> span[i].value != "abc"
  {
    var settings := Settings(true, [PatternSpec(Lower, true, false, true, None)]);
    assert SpecCompiles(e, settings.patterns[0]);
    var u := Update(e, settings, false, Untouched);
    var rules := Unwrapped(u.state.current).rules;
    assert RuleOf(rules[0], settings.patterns[0]);
    assert IsFirstTrigger(e, rules, "abc", "abc", 0);
    ObfuscateValueUsesFirstTrigger(e, rules, "abc", "abc", 0);
    assert IsFirstTrigger(e, rules, "ABC", "abc", 0);
    ObfuscateValueUsesFirstTrigger(e, rules, "ABC", "abc", 0);
    ExpectedWrites(e, u.state.current, u.observed, [("abc", "abc"), ("ABC", "abc")],
                   [Attribute("abc", MaskToken), Attribute("ABC", MaskToken)]);
  }

  /** With self-monitoring on at update time the manager publishes the monitoring wrapper;
      the span receives the same writes as without it, the flag is read once in all, and
      each of the three calls opens one scope labelled "PatternObfuscatory". */
  lemma HappyPathWithSelfMonitoring(e: Engine, digitsCheckKey: bool, digitsCaseInsensitive: bool)
    requires KnowsTestPatterns(e)
    ensures ClassName(Published(e, HappyPathSettings(digitsCheckKey, digitsCaseInsensitive), true))
              == "SelfMonitoringDelegatingObfuscatory"
    ensures Run(e, HappyPathSettings(digitsCheckKey, digitsCaseInsensitive), true, Calls)
              == Observed(HappyPathSpan, [PatternLabel, PatternLabel, PatternLabel], 1)
  {
    var settings := HappyPathSettings(digitsCheckKey, digitsCaseInsensitive);
    assert AllCompile(e, settings.patterns);
    HappyPath(e, digitsCheckKey, digitsCaseInsensitive);
    var u := Update(e, settings, false, Untouched);
    var f := u.state.current;
    MonitoringWrapsPublished(e, settings, Untouched);
    var r := PutAll(e, Monitored(f, PatternLabel), u.observed, Calls);
    assert Run(e, settings, true, Calls) == r;
    MonitoringTransparent(e, f, PatternLabel, u.observed, Calls);
    SingleWrapperScopes(e, f, PatternLabel, u.observed, Calls);
    assert r.scopes == [PatternLabel, PatternLabel, PatternLabel];
  }

  /** Checks a run of calls against the span it should leave, call by call. */
  lemma ExpectedWrites(e: Engine, f: Obfuscatory, obs: Observed, pairs: seq<(string, string)>, expected: seq<Attribute>)
    requires obs.span == []
    requires |expected| == |pairs|
    requires forall i :: 0 <= i < |pairs| ==>
               expected[i] == Attribute(pairs[i].0, EffectiveValue(e, f, pairs[i].0, pairs[i].1))
    ensures PutAll(e, f, obs, pairs).span == expected
    ensures PutAll(e, f, obs, pairs).scopes == obs.scopes + Repeat(ScopesOpened(f), |pairs|)
    ensures PutAll(e, f, obs, pairs).flagQueries == obs.flagQueries
  {
    PutAllEffects(e, f, obs, pairs);
    WritesAt(e, f, pairs);
    assert Writes(e, f, pairs) == expected;
  }
}
