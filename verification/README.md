# Obfuscation of span attributes in inspectIT Ocelot, modelled in Dafny

inspectIT Ocelot can obfuscate span attributes before they leave the agent. The
`ObfuscationManager` holds the current *obfuscatory*. This is the filter that every
`putSpanAttribute(span, key, value)` call goes through. Each `update()` rebuilds the
obfuscatory from the obfuscation settings of the current configuration. There are three
kinds of obfuscatory:

- `NoopObfuscatory` writes values unchanged.
- `PatternObfuscatory` masks a value when one of its rules triggers on the attribute.
- `SelfMonitoringDelegatingObfuscatory` opens a duration scope around each call to the
  obfuscatory it wraps.

This project models that behaviour. The model follows the behaviour `ObfuscationManagerTest` asserts; what the implementation does beyond those assertions is fixed by the modelling choices listed below.

Modules, one per component:

- `Results` (results.dfy): `Option` and `Result`.
- `Regex` (regex.dfy): the regex engine, left abstract. `Engine` bundles three
  things: compilation, unanchored search, and masking with a custom replacement
  regex. `KnowsTestPatterns` lists the only facts assumed about an engine. They cover
  the patterns the test configures: `"[a-z]+"`, `"[0-9]+"`, `"[b-z]+"` and the malformed
  `"[[a-z]"`.
- `CharClassRegex` (char_class_regex.dfy): a concrete engine for patterns made of one
  bracketed character class followed by `+`. It proves that all of those facts can
  hold at once.
- `Rules` (rules.dfy): patterns (`ObfuscationPattern`), compiled rules, and when a rule
  triggers. A rule triggers when it checks the key and its regex is found in the key,
  or when it checks the data and its regex is found in the value. The value written
  is masked by the first rule that triggers and is unchanged when none does.
- `Obfuscatories` (obfuscatory.dfy): the three obfuscatory kinds and what a
  `putSpanAttribute` call does. Its effects are recorded as an `Observed` value. This
  holds the attributes written on the span, the labels of the duration scopes opened,
  and how often the self-monitoring flag was read.
- `Management` (manager.dfy): `update()` as a pure function of the settings and the
  self-monitoring flag. Also the `ObfuscationManager` class, with one mutable cell
  for the published obfuscatory (it starts as the no-op filter).
- `Scenarios` (scenarios.dfy): the `Update` test cases, each proved for every engine
  that satisfies `KnowsTestPatterns`, and the construct-update-get lifecycle through
  the manager class. The `Constructor` test is modelled in `Management`, by
  `InitialPublishesNoop` and the constructor's contract.

Behaviour the model takes from the test, and the modelling choices where the test is silent:

- A self-monitoring wrapper is published only when self-monitoring is on at
  `update()` time. The flag is read once, in `update()`. After that the wrapper opens
  one scope per call and does not read the flag again (lines 235-237).
- The scope label is the class name of the wrapped obfuscatory,
  `"PatternObfuscatory"` (line 236).
- A rule with the replacement regex `"[b-z]+"` that triggers on `("abc", "abc")`
  writes `"***"`, not `"a***"` (line 163). So masking with a replacement regex is not
  modelled as replacing only the matched substrings. It stays abstract (`Engine.mask`),
  apart from this one fact.
- The test leaves some pattern flags unset. The expectations force an unset
  `checkData` to be false: otherwise `("ABC", "abc")` would be masked by `"[a-z]+"`
  (line 131). The other unset flags are parameters of the scenario lemmas, so the
  scenarios hold whatever their defaults are.
- The self-monitoring flag is read only when a pattern obfuscatory was built. This is a
  modelling choice: the test pins only that case.
- A replacement regex that fails to compile also makes `update()` publish the no-op
  filter, reported as `InvalidMask`. This is a modelling choice as well: the test only
  configures the valid replacement regex `"[b-z]+"` (line 142), so it does not pin what
  happens to an invalid one.
- One malformed pattern among well-formed ones discards the whole set: `CompileAll`
  fails and `update()` publishes the no-op filter. This is a modelling choice: the test
  configures the malformed pattern `"[[a-z]"` only alone (lines 88-91), so it does not
  pin whether the bad pattern is skipped and the others kept.
- When several rules trigger on one attribute, the first of them in the configured
  order decides the written value. This is a modelling choice too: in every call of
  the test at most one rule triggers, and every mask replaces the whole value, so the
  test cannot tell the first triggering rule from the last.
- With obfuscation enabled and an empty pattern list, `update()` publishes a pattern
  filter with no rules (wrapped when self-monitoring is on), which writes every value
  unchanged, and reads the self-monitoring flag once. The test does not configure this
  case.

## Model

| member | source | states |
|---|---|---|
| Rules.CompileRule | inspectit-ocelot-core/src/test/java/rocks/inspectit/ocelot/core/privacy/obfuscation/ObfuscationManagerTest.java:85-99 | A pattern yields a rule exactly when its trigger regex and any replacement regex compile. The rule keeps the pattern's regexes and flags. A malformed trigger is reported as `InvalidTrigger`. A valid trigger with a malformed replacement regex is reported as `InvalidMask`. |
| Rules.CompileAll | inspectit-ocelot-core/src/test/java/rocks/inspectit/ocelot/core/privacy/obfuscation/ObfuscationManagerTest.java:85-99 | The pattern list compiles exactly when every pattern does. The result is then one rule per pattern, in order. Otherwise the error is that of the first failing pattern, and nothing partial is returned. |
| Rules.ObfuscateValue | inspectit-ocelot-core/src/test/java/rocks/inspectit/ocelot/core/privacy/obfuscation/ObfuscationManagerTest.java:101-132 | The written value is the original one when no rule triggers. Otherwise it is the value masked by the first rule that triggers on the key (checkKey) or on the value (checkData). |
| Rules.ObfuscateValueUsesFirstTrigger | inspectit-ocelot-core/src/test/java/rocks/inspectit/ocelot/core/privacy/obfuscation/ObfuscationManagerTest.java:101-132 | Whichever rule triggers first decides the written value. |
| Rules.ObfuscateValueAppend | inspectit-ocelot-core/src/test/java/rocks/inspectit/ocelot/core/privacy/obfuscation/ObfuscationManagerTest.java:101-132 | Rules are evaluated front to back. Rules after one that triggers have no effect. A prefix in which nothing triggers has no effect either. |
| Rules.WholeValueMaskOutcome | inspectit-ocelot-core/src/test/java/rocks/inspectit/ocelot/core/privacy/obfuscation/ObfuscationManagerTest.java:101-132 | Masking is a pure OR over the rules: with whole-value masks, the value becomes "***" exactly when some rule triggers. |
| Rules.WholeValueMaskOrderIrrelevant | inspectit-ocelot-core/src/test/java/rocks/inspectit/ocelot/core/privacy/obfuscation/ObfuscationManagerTest.java:101-132 | With whole-value masks, any reordering of the same rules writes the same value. |
| Obfuscatories.ScopesOpened | inspectit-ocelot-core/src/test/java/rocks/inspectit/ocelot/core/privacy/obfuscation/ObfuscationManagerTest.java:226-236 | A call through a monitoring wrapper opens its labelled scope first. A call through an unwrapped filter opens no scope. |
| Obfuscatories.PutSpanAttribute | inspectit-ocelot-core/src/test/java/rocks/inspectit/ocelot/core/privacy/obfuscation/ObfuscationManagerTest.java:124-133 | One call writes exactly one attribute on the span, under the original key, and leaves the earlier writes alone. It opens only the wrappers' scopes and does not read the self-monitoring flag. |
| Obfuscatories.PutAllSpan | inspectit-ocelot-core/src/test/java/rocks/inspectit/ocelot/core/privacy/obfuscation/ObfuscationManagerTest.java:126-133 | A run of calls appends exactly one write per call to the span, in call order. |
| Obfuscatories.PutAllScopes | inspectit-ocelot-core/src/test/java/rocks/inspectit/ocelot/core/privacy/obfuscation/ObfuscationManagerTest.java:226-237 | A run of calls opens each wrapper's scopes once per call and never reads the self-monitoring flag. |
| Obfuscatories.PutAllEffects | inspectit-ocelot-core/src/test/java/rocks/inspectit/ocelot/core/privacy/obfuscation/ObfuscationManagerTest.java:124-133 | Everything a run of calls does to the span, the scopes and the flag, in one statement. |
| Obfuscatories.MonitoringTransparent | inspectit-ocelot-core/src/test/java/rocks/inspectit/ocelot/core/privacy/obfuscation/ObfuscationManagerTest.java:224-233 | For any run of calls, a monitoring wrapper writes exactly the attributes the wrapped filter writes. |
| Obfuscatories.SingleWrapperScopes | inspectit-ocelot-core/src/test/java/rocks/inspectit/ocelot/core/privacy/obfuscation/ObfuscationManagerTest.java:235-236 | One wrapper around an unwrapped filter opens exactly one scope per call, each with the wrapper's label. |
| Obfuscatories.NoopIsIdentity | inspectit-ocelot-core/src/test/java/rocks/inspectit/ocelot/core/privacy/obfuscation/ObfuscationManagerTest.java:73-83 | The no-op filter writes every value unchanged and opens no scope. |
| Management.Update | inspectit-ocelot-core/src/test/java/rocks/inspectit/ocelot/core/privacy/obfuscation/ObfuscationManagerTest.java:73-120 | The published filter is always the no-op filter, a pattern filter or a monitored pattern filter. Disabled settings, or any pattern that fails to compile, publish the no-op filter, and the flag is not read. Otherwise the update reads the self-monitoring flag once. It publishes the pattern filter with one rule per pattern, wrapped with the label "PatternObfuscatory" exactly when self-monitoring is on. |
| Management.InitialPublishesNoop | inspectit-ocelot-core/src/test/java/rocks/inspectit/ocelot/core/privacy/obfuscation/ObfuscationManagerTest.java:45-51 | A freshly constructed manager hands out the no-op filter, which writes values unchanged. |
| Management.FallbackIsIdentity | inspectit-ocelot-core/src/test/java/rocks/inspectit/ocelot/core/privacy/obfuscation/ObfuscationManagerTest.java:73-99 | With obfuscation disabled, or when some pattern in the list fails to compile, the published filter writes every value unchanged. The test shows the disabled case and a single malformed pattern; a malformed pattern in a longer list follows the whole-set modelling choice above. |
| Management.MonitoringWrapsPublished | inspectit-ocelot-core/src/test/java/rocks/inspectit/ocelot/core/privacy/obfuscation/ObfuscationManagerTest.java:199-220 | With self-monitoring on, the update publishes the wrapper around exactly the filter it would otherwise publish. Everything else it does is the same. |
| Management.PublishedFilterSemantics | inspectit-ocelot-core/src/test/java/rocks/inspectit/ocelot/core/privacy/obfuscation/ObfuscationManagerTest.java:101-132 | For enabled, compiling settings, the published filter (monitored or not) leaves the value alone when no pattern triggers. Otherwise it masks the value as the first triggering pattern says. |
| Management.ObfuscationManager.constructor | inspectit-ocelot-core/src/test/java/rocks/inspectit/ocelot/core/privacy/obfuscation/ObfuscationManagerTest.java:33-51 | A freshly constructed manager publishes the no-op filter: its supplier hands out `Noop`, and nothing has been written, opened or read yet. |
| Management.ObfuscationManager.Current | inspectit-ocelot-core/src/test/java/rocks/inspectit/ocelot/core/privacy/obfuscation/ObfuscationManagerTest.java:47-50 | `obfuscatorySupplier().get()` hands out one of the three kinds the test checks with `isInstanceOf`: the no-op filter, a pattern filter, or a pattern filter wrapped for self-monitoring and labelled "PatternObfuscatory". The constructor and `Rebuild` keep this invariant (`Valid`). |
| Management.ObfuscationManager.Rebuild | inspectit-ocelot-core/src/test/java/rocks/inspectit/ocelot/core/privacy/obfuscation/ObfuscationManagerTest.java:77-78 | The manager's cell afterwards holds what `Update` publishes, whatever it held before, and the supplier hands out that filter: a bad update does not keep the previous rules. |
| Scenarios.ManagerLifecycle | inspectit-ocelot-core/src/test/java/rocks/inspectit/ocelot/core/privacy/obfuscation/ObfuscationManagerTest.java:77-79 | Constructing a manager, updating it, then asking its supplier hands out exactly the filter the scenario lemmas reason about. |
| Scenarios.NotEnabled | inspectit-ocelot-core/src/test/java/rocks/inspectit/ocelot/core/privacy/obfuscation/ObfuscationManagerTest.java:73-83 | Disabled settings publish the no-op filter, which writes the three test attributes unchanged. |
| Scenarios.PatternCompileError | inspectit-ocelot-core/src/test/java/rocks/inspectit/ocelot/core/privacy/obfuscation/ObfuscationManagerTest.java:85-99 | The pattern "[[a-z]" makes the manager publish the no-op filter, whatever its flags. |
| Scenarios.HappyPathValues | inspectit-ocelot-core/src/test/java/rocks/inspectit/ocelot/core/privacy/obfuscation/ObfuscationManagerTest.java:101-132 | The key rule "[a-z]+" plus the value rule "[0-9]+" give: ("abc","abc") → "***", ("ABC","abc") → "abc", ("DEF","123") → "***". |
| Scenarios.HappyPath | inspectit-ocelot-core/src/test/java/rocks/inspectit/ocelot/core/privacy/obfuscation/ObfuscationManagerTest.java:101-134 | The update publishes a pattern filter. The three calls leave exactly the expected three writes, open no scope, and the flag is read once. |
| Scenarios.HappyPathWithReplacementRegex | inspectit-ocelot-core/src/test/java/rocks/inspectit/ocelot/core/privacy/obfuscation/ObfuscationManagerTest.java:136-166 | With replacement regex "[b-z]+", the triggering pair is written as "***". The other two pairs are unchanged. |
| Scenarios.HappyPathCaseInsensitive | inspectit-ocelot-core/src/test/java/rocks/inspectit/ocelot/core/privacy/obfuscation/ObfuscationManagerTest.java:168-197 | A case-insensitive "[a-z]+" key rule writes exactly one attribute for "abc" and one for "ABC". Neither holds the original value "abc". |
| Scenarios.HappyPathWithSelfMonitoring | inspectit-ocelot-core/src/test/java/rocks/inspectit/ocelot/core/privacy/obfuscation/ObfuscationManagerTest.java:199-238 | The update publishes the monitoring wrapper. The span gets the same three writes as without monitoring, the flag is read once in all, and three scopes labelled "PatternObfuscatory" are opened. |
| CharClassRegex.CharClassEngineKnowsTestPatterns | inspectit-ocelot-core/src/test/java/rocks/inspectit/ocelot/core/privacy/obfuscation/ObfuscationManagerTest.java:86-196 | A concrete character-class engine satisfies every fact assumed about the test's patterns: which compile, which are found in which strings, and the custom-mask fact. So those facts are consistent. |

## Left out

- Regex compilation and matching are abstract (`Regex.Engine`). The model assumes only the facts in `KnowsTestPatterns`. `CharClassRegex` covers only single-character-class patterns.
- Rules.Mask: masking with a custom replacement regex is left abstract. The only fact stated is that "[b-z]+" masks "abc" into "***" (test line 163). The substring-replacement reading is neither stated nor refuted.
- The OpenCensus `Span` and `AttributeValue` types are left out. A span is the sequence of attributes written on it.
- The self-monitoring scope object is left out, and so is closing it. Only the opening of each scope and its label are recorded.
- Mockito, the JUnit wiring and the loading of `InspectitConfig` through `InspectitEnvironment` are left out. `update` takes the obfuscation settings and the self-monitoring flag as parameters.
- Concurrent use and the atomic publication of the current obfuscatory are not modelled. The model is sequential.
- Logging of compile errors is not modelled.
- Repeating an update with the same settings gives the same filter because `Update` is a function. There is no separate lemma for this.
- Per-call toggling of self-monitoring is not modelled. The test reads the flag once, at update time, and the wrapper then always measures.
