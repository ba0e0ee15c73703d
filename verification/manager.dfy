/**
 `ObfuscationManager`: holds the currently published obfuscatory, which starts as
 the no-op filter, and rebuilds it from the obfuscation settings on every `update`.
 */
module Management {
  import opened Results
  import opened Regex
  import opened Rules
  import opened Obfuscatories

  /** The obfuscation settings of one configuration snapshot. */
  datatype Settings = Settings(enabled: bool, patterns: seq<PatternSpec>)

  /** The manager's state: the obfuscatory its supplier hands out. */
  datatype ManagerState = ManagerState(current: Obfuscatory)

  /** The state of a freshly constructed manager. */
  const Initial: ManagerState := ManagerState(Noop)

  /** What an `update` leaves behind: the new state and what the collaborators observed. */
  datatype Updated = Updated(state: ManagerState, observed: Observed)

  /** The scope label a monitoring wrapper around a pattern filter uses. */
  const PatternLabel: string := "PatternObfuscatory"

  /** The three kinds of filter a manager ever hands out: the no-op filter, a pattern
      filter, or a pattern filter wrapped for self-monitoring under its class name. */
  predicate Publishable(f: Obfuscatory)
  {
    || f == Noop
    || f.Pattern?
    || (f.Monitored? && f.inner.Pattern? && f.name == ClassName(f.inner))
  }

  /** `update()`: the new obfuscatory depends only on the settings and, when a pattern
      filter was built, on the self-monitoring flag, which is then read exactly once.
      `monitoringEnabled` is the answer the self-monitoring service gives. */
  function Update(e: Engine, settings: Settings, monitoringEnabled: bool, obs: Observed): (u: Updated)
    ensures u.observed.span == obs.span && u.observed.scopes == obs.scopes
    ensures Publishable(u.state.current)
    ensures !settings.enabled ==> u == Updated(ManagerState(Noop), obs)
    ensures settings.enabled && !AllCompile(e, settings.patterns) ==> u == Updated(ManagerState(Noop), obs)
    ensures settings.enabled && AllCompile(e, settings.patterns) ==>
              && u.observed.flagQueries == obs.flagQueries + 1
              && u.state.current.Monitored? == monitoringEnabled
              && Unwrapped(u.state.current).Pattern?
              && CompiledFrom(Unwrapped(u.state.current).rules, settings.patterns)
              && (monitoringEnabled ==>
                    u.state.current == Monitored(Unwrapped(u.state.current), ClassName(Unwrapped(u.state.current))))
  {
    if !settings.enabled then
      Updated(ManagerState(Noop), obs)
    else match CompileAll(e, settings.patterns)
      case Err(_) => Updated(ManagerState(Noop), obs)
      case Ok(rules) =>
        var pattern := Pattern(rules);
        var queried := obs.(flagQueries := obs.flagQueries + 1);
        if monitoringEnabled then
          Updated(ManagerState(Monitored(pattern, PatternLabel)), queried)
        else
          Updated(ManagerState(pattern), queried)
  }

  /** Self-monitoring only wraps the filter that would otherwise be published, under the
      label "PatternObfuscatory"; what else the update does is the same either way. */
  lemma MonitoringWrapsPublished(e: Engine, settings: Settings, obs: Observed)
    requires settings.enabled && AllCompile(e, settings.patterns)
    ensures Update(e, settings, true, obs) ==
              Updated(ManagerState(Monitored(Update(e, settings, false, obs).state.current, PatternLabel)),
                      Update(e, settings, false, obs).observed)
  {
  }

  /** Whether the pattern `spec` triggers on the attribute `key` = `value`, read directly
      off the configured pattern. This is the configuration-level reference against which
      `PublishedFilterSemantics` states the compiled filter's behaviour. */
  predicate SpecTriggers(e: Engine, spec: PatternSpec, key: string, value: string)
  {
    || (spec.checkKey && e.find(spec.pattern, spec.caseInsensitive, key))
    || (spec.checkData && e.find(spec.pattern, spec.caseInsensitive, value))
  }

  /** The value the pattern `spec` masks `value` into, read directly off the configured
      pattern (the configuration-level reference for `PublishedFilterSemantics`). */
  function SpecMask(e: Engine, spec: PatternSpec, value: string): string
  {
    match spec.replaceRegex
    case None => MaskToken
    case Some(p) => e.mask(p, spec.caseInsensitive, value)
  }

  /** A fresh manager hands out the no-op filter, which writes values unchanged. */
  lemma InitialPublishesNoop(e: Engine, obs: Observed, pairs: seq<(string, string)>)
    ensures Initial.current == Noop
    ensures PutAll(e, Initial.current, obs, pairs).span ==
              obs.span + seq(|pairs|, i requires 0 <= i < |pairs| => Attribute(pairs[i].0, pairs[i].1))
  {
    NoopIsIdentity(e, obs, pairs);
  }

  /** With obfuscation disabled, or with any pattern that fails to compile, the published
      filter writes every value unchanged, whatever the other patterns are. */
  lemma FallbackIsIdentity(e: Engine, settings: Settings, monitoringEnabled: bool, obs: Observed,
                           pairs: seq<(string, string)>)
    requires !settings.enabled || exists i :: 0 <= i < |settings.patterns| && !SpecCompiles(e, settings.patterns[i])
    ensures Update(e, settings, monitoringEnabled, obs).state.current == Noop
    ensures PutAll(e, Update(e, settings, monitoringEnabled, obs).state.current, obs, pairs).span ==
              obs.span + seq(|pairs|, i requires 0 <= i < |pairs| => Attribute(pairs[i].0, pairs[i].1))
  {
    NoopIsIdentity(e, obs, pairs);
  }

  /** For enabled settings whose patterns all compile, the published filter writes the
      value unchanged when no pattern triggers, and otherwise masks it as the first
      triggering pattern prescribes, with or without self-monitoring. */
  lemma PublishedFilterSemantics(e: Engine, settings: Settings, monitoringEnabled: bool, obs: Observed,
                                 key: string, value: string)
    requires settings.enabled && AllCompile(e, settings.patterns)
    ensures (forall i :: 0 <= i < |settings.patterns| ==> !SpecTriggers(e, settings.patterns[i], key, value)) ==>
              EffectiveValue(e, Update(e, settings, monitoringEnabled, obs).state.current, key, value) == value
    ensures forall i :: 0 <= i < |settings.patterns| && SpecTriggers(e, settings.patterns[i], key, value)
                        && (forall j :: 0 <= j < i ==> !SpecTriggers(e, settings.patterns[j], key, value)) ==>
              EffectiveValue(e, Update(e, settings, monitoringEnabled, obs).state.current, key, value)
                == SpecMask(e, settings.patterns[i], value)
  {
    var specs := settings.patterns;
    var f := Update(e, settings, monitoringEnabled, obs).state.current;
    var rules := Unwrapped(f).rules;
    assert forall i :: 0 <= i < |specs| ==> RuleOf(rules[i], specs[i]);
    assert forall i :: 0 <= i < |specs| ==>
             (Triggers(e, rules[i], key, value) <==> SpecTriggers(e, specs[i], key, value));
    forall i | 0 <= i < |specs| && SpecTriggers(e, specs[i], key, value)
               && (forall j :: 0 <= j < i ==> !SpecTriggers(e, specs[j], key, value))
      ensures EffectiveValue(e, f, key, value) == SpecMask(e, specs[i], value)
    {
      assert IsFirstTrigger(e, rules, key, value, i);
      ObfuscateValueUsesFirstTrigger(e, rules, key, value, i);
    }
  }

  /** A class wrapper with one mutable cell, as the source's manager keeps it. */
  class ObfuscationManager {
    const engine: Engine
    var state: ManagerState
    var observed: Observed

    /** The published filter is always one of the kinds a manager hands out. */
    predicate Valid()
      reads this
    {
      Publishable(state.current)
    }

    /** A fresh manager publishes the no-op filter and has read nothing yet. */
    constructor(e: Engine)
      ensures engine == e && state == Initial && observed == Untouched
      ensures Valid()
      ensures Current() == Noop
    {
      engine := e;
      state := Initial;
      observed := Untouched;
    }

    /** `obfuscatorySupplier().get()`: the currently published filter, which is the
        no-op filter, a pattern filter, or a pattern filter wrapped for self-monitoring
        and labelled "PatternObfuscatory". */
    function Current(): (f: Obfuscatory)
      reads this
      requires Valid()
      ensures f == Noop || f.Pattern? || f == Monitored(Unwrapped(f), PatternLabel)
      ensures f.Monitored? ==> f.inner.Pattern?
    {
      state.current
    }

    /** Rebuilds and publishes the filter; the previous filter plays no part. */
    method Rebuild(settings: Settings, monitoringEnabled: bool)
      modifies this
      ensures Updated(state, observed) == Update(engine, settings, monitoringEnabled, old(observed))
      ensures Valid()
      ensures Current() == Update(engine, settings, monitoringEnabled, old(observed)).state.current
    {
      var u := Update(engine, settings, monitoringEnabled, observed);
      state := u.state;
      observed := u.observed;
    }
  }
}
