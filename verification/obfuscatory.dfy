/**
 The three kinds of obfuscatory (attribute filter) and the effect of writing span
 attributes through them: `NoopObfuscatory` writes values unchanged,
 `PatternObfuscatory` masks them with its rules, and
 `SelfMonitoringDelegatingObfuscatory` opens a labelled duration scope around each
 call to the obfuscatory it wraps.
 */
module Obfuscatories {
  import opened Regex
  import opened Rules

  /** An attribute filter. `Monitored(inner, name)` delegates to `inner` and labels
      its duration scopes with `name`. */
  datatype Obfuscatory = Noop | Pattern(rules: seq<Rule>) | Monitored(inner: Obfuscatory, name: string)

  /** The class name of the filter's implementation, used as a scope name. */
  function ClassName(f: Obfuscatory): string
  {
    match f
    case Noop => "NoopObfuscatory"
    case Pattern(_) => "PatternObfuscatory"
    case Monitored(_, _) => "SelfMonitoringDelegatingObfuscatory"
  }

  /** The filter with every monitoring wrapper removed. */
  function Unwrapped(f: Obfuscatory): (g: Obfuscatory)
    ensures !g.Monitored?
  {
    match f
    case Monitored(inner, _) => Unwrapped(inner)
    case _ => f
  }

  /** The value the filter writes for the attribute `key` = `value`:
      unchanged for the no-op filter, the rules' outcome for a pattern filter.
      Monitoring wrappers play no part in it. */
  function EffectiveValue(e: Engine, f: Obfuscatory, key: string, value: string): string
  {
    match Unwrapped(f)
    case Pattern(rules) => ObfuscateValue(e, rules, key, value)
    case _ => value
  }

  /** A string attribute written on a span. */
  datatype Attribute = Attribute(key: string, value: string)

  /** What the collaborators of the filters observe: the attributes written on the span,
      the labels of the duration scopes opened, and how often the self-monitoring flag was read. */
  datatype Observed = Observed(span: seq<Attribute>, scopes: seq<string>, flagQueries: nat)

  /** Nothing observed yet. */
  const Untouched: Observed := Observed([], [], 0)

  /** The labels of the scopes one call through `f` opens, outermost first. */
  function ScopesOpened(f: Obfuscatory): (s: seq<string>)
    ensures f.Monitored? ==> |s| > 0 && s[0] == f.name
    ensures !f.Monitored? ==> s == []
  {
    match f
    case Monitored(inner, name) => [name] + ScopesOpened(inner)
    case _ => []
  }

  /** `putSpanAttribute(span, key, value)`: writes exactly one attribute, under `key`,
      holding the filter's value for it; opens the wrappers' scopes; reads no flag. */
  function PutSpanAttribute(e: Engine, f: Obfuscatory, obs: Observed, key: string, value: string): (r: Observed)
    ensures r.span == obs.span + [Attribute(key, EffectiveValue(e, f, key, value))]
    ensures r.scopes == obs.scopes + ScopesOpened(f)
    ensures r.flagQueries == obs.flagQueries
  {
    match f
    case Noop => obs.(span := obs.span + [Attribute(key, value)])
    case Pattern(rules) => obs.(span := obs.span + [Attribute(key, ObfuscateValue(e, rules, key, value))])
    case Monitored(inner, name) =>
      var r := PutSpanAttribute(e, inner, obs.(scopes := obs.scopes + [name]), key, value);
      assert obs.scopes + [name] + ScopesOpened(inner) == obs.scopes + ScopesOpened(f);
      r
  }

  /** `s` repeated `n` times. */
  function Repeat<T>(s: seq<T>, n: nat): seq<T>
  {
    if n == 0 then [] else s + Repeat(s, n - 1)
  }

  /** Calls `putSpanAttribute` once per (key, value) pair, in order. */
  function PutAll(e: Engine, f: Obfuscatory, obs: Observed, pairs: seq<(string, string)>): Observed
    decreases |pairs|
  {
    if |pairs| == 0 then obs
    else PutAll(e, f, PutSpanAttribute(e, f, obs, pairs[0].0, pairs[0].1), pairs[1..])
  }

  /** The attributes the filter writes over a run of calls. */
  function Writes(e: Engine, f: Obfuscatory, pairs: seq<(string, string)>): seq<Attribute>
    decreases |pairs|
  {
    if |pairs| == 0 then []
    else [Attribute(pairs[0].0, EffectiveValue(e, f, pairs[0].0, pairs[0].1))] + Writes(e, f, pairs[1..])
  }

  /** The writes of a run are one per call, in call order, under the call's key. */
  lemma {:induction false} WritesAt(e: Engine, f: Obfuscatory, pairs: seq<(string, string)>)
    ensures |Writes(e, f, pairs)| == |pairs|
    ensures forall i :: 0 <= i < |pairs| ==>
              Writes(e, f, pairs)[i] == Attribute(pairs[i].0, EffectiveValue(e, f, pairs[i].0, pairs[i].1))
    decreases |pairs|
  {
    if |pairs| > 0 {
      WritesAt(e, f, pairs[1..]);
      assert forall i :: 0 < i < |pairs| ==> pairs[1..][i - 1] == pairs[i];
    }
  }

  /** A run of calls appends the filter's writes to the span and nothing else. */
  lemma {:induction false} PutAllSpan(e: Engine, f: Obfuscatory, obs: Observed, pairs: seq<(string, string)>)
    ensures PutAll(e, f, obs, pairs).span == obs.span + Writes(e, f, pairs)
    decreases |pairs|
  {
    if |pairs| == 0 {
      assert obs.span + [] == obs.span;
    } else {
      var next := PutSpanAttribute(e, f, obs, pairs[0].0, pairs[0].1);
      var w := Attribute(pairs[0].0, EffectiveValue(e, f, pairs[0].0, pairs[0].1));
      assert PutAll(e, f, obs, pairs) == PutAll(e, f, next, pairs[1..]);
      assert Writes(e, f, pairs) == [w] + Writes(e, f, pairs[1..]);
      PutAllSpan(e, f, next, pairs[1..]);
      assert next.span + Writes(e, f, pairs[1..]) == obs.span + ([w] + Writes(e, f, pairs[1..]));
    }
  }

  /** A run of calls opens the wrappers' scopes once per call and never reads the
      self-monitoring flag. */
  lemma {:induction false} PutAllScopes(e: Engine, f: Obfuscatory, obs: Observed, pairs: seq<(string, string)>)
    ensures PutAll(e, f, obs, pairs).scopes == obs.scopes + Repeat(ScopesOpened(f), |pairs|)
    ensures PutAll(e, f, obs, pairs).flagQueries == obs.flagQueries
    decreases |pairs|
  {
    if |pairs| == 0 {
      assert obs.scopes + [] == obs.scopes;
    } else {
      var next := PutSpanAttribute(e, f, obs, pairs[0].0, pairs[0].1);
      PutAllScopes(e, f, next, pairs[1..]);
      RepeatStep(obs.scopes, ScopesOpened(f), |pairs|);
    }
  }

  /** One more repetition appended behind a prefix. */
  lemma RepeatStep<T>(prefix: seq<T>, s: seq<T>, n: nat)
    requires n > 0
    ensures (prefix + s) + Repeat(s, n - 1) == prefix + Repeat(s, n)
  {
    assert Repeat(s, n) == s + Repeat(s, n - 1);
  }

  /** Everything a run of calls through `f` does, as its collaborators observe it. */
  lemma PutAllEffects(e: Engine, f: Obfuscatory, obs: Observed, pairs: seq<(string, string)>)
    ensures PutAll(e, f, obs, pairs) ==
              Observed(obs.span + Writes(e, f, pairs), obs.scopes + Repeat(ScopesOpened(f), |pairs|), obs.flagQueries)
  {
    PutAllSpan(e, f, obs, pairs);
    PutAllScopes(e, f, obs, pairs);
  }

  /** Wrapping a filter for self-monitoring never changes what is written on the span:
      the wrapped and the bare filter write the same attributes for every run of calls. */
  lemma MonitoringTransparent(e: Engine, f: Obfuscatory, name: string, obs: Observed, pairs: seq<(string, string)>)
    ensures PutAll(e, Monitored(f, name), obs, pairs).span == PutAll(e, f, obs, pairs).span
  {
    PutAllEffects(e, f, obs, pairs);
    PutAllEffects(e, Monitored(f, name), obs, pairs);
    assert Unwrapped(Monitored(f, name)) == Unwrapped(f);
    WritesAt(e, Monitored(f, name), pairs);
    WritesAt(e, f, pairs);
    assert Writes(e, Monitored(f, name), pairs) == Writes(e, f, pairs);
  }

  /** A filter wrapped once around an unwrapped one opens exactly one scope per call,
      each labelled with the wrapper's name. */
  lemma SingleWrapperScopes(e: Engine, f: Obfuscatory, name: string, obs: Observed, pairs: seq<(string, string)>)
    requires !f.Monitored?
    ensures |PutAll(e, Monitored(f, name), obs, pairs).scopes| == |obs.scopes| + |pairs|
    ensures forall k :: |obs.scopes| <= k < |PutAll(e, Monitored(f, name), obs, pairs).scopes| ==>
              PutAll(e, Monitored(f, name), obs, pairs).scopes[k] == name
  {
    PutAllEffects(e, Monitored(f, name), obs, pairs);
    assert ScopesOpened(Monitored(f, name)) == [name] + ScopesOpened(f) == [name];
    RepeatSingleton(name, |pairs|);
  }

  /** Repeating a one-element sequence `n` times gives `n` copies of its element. */
  lemma {:induction false} RepeatSingleton<T>(x: T, n: nat)
    ensures |Repeat([x], n)| == n
    ensures forall k :: 0 <= k < n ==> Repeat([x], n)[k] == x
  {
    if n > 0 {
      RepeatSingleton(x, n - 1);
    }
  }

  /** The no-op filter writes every value unchanged and opens no scope. */
  lemma NoopIsIdentity(e: Engine, obs: Observed, pairs: seq<(string, string)>)
    ensures PutAll(e, Noop, obs, pairs).span == obs.span + seq(|pairs|, i requires 0 <= i < |pairs| => Attribute(pairs[i].0, pairs[i].1))
    ensures PutAll(e, Noop, obs, pairs).scopes == obs.scopes
  {
    PutAllEffects(e, Noop, obs, pairs);
    RepeatEmpty<string>(|pairs|);
    WritesAt(e, Noop, pairs);
    assert Writes(e, Noop, pairs) == seq(|pairs|, i requires 0 <= i < |pairs| => Attribute(pairs[i].0, pairs[i].1));
  }

  /** Repeating the empty sequence gives the empty sequence. */
  lemma {:induction false} RepeatEmpty<T>(n: nat)
    ensures Repeat<T>([], n) == []
  {
    if n > 0 {
      RepeatEmpty<T>(n - 1);
    }
  }
}
