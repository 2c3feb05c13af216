/**
 * The generation parameters of `ALLaM`: the class-level defaults and the
 * shallow merge `{**DEFAULT_PARAMETERS, **(parameters or {})}` with a caller's
 * overrides. Values are only stored and forwarded, never interpreted.
 */
module Parameters {
  import opened Wrappers

  /** A parameter value, as the Python literal that holds it. */
  datatype Value = Text(s: string) | Integer(i: int) | Float(x: real)

  /** `ALLaM.DEFAULT_PARAMETERS`. */
  const DefaultParameters: map<string, Value> := map[
    "decoding_method" := Text("sample"),
    "max_new_tokens" := Integer(1000),
    "min_new_tokens" := Integer(1),
    "temperature" := Float(0.7),
    "top_k" := Integer(50),
    "top_p" := Integer(1)
  ]

  /**
   * The effective parameters: every key of the defaults or of the overrides, the
   * caller's value where there is one and the default value elsewhere.
   */
  function Merge<V>(defaults: map<string, V>, overrides: Option<map<string, V>>): (r: map<string, V>)
    ensures overrides.None? ==> r == defaults
    ensures r.Keys == defaults.Keys + overrides.GetOr(map[]).Keys
    ensures forall k :: k in overrides.GetOr(map[]) ==> r[k] == overrides.GetOr(map[])[k]
    ensures forall k :: k in defaults && k !in overrides.GetOr(map[]) ==> r[k] == defaults[k]
  {
    defaults + overrides.GetOr(map[])
  }

  /** The merge is the only map with those keys and values: any map that agrees with it key by key is it. */
  lemma MergeUnique<V>(defaults: map<string, V>, overrides: map<string, V>, m: map<string, V>)
    requires m.Keys == defaults.Keys + overrides.Keys
    requires forall k :: k in overrides ==> m[k] == overrides[k]
    requires forall k :: k in defaults && k !in overrides ==> m[k] == defaults[k]
    ensures m == Merge(defaults, Some(overrides))
  {
    var r := Merge(defaults, Some(overrides));
    assert forall k :: k in m ==> m[k] == r[k];
  }

  /** An empty override, which Python's `or` treats like `None`, also leaves the defaults as they are. */
  lemma EmptyOverride<V>(defaults: map<string, V>)
    ensures Merge(defaults, Some(map[])) == defaults
  {
    assert forall k :: k in defaults ==> Merge(defaults, Some(map[]))[k] == defaults[k];
  }

  /** Overriding one key replaces that key's value and nothing else. */
  lemma OverrideOne<V>(defaults: map<string, V>, k: string, v: V)
    ensures Merge(defaults, Some(map[k := v])) == defaults[k := v]
  {
    MergeUnique(defaults, map[k := v], defaults[k := v]);
  }

  /** Constructing with a temperature of 0.3 keeps every other default. */
  lemma TemperatureOverride()
    ensures Merge(DefaultParameters, Some(map["temperature" := Float(0.3)])).Keys == DefaultParameters.Keys
    ensures Merge(DefaultParameters, Some(map["temperature" := Float(0.3)]))["temperature"] == Float(0.3)
    ensures forall k :: k in DefaultParameters && k != "temperature" ==>
      Merge(DefaultParameters, Some(map["temperature" := Float(0.3)]))[k] == DefaultParameters[k]
  {
    OverrideOne(DefaultParameters, "temperature", Float(0.3));
  }
}
