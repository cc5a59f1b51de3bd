/** The strict configuration loader (project/core/ConfigLoader.py): base settings,
    then experiment defaults, then the scenario's overrides, then an optional mode's
    overrides, each merged over the previous layer; overrides that are not a mapping
    raise TypeError, and a missing scenario or mode raises ValueError. */
module StrictConfig {
  import opened Wrappers
  import opened ConfigValue

  /** `_deep_update` at the top level: None changes nothing, any other non-mapping
      is a TypeError, a mapping is merged. */
  function StrictUpdate(source: seq<KV>, overrides: Value): (r: Result<seq<KV>>)
    ensures overrides.Null? ==> r == Ok(source)
    ensures r.Err? <==> !overrides.Null? && !overrides.Dict?
    ensures r.Err? ==> r.error == TypeError
    ensures r.Ok? ==> Keys(r.value) == Keys(source) + (if overrides.Dict? then Keys(overrides.entries) else {})
  {
    if overrides.Null? then Ok(source)
    else if !overrides.Dict? then Err(TypeError)
    else
      MergeKeys(source, overrides.entries);
      Ok(MergeEntries(source, overrides.entries))
  }

  method DeepUpdate(source: seq<KV>, overrides: Value) returns (r: Result<seq<KV>>)
    ensures r == StrictUpdate(source, overrides)
  {
    if overrides.Null? {
      return Ok(source);
    }
    if !overrides.Dict? {
      return Err(TypeError);
    }
    var merged := DeepMerge(source, overrides.entries);
    return Ok(merged);
  }

  /** A dict whose `id` entry is the requested scenario id. */
  predicate Matches(v: Value, id: string)
  {
    v.Dict? && Get(v.entries, "id") == Some(Str(id))
  }

  /** What `for sc in (scenarios or [])` iterates over: a falsy value is no
      scenarios, a list its items; a non-empty mapping or string yields strings,
      whose `.get` is an AttributeError; a true number is not iterable. */
  function ScenarioItems(v: Value): (r: Result<seq<Value>>)
    ensures r.Ok? <==> !Truthy(v) || v.List?
    ensures r.Err? ==> (r.error == TypeError <==> v.Bool? || v.Int? || v.Float?)
  {
    if !Truthy(v) then Ok([])
    else match v
      case List(items) => Ok(items)
      case Dict(_) => Err(AttributeError)
      case Str(_) => Err(AttributeError)
      case _ => Err(TypeError)
  }

  /** The inner loop of `_find_scenario`: the first scenario dict with the id, an
      AttributeError at the first item that is not a dict, or nothing. */
  function SearchList(items: seq<Value>, id: string): (r: Result<Option<seq<KV>>>)
    ensures r == Ok(None) <==> forall v :: v in items ==> v.Dict? && !Matches(v, id)
    ensures r.Ok? && r.value.Some? ==> Matches(Dict(r.value.value), id) && Dict(r.value.value) in items
    ensures r.Err? ==> r.error == AttributeError && exists v :: v in items && !v.Dict?
  {
    if items == [] then Ok(None)
    else if !items[0].Dict? then Err(AttributeError)
    else if Matches(items[0], id) then Ok(Some(items[0].entries))
    else
      var rest := SearchList(items[1..], id);
      assert forall v :: v in items[1..] ==> v in items;
      assert forall v :: v in items ==> v == items[0] || v in items[1..];
      rest
  }

  /** The scenario list a group declares, as the search reads it. */
  function GroupItems(group: Value): Result<seq<Value>>
  {
    if !group.Dict? then Err(AttributeError)
    else ScenarioItems(GetOr(group.entries, "scenarios", List([])))
  }

  /** Every group is a dict whose scenarios form a list of dicts. */
  predicate Shaped(groups: seq<KV>)
  {
    groups == [] ||
    (GroupItems(groups[0].val).Ok?
     && (forall v :: v in GroupItems(groups[0].val).value ==> v.Dict?)
     && Shaped(groups[1..]))
  }

  /** Some group lists a scenario with the id. */
  predicate Declares(groups: seq<KV>, id: string)
  {
    groups != [] &&
    ((GroupItems(groups[0].val).Ok? && exists v :: v in GroupItems(groups[0].val).value && Matches(v, id))
     || Declares(groups[1..], id))
  }

  /** The outer loop of `_find_scenario`, over the groups in order. */
  function SearchGroups(groups: seq<KV>, id: string): (r: Result<seq<KV>>)
    ensures r.Ok? ==> Matches(Dict(r.value), id) && Declares(groups, id)
    ensures r.Err? ==> r.error in {ValueError, AttributeError, TypeError}
    ensures Shaped(groups) ==> (r.Ok? <==> Declares(groups, id)) && (r.Err? ==> r.error == ValueError)
  {
    if groups == [] then Err(ValueError)
    else
      var items := GroupItems(groups[0].val);
      if items.Err? then Err(items.error)
      else
        var found := SearchList(items.value, id);
        if found.Err? then Err(found.error)
        else if found.value.Some? then Ok(found.value.value)
        else SearchGroups(groups[1..], id)
  }

  /** `_find_scenario`: the groups mapping (a falsy value counts as empty, another
      non-mapping is an AttributeError) searched group by group; ValueError when no
      scenario has the id. */
  function FindScenario(experiments: seq<KV>, id: string): (r: Result<seq<KV>>)
    ensures r.Ok? ==> Get(r.value, "id") == Some(Str(id))
  {
    var groups := GetOr(experiments, "groups", EmptyDict);
    if !Truthy(groups) then Err(ValueError)
    else if !groups.Dict? then Err(AttributeError)
    else SearchGroups(groups.entries, id)
  }

  /** The mode's override layer: `(optional_modes or {}).get(mode, {})`, which must
      be truthy. */
  function ModeLayer(experiments: seq<KV>, mode: string): (r: Result<Value>)
    ensures r.Ok? ==> Truthy(r.value)
    ensures r.Err? && r.error == ValueError <==>
              var modes := GetOr(experiments, "optional_modes", EmptyDict);
              (!Truthy(modes) || (modes.Dict? && !Truthy(GetOr(modes.entries, mode, EmptyDict))))
  {
    var modes := GetOr(experiments, "optional_modes", EmptyDict);
    var table := if Truthy(modes) then modes else EmptyDict;
    if !table.Dict? then Err(AttributeError)
    else
      var layer := GetOr(table.entries, mode, EmptyDict);
      if !Truthy(layer) then Err(ValueError) else Ok(layer)
  }

  /** The `meta` annotation: `setdefault("meta", {})`, TypeError when it is not a
      dict, then the scenario id and, with a mode, the mode. */
  function Annotate(config: seq<KV>, id: string, mode: Option<string>): (r: Result<seq<KV>>)
    ensures r.Err? <==> "meta" in Keys(config) && !Get(config, "meta").value.Dict?
    ensures r.Err? ==> r.error == TypeError
    ensures r.Ok? ==> Keys(r.value) == Keys(config) + {"meta"}
    ensures r.Ok? ==> forall k :: k != "meta" ==> Get(r.value, k) == Get(config, k)
    ensures r.Ok? ==> var meta := Get(r.value, "meta").value;
                      meta.Dict? && Get(meta.entries, "current_scenario_id") == Some(Str(id))
                      && (mode.Some? ==> Get(meta.entries, "current_mode") == Some(Str(mode.value)))
  {
    var meta := GetOr(config, "meta", EmptyDict);
    if !meta.Dict? then Err(TypeError)
    else
      var annotated := MetaEntries(meta.entries, id, mode);
      PutOthers(config, "meta", Dict(annotated));
      Ok(Put(config, "meta", Dict(annotated)))
  }

  /** The `meta` dict after the annotation: the scenario id, then the mode. */
  function MetaEntries(meta: seq<KV>, id: string, mode: Option<string>): (r: seq<KV>)
    ensures Get(r, "current_scenario_id") == Some(Str(id))
    ensures mode.Some? ==> Get(r, "current_mode") == Some(Str(mode.value))
    ensures forall k :: k != "current_scenario_id" && k != "current_mode" ==> Get(r, k) == Get(meta, k)
  {
    var withId := Put(meta, "current_scenario_id", Str(id));
    PutOthers(meta, "current_scenario_id", Str(id));
    if mode.None? then withId
    else
      PutOthers(withId, "current_mode", Str(mode.value));
      Put(withId, "current_mode", Str(mode.value))
  }

  lemma PutOthers(d: seq<KV>, k: string, v: Value)
    ensures forall k' :: k' != k ==> Get(Put(d, k, v), k') == Get(d, k')
  {
    forall k' | k' != k
      ensures Get(Put(d, k, v), k') == Get(d, k')
    {
      GetPutOther(d, k, v, k');
    }
  }

  /** The layers before the annotation, merged in order: base, defaults, the
      scenario's overrides, the mode's overrides. */
  function Layered(base: seq<KV>, experiments: seq<KV>, id: string, mode: Option<string>): Result<seq<KV>>
  {
    var withDefaults :- StrictUpdate(base, GetOr(experiments, "defaults", EmptyDict));
    var scenario :- FindScenario(experiments, id);
    var withScenario :- StrictUpdate(withDefaults, GetOr(scenario, "overrides", EmptyDict));
    if mode.None? then Ok(withScenario)
    else
      var layer :- ModeLayer(experiments, mode.value);
      StrictUpdate(withScenario, layer)
  }

  /** `get_scenario_config`: the merged layers with the `meta` annotation. */
  function ScenarioConfig(base: seq<KV>, experiments: seq<KV>, id: string, mode: Option<string>): (r: Result<seq<KV>>)
    ensures r.Ok? ==> Keys(base) + {"meta"} <= Keys(r.value)
    ensures r.Ok? ==> var meta := Get(r.value, "meta").value;
                      meta.Dict? && Get(meta.entries, "current_scenario_id") == Some(Str(id))
  {
    var merged :- Layered(base, experiments, id, mode);
    LayeredKeepsBaseKeys(base, experiments, id, mode);
    Annotate(merged, id, mode)
  }

  /** Every merge keeps the keys it started with. */
  lemma LayeredKeepsBaseKeys(base: seq<KV>, experiments: seq<KV>, id: string, mode: Option<string>)
    ensures Layered(base, experiments, id, mode).Ok? ==> Keys(base) <= Keys(Layered(base, experiments, id, mode).value)
  {
  }

  /** One layer's effect on one key: the layer's value merged over the current one
      when the layer mentions the key. */
  function Over(current: Option<Value>, layer: Value, k: string): Option<Value>
  {
    if layer.Dict? && k in Keys(layer.entries) then Some(MergeValue(current, Get(layer.entries, k).value))
    else current
  }

  /** Later layers win: the value under any key other than `meta` is the base value
      with the defaults, the scenario's overrides and the mode's overrides applied
      over it in that order. */
  lemma LayerLookup(base: seq<KV>, experiments: seq<KV>, id: string, mode: string, k: string)
    requires k != "meta"
    requires ScenarioConfig(base, experiments, id, Some(mode)).Ok?
    requires WellFormed(GetOr(experiments, "defaults", EmptyDict))
    requires WellFormed(Dict(FindScenario(experiments, id).value))
    requires WellFormed(ModeLayer(experiments, mode).value)
    ensures Get(ScenarioConfig(base, experiments, id, Some(mode)).value, k) ==
              Over(Over(Over(Get(base, k), GetOr(experiments, "defaults", EmptyDict), k),
                        GetOr(FindScenario(experiments, id).value, "overrides", EmptyDict), k),
                   ModeLayer(experiments, mode).value, k)
  {
    var defaults := GetOr(experiments, "defaults", EmptyDict);
    var scenario := FindScenario(experiments, id).value;
    var overrides := GetOr(scenario, "overrides", EmptyDict);
    var layer := ModeLayer(experiments, mode).value;
    var c1 := StrictUpdate(base, defaults).value;
    var c2 := StrictUpdate(c1, overrides).value;
    if defaults.Dict? {
      WellFormedIsUnique(defaults.entries);
      MergeGet(base, defaults.entries, k);
    }
    if overrides.Dict? {
      OverridesWellFormed(scenario);
      WellFormedIsUnique(overrides.entries);
      MergeGet(c1, overrides.entries, k);
    }
    if layer.Dict? {
      WellFormedIsUnique(layer.entries);
      MergeGet(c2, layer.entries, k);
    }
  }

  lemma {:induction false} OverridesWellFormed(scenario: seq<KV>)
    requires WellFormed(Dict(scenario))
    ensures WellFormed(GetOr(scenario, "overrides", EmptyDict))
  {
    if scenario != [] && scenario[0].key != "overrides" {
      OverridesWellFormed(scenario[1..]);
    }
  }

  /** A scenario that no group declares is a ValueError, once the defaults merged. */
  lemma UnknownScenario(base: seq<KV>, experiments: seq<KV>, id: string, mode: Option<string>)
    requires var d := GetOr(experiments, "defaults", EmptyDict); d.Null? || d.Dict?
    requires var g := GetOr(experiments, "groups", EmptyDict);
             !Truthy(g) || (g.Dict? && Shaped(g.entries) && !Declares(g.entries, id))
    ensures ScenarioConfig(base, experiments, id, mode) == Err(ValueError)
  {
  }

  /** A mode that `optional_modes` does not hold, or holds empty, is a ValueError
      once the earlier layers merged. */
  lemma MissingMode(base: seq<KV>, experiments: seq<KV>, id: string, mode: string)
    requires Layered(base, experiments, id, None).Ok?
    requires var modes := GetOr(experiments, "optional_modes", EmptyDict);
             !Truthy(modes) || (modes.Dict? && !Truthy(GetOr(modes.entries, mode, EmptyDict)))
    ensures ScenarioConfig(base, experiments, id, Some(mode)) == Err(ValueError)
  {
  }

  /** The loader holds the two parsed documents; nothing it does writes to them. */
  class StrictConfigLoader {
    const base: seq<KV>
    const experiments: seq<KV>

    constructor(base: seq<KV>, experiments: seq<KV>)
      ensures this.base == base && this.experiments == experiments
    {
      this.base := base;
      this.experiments := experiments;
    }

    /** `get_base_params`: a copy of the base settings. */
    method GetBaseParams() returns (r: seq<KV>)
      ensures r == base
    {
      r := base;
    }

    /** `get_scenario_config`, step by step on a copy of the base settings. */
    method GetScenarioConfig(id: string, mode: Option<string>) returns (r: Result<seq<KV>>)
      ensures r == ScenarioConfig(base, experiments, id, mode)
    {
      var config := base;
      var step := DeepUpdate(config, GetOr(experiments, "defaults", EmptyDict));
      if step.Err? {
        return Err(step.error);
      }
      config := step.value;
      var scenario := FindScenario(experiments, id);
      if scenario.Err? {
        return Err(scenario.error);
      }
      step := DeepUpdate(config, GetOr(scenario.value, "overrides", EmptyDict));
      if step.Err? {
        return Err(step.error);
      }
      config := step.value;
      if mode.Some? {
        var layer := ModeLayer(experiments, mode.value);
        if layer.Err? {
          return Err(layer.error);
        }
        step := DeepUpdate(config, layer.value);
        if step.Err? {
          return Err(step.error);
        }
        config := step.value;
      }
      var meta := GetOr(config, "meta", EmptyDict);
      if !meta.Dict? {
        return Err(TypeError);
      }
      config := Put(config, "meta", Dict(MetaEntries(meta.entries, id, mode)));
      return Ok(config);
    }
  }
}
