/** The caching configuration loader (project/core/config_loader.py): every scenario
    of the experiments document is collected into a cache keyed by id when the loader
    is built; a scenario configuration is the base settings with the defaults, the
    scenario's overrides and an optional mode's overrides merged over it, where
    overrides that are not a mapping are ignored rather than rejected. */
module CachedConfig {
  import opened Wrappers
  import opened ConfigValue

  /** The scenario cache: Python dict keys are hashable values. */
  type Cache = map<Value, Value>

  /** `_deep_update` of this loader: anything but a mapping leaves the source as it is. */
  function LenientUpdate(source: seq<KV>, overrides: Value): (r: seq<KV>)
    ensures !overrides.Dict? ==> r == source
    ensures Keys(r) == Keys(source) + (if overrides.Dict? then Keys(overrides.entries) else {})
  {
    if overrides.Dict? then
      MergeKeys(source, overrides.entries);
      MergeEntries(source, overrides.entries)
    else source
  }

  method DeepUpdate(source: seq<KV>, overrides: Value) returns (r: seq<KV>)
    ensures r == LenientUpdate(source, overrides)
  {
    if !overrides.Dict? {
      return source;
    }
    r := DeepMerge(source, overrides.entries);
  }

  /** `cache.update(flat_scenarios)`: each entry of the flat mapping in order. */
  function UpdateAll(cache: Cache, flat: seq<KV>): (r: Cache)
    decreases |flat|
    ensures r.Keys == cache.Keys + (set k | k in Keys(flat) :: Str(k))
    ensures forall k :: k in Keys(flat) && Unique(flat) ==> r[Str(k)] == Get(flat, k).value
    ensures forall key :: key in cache && !(key.Str? && key.s in Keys(flat)) ==> r[key] == cache[key]
  {
    if flat == [] then cache
    else UpdateAll(cache[Str(flat[0].key) := flat[0].val], flat[1..])
  }

  /** A value Python can use as a dict key: lists and dicts are unhashable. */
  predicate Hashable(v: Value)
  {
    !v.List? && !v.Dict?
  }

  /** The id a scenario dict is cached under, when it has a truthy one. */
  function IdOf(sc: Value): Value
    requires sc.Dict?
  {
    GetOr(sc.entries, "id", Null)
  }

  /** The inner loop of `_preload_scenarios`: every item must be a dict; an item
      with a truthy id is stored under it, and an unhashable id is a TypeError. */
  function CacheList(cache: Cache, items: seq<Value>): (r: Result<Cache>)
    decreases |items|
    ensures r.Ok? <==> forall v :: v in items ==> v.Dict? && (Truthy(IdOf(v)) ==> Hashable(IdOf(v)))
    ensures r.Err? ==> r.error in {AttributeError, TypeError}
    ensures r.Ok? ==> cache.Keys <= r.value.Keys
  {
    if items == [] then Ok(cache)
    else if !items[0].Dict? then Err(AttributeError)
    else
      var id := IdOf(items[0]);
      var next := if !Truthy(id) then Ok(cache) else if !Hashable(id) then Err(TypeError) else Ok(cache[id := items[0]]);
      if next.Err? then next
      else
        var rest := CacheList(next.value, items[1..]);
        assert forall v :: v in items ==> v == items[0] || v in items[1..];
        rest
  }

  /** The outer loop of `_preload_scenarios`, over the groups in order: each group
      must be a dict; a `scenarios` entry that is a list is cached, anything else is
      skipped. */
  function CacheGroups(cache: Cache, groups: seq<KV>): (r: Result<Cache>)
    decreases |groups|
    ensures r.Err? ==> r.error in {AttributeError, TypeError}
    ensures r.Ok? ==> cache.Keys <= r.value.Keys
  {
    if groups == [] then Ok(cache)
    else if !groups[0].val.Dict? then Err(AttributeError)
    else
      var scenarios := GetOr(groups[0].val.entries, "scenarios", List([]));
      var next := if scenarios.List? then CacheList(cache, scenarios.items) else Ok(cache);
      if next.Err? then next else CacheGroups(next.value, groups[1..])
  }

  /** `_preload_scenarios` from a given cache: the flat `scenarios` mapping first,
      then the groups. */
  function Preloaded(cache: Cache, experiments: seq<KV>): (r: Result<Cache>)
    ensures r.Err? ==> r.error in {AttributeError, TypeError}
  {
    var flat := GetOr(experiments, "scenarios", EmptyDict);
    var withFlat := if flat.Dict? then UpdateAll(cache, flat.entries) else cache;
    var groups := GetOr(experiments, "groups", EmptyDict);
    if groups.Dict? then CacheGroups(withFlat, groups.entries) else Ok(withFlat)
  }

  /** Some item of the list, after position i, is stored under the key. */
  predicate StoredLater(items: seq<Value>, i: nat, key: Value)
  {
    exists j :: i < j < |items| && items[j].Dict? && IdOf(items[j]) == key
  }

  /** Later entries win: the last item of a list stored under an id is what the
      cache holds for it. */
  lemma {:induction false} CacheListLast(cache: Cache, items: seq<Value>, i: nat)
    decreases |items|
    requires CacheList(cache, items).Ok?
    requires i < |items| && items[i].Dict? && Truthy(IdOf(items[i]))
    requires !StoredLater(items, i, IdOf(items[i]))
    ensures var r := CacheList(cache, items).value; IdOf(items[i]) in r && r[IdOf(items[i])] == items[i]
  {
    var id := IdOf(items[0]);
    var next := if !Truthy(id) then cache else cache[id := items[0]];
    if i == 0 {
      CacheListKeeps(next, items[1..], IdOf(items[0]));
    } else {
      forall j | i - 1 < j < |items[1..]| && items[1..][j].Dict?
        ensures IdOf(items[1..][j]) != IdOf(items[i])
      {
        assert items[1..][j] == items[j + 1];
      }
      CacheListLast(next, items[1..], i - 1);
    }
  }

  /** A key that no item of the list is stored under keeps its value. */
  lemma {:induction false} CacheListKeeps(cache: Cache, items: seq<Value>, key: Value)
    decreases |items|
    requires CacheList(cache, items).Ok?
    requires forall j :: 0 <= j < |items| && items[j].Dict? ==> IdOf(items[j]) != key
    ensures key in cache ==> key in CacheList(cache, items).value && CacheList(cache, items).value[key] == cache[key]
  {
    if items != [] {
      var id := IdOf(items[0]);
      var next := if !Truthy(id) then cache else cache[id := items[0]];
      assert forall j :: 0 <= j < |items[1..]| ==> items[1..][j] == items[j + 1];
      CacheListKeeps(next, items[1..], key);
    }
  }

  /** Some group's scenario list holds a dict stored under the key. */
  predicate GroupsStore(groups: seq<KV>, key: Value)
    decreases |groups|
  {
    groups != [] &&
    ((groups[0].val.Dict? && GetOr(groups[0].val.entries, "scenarios", List([])).List?
      && exists v :: v in GetOr(groups[0].val.entries, "scenarios", List([])).items && v.Dict? && IdOf(v) == key)
     || GroupsStore(groups[1..], key))
  }

  /** A key that no group stores keeps the value it had before the groups. */
  lemma {:induction false} CacheGroupsKeeps(cache: Cache, groups: seq<KV>, key: Value)
    decreases |groups|
    requires CacheGroups(cache, groups).Ok?
    requires !GroupsStore(groups, key)
    ensures key in cache ==> key in CacheGroups(cache, groups).value && CacheGroups(cache, groups).value[key] == cache[key]
  {
    if groups != [] {
      var scenarios := GetOr(groups[0].val.entries, "scenarios", List([]));
      if scenarios.List? {
        forall j | 0 <= j < |scenarios.items| && scenarios.items[j].Dict?
          ensures IdOf(scenarios.items[j]) != key
        {
          assert scenarios.items[j] in scenarios.items;
        }
        CacheListKeeps(cache, scenarios.items, key);
        CacheGroupsKeeps(CacheList(cache, scenarios.items).value, groups[1..], key);
      } else {
        CacheGroupsKeeps(cache, groups[1..], key);
      }
    }
  }

  /** Later groups win: an item stored under an id that no later item of its own
      list and no later group stores is what the cache holds for that id, whatever
      was cached for it before. */
  lemma {:induction false} CacheGroupsLast(cache: Cache, groups: seq<KV>, g: nat, items: seq<Value>, i: nat)
    decreases |groups|
    requires CacheGroups(cache, groups).Ok?
    requires g < |groups| && groups[g].val.Dict?
    requires GetOr(groups[g].val.entries, "scenarios", List([])) == List(items)
    requires i < |items| && items[i].Dict? && Truthy(IdOf(items[i]))
    requires !StoredLater(items, i, IdOf(items[i])) && !GroupsStore(groups[g + 1..], IdOf(items[i]))
    ensures var r := CacheGroups(cache, groups).value; IdOf(items[i]) in r && r[IdOf(items[i])] == items[i]
  {
    var scenarios := GetOr(groups[0].val.entries, "scenarios", List([]));
    var next := if scenarios.List? then CacheList(cache, scenarios.items).value else cache;
    if g == 0 {
      CacheListLast(cache, items, i);
      assert groups[1..] == groups[g + 1..];
      CacheGroupsKeeps(next, groups[1..], IdOf(items[i]));
    } else {
      assert groups[1..][g - 1] == groups[g];
      assert groups[1..][g..] == groups[g + 1..];
      CacheGroupsLast(next, groups[1..], g - 1, items, i);
    }
  }

  /** The groups are cached after the flat mapping, so a group item that is the
      last to store its id is what the preloaded cache holds for it, even when the
      flat mapping also has an entry under that id. */
  lemma GroupEntryWins(cache: Cache, experiments: seq<KV>, g: nat, items: seq<Value>, i: nat)
    requires Preloaded(cache, experiments).Ok?
    requires i < |items| && items[i].Dict? && Truthy(IdOf(items[i])) && !StoredLater(items, i, IdOf(items[i]))
    requires var groups := GetOr(experiments, "groups", EmptyDict);
             groups.Dict? && g < |groups.entries| && groups.entries[g].val.Dict?
             && GetOr(groups.entries[g].val.entries, "scenarios", List([])) == List(items)
             && !GroupsStore(groups.entries[g + 1..], IdOf(items[i]))
    ensures IdOf(items[i]) in Preloaded(cache, experiments).value
    ensures Preloaded(cache, experiments).value[IdOf(items[i])] == items[i]
  {
    var flat := GetOr(experiments, "scenarios", EmptyDict);
    var withFlat := if flat.Dict? then UpdateAll(cache, flat.entries) else cache;
    var groups := GetOr(experiments, "groups", EmptyDict);
    CacheGroupsLast(withFlat, groups.entries, g, items, i);
  }

  /** The flat `scenarios` mapping is cached first: an id it holds that no group
      stores is looked up to the flat entry. */
  lemma FlatEntryKept(experiments: seq<KV>, k: string)
    requires Preloaded(map[], experiments).Ok?
    requires var flat := GetOr(experiments, "scenarios", EmptyDict);
             flat.Dict? && Unique(flat.entries) && k in Keys(flat.entries)
    requires var groups := GetOr(experiments, "groups", EmptyDict);
             !(groups.Dict? && GroupsStore(groups.entries, Str(k)))
    ensures Str(k) in Preloaded(map[], experiments).value
    ensures Preloaded(map[], experiments).value[Str(k)] == Get(GetOr(experiments, "scenarios", EmptyDict).entries, k).value
  {
    var flat := GetOr(experiments, "scenarios", EmptyDict);
    var groups := GetOr(experiments, "groups", EmptyDict);
    if groups.Dict? {
      CacheGroupsKeeps(UpdateAll(map[], flat.entries), groups.entries, Str(k));
    }
  }

  /** `get_scenario_config` of this loader, from a built cache. */
  function ScenarioConfig(base: seq<KV>, experiments: seq<KV>, cache: Cache, id: string, mode: Option<string>): (r: Result<seq<KV>>)
    ensures r == Err(KeyError) <==> Str(id) !in cache
    ensures r.Ok? ==> Keys(base) <= Keys(r.value)
  {
    var withDefaults := LenientUpdate(base, GetOr(experiments, "defaults", EmptyDict));
    if Str(id) !in cache then Err(KeyError)
    else
      var scenario := cache[Str(id)];
      if !scenario.Dict? then Err(AttributeError)
      else
        var withScenario := LenientUpdate(withDefaults, GetOr(scenario.entries, "overrides", EmptyDict));
        if mode.None? then Ok(withScenario)
        else
          var modes := GetOr(experiments, "optional_modes", EmptyDict);
          if !modes.Dict? then Err(AttributeError)
          else
            var layer := GetOr(modes.entries, mode.value, EmptyDict);
            if !Truthy(layer) then Ok(withScenario) else Ok(LenientUpdate(withScenario, layer))
  }

  /** A mode that `optional_modes` does not hold, or holds empty, only prints a
      warning: the configuration is the one without a mode. */
  lemma UnknownModeIgnored(base: seq<KV>, experiments: seq<KV>, cache: Cache, id: string, mode: string)
    requires var modes := GetOr(experiments, "optional_modes", EmptyDict);
             modes.Dict? && !Truthy(GetOr(modes.entries, mode, EmptyDict))
    ensures ScenarioConfig(base, experiments, cache, id, Some(mode)) == ScenarioConfig(base, experiments, cache, id, None)
  {
  }

  /** A known mode is the last layer: its overrides are merged over the
      configuration without a mode, and win for every key they set to a
      non-mapping value. */
  lemma KnownModeMergedLast(base: seq<KV>, experiments: seq<KV>, cache: Cache, id: string, mode: string, k: string)
    requires ScenarioConfig(base, experiments, cache, id, None).Ok?
    requires var modes := GetOr(experiments, "optional_modes", EmptyDict);
             modes.Dict? && GetOr(modes.entries, mode, EmptyDict).Dict? && Truthy(GetOr(modes.entries, mode, EmptyDict))
    ensures var layer := GetOr(GetOr(experiments, "optional_modes", EmptyDict).entries, mode, EmptyDict);
            ScenarioConfig(base, experiments, cache, id, Some(mode))
              == Ok(MergeEntries(ScenarioConfig(base, experiments, cache, id, None).value, layer.entries))
    ensures var layer := GetOr(GetOr(experiments, "optional_modes", EmptyDict).entries, mode, EmptyDict);
            Unique(layer.entries) && k in Keys(layer.entries) && !Get(layer.entries, k).value.Dict? ==>
              Get(ScenarioConfig(base, experiments, cache, id, Some(mode)).value, k) == Get(layer.entries, k)
  {
    var layer := GetOr(GetOr(experiments, "optional_modes", EmptyDict).entries, mode, EmptyDict);
    if Unique(layer.entries) {
      MergeGet(ScenarioConfig(base, experiments, cache, id, None).value, layer.entries, k);
    }
  }

  class CachedConfigLoader {
    const base: seq<KV>
    const experiments: seq<KV>
    var scenarioCache: Cache

    constructor(base: seq<KV>, experiments: seq<KV>)
      ensures this.base == base && this.experiments == experiments && scenarioCache == map[]
    {
      this.base := base;
      this.experiments := experiments;
      scenarioCache := map[];
    }

    /** `_preload_scenarios`: fills the cache in place; on an error the cache holds
        what was stored before it. */
    method Preload() returns (outcome: Result<()>)
      modifies this
      ensures outcome.Ok? <==> Preloaded(old(scenarioCache), experiments).Ok?
      ensures outcome.Ok? ==> scenarioCache == Preloaded(old(scenarioCache), experiments).value
      ensures outcome.Err? ==> outcome.error == Preloaded(old(scenarioCache), experiments).error
    {
      var flat := GetOr(experiments, "scenarios", EmptyDict);
      if flat.Dict? {
        scenarioCache := UpdateAll(scenarioCache, flat.entries);
      }
      var groups := GetOr(experiments, "groups", EmptyDict);
      if !groups.Dict? {
        return Ok(());
      }
      var i := 0;
      while i < |groups.entries|
        invariant 0 <= i <= |groups.entries|
        invariant CacheGroups(scenarioCache, groups.entries[i..]) == Preloaded(old(scenarioCache), experiments)
      {
        assert groups.entries[i..][0] == groups.entries[i] && groups.entries[i..][1..] == groups.entries[i + 1..];
        var groupData := groups.entries[i].val;
        if !groupData.Dict? {
          return Err(AttributeError);
        }
        var scenarios := GetOr(groupData.entries, "scenarios", List([]));
        if scenarios.List? {
          var step := CacheScenarios(scenarios.items);
          if step.Err? {
            return step;
          }
        }
        i := i + 1;
      }
      assert groups.entries[i..] == [];
      return Ok(());
    }

    /** One group's scenario list, stored into the cache in order. */
    method CacheScenarios(items: seq<Value>) returns (outcome: Result<()>)
      modifies this
      ensures outcome.Ok? <==> CacheList(old(scenarioCache), items).Ok?
      ensures outcome.Ok? ==> scenarioCache == CacheList(old(scenarioCache), items).value
      ensures outcome.Err? ==> outcome.error == CacheList(old(scenarioCache), items).error
    {
      var j := 0;
      while j < |items|
        invariant 0 <= j <= |items|
        invariant CacheList(scenarioCache, items[j..]) == CacheList(old(scenarioCache), items)
      {
        assert items[j..][0] == items[j] && items[j..][1..] == items[j + 1..];
        var sc := items[j];
        if !sc.Dict? {
          return Err(AttributeError);
        }
        var scId := GetOr(sc.entries, "id", Null);
        if Truthy(scId) {
          if !Hashable(scId) {
            return Err(TypeError);
          }
          scenarioCache := scenarioCache[scId := sc];
        }
        j := j + 1;
      }
      assert items[j..] == [];
      return Ok(());
    }

    /** `get_base_params`: a copy of the base settings. */
    method GetBaseParams() returns (r: seq<KV>)
      ensures r == base
    {
      r := base;
    }

    /** `get_scenario_config`, step by step on a copy of the base settings. */
    method GetScenarioConfig(id: string, mode: Option<string>) returns (r: Result<seq<KV>>)
      ensures r == ScenarioConfig(base, experiments, scenarioCache, id, mode)
    {
      var config := DeepUpdate(base, GetOr(experiments, "defaults", EmptyDict));
      if Str(id) !in scenarioCache {
        return Err(KeyError);
      }
      var scenario := scenarioCache[Str(id)];
      if !scenario.Dict? {
        return Err(AttributeError);
      }
      config := DeepUpdate(config, GetOr(scenario.entries, "overrides", EmptyDict));
      if mode.Some? {
        var modes := GetOr(experiments, "optional_modes", EmptyDict);
        if !modes.Dict? {
          return Err(AttributeError);
        }
        var layer := GetOr(modes.entries, mode.value, EmptyDict);
        if Truthy(layer) {
          config := DeepUpdate(config, layer);
        }
      }
      return Ok(config);
    }
  }

  /** The loader's constructor: an empty cache, then the preload; an error in the
      preload is raised from the constructor. */
  method NewCachedConfigLoader(base: seq<KV>, experiments: seq<KV>) returns (r: Result<CachedConfigLoader>)
    ensures r.Ok? <==> Preloaded(map[], experiments).Ok?
    ensures r.Err? ==> r.error == Preloaded(map[], experiments).error
    ensures r.Ok? ==> fresh(r.value) && r.value.base == base && r.value.experiments == experiments
                      && r.value.scenarioCache == Preloaded(map[], experiments).value
  {
    var loader := new CachedConfigLoader(base, experiments);
    var outcome := loader.Preload();
    if outcome.Err? {
      return Err(outcome.error);
    }
    return Ok(loader);
  }
}
