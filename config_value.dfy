/** Configuration values as loaded from YAML, and the recursive deep merge shared by
    both configuration loaders (project/core/ConfigLoader.py:74-96 and
    project/core/config_loader.py:101-116). A mapping is a list of key/value entries
    in insertion order, as a Python dict iterates. */
module ConfigValue {
  import opened Wrappers

  datatype Value =
    | Null
    | Bool(b: bool)
    | Int(i: int)
    | Float(r: real)
    | Str(s: string)
    | List(items: seq<Value>)
    | Dict(entries: seq<KV>)

  datatype KV = KV(key: string, val: Value)

  const EmptyDict: Value := Dict([])

  /** Python truthiness: None, False, zero and empty containers are false. */
  predicate Truthy(v: Value)
  {
    match v
    case Null => false
    case Bool(b) => b
    case Int(i) => i != 0
    case Float(r) => r != 0.0
    case Str(s) => s != ""
    case List(items) => items != []
    case Dict(entries) => entries != []
  }

  function Keys(d: seq<KV>): set<string>
  {
    if d == [] then {} else {d[0].key} + Keys(d[1..])
  }

  /** No key occurs twice, as in every Python dict. */
  predicate Unique(d: seq<KV>)
  {
    d == [] || (d[0].key !in Keys(d[1..]) && Unique(d[1..]))
  }

  /** A value all of whose mappings, at every depth, have unique keys. */
  predicate WellFormed(v: Value)
  {
    v.Dict? ==> WellFormedEntries(v.entries)
  }

  predicate WellFormedEntries(d: seq<KV>)
  {
    d == [] || (d[0].key !in Keys(d[1..]) && WellFormed(d[0].val) && WellFormedEntries(d[1..]))
  }

  /** `d.get(k)`: the value stored under k, None when k is absent. */
  function Get(d: seq<KV>, k: string): (r: Option<Value>)
    ensures r.Some? <==> k in Keys(d)
  {
    if d == [] then None else if d[0].key == k then Some(d[0].val) else Get(d[1..], k)
  }

  function GetOr(d: seq<KV>, k: string, default: Value): Value
  {
    var r := Get(d, k);
    if r.Some? then r.value else default
  }

  /** `d[k] = v`: an existing key keeps its place, a new key goes at the end. */
  function Put(d: seq<KV>, k: string, v: Value): (r: seq<KV>)
    ensures Get(r, k) == Some(v)
    ensures Keys(r) == Keys(d) + {k}
    ensures |d| <= |r| <= |d| + 1
    ensures forall i :: 0 <= i < |d| ==> r[i].key == d[i].key
  {
    if d == [] then [KV(k, v)]
    else if d[0].key == k then [KV(k, v)] + d[1..]
    else
      var rest := Put(d[1..], k, v);
      assert ([d[0]] + rest)[1..] == rest;
      [d[0]] + rest
  }

  /** Writing one key leaves every other key's value alone. */
  lemma {:induction false} GetPutOther(d: seq<KV>, k: string, v: Value, k': string)
    requires k' != k
    ensures Get(Put(d, k, v), k') == Get(d, k')
  {
    if d != [] && d[0].key != k {
      GetPutOther(d[1..], k, v, k');
      assert Put(d, k, v)[1..] == Put(d[1..], k, v);
    } else if d != [] {
      assert Put(d, k, v)[1..] == d[1..];
    }
  }

  /** Writing back the value a key already has changes nothing. */
  lemma {:induction false} PutExisting(d: seq<KV>, k: string)
    requires k in Keys(d)
    ensures Put(d, k, Get(d, k).value) == d
  {
    if d[0].key != k {
      PutExisting(d[1..], k);
    }
  }

  lemma {:induction false} PutUnique(d: seq<KV>, k: string, v: Value)
    requires Unique(d)
    ensures Unique(Put(d, k, v))
  {
    if d != [] && d[0].key != k {
      PutUnique(d[1..], k, v);
      assert Put(d, k, v)[1..] == Put(d[1..], k, v);
    } else if d != [] {
      assert Put(d, k, v)[1..] == d[1..];
    }
  }

  /** The size that the merge recursion decreases. */
  function Size(v: Value): nat
  {
    if v.Dict? then 1 + EntriesSize(v.entries) else 1
  }

  function EntriesSize(d: seq<KV>): nat
  {
    if d == [] then 0 else 1 + Size(d[0].val) + EntriesSize(d[1..])
  }

  lemma {:induction false} EntrySmaller(d: seq<KV>, i: nat)
    requires i < |d|
    ensures Size(d[i].val) < EntriesSize(d)
  {
    if i > 0 {
      EntrySmaller(d[1..], i - 1);
    }
  }

  /** The value a merge stores under one override key: a mapping override is merged
      into the existing value when that is a mapping, and into an empty mapping
      otherwise; anything else (scalars, lists, None) replaces the existing value. */
  function MergeValue(existing: Option<Value>, v: Value): Value
    decreases Size(v), 1
  {
    if v.Dict? then
      Dict(MergeEntries(if existing.Some? && existing.value.Dict? then existing.value.entries else [], v.entries))
    else v
  }

  /** `_deep_update(source, overrides)` on mappings: each override entry in order is
      merged into the source. */
  function MergeEntries(s: seq<KV>, o: seq<KV>): seq<KV>
    decreases EntriesSize(o), 0
  {
    if o == [] then s
    else MergeEntries(Put(s, o[0].key, MergeValue(Get(s, o[0].key), o[0].val)), o[1..])
  }

  /** The recursive merge, a loop over the override entries that writes into the
      source mapping. */
  method DeepMerge(source: seq<KV>, overrides: seq<KV>) returns (r: seq<KV>)
    ensures r == MergeEntries(source, overrides)
    decreases EntriesSize(overrides)
  {
    r := source;
    var i := 0;
    while i < |overrides|
      invariant 0 <= i <= |overrides|
      invariant MergeEntries(r, overrides[i..]) == MergeEntries(source, overrides)
    {
      var key := overrides[i].key;
      var value := overrides[i].val;
      assert overrides[i..][0] == overrides[i] && overrides[i..][1..] == overrides[i + 1..];
      if value.Dict? {
        var existing := Get(r, key);
        EntrySmaller(overrides, i);
        var merged;
        if existing.Some? && existing.value.Dict? {
          merged := DeepMerge(existing.value.entries, value.entries);
        } else {
          merged := DeepMerge([], value.entries);
        }
        r := Put(r, key, Dict(merged));
      } else {
        r := Put(r, key, value);
      }
      i := i + 1;
    }
    assert overrides[i..] == [];
  }

  /** After a merge, a key holds the merged value when the overrides mention it and
      its source value otherwise. */
  lemma {:induction false} MergeGet(s: seq<KV>, o: seq<KV>, k: string)
    requires Unique(o)
    decreases |o|
    ensures Get(MergeEntries(s, o), k) ==
              if k in Keys(o) then Some(MergeValue(Get(s, k), Get(o, k).value)) else Get(s, k)
  {
    if o != [] {
      var k0 := o[0].key;
      var s' := Put(s, k0, MergeValue(Get(s, k0), o[0].val));
      MergeGet(s', o[1..], k);
      if k != k0 {
        GetPutOther(s, k0, MergeValue(Get(s, k0), o[0].val), k);
      }
    }
  }

  /** The source's keys stay, in their order, followed by the new keys; a mapping
      with unique keys keeps them unique. */
  lemma {:induction false} MergeKeys(s: seq<KV>, o: seq<KV>)
    decreases |o|
    ensures Keys(MergeEntries(s, o)) == Keys(s) + Keys(o)
    ensures |s| <= |MergeEntries(s, o)|
    ensures forall i :: 0 <= i < |s| ==> MergeEntries(s, o)[i].key == s[i].key
    ensures Unique(s) ==> Unique(MergeEntries(s, o))
  {
    if o != [] {
      var s' := Put(s, o[0].key, MergeValue(Get(s, o[0].key), o[0].val));
      MergeKeys(s', o[1..]);
      if Unique(s) {
        PutUnique(s, o[0].key, MergeValue(Get(s, o[0].key), o[0].val));
      }
    }
  }

  /** Merging entries that are already in place changes nothing. */
  lemma {:induction false} MergeFixedPoint(t: seq<KV>, o: seq<KV>)
    requires forall i :: 0 <= i < |o| ==>
               o[i].key in Keys(t) && MergeValue(Get(t, o[i].key), o[i].val) == Get(t, o[i].key).value
    ensures MergeEntries(t, o) == t
  {
    if o != [] {
      PutExisting(t, o[0].key);
      assert forall i :: 0 <= i < |o[1..]| ==> o[1..][i] == o[i + 1];
      MergeFixedPoint(t, o[1..]);
    }
  }

  /** Applying the same overrides twice gives what applying them once gives. */
  lemma {:induction false} MergeValueIdempotent(e: Option<Value>, v: Value)
    requires WellFormed(v)
    ensures MergeValue(Some(MergeValue(e, v)), v) == MergeValue(e, v)
    decreases Size(v), 1
  {
    if v.Dict? {
      var base := if e.Some? && e.value.Dict? then e.value.entries else [];
      MergeIdempotent(base, v.entries);
    }
  }

  lemma {:induction false} MergeIdempotent(s: seq<KV>, o: seq<KV>)
    requires WellFormedEntries(o)
    ensures MergeEntries(MergeEntries(s, o), o) == MergeEntries(s, o)
    decreases EntriesSize(o), 0
  {
    var t := MergeEntries(s, o);
    WellFormedIsUnique(o);
    forall i | 0 <= i < |o|
      ensures o[i].key in Keys(t) && MergeValue(Get(t, o[i].key), o[i].val) == Get(t, o[i].key).value
    {
      KeyAndValueAt(o, i);
      MergeGet(s, o, o[i].key);
      EntrySmaller(o, i);
      WellFormedAt(o, i);
      MergeValueIdempotent(Get(s, o[i].key), o[i].val);
    }
    MergeFixedPoint(t, o);
  }

  lemma {:induction false} WellFormedIsUnique(d: seq<KV>)
    requires WellFormedEntries(d)
    ensures Unique(d)
  {
    if d != [] {
      WellFormedIsUnique(d[1..]);
    }
  }

  lemma {:induction false} WellFormedAt(d: seq<KV>, i: nat)
    requires WellFormedEntries(d) && i < |d|
    ensures WellFormed(d[i].val)
  {
    if i > 0 {
      WellFormedAt(d[1..], i - 1);
    }
  }

  /** In a mapping with unique keys, each entry is what its key looks up. */
  lemma {:induction false} KeyAndValueAt(d: seq<KV>, i: nat)
    requires Unique(d) && i < |d|
    ensures d[i].key in Keys(d) && Get(d, d[i].key) == Some(d[i].val)
  {
    if i > 0 {
      KeyAndValueAt(d[1..], i - 1);
      assert d[i].key != d[0].key;
    }
  }
}
