/**
 * The import mapping of a class (`rzai_importMapping`): from normalized
 * dictionary key to property name. Each property is registered under its own
 * normalized name; the class's custom key mappings are then registered on top,
 * so an override replaces the inferred entry for the same normalized key. The
 * mapping is computed on first use and cached per class.
 */
module Mapping {
  import opened Wrappers
  import opened Keys
  import opened DataTypes
  import opened Importable

  /** Normalized dictionary key to property name. */
  type ImportMapping = map<string, string>

  /**
   * Registers each (key, property name) pair under the normalized key, in
   * order; a later pair replaces an earlier one with the same normalized key.
   */
  function Register(m: ImportMapping, pairs: seq<(string, string)>): ImportMapping
    decreases |pairs|
  {
    if pairs == [] then m
    else
      var last := pairs[|pairs| - 1];
      Register(m, pairs[..|pairs| - 1])[NormalizedKey(last.0) := last.1]
  }

  /**
   * Registering adds exactly the normalized keys of the pairs, and every entry
   * either was already there or names the target of one of the pairs.
   */
  lemma {:induction false} RegisterEntries(m: ImportMapping, pairs: seq<(string, string)>)
    ensures Register(m, pairs).Keys == m.Keys + set p | p in pairs :: NormalizedKey(p.0)
    ensures forall k :: k in Register(m, pairs) ==>
              (k in m && Register(m, pairs)[k] == m[k]) || (exists p :: p in pairs && Register(m, pairs)[k] == p.1)
    decreases |pairs|
  {
    if pairs != [] {
      var init := pairs[..|pairs| - 1];
      var last := pairs[|pairs| - 1];
      RegisterEntries(m, init);
      assert forall p :: p in init ==> p in pairs;
      assert pairs == init + [last];
    }
  }

  /** The index of the last pair whose key normalizes to `k`, or -1 when there is none. */
  function LastPairFor(pairs: seq<(string, string)>, k: string): (i: int)
    ensures -1 <= i < |pairs|
    ensures i >= 0 ==> NormalizedKey(pairs[i].0) == k
    ensures forall j :: i < j < |pairs| ==> NormalizedKey(pairs[j].0) != k
    decreases |pairs|
  {
    if pairs == [] then -1
    else if NormalizedKey(pairs[|pairs| - 1].0) == k then |pairs| - 1
    else LastPairFor(pairs[..|pairs| - 1], k)
  }

  /** The last pair registered for a normalized key decides its entry; with none, the entry is untouched. */
  lemma {:induction false} RegisterLookup(m: ImportMapping, pairs: seq<(string, string)>, k: string)
    ensures LastPairFor(pairs, k) >= 0 ==>
              k in Register(m, pairs) && Register(m, pairs)[k] == pairs[LastPairFor(pairs, k)].1
    ensures LastPairFor(pairs, k) < 0 ==>
              (k in Register(m, pairs) <==> k in m) && (k in m ==> Register(m, pairs)[k] == m[k])
    decreases |pairs|
  {
    if pairs != [] {
      var init := pairs[..|pairs| - 1];
      RegisterLookup(m, init, k);
      if NormalizedKey(pairs[|pairs| - 1].0) != k {
        assert LastPairFor(pairs, k) == LastPairFor(init, k);
      }
    }
  }

  /** Each property contributes the pair (its name, its name). */
  function PropertyPairs(props: seq<PropertyInfo>): (pairs: seq<(string, string)>)
    ensures |pairs| == |props|
    ensures forall i :: 0 <= i < |props| ==> pairs[i] == (props[i].propertyName, props[i].propertyName)
  {
    seq(|props|, i requires 0 <= i < |props| => (props[i].propertyName, props[i].propertyName))
  }

  /** The inferred mapping: every property under its normalized name. */
  function InferredMapping(props: seq<PropertyInfo>): ImportMapping {
    Register(map[], PropertyPairs(props))
  }

  /**
   * The inferred mapping has a key for each property, its normalized name, and
   * sends it to a property of that normalized name.
   */
  lemma InferredEntries(props: seq<PropertyInfo>)
    ensures InferredMapping(props).Keys == set p | p in props :: NormalizedKey(p.propertyName)
    ensures forall k :: k in InferredMapping(props) ==>
              exists p :: p in props && InferredMapping(props)[k] == p.propertyName && NormalizedKey(p.propertyName) == k
  {
    var pairs := PropertyPairs(props);
    var m := Register(map[], pairs);
    RegisterEntries(map[], pairs);
    assert forall p :: p in props ==> (p.propertyName, p.propertyName) in pairs by {
      forall p | p in props ensures (p.propertyName, p.propertyName) in pairs {
        var i :| 0 <= i < |props| && props[i] == p;
        assert pairs[i] == (p.propertyName, p.propertyName);
      }
    }
    forall k | k in m
      ensures exists p :: p in props && m[k] == p.propertyName && NormalizedKey(p.propertyName) == k
    {
      RegisterLookup(map[], pairs, k);
      var i := LastPairFor(pairs, k);
      assert props[i] in props;
    }
  }

  /**
   * `rzai_importMapping`: the inferred mapping with the class's custom key
   * mappings registered on top of it.
   */
  function BuildMapping<Obj>(cls: ImportableClass<Obj>): ImportMapping {
    Register(InferredMapping(cls.properties), CustomKeyMappings(cls.hooks))
  }

  /**
   * The class mapping holds both kinds of entries: its keys are the normalized
   * property names and the normalized override keys, and each entry names a
   * property of the class or an override's target.
   */
  lemma MappingHoldsInferredAndOverrides<Obj>(cls: ImportableClass<Obj>)
    ensures BuildMapping(cls).Keys == (set p | p in cls.properties :: NormalizedKey(p.propertyName))
                                    + (set c | c in CustomKeyMappings(cls.hooks) :: NormalizedKey(c.0))
    ensures forall k :: k in BuildMapping(cls) ==>
              (exists p :: p in cls.properties && BuildMapping(cls)[k] == p.propertyName) ||
              (exists c :: c in CustomKeyMappings(cls.hooks) && BuildMapping(cls)[k] == c.1)
  {
    InferredEntries(cls.properties);
    RegisterEntries(InferredMapping(cls.properties), CustomKeyMappings(cls.hooks));
    forall k | k in BuildMapping(cls)
      ensures (exists p :: p in cls.properties && BuildMapping(cls)[k] == p.propertyName) ||
              (exists c :: c in CustomKeyMappings(cls.hooks) && BuildMapping(cls)[k] == c.1)
    {
      if k in InferredMapping(cls.properties) && BuildMapping(cls)[k] == InferredMapping(cls.properties)[k] {
        var p :| p in cls.properties && InferredMapping(cls.properties)[k] == p.propertyName
                 && NormalizedKey(p.propertyName) == k;
      }
    }
  }

  /** The property a dictionary key maps to, if any: the key is looked up in normalized form. */
  function PropertyForKey(m: ImportMapping, key: string): (r: Option<string>)
    ensures r.Some? <==> NormalizedKey(key) in m
    ensures r.Some? ==> r.value == m[NormalizedKey(key)]
  {
    var k := NormalizedKey(key);
    if k in m then Some(m[k]) else None
  }

  /** No two properties of the class normalize to the same key. */
  ghost predicate DistinctNormalizedNames(props: seq<PropertyInfo>) {
    forall i, j :: 0 <= i < j < |props| ==> NormalizedKey(props[i].propertyName) != NormalizedKey(props[j].propertyName)
  }

  /** An override for a key's normalized form decides where the key goes, whatever was inferred. */
  lemma OverrideWins<Obj>(cls: ImportableClass<Obj>, key: string)
    requires LastPairFor(CustomKeyMappings(cls.hooks), NormalizedKey(key)) >= 0
    ensures PropertyForKey(BuildMapping(cls), key) ==
            Some(CustomKeyMappings(cls.hooks)[LastPairFor(CustomKeyMappings(cls.hooks), NormalizedKey(key))].1)
  {
    RegisterLookup(InferredMapping(cls.properties), CustomKeyMappings(cls.hooks), NormalizedKey(key));
  }

  /** Every custom key mapping (not replaced by a later one for the same normalized key) is in the class mapping. */
  lemma CustomMappingsAppear<Obj>(cls: ImportableClass<Obj>, i: int)
    requires 0 <= i < |CustomKeyMappings(cls.hooks)|
    requires forall j :: i < j < |CustomKeyMappings(cls.hooks)| ==>
               NormalizedKey(CustomKeyMappings(cls.hooks)[j].0) != NormalizedKey(CustomKeyMappings(cls.hooks)[i].0)
    ensures PropertyForKey(BuildMapping(cls), CustomKeyMappings(cls.hooks)[i].0) == Some(CustomKeyMappings(cls.hooks)[i].1)
  {
    var custom := CustomKeyMappings(cls.hooks);
    var k := NormalizedKey(custom[i].0);
    assert LastPairFor(custom, k) == i;
    RegisterLookup(InferredMapping(cls.properties), custom, k);
  }

  /** Without an override for a key, the key goes where the inferred mapping sends it. */
  lemma InferredWhenNotOverridden<Obj>(cls: ImportableClass<Obj>, key: string)
    requires LastPairFor(CustomKeyMappings(cls.hooks), NormalizedKey(key)) < 0
    ensures PropertyForKey(BuildMapping(cls), key) == PropertyForKey(InferredMapping(cls.properties), key)
  {
    RegisterLookup(InferredMapping(cls.properties), CustomKeyMappings(cls.hooks), NormalizedKey(key));
  }

  /**
   * Automatic matching: a key without an override reaches a property exactly
   * when the two normalize alike (given that no two properties of the class do).
   */
  lemma KeyReachesProperty<Obj>(cls: ImportableClass<Obj>, key: string, p: PropertyInfo)
    requires p in cls.properties
    requires DistinctNormalizedNames(cls.properties)
    requires LastPairFor(CustomKeyMappings(cls.hooks), NormalizedKey(key)) < 0
    ensures PropertyForKey(BuildMapping(cls), key) == Some(p.propertyName) <==> KeyMatches(key, p.propertyName)
  {
    var props := cls.properties;
    var pairs := PropertyPairs(props);
    var k := NormalizedKey(key);
    InferredWhenNotOverridden(cls, key);
    RegisterLookup(map[], pairs, k);
    var i := LastPairFor(pairs, k);
    var j :| 0 <= j < |props| && props[j] == p;
    if KeyMatches(key, p.propertyName) {
      assert NormalizedKey(pairs[j].0) == k;
      assert i >= j;
      assert i == j;
    }
  }

  /** A class with no custom key mappings uses the inferred mapping alone. */
  lemma NoOverridesMeansInferred<Obj>(cls: ImportableClass<Obj>)
    requires cls.hooks.customKeyMappings.None?
    ensures BuildMapping(cls) == InferredMapping(cls.properties)
  {
  }

  /** Computes the import mapping of a class: one pass over its properties, one over its overrides. */
  method ComputeMapping<Obj>(cls: ImportableClass<Obj>) returns (m: ImportMapping)
    ensures m == BuildMapping(cls)
  {
    var props := cls.properties;
    ghost var pairs := PropertyPairs(props);
    m := map[];
    var i := 0;
    while i < |props|
      invariant 0 <= i <= |props|
      invariant m == Register(map[], pairs[..i])
    {
      var name := props[i].propertyName;
      m := m[NormalizedKey(name) := name];
      i := i + 1;
      assert pairs[..i][..i - 1] == pairs[..i - 1];
    }
    assert pairs[..|props|] == pairs;
    var custom := CustomKeyMappings(cls.hooks);
    var j := 0;
    while j < |custom|
      invariant 0 <= j <= |custom|
      invariant m == Register(InferredMapping(props), custom[..j])
    {
      m := m[NormalizedKey(custom[j].0) := custom[j].1];
      j := j + 1;
      assert custom[..j][..j - 1] == custom[..j - 1];
    }
    assert custom[..|custom|] == custom;
  }

  /**
   * The per-class mapping cache. `classes` is the runtime's class table;
   * `mappings` holds the mapping of every class imported so far.
   */
  class MappingCache<Obj> {
    const classes: map<string, ImportableClass<Obj>>
    var mappings: map<string, ImportMapping>

    /** Every cached mapping is the mapping of its class. */
    ghost predicate Valid()
      reads this
    {
      forall name :: name in mappings ==> name in classes && mappings[name] == BuildMapping(classes[name])
    }

    constructor (classes: map<string, ImportableClass<Obj>>)
      ensures Valid()
      ensures this.classes == classes && mappings == map[]
    {
      this.classes := classes;
      mappings := map[];
    }

    /**
     * `rzai_importMapping`: the class's mapping, computed and cached on first
     * use; later calls return the cached mapping unchanged.
     */
    method ImportMapping(name: string) returns (m: ImportMapping)
      requires Valid() && name in classes
      modifies this
      ensures Valid()
      ensures m == BuildMapping(classes[name])
      ensures name in old(mappings) ==> m == old(mappings)[name]
      ensures mappings == old(mappings)[name := m]
    {
      if name in mappings {
        m := mappings[name];
      } else {
        m := ComputeMapping(classes[name]);
        mappings := mappings[name := m];
      }
    }
  }
}
