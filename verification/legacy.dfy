/**
 * The earlier `rz_` interface (`NSObject (RZAutoImport)` with the
 * `RZImportable` protocol): the same engine for classes whose hooks are
 * limited to the two that `RZImportable` declares, custom key mappings and
 * the existing-object lookup. Its lookup returns `instancetype`, so an
 * existing object is always of the calling class.
 */
module Legacy {
  import opened DataTypes
  import opened Importable
  import opened Mapping
  import opened Import

  /** Without a veto hook no entry is ever skipped as vetoed. */
  lemma LegacyNeverVetoes(cls: ImportableClass<Instance>, mapping: ImportMapping, conv: Foundation,
                          current: Properties, key: string, value: Value)
    requires IsLegacy(cls.hooks)
    ensures EntryOutcome(cls, mapping, conv, current, key, value) != Skip(Vetoed)
  {
  }

  /** Without a date-format hook every value converts as for a class with no hooks at all (ISO-8601 dates). */
  lemma LegacyConvertsAsDefault(conv: Foundation, hooks: Hooks<Instance>, t: DataType, key: string, value: Value)
    requires IsLegacy(hooks)
    ensures Convert(conv, hooks, t, key, value) == Convert(conv, NoHooks<Instance>(), t, key, value)
  {
  }

  /** Objects of the class called `name` (what `instancetype` promises of the lookup's answer). */
  predicate OfClass(name: string, objs: set<Instance>) {
    forall o :: o in objs ==> o.className == name
  }

  /** `rz_importValuesFromDict:`: imports the dictionary with the class's mapping, as the current engine does. */
  method RzImportValuesFromDict(obj: Instance, cache: MappingCache<Instance>, dict: Dictionary, conv: Foundation)
    requires cache.Valid() && obj.className in cache.classes && IsLegacy(cache.classes[obj.className].hooks)
    modifies obj, cache
    ensures cache.Valid()
    ensures obj.values == ImportAll(cache.classes[obj.className], BuildMapping(cache.classes[obj.className]),
                                    conv, old(obj.values), dict)
  {
    obj.ImportValuesFromDict(cache, dict, conv);
  }

  /**
   * `rz_objectFromDictionary:`: the existing object for the dictionary, or a
   * new instance, with the dictionary imported; either way an instance of the
   * calling class.
   */
  method RzObjectFromDictionary(cache: MappingCache<Instance>, name: string, dict: Dictionary, conv: Foundation)
    returns (obj: Instance)
    requires cache.Valid() && name in cache.classes && IsLegacy(cache.classes[name].hooks)
    requires OfClass(name, ExistingSet(cache.classes[name].hooks, dict))
    requires forall o :: o in ExistingSet(cache.classes[name].hooks, dict) ==> allocated(o)
    modifies cache, ExistingSet(cache.classes[name].hooks, dict)
    ensures cache.Valid()
    ensures obj.className == name
    ensures ExistingObjectFor(cache.classes[name].hooks, dict).Some? ==>
              && obj == ExistingObjectFor(cache.classes[name].hooks, dict).value
              && obj.values == ImportAll(cache.classes[name], BuildMapping(cache.classes[name]), conv, old(obj.values), dict)
    ensures ExistingObjectFor(cache.classes[name].hooks, dict).None? ==>
              && fresh(obj)
              && obj.values == ImportAll(cache.classes[name], BuildMapping(cache.classes[name]), conv, cache.classes[name].initialValues, dict)
  {
    obj := ObjectFromDictionary(cache, name, dict, conv);
  }

  /**
   * `rz_objectsFromArray:`: one instance of the calling class per dictionary,
   * in order; the existing object for dictionary i, or a distinct new instance
   * holding what dictionary i imports. An existing object ends up with every
   * dictionary that resolves to it imported into it, in order.
   */
  method RzObjectsFromArray(cache: MappingCache<Instance>, name: string, dicts: seq<Dictionary>, conv: Foundation)
    returns (objs: seq<Instance>)
    requires cache.Valid() && name in cache.classes && IsLegacy(cache.classes[name].hooks)
    requires OfClass(name, ExistingObjects(cache.classes[name].hooks, dicts))
    requires forall o :: o in ExistingObjects(cache.classes[name].hooks, dicts) ==> allocated(o)
    modifies cache, ExistingObjects(cache.classes[name].hooks, dicts)
    ensures cache.Valid()
    ensures |objs| == |dicts|
    ensures forall i :: 0 <= i < |objs| ==> objs[i].className == name
    ensures forall i :: 0 <= i < |dicts| && ExistingObjectFor(cache.classes[name].hooks, dicts[i]).Some? ==>
              objs[i] == ExistingObjectFor(cache.classes[name].hooks, dicts[i]).value
    ensures forall i :: 0 <= i < |dicts| && ExistingObjectFor(cache.classes[name].hooks, dicts[i]).None? ==>
              && fresh(objs[i])
              && objs[i].values == ImportAll(cache.classes[name], BuildMapping(cache.classes[name]), conv, cache.classes[name].initialValues, dicts[i])
    ensures forall i, j ::
              (0 <= i < j < |dicts| && ExistingObjectFor(cache.classes[name].hooks, dicts[i]).None? &&
               ExistingObjectFor(cache.classes[name].hooks, dicts[j]).None?) ==> objs[i] != objs[j]
    ensures forall o :: o in ExistingObjects(cache.classes[name].hooks, dicts) ==>
              o.values == ImportSeries(cache.classes[name], conv, old(o.values),
                                       ResolvingTo(cache.classes[name].hooks, dicts, o))
  {
    var hooks := cache.classes[name].hooks;
    objs := ObjectsFromArray(cache, name, dicts, conv);
    forall i | 0 <= i < |objs|
      ensures objs[i].className == name
    {
      if ExistingObjectFor(hooks, dicts[i]).Some? {
        ExistingSetIncluded(hooks, dicts, i);
        assert objs[i] in ExistingSet(hooks, dicts[i]);
      }
    }
  }
}
