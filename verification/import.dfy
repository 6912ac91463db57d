/**
 * The import engine (`NSObject (RZAutoImport)`): importing a dictionary into an
 * object's properties one entry at a time, creating or reusing an object for a
 * dictionary, and doing so for every dictionary of an array.
 *
 * For each dictionary entry, in enumeration order: the key is looked up in
 * normalized form in the class's import mapping (no match: skipped); the
 * class's veto hook is asked with the unmodified key and value (NO: skipped);
 * the mapped property's data type decides the conversion (not possible:
 * skipped, only logged); otherwise the converted value is assigned. Nothing is
 * ever raised as an error.
 */
module Import {
  import opened Wrappers
  import opened Keys
  import opened DataTypes
  import opened Importable
  import opened Mapping

  /** The Foundation conversions the engine relies on: number parsing, number formatting, date parsing. */
  datatype Foundation = Foundation(
    numberFromString: string -> Option<int>,
    stringFromNumber: int -> string,
    dateFromString: (string, DateFormat) -> Option<int>)

  /** A value a property of the given data type can hold as it is. */
  predicate Fits(t: DataType, v: Value) {
    match t
    case Unknown => false
    case Primitive => v.Number?
    case NSNumber => v.Number?
    case NSString => v.Str?
    case NSDate => v.Date?
    case NSDictionary => v.Dict?
    case NSArray => v.Array?
  }

  /**
   * Converts a dictionary value for a property of data type `t`: a value that
   * already fits is kept; a string becomes a number by parsing; a number
   * becomes a string by formatting or a date as seconds since the epoch; a
   * string becomes a date by parsing with the class's format for the
   * unmodified key (ISO-8601 by default). Anything else, and every value for
   * an Unknown type, cannot be converted.
   */
  function Convert<Obj>(conv: Foundation, hooks: Hooks<Obj>, t: DataType, key: string, value: Value): (r: Option<Value>)
    ensures r.Some? ==> Fits(t, r.value)
    ensures Fits(t, value) ==> r == Some(value)
    ensures t == Unknown ==> r.None?
    ensures t == NSDate && value.Str? ==>
              (r.Some? <==> conv.dateFromString(value.s, DateFormatFor(hooks, key)).Some?) &&
              (r.Some? ==> r.value.seconds == conv.dateFromString(value.s, DateFormatFor(hooks, key)).value)
    ensures (t == Primitive || t == NSNumber) && value.Str? ==>
              (r.Some? <==> conv.numberFromString(value.s).Some?) &&
              (r.Some? ==> r.value.n == conv.numberFromString(value.s).value)
    ensures t == NSString && value.Number? ==> r == Some(Str(conv.stringFromNumber(value.n)))
    ensures t == NSDate && value.Number? ==> r == Some(Date(value.n))
    ensures !Fits(t, value) && (value.Dict? || value.Array? || value.Other? || value.Date?) ==> r.None?
    ensures (t == NSDictionary || t == NSArray) && !Fits(t, value) ==> r.None?
  {
    if Fits(t, value) then Some(value)
    else if (t == Primitive || t == NSNumber) && value.Str? then
      match conv.numberFromString(value.s)
      case None => None
      case Some(n) => Some(Number(n))
    else if t == NSString && value.Number? then Some(Str(conv.stringFromNumber(value.n)))
    else if t == NSDate && value.Number? then Some(Date(value.n))
    else if t == NSDate && value.Str? then
      match conv.dateFromString(value.s, DateFormatFor(hooks, key))
      case None => None
      case Some(seconds) => Some(Date(seconds))
    else None
  }

  /** The date-format hook matters only for a string going into a date property. */
  lemma DateFormatOnlyForDateStrings<Obj>(conv: Foundation, hooks: Hooks<Obj>, other: Option<string -> Option<string>>,
                                          t: DataType, key: string, value: Value)
    requires !(t == NSDate && value.Str?)
    ensures Convert(conv, hooks, t, key, value) == Convert(conv, hooks.(dateFormatForKey := other), t, key, value)
  {
  }

  /** The first property with the given name, if the class declares one. */
  function FindProperty(props: seq<PropertyInfo>, name: string): (r: Option<PropertyInfo>)
    ensures r.Some? ==> r.value in props && r.value.propertyName == name
    ensures r.None? ==> forall p :: p in props ==> p.propertyName != name
  {
    if props == [] then None
    else if props[0].propertyName == name then Some(props[0])
    else FindProperty(props[1..], name)
  }

  /** Why an entry was not imported; each reason is only logged, never raised. */
  datatype SkipReason = Unmapped | Vetoed | Undeclared | NotConvertible

  /** What the engine does with one dictionary entry. */
  datatype Outcome = Assign(property: string, value: Value) | Skip(reason: SkipReason)

  /**
   * The outcome of one entry, given the receiver's current property values.
   * An entry is skipped as unmapped exactly when its key is not in the
   * mapping, and as vetoed exactly when it is mapped and the veto hook says
   * NO. It is assigned exactly when it is mapped, not vetoed, the mapped
   * property is declared and the value converts; the value assigned is then
   * the converted value, which fits the property's data type.
   */
  function EntryOutcome<Obj>(cls: ImportableClass<Obj>, mapping: ImportMapping, conv: Foundation,
                             current: Properties, key: string, value: Value): (o: Outcome)
    ensures PropertyForKey(mapping, key).None? <==> o == Skip(Unmapped)
    ensures o == Skip(Vetoed) <==> PropertyForKey(mapping, key).Some? && !ShouldImport(cls.hooks, current, value, key)
    ensures o.Assign? <==>
              && PropertyForKey(mapping, key).Some?
              && ShouldImport(cls.hooks, current, value, key)
              && FindProperty(cls.properties, PropertyForKey(mapping, key).value).Some?
              && Convert(conv, cls.hooks, FindProperty(cls.properties, PropertyForKey(mapping, key).value).value.dataType,
                         key, value).Some?
    ensures o.Assign? ==>
              && PropertyForKey(mapping, key) == Some(o.property)
              && FindProperty(cls.properties, o.property).Some?
              && Fits(FindProperty(cls.properties, o.property).value.dataType, o.value)
              && Convert(conv, cls.hooks, FindProperty(cls.properties, o.property).value.dataType, key, value)
                 == Some(o.value)
  {
    match PropertyForKey(mapping, key)
    case None => Skip(Unmapped)
    case Some(name) =>
      if !ShouldImport(cls.hooks, current, value, key) then Skip(Vetoed)
      else
        match FindProperty(cls.properties, name)
        case None => Skip(Undeclared)
        case Some(info) =>
          match Convert(conv, cls.hooks, info.dataType, key, value)
          case None => Skip(NotConvertible)
          case Some(converted) => Assign(name, converted)
  }

  /** A mapped entry that is not vetoed and already fits its declared property is assigned unchanged. */
  lemma FittingValueAssigned<Obj>(cls: ImportableClass<Obj>, mapping: ImportMapping, conv: Foundation,
                                  current: Properties, key: string, value: Value, info: PropertyInfo)
    requires PropertyForKey(mapping, key) == Some(info.propertyName)
    requires ShouldImport(cls.hooks, current, value, key)
    requires FindProperty(cls.properties, info.propertyName) == Some(info)
    requires Fits(info.dataType, value)
    ensures EntryOutcome(cls, mapping, conv, current, key, value) == Assign(info.propertyName, value)
  {
  }

  /** A matched key whose property type is Unknown is skipped as not convertible, never an error. */
  lemma UnknownTypeSkipped<Obj>(cls: ImportableClass<Obj>, mapping: ImportMapping, conv: Foundation,
                                current: Properties, key: string, value: Value)
    requires PropertyForKey(mapping, key).Some?
    requires ShouldImport(cls.hooks, current, value, key)
    requires FindProperty(cls.properties, PropertyForKey(mapping, key).value) == Some(PropertyInfo(PropertyForKey(mapping, key).value, Unknown))
    ensures EntryOutcome(cls, mapping, conv, current, key, value) == Skip(NotConvertible)
  {
  }

  /** Applies an outcome to the property values. */
  function Apply(current: Properties, o: Outcome): (r: Properties)
    ensures o.Skip? ==> r == current
    ensures o.Assign? ==> r.Keys == current.Keys + {o.property} && r[o.property] == o.value
    ensures forall n :: n in current && !(o.Assign? && n == o.property) ==> n in r && r[n] == current[n]
  {
    if o.Assign? then current[o.property := o.value] else current
  }

  /** The property values after importing the entries of `dict` in order. */
  function ImportAll<Obj>(cls: ImportableClass<Obj>, mapping: ImportMapping, conv: Foundation,
                          current: Properties, dict: Dictionary): (r: Properties)
    decreases |dict|
  {
    if dict == [] then current
    else
      var before := ImportAll(cls, mapping, conv, current, dict[..|dict| - 1]);
      var (key, value) := dict[|dict| - 1];
      Apply(before, EntryOutcome(cls, mapping, conv, before, key, value))
  }

  /**
   * Importing never clears a property, and every property it changes is one
   * the class declares, holding a value of the property's data type.
   */
  lemma {:induction false} ImportedValuesFit<Obj>(cls: ImportableClass<Obj>, mapping: ImportMapping, conv: Foundation,
                                                   current: Properties, dict: Dictionary)
    ensures var r := ImportAll(cls, mapping, conv, current, dict);
            && current.Keys <= r.Keys
            && forall n :: n in r && (n !in current || r[n] != current[n]) ==>
                 FindProperty(cls.properties, n).Some? && Fits(FindProperty(cls.properties, n).value.dataType, r[n])
    decreases |dict|
  {
    if dict != [] {
      ImportedValuesFit(cls, mapping, conv, current, dict[..|dict| - 1]);
    }
  }

  /** Importing one more entry: the outcome of that entry applied to what the prefix imported. */
  lemma ImportAllStep<Obj>(cls: ImportableClass<Obj>, mapping: ImportMapping, conv: Foundation,
                           current: Properties, dict: Dictionary, i: int)
    requires 0 <= i < |dict|
    ensures var before := ImportAll(cls, mapping, conv, current, dict[..i]);
            ImportAll(cls, mapping, conv, current, dict[..i + 1]) ==
            Apply(before, EntryOutcome(cls, mapping, conv, before, dict[i].0, dict[i].1))
  {
    assert dict[..i + 1][..i] == dict[..i];
  }

  /** Importing two dictionaries' entries in turn is importing their concatenation. */
  lemma {:induction false} ImportAllAppend<Obj>(cls: ImportableClass<Obj>, mapping: ImportMapping, conv: Foundation,
                                                 current: Properties, a: Dictionary, b: Dictionary)
    ensures ImportAll(cls, mapping, conv, current, a + b) ==
            ImportAll(cls, mapping, conv, ImportAll(cls, mapping, conv, current, a), b)
    decreases |b|
  {
    if b == [] {
      assert a + b == a;
    } else {
      var init := b[..|b| - 1];
      assert (a + b)[..|a + b| - 1] == a + init;
      assert (a + b)[|a + b| - 1] == b[|b| - 1];
      ImportAllAppend(cls, mapping, conv, current, a, init);
    }
  }

  /** Some key of the dictionary maps to the property `name`. */
  ghost predicate SomeKeyMapsTo(mapping: ImportMapping, dict: Dictionary, name: string) {
    exists i :: 0 <= i < |dict| && PropertyForKey(mapping, dict[i].0) == Some(name)
  }

  /** Importing changes only properties that some dictionary key maps to; all others keep their values. */
  lemma {:induction false} ImportChangesOnlyMapped<Obj>(cls: ImportableClass<Obj>, mapping: ImportMapping, conv: Foundation,
                                                         current: Properties, dict: Dictionary, name: string)
    requires !SomeKeyMapsTo(mapping, dict, name)
    ensures var r := ImportAll(cls, mapping, conv, current, dict);
            (name in r <==> name in current) && (name in current ==> r[name] == current[name])
    decreases |dict|
  {
    if dict != [] {
      var init := dict[..|dict| - 1];
      assert !SomeKeyMapsTo(mapping, init, name) by {
        forall i | 0 <= i < |init| ensures PropertyForKey(mapping, init[i].0) != Some(name) {
          assert init[i] == dict[i];
        }
      }
      ImportChangesOnlyMapped(cls, mapping, conv, current, init, name);
      assert PropertyForKey(mapping, dict[|dict| - 1].0) != Some(name);
    }
  }

  /**
   * The last entry of a dictionary decides the value of the property it is
   * assigned to: the case of `AssignedEntryPersists` with no later entry.
   */
  lemma LastEntryAssigns<Obj>(cls: ImportableClass<Obj>, mapping: ImportMapping, conv: Foundation,
                              current: Properties, dict: Dictionary)
    requires dict != []
    ensures var before := ImportAll(cls, mapping, conv, current, dict[..|dict| - 1]);
            var o := EntryOutcome(cls, mapping, conv, before, dict[|dict| - 1].0, dict[|dict| - 1].1);
            o.Assign? ==> ImportAll(cls, mapping, conv, current, dict)[o.property] == o.value
  {
    var before := ImportAll(cls, mapping, conv, current, dict[..|dict| - 1]);
    var o := EntryOutcome(cls, mapping, conv, before, dict[|dict| - 1].0, dict[|dict| - 1].1);
    if o.Assign? {
      AssignedEntryPersists(cls, mapping, conv, current, dict, |dict| - 1, o.property, o.value);
    }
  }

  /**
   * An entry that is assigned decides the final value of its property when no
   * later key of the dictionary maps to that property: the dictionary's
   * values end up in the object.
   */
  lemma AssignedEntryPersists<Obj>(cls: ImportableClass<Obj>, mapping: ImportMapping, conv: Foundation,
                                   current: Properties, dict: Dictionary, i: int, property: string, value: Value)
    requires 0 <= i < |dict|
    requires var before := ImportAll(cls, mapping, conv, current, dict[..i]);
             EntryOutcome(cls, mapping, conv, before, dict[i].0, dict[i].1) == Assign(property, value)
    requires forall j :: i < j < |dict| ==> PropertyForKey(mapping, dict[j].0) != Some(property)
    ensures property in ImportAll(cls, mapping, conv, current, dict)
    ensures ImportAll(cls, mapping, conv, current, dict)[property] == value
  {
    var after := ImportAll(cls, mapping, conv, current, dict[..i + 1]);
    ImportAllStep(cls, mapping, conv, current, dict, i);
    var rest := dict[i + 1..];
    assert !SomeKeyMapsTo(mapping, rest, property) by {
      forall j | 0 <= j < |rest| ensures PropertyForKey(mapping, rest[j].0) != Some(property) {
        assert rest[j] == dict[i + 1 + j];
      }
    }
    ImportChangesOnlyMapped(cls, mapping, conv, after, rest, property);
    ImportAllAppend(cls, mapping, conv, current, dict[..i + 1], rest);
    assert dict[..i + 1] + rest == dict;
  }

  /** A vetoed entry leaves every property as it was. */
  lemma VetoedEntryNotImported<Obj>(cls: ImportableClass<Obj>, mapping: ImportMapping, conv: Foundation,
                                    current: Properties, key: string, value: Value)
    requires !ShouldImport(cls.hooks, current, value, key)
    ensures Apply(current, EntryOutcome(cls, mapping, conv, current, key, value)) == current
  {
  }

  /** A model object: the name of its class and its property values. */
  class Instance {
    const className: string
    var values: Properties

    /** `[[cls alloc] init]`: a new instance holding the values its class's initializer leaves. */
    constructor (className: string, initialValues: Properties)
      ensures this.className == className && values == initialValues
    {
      this.className := className;
      values := initialValues;
    }

    /**
     * `rzai_importValuesFromDict:`: imports the dictionary's entries into this
     * object with its class's mapping (inferred entries plus overrides),
     * computing and caching that mapping if this is its first use.
     */
    method ImportValuesFromDict(cache: MappingCache<Instance>, dict: Dictionary, conv: Foundation)
      requires cache.Valid() && className in cache.classes
      modifies this, cache
      ensures cache.Valid()
      ensures cache.mappings == old(cache.mappings)[className := BuildMapping(cache.classes[className])]
      ensures values == ImportAll(cache.classes[className], BuildMapping(cache.classes[className]), conv, old(values), dict)
    {
      var cls := cache.classes[className];
      var mapping := cache.ImportMapping(className);
      var i := 0;
      while i < |dict|
        invariant 0 <= i <= |dict|
        invariant values == ImportAll(cls, mapping, conv, old(values), dict[..i])
        modifies this
      {
        ImportAllStep(cls, mapping, conv, old(values), dict, i);
        var outcome := EntryOutcome(cls, mapping, conv, values, dict[i].0, dict[i].1);
        values := Apply(values, outcome);
        i := i + 1;
      }
      assert dict[..|dict|] == dict;
    }
  }

  /** The existing object the class's hook returns for a dictionary, as a set (empty for nil). */
  function ExistingSet(hooks: Hooks<Instance>, dict: Dictionary): (s: set<Instance>)
    ensures ExistingObjectFor(hooks, dict).None? <==> s == {}
    ensures ExistingObjectFor(hooks, dict).Some? ==> s == {ExistingObjectFor(hooks, dict).value}
  {
    match ExistingObjectFor(hooks, dict)
    case None => {}
    case Some(o) => {o}
  }

  /** Objects the engine may be handed by the hook: their classes are in the class table. */
  predicate ClassesKnown(cache: MappingCache<Instance>, objs: set<Instance>) {
    forall o :: o in objs ==> o.className in cache.classes
  }

  /**
   * `rzai_objectFromDictionary:`: the existing object the class's hook returns
   * for the dictionary, or else a new instance of the class, with the
   * dictionary imported into it.
   */
  method ObjectFromDictionary(cache: MappingCache<Instance>, name: string, dict: Dictionary, conv: Foundation)
    returns (obj: Instance)
    requires cache.Valid() && name in cache.classes
    requires ClassesKnown(cache, ExistingSet(cache.classes[name].hooks, dict))
    requires forall o :: o in ExistingSet(cache.classes[name].hooks, dict) ==> allocated(o)
    modifies cache, ExistingSet(cache.classes[name].hooks, dict)
    ensures cache.Valid()
    ensures obj.className in cache.classes
    ensures cache.mappings == old(cache.mappings)[obj.className := BuildMapping(cache.classes[obj.className])]
    ensures ExistingObjectFor(cache.classes[name].hooks, dict).Some? ==>
              && obj == ExistingObjectFor(cache.classes[name].hooks, dict).value
              && obj.values == ImportAll(cache.classes[obj.className], BuildMapping(cache.classes[obj.className]),
                                         conv, old(obj.values), dict)
    ensures ExistingObjectFor(cache.classes[name].hooks, dict).None? ==>
              && fresh(obj)
              && obj.className == name
              && obj.values == ImportAll(cache.classes[name], BuildMapping(cache.classes[name]), conv, cache.classes[name].initialValues, dict)
  {
    match ExistingObjectFor(cache.classes[name].hooks, dict) {
      case Some(existing) =>
        obj := existing;
      case None =>
        obj := new Instance(name, cache.classes[name].initialValues);
    }
    obj.ImportValuesFromDict(cache, dict, conv);
  }

  /** The existing objects the class's hook returns for the dictionaries of an array. */
  function ExistingObjects(hooks: Hooks<Instance>, dicts: seq<Dictionary>): set<Instance> {
    set i | 0 <= i < |dicts| && ExistingObjectFor(hooks, dicts[i]).Some? :: ExistingObjectFor(hooks, dicts[i]).value
  }

  /** The existing object of each dictionary is among the existing objects of the array. */
  lemma ExistingSetIncluded(hooks: Hooks<Instance>, dicts: seq<Dictionary>, i: int)
    requires 0 <= i < |dicts|
    ensures ExistingSet(hooks, dicts[i]) <= ExistingObjects(hooks, dicts)
  {
  }

  /** The dictionaries of an array for which the hook returns the object `o`, in order. */
  function ResolvingTo(hooks: Hooks<Instance>, dicts: seq<Dictionary>, o: Instance): (r: seq<Dictionary>)
    ensures |r| <= |dicts|
    ensures forall d :: d in r ==> d in dicts && ExistingObjectFor(hooks, d) == Some(o)
    ensures forall i :: 0 <= i < |dicts| && ExistingObjectFor(hooks, dicts[i]) == Some(o) ==> dicts[i] in r
    decreases |dicts|
  {
    if dicts == [] then []
    else
      var init := ResolvingTo(hooks, dicts[..|dicts| - 1], o);
      if ExistingObjectFor(hooks, dicts[|dicts| - 1]) == Some(o) then init + [dicts[|dicts| - 1]] else init
  }

  /** The property values after importing several dictionaries in turn. */
  function ImportSeries(cls: ImportableClass<Instance>, conv: Foundation, current: Properties, dicts: seq<Dictionary>): Properties
    decreases |dicts|
  {
    if dicts == [] then current
    else ImportAll(cls, BuildMapping(cls), conv, ImportSeries(cls, conv, current, dicts[..|dicts| - 1]), dicts[|dicts| - 1])
  }

  /** Importing one more dictionary after a series. */
  lemma ImportSeriesAppend(cls: ImportableClass<Instance>, conv: Foundation, current: Properties,
                           dicts: seq<Dictionary>, dict: Dictionary)
    ensures ImportSeries(cls, conv, current, dicts + [dict]) ==
            ImportAll(cls, BuildMapping(cls), conv, ImportSeries(cls, conv, current, dicts), dict)
  {
    assert (dicts + [dict])[..|dicts|] == dicts;
  }

  /**
   * The property values of the existing objects after the dictionaries of an
   * array are imported in turn, each into the object the hook returns for it;
   * an object the hook never returns keeps its values.
   */
  function Replay(hooks: Hooks<Instance>, classes: map<string, ImportableClass<Instance>>, conv: Foundation,
                  start: map<Instance, Properties>, dicts: seq<Dictionary>): (m: map<Instance, Properties>)
    ensures m.Keys == start.Keys
    decreases |dicts|
  {
    if dicts == [] then start
    else
      var before := Replay(hooks, classes, conv, start, dicts[..|dicts| - 1]);
      var dict := dicts[|dicts| - 1];
      match ExistingObjectFor(hooks, dict)
      case None => before
      case Some(o) =>
        if o in before && o.className in classes then
          before[o := ImportAll(classes[o.className], BuildMapping(classes[o.className]), conv, before[o], dict)]
        else before
  }

  /**
   * Replaying an array leaves each existing object with what the dictionaries
   * resolving to it, and only those, import into it in order.
   */
  lemma {:induction false} ReplayFollowsResolving(hooks: Hooks<Instance>, classes: map<string, ImportableClass<Instance>>,
                                                  conv: Foundation, start: map<Instance, Properties>,
                                                  dicts: seq<Dictionary>, o: Instance)
    requires o in start && o.className in classes
    ensures Replay(hooks, classes, conv, start, dicts)[o] ==
            ImportSeries(classes[o.className], conv, start[o], ResolvingTo(hooks, dicts, o))
    decreases |dicts|
  {
    if dicts != [] {
      var init := dicts[..|dicts| - 1];
      var dict := dicts[|dicts| - 1];
      ReplayFollowsResolving(hooks, classes, conv, start, init, o);
      if ExistingObjectFor(hooks, dict) == Some(o) {
        ImportSeriesAppend(classes[o.className], conv, start[o], ResolvingTo(hooks, init, o), dict);
      }
    }
  }

  /**
   * `rzai_objectFromDictionary:` on dictionary i of an array: every existing
   * object that held the replay of the dictionaries before i holds afterwards
   * the replay of those up to i.
   */
  method ObjectForElement(cache: MappingCache<Instance>, name: string, dicts: seq<Dictionary>, i: int, conv: Foundation,
                          ghost start: map<Instance, Properties>)
    returns (obj: Instance)
    requires cache.Valid() && name in cache.classes && 0 <= i < |dicts|
    requires ClassesKnown(cache, ExistingObjects(cache.classes[name].hooks, dicts))
    requires forall o :: o in ExistingObjects(cache.classes[name].hooks, dicts) ==> allocated(o)
    requires ExistingObjects(cache.classes[name].hooks, dicts) <= start.Keys
    requires forall o :: o in ExistingObjects(cache.classes[name].hooks, dicts) ==>
               o.values == Replay(cache.classes[name].hooks, cache.classes, conv, start, dicts[..i])[o]
    modifies cache, ExistingSet(cache.classes[name].hooks, dicts[i])
    ensures cache.Valid()
    ensures ExistingObjectFor(cache.classes[name].hooks, dicts[i]).Some? ==>
              obj == ExistingObjectFor(cache.classes[name].hooks, dicts[i]).value
    ensures ExistingObjectFor(cache.classes[name].hooks, dicts[i]).None? ==>
              && fresh(obj)
              && obj.className == name
              && obj.values == ImportAll(cache.classes[name], BuildMapping(cache.classes[name]), conv, cache.classes[name].initialValues, dicts[i])
    ensures forall o :: o in ExistingObjects(cache.classes[name].hooks, dicts) ==>
              o.values == Replay(cache.classes[name].hooks, cache.classes, conv, start, dicts[..i + 1])[o]
  {
    var hooks := cache.classes[name].hooks;
    ghost var all := ExistingObjects(hooks, dicts);
    ExistingSetIncluded(hooks, dicts, i);
    obj := ObjectFromDictionary(cache, name, dicts[i], conv);
    assert dicts[..i + 1][..i] == dicts[..i];
    forall o | o in all
      ensures o.values == Replay(hooks, cache.classes, conv, start, dicts[..i + 1])[o]
    {
      if ExistingObjectFor(hooks, dicts[i]) != Some(o) {
        assert o !in ExistingSet(hooks, dicts[i]);
      }
    }
  }

  /** Dictionary j of an array went to the existing object the hook returned for it. */
  predicate ExistingKept(hooks: Hooks<Instance>, dicts: seq<Dictionary>, objs: seq<Instance>) {
    |objs| <= |dicts| &&
    forall j :: 0 <= j < |objs| && ExistingObjectFor(hooks, dicts[j]).Some? ==>
      objs[j] == ExistingObjectFor(hooks, dicts[j]).value
  }

  /** The objects made for dictionaries with no existing object are pairwise distinct. */
  predicate NewDistinct(hooks: Hooks<Instance>, dicts: seq<Dictionary>, objs: seq<Instance>) {
    |objs| <= |dicts| &&
    forall j, k ::
      (0 <= j < k < |objs| && ExistingObjectFor(hooks, dicts[j]).None? &&
       ExistingObjectFor(hooks, dicts[k]).None?) ==> objs[j] != objs[k]
  }

  /** Each object made for a dictionary with no existing object is recorded in `pos` with its position. */
  ghost predicate NewIndexed(hooks: Hooks<Instance>, dicts: seq<Dictionary>, objs: seq<Instance>, pos: map<Instance, int>) {
    |objs| <= |dicts| &&
    forall j :: 0 <= j < |objs| && ExistingObjectFor(hooks, dicts[j]).None? ==> objs[j] in pos && pos[objs[j]] == j
  }

  /** Objects recorded with their positions are pairwise distinct. */
  lemma NewIndexedDistinct(hooks: Hooks<Instance>, dicts: seq<Dictionary>, objs: seq<Instance>, pos: map<Instance, int>)
    requires NewIndexed(hooks, dicts, objs, pos)
    ensures NewDistinct(hooks, dicts, objs)
  {
    forall j, k | 0 <= j < k < |objs| && ExistingObjectFor(hooks, dicts[j]).None? && ExistingObjectFor(hooks, dicts[k]).None?
      ensures objs[j] != objs[k]
    {
      assert pos[objs[j]] == j && pos[objs[k]] == k;
    }
  }

  /**
   * One step of `rzai_objectsFromArray:`: the object for the next dictionary
   * is appended, and the facts about the objects so far extend to it.
   */
  method AppendObject(cache: MappingCache<Instance>, name: string, dicts: seq<Dictionary>, conv: Foundation,
                      ghost start: map<Instance, Properties>, objs: seq<Instance>, ghost pos: map<Instance, int>)
    returns (objs': seq<Instance>, ghost pos': map<Instance, int>)
    requires cache.Valid() && name in cache.classes && |objs| < |dicts|
    requires ClassesKnown(cache, ExistingObjects(cache.classes[name].hooks, dicts))
    requires forall o :: o in ExistingObjects(cache.classes[name].hooks, dicts) ==> allocated(o)
    requires ExistingObjects(cache.classes[name].hooks, dicts) <= start.Keys
    requires forall o :: o in ExistingObjects(cache.classes[name].hooks, dicts) ==>
               o.values == Replay(cache.classes[name].hooks, cache.classes, conv, start, dicts[..|objs|])[o]
    requires ExistingKept(cache.classes[name].hooks, dicts, objs)
    requires NewIndexed(cache.classes[name].hooks, dicts, objs, pos)
    requires forall j :: 0 <= j < |objs| && ExistingObjectFor(cache.classes[name].hooks, dicts[j]).None? ==>
               && objs[j] !in ExistingObjects(cache.classes[name].hooks, dicts)
               && objs[j].className == name
               && objs[j].values == ImportAll(cache.classes[name], BuildMapping(cache.classes[name]), conv, cache.classes[name].initialValues, dicts[j])
    modifies cache, ExistingSet(cache.classes[name].hooks, dicts[|objs|])
    ensures cache.Valid()
    ensures |objs'| == |objs| + 1 && forall j :: 0 <= j < |objs| ==> objs'[j] == objs[j]
    ensures forall o :: o in ExistingObjects(cache.classes[name].hooks, dicts) ==>
              o.values == Replay(cache.classes[name].hooks, cache.classes, conv, start, dicts[..|objs'|])[o]
    ensures ExistingKept(cache.classes[name].hooks, dicts, objs')
    ensures NewIndexed(cache.classes[name].hooks, dicts, objs', pos')
    ensures forall j :: 0 <= j < |objs'| && ExistingObjectFor(cache.classes[name].hooks, dicts[j]).None? ==>
              && objs'[j] !in ExistingObjects(cache.classes[name].hooks, dicts)
              && objs'[j].className == name
              && objs'[j].values == ImportAll(cache.classes[name], BuildMapping(cache.classes[name]), conv, cache.classes[name].initialValues, dicts[j])
    ensures ExistingObjectFor(cache.classes[name].hooks, dicts[|objs|]).None? ==>
              fresh(objs'[|objs|]) && pos' == pos[objs'[|objs|] := |objs|]
    ensures ExistingObjectFor(cache.classes[name].hooks, dicts[|objs|]).Some? ==> pos' == pos
  {
    var hooks := cache.classes[name].hooks;
    var i := |objs|;
    ExistingSetIncluded(hooks, dicts, i);
    var obj := ObjectForElement(cache, name, dicts, i, conv, start);
    objs' := objs + [obj];
    pos' := if ExistingObjectFor(hooks, dicts[i]).None? then pos[obj := i] else pos;
    assert objs'[..i] == objs;
    forall j | 0 <= j <= i && ExistingObjectFor(hooks, dicts[j]).Some?
      ensures objs'[j] == ExistingObjectFor(hooks, dicts[j]).value
    {
      if j < i {
        assert objs'[j] == objs[j];
      }
    }
    forall j | 0 <= j <= i && ExistingObjectFor(hooks, dicts[j]).None?
      ensures objs'[j] in pos' && pos'[objs'[j]] == j
      ensures objs'[j] !in ExistingObjects(hooks, dicts) && objs'[j].className == name
      ensures objs'[j].values == ImportAll(cache.classes[name], BuildMapping(cache.classes[name]), conv, cache.classes[name].initialValues, dicts[j])
    {
      if j < i {
        assert objs'[j] == objs[j] && objs[j] !in ExistingSet(hooks, dicts[i]);
      } else {
        assert j == i;
      }
    }
  }

  /**
   * The loop of `rzai_objectsFromArray:`: after it, every existing object holds
   * the replay of the whole array, and the new objects are recorded in `pos`.
   */
  method ObjectsLoop(cache: MappingCache<Instance>, name: string, dicts: seq<Dictionary>, conv: Foundation,
                     ghost start: map<Instance, Properties>)
    returns (objs: seq<Instance>, ghost pos: map<Instance, int>)
    requires cache.Valid() && name in cache.classes
    requires ClassesKnown(cache, ExistingObjects(cache.classes[name].hooks, dicts))
    requires forall o :: o in ExistingObjects(cache.classes[name].hooks, dicts) ==> allocated(o)
    requires ExistingObjects(cache.classes[name].hooks, dicts) <= start.Keys
    requires forall o :: o in ExistingObjects(cache.classes[name].hooks, dicts) ==> o.values == start[o]
    modifies cache, ExistingObjects(cache.classes[name].hooks, dicts)
    ensures cache.Valid()
    ensures |objs| == |dicts|
    ensures forall o :: o in ExistingObjects(cache.classes[name].hooks, dicts) ==>
              o.values == Replay(cache.classes[name].hooks, cache.classes, conv, start, dicts)[o]
    ensures ExistingKept(cache.classes[name].hooks, dicts, objs)
    ensures NewIndexed(cache.classes[name].hooks, dicts, objs, pos) && fresh(pos.Keys)
    ensures forall j :: 0 <= j < |objs| && ExistingObjectFor(cache.classes[name].hooks, dicts[j]).None? ==>
              && objs[j].className == name
              && objs[j].values == ImportAll(cache.classes[name], BuildMapping(cache.classes[name]), conv, cache.classes[name].initialValues, dicts[j])
  {
    var hooks := cache.classes[name].hooks;
    var cls := cache.classes[name];
    ghost var all := ExistingObjects(hooks, dicts);
    objs := [];
    pos := map[];
    while |objs| < |dicts|
      invariant |objs| <= |dicts| && cache.Valid()
      invariant forall o :: o in all ==> o.values == Replay(hooks, cache.classes, conv, start, dicts[..|objs|])[o]
      invariant ExistingKept(hooks, dicts, objs)
      invariant NewIndexed(hooks, dicts, objs, pos)
      invariant forall j :: 0 <= j < |objs| && ExistingObjectFor(hooks, dicts[j]).None? ==>
                  && objs[j] !in all
                  && objs[j].className == name
                  && objs[j].values == ImportAll(cls, BuildMapping(cls), conv, cls.initialValues, dicts[j])
      invariant fresh(pos.Keys)
      decreases |dicts| - |objs|
    {
      ExistingSetIncluded(hooks, dicts, |objs|);
      objs, pos := AppendObject(cache, name, dicts, conv, start, objs, pos);
    }
    assert dicts[..|dicts|] == dicts;
  }

  /**
   * `rzai_objectsFromArray:`: one object per dictionary, in order. Element i
   * is the existing object for dictionary i, or a new instance holding what
   * dictionary i imports; an existing object ends up with every dictionary
   * that resolves to it imported into it, in order.
   */
  method ObjectsFromArray(cache: MappingCache<Instance>, name: string, dicts: seq<Dictionary>, conv: Foundation)
    returns (objs: seq<Instance>)
    requires cache.Valid() && name in cache.classes
    requires ClassesKnown(cache, ExistingObjects(cache.classes[name].hooks, dicts))
    requires forall o :: o in ExistingObjects(cache.classes[name].hooks, dicts) ==> allocated(o)
    modifies cache, ExistingObjects(cache.classes[name].hooks, dicts)
    ensures cache.Valid()
    ensures |objs| == |dicts|
    ensures forall i :: 0 <= i < |dicts| && ExistingObjectFor(cache.classes[name].hooks, dicts[i]).Some? ==>
              objs[i] == ExistingObjectFor(cache.classes[name].hooks, dicts[i]).value
    ensures forall i :: 0 <= i < |dicts| && ExistingObjectFor(cache.classes[name].hooks, dicts[i]).None? ==>
              && fresh(objs[i])
              && objs[i].className == name
              && objs[i].values == ImportAll(cache.classes[name], BuildMapping(cache.classes[name]), conv, cache.classes[name].initialValues, dicts[i])
    ensures forall i, j ::
              (0 <= i < j < |dicts| && ExistingObjectFor(cache.classes[name].hooks, dicts[i]).None? &&
               ExistingObjectFor(cache.classes[name].hooks, dicts[j]).None?) ==> objs[i] != objs[j]
    ensures forall o :: o in ExistingObjects(cache.classes[name].hooks, dicts) ==>
              o.values == ImportSeries(cache.classes[o.className], conv, old(o.values),
                                       ResolvingTo(cache.classes[name].hooks, dicts, o))
  {
    var hooks := cache.classes[name].hooks;
    ghost var all := ExistingObjects(hooks, dicts);
    ghost var start: map<Instance, Properties> := map o: Instance | o in all :: o.values;
    ghost var pos;
    objs, pos := ObjectsLoop(cache, name, dicts, conv, start);
    NewIndexedDistinct(hooks, dicts, objs, pos);
    forall o | o in all
      ensures o.values == ImportSeries(cache.classes[o.className], conv, old(o.values), ResolvingTo(hooks, dicts, o))
    {
      ReplayFollowsResolving(hooks, cache.classes, conv, start, dicts, o);
    }
  }
}
