/**
 * Imported values and the optional hooks a model class may implement
 * (`RZAutoImportable`, and its predecessor `RZImportable`). Every hook is
 * optional: an absent hook is `None`, and each query below says what the
 * engine does in its absence.
 */
module Importable {
  import opened Wrappers
  import opened DataTypes

  /**
   * A value found in a deserialized dictionary or array, or stored in a
   * property. `Other` stands for any other object, JSON `null` (`NSNull`)
   * included.
   */
  datatype Value =
    | Number(n: int)
    | Str(s: string)
    | Date(seconds: int)
    | Dict(entries: seq<(string, Value)>)
    | Array(items: seq<Value>)
    | Other

  /** A dictionary, as its key/value pairs in enumeration order. */
  type Dictionary = seq<(string, Value)>

  /** An object's property values by property name; an absent name is `nil`. */
  type Properties = map<string, Value>

  /** The date format used to parse a string into a date. */
  datatype DateFormat = Iso8601 | Custom(format: string)

  /**
   * The hooks of `RZAutoImportable`; `Obj` is the type of model objects.
   * - customKeyMappings: `rzai_customKeyMappings`, dictionary key to property name;
   * - dateFormatForKey: `rzai_dateFormatForKey:`, given the unmodified key;
   * - existingObjectForDict: `rzai_existingObjectForDict:`;
   * - shouldImportValue: `rzai_shouldImportValue:forKey:`, an instance method, so it
   *   also sees the receiver's current property values; given the unmodified value and key.
   */
  datatype Hooks<Obj> = Hooks(
    customKeyMappings: Option<seq<(string, string)>>,
    dateFormatForKey: Option<string -> Option<string>>,
    existingObjectForDict: Option<Dictionary -> Option<Obj>>,
    shouldImportValue: Option<(Properties, Value, string) -> bool>)

  /**
   * A model class as the importer sees it: its name, its properties, its
   * hooks, and the property values of a freshly initialized instance
   * (`[[cls alloc] init]`: scalars at 0 or NO, objects nil, and whatever the
   * class's `init` sets).
   */
  datatype ImportableClass<Obj> = ImportableClass(
    name: string,
    properties: seq<PropertyInfo>,
    hooks: Hooks<Obj>,
    initialValues: Properties)

  /** A class that implements none of the hooks. */
  function NoHooks<Obj>(): (h: Hooks<Obj>)
    ensures h.customKeyMappings.None? && h.dateFormatForKey.None?
    ensures h.existingObjectForDict.None? && h.shouldImportValue.None?
  {
    Hooks(None, None, None, None)
  }

  /** The hooks of `RZImportable`: custom key mappings and the existing-object lookup only. */
  function LegacyHooks<Obj>(customKeyMappings: Option<seq<(string, string)>>,
                            existingObjectForDict: Option<Dictionary -> Option<Obj>>): (h: Hooks<Obj>)
    ensures IsLegacy(h)
    ensures h.customKeyMappings == customKeyMappings
    ensures h.existingObjectForDict.Some? <==> existingObjectForDict.Some?
    ensures forall d :: ExistingObjectFor(h, d) ==
                        (if existingObjectForDict.Some? then existingObjectForDict.value(d) else None)
  {
    Hooks(customKeyMappings, None, existingObjectForDict, None)
  }

  /** Hooks an `RZImportable` class can have: neither a date-format nor a veto hook. */
  predicate IsLegacy<Obj>(h: Hooks<Obj>) {
    h.dateFormatForKey.None? && h.shouldImportValue.None?
  }

  /** The custom key mappings; none when the hook is absent. */
  function CustomKeyMappings<Obj>(h: Hooks<Obj>): (m: seq<(string, string)>)
    ensures h.customKeyMappings.None? ==> m == []
    ensures h.customKeyMappings.Some? ==> m == h.customKeyMappings.value
  {
    if h.customKeyMappings.Some? then h.customKeyMappings.value else []
  }

  /**
   * The date format for a key: the hook's answer when it gives one, and the
   * ISO-8601 default when the hook is absent or answers nil.
   */
  function DateFormatFor<Obj>(h: Hooks<Obj>, key: string): (f: DateFormat)
    ensures f.Custom? <==> h.dateFormatForKey.Some? && h.dateFormatForKey.value(key).Some?
    ensures f.Custom? ==> h.dateFormatForKey.value(key) == Some(f.format)
  {
    match h.dateFormatForKey
    case None => Iso8601
    case Some(hook) =>
      match hook(key)
      case None => Iso8601
      case Some(format) => Custom(format)
  }

  /** The existing object for a dictionary; nil (no object) when the hook is absent. */
  function ExistingObjectFor<Obj>(h: Hooks<Obj>, dict: Dictionary): (o: Option<Obj>)
    ensures h.existingObjectForDict.None? ==> o.None?
    ensures h.existingObjectForDict.Some? ==> o == h.existingObjectForDict.value(dict)
  {
    match h.existingObjectForDict
    case None => None
    case Some(hook) => hook(dict)
  }

  /** Whether the engine goes on to import a key/value pair; yes when the hook is absent. */
  function ShouldImport<Obj>(h: Hooks<Obj>, current: Properties, value: Value, key: string): (b: bool)
    ensures h.shouldImportValue.None? ==> b
    ensures h.shouldImportValue.Some? ==> b == h.shouldImportValue.value(current, value, key)
  {
    match h.shouldImportValue
    case None => true
    case Some(hook) => hook(current, value, key)
  }

  /** Absent hooks leave the defaults: ISO-8601 dates, no veto, no existing objects, no overrides. */
  lemma NoHooksDefaults<Obj>(key: string, current: Properties, value: Value, dict: Dictionary)
    ensures DateFormatFor(NoHooks<Obj>(), key) == Iso8601
    ensures ShouldImport(NoHooks<Obj>(), current, value, key)
    ensures ExistingObjectFor(NoHooks<Obj>(), dict) == None
    ensures CustomKeyMappings(NoHooks<Obj>()) == []
  {
  }

  /** An `RZImportable` class always gets the ISO-8601 format and never vetoes a pair. */
  lemma LegacyDefaults<Obj>(h: Hooks<Obj>, key: string, current: Properties, value: Value)
    requires IsLegacy(h)
    ensures DateFormatFor(h, key) == Iso8601
    ensures ShouldImport(h, current, value, key)
  {
  }
}
