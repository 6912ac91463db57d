# RZAutoImport, modelled in Dafny

RZAutoImport is an Objective-C category on `NSObject`. It fills a model object's
properties from a deserialized dictionary, such as a JSON response or a plist.
A dictionary key reaches a property when the two are equal once underscores are
removed and case is ignored (`rzai_normalizedKey`). A model class may implement
the optional hooks of the `RZAutoImportable` protocol:

- custom key mappings that override the inferred ones;
- a date format per key;
- an existing object to reuse for a dictionary (uniqueness);
- a veto per key/value pair.

The import mapping of each class (normalized key to property name) is computed
on first use and cached. A matched value is converted to the property's data
type when that is possible. Otherwise it is skipped, which is only logged. The
earlier `rz_` interface with its `RZImportable` protocol is the same engine with
fewer hooks.

Modules:

- `Keys`: the key normalizer and key matching.
- `DataTypes`: the seven data types, the classification of a property's type
  encoding, and the per-property record.
- `Importable`: values, dictionaries and the optional hooks, each with its
  default.
- `Mapping`: inferred mappings, overrides, and the per-class mapping cache. The
  cache is the class `MappingCache`, whose `mappings` field is updated in place.
- `Import`: the per-entry import decision, importing one dictionary into an
  object, and creating or reusing objects for a dictionary or an array.
  - Objects are the class `Instance`, whose `values` are updated in place.
  - The engine's loops are `while` loops proved against the functional
    definitions `ImportAll` and `Replay`.
- `Legacy`: the `rz_` interface.
- `PersonExample`: the Swift test's person import, proved for any property
  names and keys that match the way the test's do, and then for the test's
  own names and keys.

## Model

| member | source | states |
|---|---|---|
| Keys.Lower | Classes/Private/NSObject+RZAutoImport_Private.h:54-62 | lower-casing: an upper-case letter becomes the lower-case letter at the same place in the alphabet; every other character is unchanged; the result is never upper case, and it is an underscore exactly when the input is |
| Keys.Upper | Classes/RZAutoImport.h:41-42 | upper-casing: a lower-case letter becomes the upper-case letter at the same place in the alphabet; every other character is unchanged; upper-casing never changes what a character lower-cases to |
| Keys.UpperAll | Classes/RZAutoImport.h:41-42 | the upper-cased string has the same length and is upper-cased position by position |
| Keys.NormalizedKey | Classes/Private/NSObject+RZAutoImport_Private.h:54-62 | the normalized key holds no underscore and no upper-case letter, and is never longer than the key |
| Keys.NormalizedKeyAppend | Classes/Private/NSObject+RZAutoImport_Private.h:54-62 | normalizing a concatenation equals concatenating the normalized parts |
| Keys.NormalizedKeyLength | Classes/Private/NSObject+RZAutoImport_Private.h:54-62 | exactly the underscores are removed: the length falls by the number of underscores |
| Keys.NormalizedKeyLengthNoUnderscore | Classes/Private/NSObject+RZAutoImport_Private.h:54-62 | a key without underscores keeps its length |
| Keys.NormalizedKeyIdempotent | Classes/Private/NSObject+RZAutoImport_Private.h:54-62 | normalizing twice is the same as normalizing once |
| Keys.NormalizedKeyKeeps | Classes/Private/NSObject+RZAutoImport_Private.h:54-62 | every non-underscore character survives, lower-cased, in order, after the survivors that precede it |
| Keys.UnderscoreInsensitive | Classes/RZAutoImport.h:41-49 | inserting an underscore anywhere in a key keeps it matching the original |
| Keys.CaseInsensitiveMatch | Classes/RZAutoImport.h:41-49 | any two keys of the same length that agree position by position once lower-cased match (`ID` and `id`, `FirstName` and `firstNAME`) |
| Keys.CaseInsensitive | Classes/RZAutoImport.h:41-49 | the upper-cased key matches the original |
| Keys.KeyMatchesEquivalence | Classes/RZAutoImport.h:41-49 | `KeyMatches`, equality of normalized keys, is reflexive, symmetric and transitive |
| Keys.NormalizedKeyFirstCase | Classes/RZAutoImport.h:41-42 | a key normalizes the same whatever the case of its first character |
| Keys.NormalizedCamel | Classes/RZAutoImport.h:41-49 | a camelCase join normalizes to the two normalized words run together |
| Keys.SnakeAndLowerMatchCamel | Classes/RZAutoImport.h:41-49 | for any two words, the snake_case key and the run-together key both match the camelCase property name (`last_name`, `lastname` and `lastName`) |
| Keys.DifferentInitialsDoNotMatch | Classes/RZAutoImport.h:41-49 | keys whose first characters are not underscores and differ even ignoring case (`first_name` and `lastName`) do not match, whatever follows |
| DataTypes.RawValue | Classes/Private/NSObject+RZAutoImport_Private.h:41-50 | Unknown is -1, Primitive is 0, and every raw value lies in -1..5 |
| DataTypes.RawValueInjective | Classes/Private/NSObject+RZAutoImport_Private.h:41-50 | distinct data types have distinct raw values |
| DataTypes.ObjectClassName | Classes/Private/NSObject+RZAutoImport_Private.h:52 | the class name inside an object encoding, which rebuilds the encoding when wrapped in `@"` and `"` |
| DataTypes.DataTypeFromString | Classes/Private/NSObject+RZAutoImport_Private.h:52 | Primitive exactly for the one-character encodings of the numeric and boolean scalars (`c i s l q C I S L Q f d B`); each Foundation data type only for an object encoding of a class of that type |
| DataTypes.NonScalarOneCharacterEncodings | Classes/Private/NSObject+RZAutoImport_Private.h:52 | the one-character encodings of `id` (`@`), `Class` (`#`) and `SEL` (`:`) are Unknown, not Primitive |
| DataTypes.ObjectEncodingClassified | Classes/Private/NSObject+RZAutoImport_Private.h:52 | an object encoding is classified by its class name alone |
| Importable.NoHooks | RZAutoImport/RZAutoImportable.h:11-13 | a class that implements none of the optional hooks |
| Importable.LegacyHooks | RZAutoImport/RZImportable.h:11-31 | the `RZImportable` hooks: custom mappings and the existing-object lookup as given, and no date-format or veto hook |
| Importable.CustomKeyMappings | RZAutoImport/RZAutoImportable.h:15-20 | the overrides are the hook's answer, or none when the hook is absent |
| Importable.DateFormatFor | RZAutoImport/RZAutoImportable.h:22-30 | a custom format exactly when the hook exists and answers one for the unmodified key; ISO-8601 otherwise |
| Importable.ExistingObjectFor | RZAutoImport/RZAutoImportable.h:32-40 | the hook's answer for the dictionary, or no object when the hook is absent |
| Importable.ShouldImport | RZAutoImport/RZAutoImportable.h:42-52 | the hook's answer for the unmodified value and key, or YES when the hook is absent |
| Importable.NoHooksDefaults | RZAutoImport/RZAutoImportable.h:13-52 | with no hooks: ISO-8601 dates, no veto, no existing object, no overrides |
| Importable.LegacyDefaults | RZAutoImport/RZImportable.h:11-31 | an `RZImportable` class always gets ISO-8601 dates and never vetoes |
| Mapping.RegisterEntries | Classes/RZAutoImport.h:98-103 | `Register` (pairs entered under their normalized keys, in order): registering adds exactly the normalized keys of the pairs; each entry was already there or names a pair's target |
| Mapping.LastPairFor | Classes/RZAutoImport.h:98-103 | the index of the last pair whose key normalizes to k; no later pair does; -1 when there is none |
| Mapping.RegisterLookup | Classes/RZAutoImport.h:98-103 | `Register`: the last pair registered for a normalized key decides its entry; with none, the entry is untouched |
| Mapping.PropertyPairs | Classes/RZAutoImport.h:41-49 | each property contributes the pair of its own name with itself, in order |
| Mapping.InferredEntries | Classes/RZAutoImport.h:41-49 | `InferredMapping` (each property under its normalized name): the inferred mapping's keys are exactly the normalized property names, each sent to a property of that normalized name |
| Mapping.MappingHoldsInferredAndOverrides | Classes/RZAutoImport.h:98-103 | `BuildMapping` (the inferred mapping, then the overrides registered over it): the class mapping's keys are the normalized property names plus the normalized override keys; each entry names a property or an override target |
| Mapping.PropertyForKey | Classes/RZAutoImport.h:41-49 | a key finds a property exactly when its normalized form is in the mapping, and then finds that entry |
| Mapping.OverrideWins | RZAutoImport/RZAutoImportable.h:15-20 | an override for the key's normalized form decides its property, whatever was inferred |
| Mapping.CustomMappingsAppear | RZAutoImport/RZAutoImportable.h:15-20 | every override not replaced by a later one for the same normalized key sends its key to its target |
| Mapping.InferredWhenNotOverridden | Classes/RZAutoImport.h:89-92 | with no override for a key, the key goes where the inferred mapping sends it |
| Mapping.KeyReachesProperty | Classes/RZAutoImport.h:41-49 | a key with no override reaches a property if and only if the key matches it, given distinct normalized property names |
| Mapping.NoOverridesMeansInferred | Classes/RZAutoImport.h:98-103 | a class without custom mappings uses the inferred mapping alone |
| Mapping.ComputeMapping | Classes/RZAutoImport.h:98-103 | the two loops, over the properties and then over the overrides, compute the class's mapping |
| Mapping.MappingCache.constructor | Classes/RZAutoImport.h:54-56 | the cache starts empty and consistent |
| Mapping.MappingCache.ImportMapping | Classes/RZAutoImport.h:54-56 | returns the class's mapping; a cached mapping is returned unchanged; afterwards the class's mapping is cached and every other cache entry is unchanged |
| Import.Convert | Classes/RZAutoImport.h:33-35 | a converted value `Fits` the property's type; a value that fits is kept; an Unknown type never converts; a string for a scalar or NSNumber converts exactly when it parses as a number, to that number; a number for an NSString becomes its formatted string; a number for an NSDate becomes the date that many seconds after the epoch; a date string converts exactly when it parses with the class's format for the key; a dictionary, array, date or other object that does not fit is never converted, and nothing that does not fit an NSDictionary or NSArray property is converted for it |
| Import.DateFormatOnlyForDateStrings | RZAutoImport/RZAutoImportable.h:22-30 | the date-format hook changes nothing except a string value for a date property |
| Import.FindProperty | Classes/Private/NSObject+RZAutoImport_Private.h:74-79 | a property of the class with that name, or none when the class declares none |
| Import.EntryOutcome | Classes/RZAutoImport.h:89-96 | an entry is skipped as unmapped if and only if its key is unmapped; as vetoed if and only if it is mapped and vetoed; it is assigned if and only if it is mapped, not vetoed, declared and converted, and the value assigned is then the converted value, which fits the property's type |
| Import.FittingValueAssigned | Classes/RZAutoImport.h:89-96 | a mapped, unvetoed entry whose value already fits its declared property is assigned unchanged |
| Import.UnknownTypeSkipped | Classes/Private/NSObject+RZAutoImport_Private.h:36-40 | a matched key whose property has an Unknown type is skipped as not convertible, never an error |
| Import.Apply | Classes/RZAutoImport.h:89-96 | a skip changes nothing; an assignment sets that property and keeps every other one |
| Import.ImportedValuesFit | Classes/RZAutoImport.h:33-35 | `ImportAll` (the entries' outcomes applied in order): importing never clears a property; every property it changes is declared and holds a value of its data type |
| Import.ImportAllStep | Classes/RZAutoImport.h:89-96 | entries are imported in order: one more entry applies its outcome to what the prefix imported |
| Import.ImportChangesOnlyMapped | Classes/RZAutoImport.h:89-96 | a property that no key of the dictionary maps to keeps its value, or stays nil |
| Import.LastEntryAssigns | Classes/RZAutoImport.h:89-96 | when the last entry is assigned, its value is the property's final value (the no-later-entry case of AssignedEntryPersists) |
| Import.ImportAllAppend | Classes/RZAutoImport.h:89-96 | importing two runs of entries one after the other is importing them joined |
| Import.AssignedEntryPersists | Classes/RZAutoImport.h:89-96 | a value assigned by any entry is the property's final value when no later key maps to that property |
| Import.VetoedEntryNotImported | RZAutoImport/RZAutoImportable.h:42-52 | a pair the veto hook refuses leaves the object unchanged |
| Import.Instance.constructor | Classes/RZAutoImport.h:60-71 | `[[cls alloc] init]`: a new instance of the named class holding the values the class's initializer leaves |
| Import.Instance.ImportValuesFromDict | Classes/RZAutoImport.h:89-96 | the loop leaves the object's values equal to the import of the whole dictionary with the class's mapping (inferred plus overrides), and caches that mapping |
| Import.ExistingSet | RZAutoImport/RZAutoImportable.h:32-40 | empty exactly when the hook gives no existing object, else that object alone |
| Import.ObjectFromDictionary | Classes/RZAutoImport.h:60-71 | the existing object the hook gives, with the dictionary imported into its values; or else a new instance of the calling class holding the import of the dictionary over its initial values |
| Import.ResolvingTo | RZAutoImport/RZAutoImportable.h:32-40 | the dictionaries of an array that the existing-object hook resolves to a given object: each is in the array and resolves to it, and every dictionary of the array that resolves to it is among them |
| Import.Replay | Classes/RZAutoImport.h:73-87 | replaying an array over the existing objects keeps the same set of objects |
| Import.ReplayFollowsResolving | Classes/RZAutoImport.h:73-87 | each existing object ends with exactly the dictionaries that resolve to it imported into it, in order |
| Import.ObjectsLoop | Classes/RZAutoImport.h:73-87 | the loop over the array: one object per dictionary, existing ones kept, new ones recorded and holding their dictionary's import; the existing objects end holding the replay of the whole array |
| Import.ObjectsFromArray | Classes/RZAutoImport.h:73-87 | one object per dictionary, in order: the existing object, or a distinct new instance of the calling class holding what its dictionary imports; each existing object ends with every dictionary that resolves to it imported, in order |
| Legacy.LegacyNeverVetoes | RZAutoImport/RZImportable.h:11-31 | without a veto hook no entry is skipped as vetoed |
| Legacy.LegacyConvertsAsDefault | RZAutoImport/RZImportable.h:11-31 | without a date-format hook every conversion is the one a class with no hooks gets |
| Legacy.RzImportValuesFromDict | RZAutoImport/RZAutoImport.h:67-74 | the object's values become the import of the dictionary with the class's mapping and overrides |
| Legacy.RzObjectFromDictionary | RZAutoImport/RZAutoImport.h:38-49 | an instance of the calling class: the existing one with the dictionary imported, or a new one holding the import |
| Legacy.RzObjectsFromArray | RZAutoImport/RZAutoImport.h:51-65 | one instance of the calling class per dictionary, in order: the existing one, or a new one holding what its dictionary imports; new instances are pairwise distinct; each existing object ends with every dictionary that resolves to it imported, in order |
| PersonExample.PersonMapping | Tests/Tests/Model/Swift/Person.swift:15-18 | the person's keys reach `ID`, `firstName` and `lastName`, and the property names are distinct |
| PersonExample.PersonProperties | Tests/Tests/Model/Swift/Person.swift:15-18 | looking up `ID`, `firstName` and `lastName` by name finds their declared types: NSNumber, NSString, NSString |
| PersonExample.PersonImport | Tests/Tests/SwiftTests.swift:40-52 | importing the record into a new person, whose optional properties all start nil, sets exactly ID 12345, first name John and last name Doe |
| PersonExample.ImportPerson | Tests/Tests/SwiftTests.swift:42-47 | `Person.rzai_objectFromDictionary` yields a person holding ID 12345, John and Doe |
| PersonExample.UnderscoreFreeNamesDistinct | Tests/Tests/Model/Swift/Person.swift:15-18 | property names without underscores and of different lengths normalize differently |
| PersonExample.SnakeKeyMatches | Tests/Tests/SwiftTests.swift:40-52 | a snake_case key matches the camelCase name made of the same two words |
| PersonExample.TestNamesDistinct | Tests/Tests/Model/Swift/Person.swift:15-18 | the person's property names `ID`, `lastUpdated`, `firstName` and `lastName` normalize differently |
| PersonExample.TestIdKeyMatches | Tests/Tests/Model/Swift/ModelObject.swift:17 | the record key `id` matches the property `ID` |
| PersonExample.TestFirstNameKeyMatches | Tests/Tests/Model/Swift/Person.swift:15-18 | the record key `first_name` matches the property `firstName` |
| PersonExample.TestLastNameKeyMatches | Tests/Tests/Model/Swift/Person.swift:15-18 | the record key `last_name` matches the property `lastName` |
| PersonExample.ImportTestPerson | Tests/Tests/SwiftTests.swift:40-52 | with the test's own names and keys, `Person.rzai_objectFromDictionary` yields a `Person` holding exactly ID 12345, first name John and last name Doe |

## Left out

- Only the headers are part of this model. The `.m` implementation files are not part of this model.
  - The headers document each per-entry step (look up the normalized key, ask the veto hook, convert for the declared type, then assign or skip), but not their order. The order is a modelling choice. In particular, the veto hook is asked only for keys that map to a property. This makes no observable difference while the hook is pure (see below).
- DataTypes.DataTypeFromString: the body of `rzai_dataTypeFromString` is not part of this model. The classification follows the Objective-C type-encoding convention:
  - the one-character encodings of the numeric and boolean scalars are Primitive;
  - `@"Class"` is classified by its class;
  - everything else is Unknown, including `id` (`@`), `Class` (`#`), `SEL` (`:`), structures, `^` (address) encodings and blocks.
- Runtime reflection is not modelled. A class's declared properties are given as a list of names and data types.
- Number parsing, number formatting and date parsing with a format are Foundation calls. They are parameters of the model (`Foundation`).
  - Floating-point numbers, time zones and locales are not modelled; numbers are integers and dates are seconds.
- Keys.Lower: lower-cases ASCII letters only. Unicode case mapping is not modelled.
- Dictionaries are sequences of key/value pairs in enumeration order. When two keys normalize alike, the later one wins.
- Mapping.BuildMapping: overrides are sequences of pairs, registered under their normalized keys in sequence order. When two override keys normalize alike, the source's winner depends on the `NSDictionary`'s enumeration order, which Foundation leaves unspecified; the model makes the later pair win.
- Import.ObjectsFromArray: the existing-object hook is a fixed function of the dictionary, part of the class table given to the cache. In the source it is a class method that may consult a mutable store, such as a data store the object is added to after import. Two cases are therefore not modelled:
  - a second `rzai_objectFromDictionary` on the same record reusing the instance the first call made;
  - a later dictionary of one `rzai_objectsFromArray` resolving to the object made for an earlier one.
  - The ensures of Import.ObjectsFromArray and Legacy.RzObjectsFromArray read every hook answer in the state before the call, which is sound only because the hook cannot change.
- Mapping.InferredMapping: when two declared properties normalize alike, the later one in the class's property list wins. In the source the order is the order in which the runtime lists the class's properties. Mapping.KeyReachesProperty requires distinct normalized names for this reason.
- A JSON `null` (`NSNull`) is modelled as an `Other` value. It fits no data type, so it is skipped and never clears a property; Import.ImportedValuesFit's "never clears a property" rests on this.
- Side effects of the veto hook are not modelled. The hook is a pure function of the receiver's current values, the value and the key. Custom import done inside the hook is left out.
- Importing into nested model objects and relationships is not modelled. Dictionary and array values are assigned as they are to properties of those types.
- Logging of skipped entries is not modelled. The reason for each skip is returned as a `SkipReason`.
- The mapping cache is shared by all threads in the source. Its thread safety is not modelled.
- Loading JSON test data and the test data store are not modelled.
- Import.Instance.constructor: the values an instance starts with (scalars at 0 or NO, objects nil, and whatever the class's `init` sets) are given per class as `initialValues`. They are not derived from the declared types or from running `init`.
- Import.ObjectFromDictionary and Import.ObjectsFromArray: the existing objects the hook returns must be objects the model knows the class of (`ClassesKnown`). The cache's class table stands in for the runtime.
- Legacy.RzObjectFromDictionary: requires the hook's existing object to be of the calling class, which `instancetype` promises but the runtime does not check. Legacy.RzObjectsFromArray requires the same.
- PersonExample: the test reads its record from a JSON file, `test_person.json`, which is not part of this model. The record's keys `id`, `first_name` and `last_name` and its values are assumed from the test's assertions and the usual snake_case naming.
  - The assumed record has no `last_updated` entry, so `lastUpdated` stays nil. The test's date assertion is commented out, and the date import is not part of the example.
  - PersonExample.PersonImport is proved for any property names and keys that match the way the test's do; PersonExample.ImportTestPerson applies it to the test's own strings, whose conditions the `Test` lemmas discharge.
  - The test's `ID` is a `UInt32` in Swift; it is modelled as an NSNumber property.
