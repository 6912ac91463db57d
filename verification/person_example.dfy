/**
 * The worked example of the Swift test suite: a person record imported into
 * a new `Person`, whose `ID`, `firstName` and `lastName` come out as 12345,
 * "John" and "Doe". The test reads the record from `test_person.json`, which
 * is not part of this model: its keys "id", "first_name" and "last_name" and
 * its values are assumed from the test's assertions.
 *
 * `PersonImport` takes the property names and the record's keys as
 * parameters and needs only that the names normalize to different keys and
 * that each key matches its property. The `Test` lemmas discharge those
 * conditions for the test's own strings, and `ImportTestPerson` runs the
 * import on them.
 */
module PersonExample {
  import opened Wrappers
  import opened Keys
  import opened DataTypes
  import opened Importable
  import opened Mapping
  import opened Import

  /** The test model `Person`: `ID` and `lastUpdated` from its base class, then its name properties; no hooks. */
  function PersonClass(id: string, lastUpdated: string, firstName: string, lastName: string): ImportableClass<Instance> {
    ImportableClass("Person",
                    [PropertyInfo(id, NSNumber), PropertyInfo(lastUpdated, NSDate),
                     PropertyInfo(firstName, NSString), PropertyInfo(lastName, NSString)],
                    NoHooks(), map[])
  }

  /** The record of the test, under the given keys. */
  function PersonDict(idKey: string, firstKey: string, lastKey: string): Dictionary {
    [(idKey, Number(12345)), (firstKey, Str("John")), (lastKey, Str("Doe"))]
  }

  /** Each key reaches its property, and the four property names are different. */
  lemma PersonMapping(id: string, lastUpdated: string, firstName: string, lastName: string,
                      idKey: string, firstKey: string, lastKey: string)
    requires DistinctNormalizedNames(PersonClass(id, lastUpdated, firstName, lastName).properties)
    requires KeyMatches(idKey, id) && KeyMatches(firstKey, firstName) && KeyMatches(lastKey, lastName)
    ensures var mapping := BuildMapping(PersonClass(id, lastUpdated, firstName, lastName));
            && PropertyForKey(mapping, idKey) == Some(id)
            && PropertyForKey(mapping, firstKey) == Some(firstName)
            && PropertyForKey(mapping, lastKey) == Some(lastName)
    ensures id != lastUpdated && id != firstName && id != lastName
    ensures lastUpdated != firstName && lastUpdated != lastName && firstName != lastName
  {
    var cls := PersonClass(id, lastUpdated, firstName, lastName);
    assert cls.properties[0].propertyName == id && cls.properties[1].propertyName == lastUpdated;
    assert cls.properties[2].propertyName == firstName && cls.properties[3].propertyName == lastName;
    KeyReachesProperty(cls, idKey, cls.properties[0]);
    KeyReachesProperty(cls, firstKey, cls.properties[2]);
    KeyReachesProperty(cls, lastKey, cls.properties[3]);
  }

  /** The declared properties the record's keys reach, found by name. */
  lemma PersonProperties(id: string, lastUpdated: string, firstName: string, lastName: string)
    requires id != lastUpdated && id != firstName && id != lastName
    requires lastUpdated != firstName && lastUpdated != lastName && firstName != lastName
    ensures var props := PersonClass(id, lastUpdated, firstName, lastName).properties;
            && FindProperty(props, id) == Some(PropertyInfo(id, NSNumber))
            && FindProperty(props, firstName) == Some(PropertyInfo(firstName, NSString))
            && FindProperty(props, lastName) == Some(PropertyInfo(lastName, NSString))
  {
    var props := PersonClass(id, lastUpdated, firstName, lastName).properties;
    assert props[1..][1..] == [PropertyInfo(firstName, NSString), PropertyInfo(lastName, NSString)];
    assert props[1..][1..][1..] == [PropertyInfo(lastName, NSString)];
  }

  /**
   * Importing the record into a person with no values sets exactly the
   * three matched properties, to the record's values; `lastUpdated` stays nil.
   */
  lemma PersonImport(conv: Foundation, id: string, lastUpdated: string, firstName: string, lastName: string,
                     idKey: string, firstKey: string, lastKey: string)
    requires DistinctNormalizedNames(PersonClass(id, lastUpdated, firstName, lastName).properties)
    requires KeyMatches(idKey, id) && KeyMatches(firstKey, firstName) && KeyMatches(lastKey, lastName)
    ensures ImportAll(PersonClass(id, lastUpdated, firstName, lastName),
                      BuildMapping(PersonClass(id, lastUpdated, firstName, lastName)),
                      conv, map[], PersonDict(idKey, firstKey, lastKey)) ==
            map[id := Number(12345), firstName := Str("John"), lastName := Str("Doe")]
  {
    var cls := PersonClass(id, lastUpdated, firstName, lastName);
    var mapping := BuildMapping(cls);
    var dict := PersonDict(idKey, firstKey, lastKey);
    PersonMapping(id, lastUpdated, firstName, lastName, idKey, firstKey, lastKey);
    PersonProperties(id, lastUpdated, firstName, lastName);
    var v0: Properties := map[];
    var v1 := v0[id := Number(12345)];
    var v2 := v1[firstName := Str("John")];
    FittingValueAssigned(cls, mapping, conv, v0, idKey, Number(12345), PropertyInfo(id, NSNumber));
    FittingValueAssigned(cls, mapping, conv, v1, firstKey, Str("John"), PropertyInfo(firstName, NSString));
    FittingValueAssigned(cls, mapping, conv, v2, lastKey, Str("Doe"), PropertyInfo(lastName, NSString));
    ImportAllStep(cls, mapping, conv, v0, dict, 0);
    assert dict[..0] == [];
    assert ImportAll(cls, mapping, conv, v0, dict[..1]) == v1;
    ImportAllStep(cls, mapping, conv, v0, dict, 1);
    assert ImportAll(cls, mapping, conv, v0, dict[..2]) == v2;
    ImportAllStep(cls, mapping, conv, v0, dict, 2);
    assert dict[..3] == dict;
  }

  /** `Person.rzai_objectFromDictionary(test)`: a new person holding the record's values. */
  method ImportPerson(conv: Foundation, id: string, lastUpdated: string, firstName: string, lastName: string,
                      idKey: string, firstKey: string, lastKey: string)
    returns (person: Instance)
    requires DistinctNormalizedNames(PersonClass(id, lastUpdated, firstName, lastName).properties)
    requires KeyMatches(idKey, id) && KeyMatches(firstKey, firstName) && KeyMatches(lastKey, lastName)
    ensures person.className == "Person"
    ensures person.values == map[id := Number(12345), firstName := Str("John"), lastName := Str("Doe")]
  {
    var cls := PersonClass(id, lastUpdated, firstName, lastName);
    var cache := new MappingCache(map["Person" := cls]);
    PersonImport(conv, id, lastUpdated, firstName, lastName, idKey, firstKey, lastKey);
    person := ObjectFromDictionary(cache, "Person", PersonDict(idKey, firstKey, lastKey), conv);
  }

  /** Names without underscores and of four different lengths normalize to four different keys. */
  lemma UnderscoreFreeNamesDistinct(id: string, lastUpdated: string, firstName: string, lastName: string)
    requires '_' !in id && '_' !in lastUpdated && '_' !in firstName && '_' !in lastName
    requires |id| != |lastUpdated| && |id| != |firstName| && |id| != |lastName|
    requires |lastUpdated| != |firstName| && |lastUpdated| != |lastName| && |firstName| != |lastName|
    ensures DistinctNormalizedNames(PersonClass(id, lastUpdated, firstName, lastName).properties)
  {
    NormalizedKeyLengthNoUnderscore(id);
    NormalizedKeyLengthNoUnderscore(lastUpdated);
    NormalizedKeyLengthNoUnderscore(firstName);
    NormalizedKeyLengthNoUnderscore(lastName);
  }

  /** A snake_case key matches the camelCase name built from the same two words. */
  lemma SnakeKeyMatches(key: string, name: string, first: string, second: string)
    requires second != []
    requires key == first + "_" + second && name == first + [Upper(second[0])] + second[1..]
    ensures KeyMatches(key, name)
  {
    SnakeAndLowerMatchCamel(first, second);
  }

  /** The test's property names `ID`, `lastUpdated`, `firstName` and `lastName` normalize to different keys. */
  lemma TestNamesDistinct()
    ensures DistinctNormalizedNames(PersonClass("ID", "lastUpdated", "firstName", "lastName").properties)
  {
    UnderscoreFreeNamesDistinct("ID", "lastUpdated", "firstName", "lastName");
  }

  /** The key "id" matches `ID`. */
  lemma TestIdKeyMatches()
    ensures KeyMatches("id", "ID")
  {
    CaseInsensitiveMatch("id", "ID");
  }

  /** The key "first_name" matches `firstName`. */
  lemma TestFirstNameKeyMatches()
    ensures KeyMatches("first_name", "firstName")
  {
    SnakeKeyMatches("first_name", "firstName", "first", "name");
  }

  /** The key "last_name" matches `lastName`. */
  lemma TestLastNameKeyMatches()
    ensures KeyMatches("last_name", "lastName")
  {
    SnakeKeyMatches("last_name", "lastName", "last", "name");
  }

  /** The Swift test itself: its record imported into a new `Person` holds ID 12345, John and Doe. */
  method ImportTestPerson(conv: Foundation) returns (person: Instance)
    ensures person.className == "Person"
    ensures person.values == map["ID" := Number(12345), "firstName" := Str("John"), "lastName" := Str("Doe")]
  {
    TestNamesDistinct();
    TestIdKeyMatches();
    TestFirstNameKeyMatches();
    TestLastNameKeyMatches();
    person := ImportPerson(conv, "ID", "lastUpdated", "firstName", "lastName", "id", "first_name", "last_name");
  }
}
