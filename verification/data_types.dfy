/**
 * The data types the importer can manage (`RZAutoImportDataType`), the
 * classification of a property's type encoding into one of them
 * (`rzai_dataTypeFromString`), and the per-property record `RZAIPropertyInfo`.
 */
module DataTypes {

  /** The closed set of seven data types. */
  datatype DataType = Unknown | Primitive | NSNumber | NSString | NSDate | NSDictionary | NSArray

  /** The integer each case carries in the enumeration: Unknown is -1, the others count up from 0. */
  function RawValue(t: DataType): (r: int)
    ensures -1 <= r <= 5
    ensures r == -1 <==> t == Unknown
    ensures r == 0 <==> t == Primitive
  {
    match t
    case Unknown => -1
    case Primitive => 0
    case NSNumber => 1
    case NSString => 2
    case NSDate => 3
    case NSDictionary => 4
    case NSArray => 5
  }

  /** Distinct cases carry distinct raw values. */
  lemma RawValueInjective(s: DataType, t: DataType)
    requires RawValue(s) == RawValue(t)
    ensures s == t
  {
  }

  /** A property: its name and the data type its declared type classifies as. */
  datatype PropertyInfo = PropertyInfo(propertyName: string, dataType: DataType)

  /** An object type encoding: `@"ClassName"`. */
  predicate IsObjectEncoding(encoding: string) {
    |encoding| >= 3 && encoding[0] == '@' && encoding[1] == '"' && encoding[|encoding| - 1] == '"'
  }

  /** The class name inside an object type encoding. */
  function ObjectClassName(encoding: string): (name: string)
    requires IsObjectEncoding(encoding)
    ensures encoding == "@\"" + name + "\""
  {
    encoding[2..|encoding| - 1]
  }

  /** The data type of a Foundation class name; any other class is Unknown. */
  function ClassDataType(className: string): DataType {
    if className == "NSNumber" || className == "NSDecimalNumber" then NSNumber
    else if className == "NSString" || className == "NSMutableString" then NSString
    else if className == "NSDate" then NSDate
    else if className == "NSDictionary" || className == "NSMutableDictionary" then NSDictionary
    else if className == "NSArray" || className == "NSMutableArray" then NSArray
    else Unknown
  }

  /**
   * The one-character encodings of the numeric C scalars: char, int, short,
   * long, long long, their unsigned forms, float, double and bool.
   */
  predicate IsScalarEncoding(encoding: string) {
    |encoding| == 1 && encoding[0] in "cislqCISLQfdB"
  }

  /**
   * `rzai_dataTypeFromString`: classifies a property's type encoding. A
   * numeric scalar is Primitive; an object encoding is classified by its
   * class; everything else (`id`, `Class`, `SEL`, structures, `^` addresses,
   * blocks, unlisted classes) is Unknown. Total: every string gets exactly
   * one of the seven cases.
   */
  function DataTypeFromString(encoding: string): (t: DataType)
    ensures t == Primitive <==> IsScalarEncoding(encoding)
    ensures t in {NSNumber, NSString, NSDate, NSDictionary, NSArray} ==>
              IsObjectEncoding(encoding) && ClassDataType(ObjectClassName(encoding)) == t
  {
    if IsScalarEncoding(encoding) then Primitive
    else if IsObjectEncoding(encoding) then ClassDataType(ObjectClassName(encoding))
    else Unknown
  }

  /** The one-character encodings of `id`, `Class` and `SEL` are Unknown, not Primitive. */
  lemma NonScalarOneCharacterEncodings()
    ensures DataTypeFromString("@") == Unknown
    ensures DataTypeFromString("#") == Unknown
    ensures DataTypeFromString(":") == Unknown
  {
  }

  /** An object encoding is classified by its class name alone. */
  lemma ObjectEncodingClassified(name: string)
    ensures DataTypeFromString("@\"" + name + "\"") == ClassDataType(name)
  {
    var e := "@\"" + name + "\"";
    assert e[2..|e| - 1] == name;
  }
}
