/**
 * The metadata the source reads by reflection, as explicit values: the CLR type
 * tag of a property, the attributes attached to it, the model type's name and
 * Table attribute, and the runtime values held by an object.
 */
module Metadata {
  import opened Wrappers

  /** The declared type of a property, as far as the classifier distinguishes types. */
  datatype ClrType =
    | Byte | SByte | Short | UShort | Int | UInt | Long | ULong
    | Float | Double | Decimal | Bool | String | Char | Guid
    | DateTime | DateTimeOffset | ByteArray
    | Enum(enumName: string)
    | Nullable(underlying: ClrType)
    | Complex(typeName: string)

  newtype byte = x: int | 0 <= x < 256

  /** The 16 bytes of a System.Guid, in ToByteArray order. */
  type GuidBytes = s: seq<byte> | |s| == 16 witness [0, 0, 0, 0, 0, 0, 0, 0, 0, 0, 0, 0, 0, 0, 0, 0]

  const EmptyGuid: GuidBytes := [0, 0, 0, 0, 0, 0, 0, 0, 0, 0, 0, 0, 0, 0, 0, 0]

  /**
   * One public property of a model type with its attributes: [Key], [Required],
   * [Editable(b)], [ReadOnly(b)], [IgnoreSelect], [IgnoreInsert], [IgnoreUpdate],
   * [NotMapped] and [Column(name)]. `declaringType` is the FullName of the type
   * that declares the property; `hasSetter` says whether it has a set accessor,
   * which PropertyInfo.SetValue needs.
   */
  datatype Field = Field(
    name: string,
    declaringType: string,
    fieldType: ClrType,
    key: bool,
    required: bool,
    editable: Option<bool>,
    readOnly: Option<bool>,
    ignoreSelect: bool,
    ignoreInsert: bool,
    ignoreUpdate: bool,
    notMapped: bool,
    column: Option<string>,
    hasSetter: bool)

  /** [Table(name, Schema = schema)]; an empty schema stands for a null one. */
  datatype TableAttr = TableAttr(name: string, schema: string)

  /** A model class: its FullName, its short Name, its Table attribute and its properties in declaration order. */
  datatype ModelType = ModelType(fullName: string, name: string, table: Option<TableAttr>, fields: seq<Field>)

  /** A runtime property value. `Composite` is an object (an anonymous composite key, say). */
  datatype Value =
    | Null
    | DbNull
    | IntValue(i: int)
    | TextValue(s: string)
    | GuidValue(g: GuidBytes)
    | Composite(r: Record)

  /** An object: its runtime type and the values of its properties. */
  datatype Record = Record(runtimeType: ModelType, values: map<string, Value>)

  /** The value a property getter returns; a property the map does not mention holds null. */
  function ValueOf(values: map<string, Value>, name: string): (v: Value)
    ensures name !in values ==> v == Null
    ensures name in values ==> v == values[name]
  {
    if name in values then values[name] else Null
  }

  /** Is some property of `t` called `name`? (Type.GetProperty(name) != null) */
  predicate HasProperty(t: ModelType, name: string)
  {
    exists i | 0 <= i < |t.fields| :: t.fields[i].name == name
  }
}
