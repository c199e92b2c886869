/**
 * The field classifier: which properties of a model type are simple, editable,
 * read-only, identity fields, scaffoldable, updateable and insertable.
 * Every subset keeps the declaration order of the properties.
 */
module Classifier {
  import opened Wrappers
  import opened Text
  import opened Metadata

  /** Is `xs` obtained from `ys` by deleting elements (order kept)? */
  predicate SubsequenceOf<T(==)>(xs: seq<T>, ys: seq<T>)
    decreases |ys|
  {
    || |xs| == 0
    || (|ys| > 0 && ((xs[0] == ys[0] && SubsequenceOf(xs[1..], ys[1..])) || SubsequenceOf(xs, ys[1..])))
  }

  /** Subsequence is transitive, so every derived subset keeps the declaration order. */
  lemma {:induction false} SubsequenceTrans<T>(xs: seq<T>, ys: seq<T>, zs: seq<T>)
    requires SubsequenceOf(xs, ys) && SubsequenceOf(ys, zs)
    ensures SubsequenceOf(xs, zs)
    decreases |zs|
  {
    if |xs| > 0 {
      if ys[0] == zs[0] && SubsequenceOf(ys[1..], zs[1..]) {
        if xs[0] == ys[0] && SubsequenceOf(xs[1..], ys[1..]) {
          SubsequenceTrans(xs[1..], ys[1..], zs[1..]);
        } else {
          SubsequenceTrans(xs, ys[1..], zs[1..]);
        }
      } else {
        SubsequenceTrans(xs, ys, zs[1..]);
      }
    }
  }

  /** Enumerable.Where: the elements of `fs` satisfying `keep`, in order. */
  function Filter(fs: seq<Field>, keep: Field -> bool): (r: seq<Field>)
    ensures |r| <= |fs|
  {
    if |fs| == 0 then []
    else if keep(fs[0]) then [fs[0]] + Filter(fs[1..], keep)
    else Filter(fs[1..], keep)
  }

  /** Filter keeps exactly the elements satisfying `keep`, in their order. */
  lemma {:induction false} FilterMembers(fs: seq<Field>, keep: Field -> bool)
    ensures forall f :: f in Filter(fs, keep) <==> f in fs && keep(f)
    ensures forall i | 0 <= i < |Filter(fs, keep)| :: keep(Filter(fs, keep)[i])
    ensures SubsequenceOf(Filter(fs, keep), fs)
    decreases |fs|
  {
    if |fs| > 0 {
      FilterMembers(fs[1..], keep);
      assert fs == [fs[0]] + fs[1..];
    }
  }

  /** Nullable.GetUnderlyingType(t) ?? t */
  function Unwrap(t: ClrType): ClrType
  {
    if t.Nullable? then t.underlying else t
  }

  const SimpleTypes: seq<ClrType> :=
    [Byte, SByte, Short, UShort, Int, UInt, Long, ULong, Float, Double, Decimal,
     Bool, String, Char, Guid, DateTime, DateTimeOffset, ByteArray]

  /** TypeExtension.IsSimpleType: after unwrapping Nullable, a listed type or an enum. */
  predicate IsSimpleType(t: ClrType)
  {
    Unwrap(t) in SimpleTypes || Unwrap(t).Enum?
  }

  /** The position of a listed type in SimpleTypes. */
  function ListedIndex(u: ClrType): (i: nat)
    requires !u.Enum? && !u.Nullable? && !u.Complex?
    ensures i < |SimpleTypes| && SimpleTypes[i] == u
  {
    match u
    case Byte => 0 case SByte => 1 case Short => 2 case UShort => 3 case Int => 4 case UInt => 5
    case Long => 6 case ULong => 7 case Float => 8 case Double => 9 case Decimal => 10 case Bool => 11
    case String => 12 case Char => 13 case Guid => 14 case DateTime => 15 case DateTimeOffset => 16
    case ByteArray => 17
  }

  /** A type is simple exactly when, unwrapped, it is neither a class nor a nested Nullable. */
  lemma SimpleTypeRule(t: ClrType)
    ensures IsSimpleType(t) <==> !Unwrap(t).Complex? && !Unwrap(t).Nullable?
  {
    var u := Unwrap(t);
    if u.Complex? || u.Nullable? {
      assert u !in SimpleTypes;
    } else if !u.Enum? {
      assert SimpleTypes[ListedIndex(u)] == u;
    }
  }

  /** IsEditable: the AllowEdit of an [Editable] attribute, false without one. */
  predicate IsEditable(f: Field)
  {
    f.editable.Some? && f.editable.value
  }

  /** IsReadOnly: the IsReadOnly of a [ReadOnly] attribute, false without one. */
  predicate IsReadOnly(f: Field)
  {
    f.readOnly.Some? && f.readOnly.value
  }

  predicate IsScaffoldable(f: Field)
  {
    f.editable != Some(false) && (IsSimpleType(f.fieldType) || IsEditable(f))
  }

  /**
   * GetScaffoldableProperties: drop every [Editable(false)] property, then keep
   * the simple-typed ones and the [Editable(true)] ones.
   */
  function Scaffoldable(fs: seq<Field>): seq<Field>
  {
    Filter(Filter(fs, NotUneditable), SimpleOrEditable)
  }

  predicate NotUneditable(f: Field)
  {
    f.editable != Some(false)
  }

  predicate SimpleOrEditable(f: Field)
  {
    IsSimpleType(f.fieldType) || IsEditable(f)
  }

  lemma ScaffoldableMembers(fs: seq<Field>)
    ensures forall f :: f in Scaffoldable(fs) <==>
      f in fs && f.editable != Some(false) && (IsSimpleType(f.fieldType) || f.editable == Some(true))
    ensures SubsequenceOf(Scaffoldable(fs), fs)
  {
    var editable := Filter(fs, NotUneditable);
    FilterMembers(fs, NotUneditable);
    FilterMembers(editable, SimpleOrEditable);
    SubsequenceTrans(Scaffoldable(fs), editable, fs);
  }

  /** GetIdProperties: the [Key] properties, or else the properties named Id in any case. */
  function IdProperties(fs: seq<Field>): seq<Field>
  {
    var keys := Filter(fs, IsKey);
    if |keys| > 0 then keys else Filter(fs, HasIdName)
  }

  predicate IsKey(f: Field)
  {
    f.key
  }

  predicate HasIdName(f: Field)
  {
    IsIdName(f.name)
  }

  lemma IdPropertiesMembers(fs: seq<Field>)
    ensures SubsequenceOf(IdProperties(fs), fs)
    ensures (exists g :: g in fs && g.key) ==> forall f :: f in IdProperties(fs) <==> f in fs && f.key
    ensures (forall g | g in fs :: !g.key) ==> forall f :: f in IdProperties(fs) <==> f in fs && IsIdName(f.name)
  {
    FilterMembers(fs, IsKey);
    FilterMembers(fs, HasIdName);
    var keys := Filter(fs, IsKey);
    if exists g :: g in fs && g.key {
      var g :| g in fs && g.key;
      assert g in keys;
    }
  }

  /** Identity resolution fails exactly when no property is marked [Key] or named Id. */
  lemma IdPropertiesEmpty(fs: seq<Field>)
    ensures IdProperties(fs) == [] <==> forall f | f in fs :: !f.key && !IsIdName(f.name)
  {
    IdPropertiesMembers(fs);
    if IdProperties(fs) != [] {
      assert IdProperties(fs)[0] in IdProperties(fs);
    }
  }

  predicate IsUpdateable(f: Field)
  {
    !IsIdName(f.name) && !f.key && !IsReadOnly(f) && !f.ignoreUpdate && !f.notMapped
  }

  /**
   * GetUpdateablePropertiesValue: the scaffoldable properties minus those named Id,
   * [Key], [ReadOnly(true)], [IgnoreUpdate] and [NotMapped].
   */
  function Updateable(scaffoldable: seq<Field>): seq<Field>
  {
    Filter(scaffoldable, IsUpdateable)
  }

  lemma UpdateableMembers(scaffoldable: seq<Field>)
    ensures forall f :: f in Updateable(scaffoldable) <==>
      (f in scaffoldable && !IsIdName(f.name) && !f.key && f.readOnly != Some(true) && !f.ignoreUpdate && !f.notMapped)
    ensures SubsequenceOf(Updateable(scaffoldable), scaffoldable)
  {
    FilterMembers(scaffoldable, IsUpdateable);
  }

  /** An updateable property is never an identity property of its type. */
  lemma UpdateableExcludesIdentity(fs: seq<Field>, f: Field)
    requires f in Updateable(Scaffoldable(fs))
    ensures f !in IdProperties(fs)
  {
    UpdateableMembers(Scaffoldable(fs));
    ScaffoldableMembers(fs);
    IdPropertiesMembers(fs);
  }

  /**
   * The skip rules shared by BuildInsertParameters and BuildInsertValues:
   * a non-Guid, non-string [Key] without [Required]; [IgnoreInsert], [NotMapped]
   * or [ReadOnly(true)]; a property named Id without [Required] that is not a Guid.
   * The type tests do not unwrap Nullable.
   */
  predicate InsertSkipped(f: Field)
  {
    || (f.fieldType != Guid && f.fieldType != String && f.key && !f.required)
    || f.ignoreInsert || f.notMapped || IsReadOnly(f)
    || (IsIdName(f.name) && !f.required && f.fieldType != Guid)
  }

  /** The scaffoldable properties that the insert column and value lists both emit. */
  function InsertFields(scaffoldable: seq<Field>): seq<Field>
  {
    Filter(scaffoldable, Inserted)
  }

  predicate Inserted(f: Field)
  {
    !InsertSkipped(f)
  }

  lemma InsertFieldsMembers(scaffoldable: seq<Field>)
    ensures forall f :: f in InsertFields(scaffoldable) <==> f in scaffoldable && !InsertSkipped(f)
    ensures SubsequenceOf(InsertFields(scaffoldable), scaffoldable)
  {
    FilterMembers(scaffoldable, Inserted);
  }

  /** An int-family [Key] without [Required] is left to the database: never inserted. */
  lemma DatabaseKeyNotInserted(fs: seq<Field>, f: Field)
    requires f in fs && f.key && !f.required && f.fieldType != Guid && f.fieldType != String
    ensures f !in InsertFields(Scaffoldable(fs))
  {
    InsertFieldsMembers(Scaffoldable(fs));
  }

  /** Updateable and insertable properties appear in declaration order. */
  lemma DerivedSubsetsKeepOrder(fs: seq<Field>)
    ensures SubsequenceOf(Updateable(Scaffoldable(fs)), fs)
    ensures SubsequenceOf(InsertFields(Scaffoldable(fs)), fs)
  {
    ScaffoldableMembers(fs);
    UpdateableMembers(Scaffoldable(fs));
    InsertFieldsMembers(Scaffoldable(fs));
    SubsequenceTrans(Updateable(Scaffoldable(fs)), Scaffoldable(fs), fs);
    SubsequenceTrans(InsertFields(Scaffoldable(fs)), Scaffoldable(fs), fs);
  }
}
