/**
 * The static state of SimpleCRUD and its statement builders: the dialect
 * profile, the two name resolvers, the caches that are only ever added to, and
 * the SQL text (with its parameters) each builder produces. The class stands
 * for the static class: one object holds what the program holds in static fields.
 */
module Crud {
  import opened Wrappers
  import opened Text
  import opened Metadata
  import opened Classifier
  import opened Templates
  import opened Dialects
  import opened Naming
  import opened Memo
  import opened Fragments
  import opened Guids
  import opened Conversions

  /** typeof(object).FullName: GetAllProperties is always called with a static type of object. */
  const ObjectTypeName := "System.Object"

  /** The AllPropertiesCache key: the static type name followed by the runtime type name, if any. */
  function AllPropertiesKey(conditions: Option<Record>): string
  {
    ObjectTypeName + (if conditions.Some? then conditions.value.runtimeType.fullName else "")
  }

  /** The UpdateablePropertiesCache key: the static type name followed by the entity's runtime type name. */
  function UpdateableKey(staticType: ModelType, runtimeType: ModelType): string
  {
    staticType.fullName + runtimeType.fullName
  }

  /** No two (static, runtime) pairs of type names run together into the same UpdateablePropertiesCache key. */
  ghost predicate PairKeysDistinct(types: map<string, ModelType>)
  {
    forall a, b, c, d {:trigger PairKey(a, b), PairKey(c, d)}
      | a in types && b in types && c in types && d in types && PairKey(a, b) == PairKey(c, d) :: a == c
  }

  /** Two type names run together, as the UpdateablePropertiesCache key is formed. */
  ghost function PairKey(a: string, b: string): string
  {
    a + b
  }

  /**
   * Every column name cached in `after` but not in `before` is the name
   * `resolver` gives, under quoting `q`, for the property its key denotes.
   */
  ghost predicate ResolvedBy(properties: map<string, Field>, resolver: ColumnNameResolver, q: Quote,
                             before: map<string, string>, after: map<string, string>)
  {
    forall k {:trigger after[k]} | k in after && k !in before ::
      k in properties && after[k] == ResolveColumnName(resolver, q, properties[k])
  }

  /** The NamedStringCache keys of the four cached fragments. */
  function SelectKey(t: ModelType): string { t.fullName + "_BuildSelect" }
  function UpdateSetKey(t: ModelType): string { t.fullName + "_BuildUpdateSet" }
  function InsertParametersKey(t: ModelType): string { t.fullName + "_BuildInsertParameters" }
  function InsertValuesKey(t: ModelType): string { t.fullName + "_BuildInsertValues" }

  lemma PrefixedKeyInjective(prefix: string, a: string, b: string)
    requires prefix + a == prefix + b
    ensures a == b
  {
    assert a == (prefix + a)[|prefix|..];
    assert b == (prefix + b)[|prefix|..];
  }

  /** The properties GetAllProperties finds on the conditions object: none without one. */
  function WhereProperties(conditions: Option<Record>): seq<Field>
  {
    if conditions.Some? then conditions.value.runtimeType.fields else []
  }

  /** The WHERE part of the statements built from a conditions object: nothing when it has no properties. */
  function WherePart(source: seq<Field>, passed: Option<Record>, props: seq<Field>, names: map<string, string>): string
    requires Named(Conditions(source, passed), Emitted(Conditions(source, passed), props), names)
  {
    if props == [] then "" else " where " + Fragment(Conditions(source, passed), props, names)
  }

  /** A statement and the parameters bound for it. */
  datatype Query = Query(sql: string, parameters: map<string, Value>)

  const GetNeedsKey := "Get<T> only supports an entity with a [Key] or Id property"
  const ListNeedsKey := "Entity must have at least one [Key] property"
  const EntityNeedsKey := "Entity must have at least one [Key] or Id property"
  const InsertNeedsKey := "Insert<T> only supports an entity with a [Key] or Id property"
  const DeleteNeedsKey := "Delete<T> only supports an entity with a [Key] or Id property"
  const PagingUnsupported := "GetListPage is not supported with the current SQL Dialect"
  const PageTooSmall := "Page must be greater than 0"
  const InvalidReturnType := "Invalid return type"
  const DeleteListNeedsWhere := "DeleteList<T> requires a where clause"
  const DeleteListNeedsKeyword := "DeleteList<T> requires a where clause and must contain the WHERE keyword"

  /** The key types Insert<TKey> accepts once Nullable<T> is unwrapped. */
  predicate IsKeyType(k: ClrType)
  {
    k == Int || k == UInt || k == Long || k == ULong || k == Short || k == UShort || k == Guid || k == String
  }

  const NoSetter := "Property set method not found."

  /** The key can be read as its type demands: unboxed to a Guid, or converted to a 64-bit integer. */
  predicate KeyReadable(keyType: ClrType, key: Value)
  {
    && (keyType == Guid ==> key.GuidValue?)
    && (keyType == Int || keyType == Long ==> ToInt64(key).Ok?)
  }

  /** The exception reading the key raises: unboxing null or a non-Guid, or the conversion's own. */
  function KeyReadError(keyType: ClrType, key: Value): Error
    requires !KeyReadable(keyType, key)
  {
    if keyType == Guid then (if key == Null then NullReference else InvalidCast) else ToInt64(key).error
  }

  /** A Guid key equal to Guid.Empty is written back, which needs a set accessor. */
  predicate KeyWritable(keyType: ClrType, key: Value, hasSetter: bool)
  {
    keyType == Guid && key == GuidValue(EmptyGuid) ==> hasSetter
  }

  /** The exception the key half of Insert raises: a failed read first, else the failed write-back. */
  function InsertKeyError(keyType: ClrType, key: Value, hasSetter: bool): Error
    requires !(KeyReadable(keyType, key) && KeyWritable(keyType, key, hasSetter))
  {
    if !KeyReadable(keyType, key) then KeyReadError(keyType, key) else ArgumentError(NoSetter)
  }

  /** The database generates the key: an int or long key whose value converts to 0. */
  predicate UsesIdentity(keyType: ClrType, key: Value)
  {
    (keyType == Int || keyType == Long) && ToInt64(key) == Ok(0)
  }

  /** The entity's values after Insert: a Guid key equal to Guid.Empty is replaced by the generated Guid. */
  function WrittenBack(values: map<string, Value>, keyName: string, keyType: ClrType, generated: GuidBytes): map<string, Value>
  {
    if keyType == Guid && ValueOf(values, keyName) == GuidValue(EmptyGuid) then values[keyName := GuidValue(generated)]
    else values
  }

  /** The Guid the insert statement selects back: the generated one in place of Guid.Empty. */
  function InsertedGuid(key: GuidBytes, generated: GuidBytes): GuidBytes
  {
    if key == EmptyGuid then generated else key
  }

  /**
   * What BuildInsertQuery appends after the insert statement: a Guid key is
   * selected back as text, an int or long key of 0 reads the identity back.
   */
  function KeySuffix(keyType: ClrType, key: Value, generated: GuidBytes, identitySql: string): string
  {
    if keyType == Guid && key.GuidValue? then ";select '" + GuidString(InsertedGuid(key.g, generated)) + "' as id"
    else if UsesIdentity(keyType, key) then ";" + identitySql
    else ""
  }

  /** The statement BuildInsertQuery builds and what it tells Insert about the key. */
  datatype Insertion = Insertion(sql: string, keyHasPredefinedValue: bool, keyType: ClrType)

  /** Insert returns the entity's own key for a Guid or predefined key, else the id the statement selects. */
  predicate ReturnsEntityKey(ins: Insertion)
  {
    ins.keyType == Guid || ins.keyHasPredefinedValue
  }

  /**
   * The key policy of Insert: the identity query is appended exactly when the
   * key is an int or long of value 0, and then, and only then, Insert returns
   * the id the statement selects instead of the entity's key; a Guid key is
   * always selected back and never uses the identity query.
   */
  lemma InsertKeyPolicy(keyType: ClrType, key: Value, generated: GuidBytes, identitySql: string, statement: string)
    ensures var ins := Insertion(statement + KeySuffix(keyType, key, generated, identitySql), !UsesIdentity(keyType, key), keyType);
      !ReturnsEntityKey(ins) <==> UsesIdentity(keyType, key)
    ensures UsesIdentity(keyType, key) ==> keyType != Guid && KeySuffix(keyType, key, generated, identitySql) == ";" + identitySql
    ensures keyType == Guid && key.GuidValue? ==>
      KeySuffix(keyType, key, generated, identitySql) == ";select '" + GuidString(InsertedGuid(key.g, generated)) + "' as id"
    ensures keyType != Guid && !UsesIdentity(keyType, key) ==> KeySuffix(keyType, key, generated, identitySql) == ""
  {
  }

  /** An entity object: its runtime type and its property values, which Insert may write to. */
  class Entity {
    const runtimeType: ModelType
    var values: map<string, Value>

    constructor (runtimeType: ModelType, values: map<string, Value>)
      ensures this.runtimeType == runtimeType && this.values == values
    {
      this.runtimeType := runtimeType;
      this.values := values;
    }

    /** The entity as an object value, as BuildWhere and GetProperty read it. */
    function AsRecord(): Record
      reads this
    {
      Record(runtimeType, values)
    }
  }

  class SimpleCrud {
    var dialect: Dialect
    var encapsulation: Quote
    var identitySql: string
    var pagedListSql: string
    /** The paging template as literals and placeholders; pagedListSql is its text. */
    ghost var pagedPieces: seq<Piece>
    var tableNameResolver: TableNameResolver
    var columnNameResolver: ColumnNameResolver

    /** TableNames, keyed by the type (its FullName). */
    var tableNames: map<string, string>
    /** ColumnNames, keyed by "{DeclaringType}.{Name}". */
    var columnNames: map<string, string>
    var idPropertiesCache: map<string, seq<Field>>
    var scaffoldableCache: map<string, seq<Field>>
    var allPropertiesCache: map<string, seq<Field>>
    var updateableCache: map<string, seq<Field>>
    var namedStringCache: map<string, string>

    /** The model types reflection would find, by FullName. */
    ghost const types: map<string, ModelType>
    /**
     * The property each ColumnNames key denotes: a declaring type and a property
     * name identify one PropertyInfo.
     */
    ghost const properties: map<string, Field>

    /** The four profile fields were set together by SetDialect. */
    ghost predicate ProfileValid()
      reads this`dialect, this`encapsulation, this`identitySql, this`pagedListSql, this`pagedPieces
    {
      && encapsulation == QuoteOf(dialect)
      && identitySql == IdentitySqlOf(dialect)
      && pagedPieces == PagedPieces(dialect) && pagedListSql == PagedListSqlOf(dialect)
    }

    /** Every type is registered under its own, non-empty FullName. */
    ghost predicate TypesValid()
    {
      forall n {:trigger types[n]} | n in types :: types[n].fullName == n && n != ""
    }

    /** Each property cache holds what its value function computes for the type named by the key. */
    ghost predicate IdCacheValid()
      reads this`idPropertiesCache
    {
      forall n {:trigger idPropertiesCache[n]} | n in idPropertiesCache :: n in types && idPropertiesCache[n] == IdProperties(types[n].fields)
    }

    ghost predicate ScaffoldableCacheValid()
      reads this`scaffoldableCache
    {
      forall n {:trigger scaffoldableCache[n]} | n in scaffoldableCache :: n in types && scaffoldableCache[n] == Scaffoldable(types[n].fields)
    }

    /**
     * An UpdateablePropertiesCache entry under a static type name followed by a
     * runtime type name holds the static type's updateable properties.
     */
    ghost predicate UpdateableCacheValid()
      reads this`updateableCache
    {
      forall n, m {:trigger updateableCache[n + m]} | n in types && m in types && n + m in updateableCache ::
        updateableCache[n + m] == Updateable(Scaffoldable(types[n].fields))
    }

    /** The registered type names give distinct UpdateablePropertiesCache keys. */
    ghost predicate UpdateableKeysDistinct()
    {
      PairKeysDistinct(types)
    }

    /** An AllPropertiesCache key is ObjectTypeName followed by a runtime type name or nothing. */
    ghost predicate AllPropertiesCacheValid()
      reads this`allPropertiesCache
    {
      forall k {:trigger allPropertiesCache[k]} | k in allPropertiesCache ::
        && |ObjectTypeName| <= |k|
        && var n := k[|ObjectTypeName|..];
        && k == ObjectTypeName + n
        && (n != "" ==> n in types)
        && allPropertiesCache[k] == (if n == "" then [] else types[n].fields)
    }

    /**
     * The caches are consistent with the types. Each builder requires and keeps
     * the part of this invariant for the caches it reads or fills; the others it
     * does not touch.
     */
    ghost predicate Valid()
      reads this`idPropertiesCache, this`scaffoldableCache, this`updateableCache, this`allPropertiesCache
    {
      TypesValid() && IdCacheValid() && ScaffoldableCacheValid() && UpdateableCacheValid() && AllPropertiesCacheValid()
    }

    /** A property of the program, the one its ColumnNames key denotes. */
    ghost predicate Registered(f: Field)
    {
      ColumnKey(f) in properties && properties[ColumnKey(f)] == f
    }

    ghost predicate AllRegistered(fs: seq<Field>)
    {
      forall f | f in fs :: Registered(f)
    }

    /** A type of the program, known by its FullName, whose properties are known by their keys. */
    ghost predicate Declared(t: ModelType)
    {
      t.fullName in types && types[t.fullName] == t && AllRegistered(t.fields)
    }

    /**
     * Every column name cached since `before` is what the current resolver gives
     * for the property its key denotes.
     */
    ghost predicate ResolvedSince(before: map<string, string>, after: map<string, string>)
      reads this`columnNameResolver, this`encapsulation
    {
      ResolvedBy(properties, columnNameResolver, encapsulation, before, after)
    }

    /** Nothing has been cached since the cache itself. */
    lemma ResolvedSinceRefl(names: map<string, string>)
      ensures ResolvedSince(names, names)
    {
    }

    /** Resolved growth composes. */
    lemma ResolvedSinceTrans(a: map<string, string>, b: map<string, string>, c: map<string, string>)
      requires ResolvedSince(a, b) && ResolvedSince(b, c) && Extends(b, c)
      ensures ResolvedSince(a, c)
    {
      forall k | k in c && k !in a
        ensures k in properties && c[k] == ResolveColumnName(columnNameResolver, encapsulation, properties[k])
      {
        if k in b {
          assert c[k] == b[k];
        }
      }
    }

    /**
     * The column name of a property after lookups that resolved every new entry:
     * the one cached before them, or on a miss the resolver's name for it.
     */
    lemma ColumnResolved(before: map<string, string>, after: map<string, string>, f: Field)
      requires Registered(f) && ColumnKey(f) in after && Extends(before, after) && ResolvedSince(before, after)
      ensures FetchedAs(before, after, ColumnKey(f), ResolveColumnName(columnNameResolver, encapsulation, f))
    {
      if ColumnKey(f) !in before {
        assert after[ColumnKey(f)] == ResolveColumnName(columnNameResolver, encapsulation, properties[ColumnKey(f)]);
      }
    }

    /** The identity, scaffoldable and updateable subsets of registered properties are registered. */
    lemma SubsetsRegistered(fs: seq<Field>)
      requires AllRegistered(fs)
      ensures AllRegistered(Scaffoldable(fs)) && AllRegistered(IdProperties(fs)) && AllRegistered(Updateable(Scaffoldable(fs)))
    {
      ScaffoldableMembers(fs);
      UpdateableMembers(Scaffoldable(fs));
      FilterMembers(fs, IsKey);
      FilterMembers(fs, HasIdName);
    }

    /** Every cache is empty. */
    predicate Empty()
      reads this
    {
      && tableNames == map[] && columnNames == map[] && namedStringCache == map[]
      && idPropertiesCache == map[] && scaffoldableCache == map[]
      && allPropertiesCache == map[] && updateableCache == map[]
    }

    /** The static initialiser: the default resolvers, empty caches, then SetDialect(SQLServer). */
    constructor (ghost registry: map<string, ModelType>, ghost registeredProperties: map<string, Field>)
      requires forall n | n in registry :: registry[n].fullName == n && n != ""
      requires PairKeysDistinct(registry)
      ensures Valid() && ProfileValid() && UpdateableKeysDistinct() && types == registry && properties == registeredProperties
      ensures dialect == SQLServer
      ensures tableNameResolver == DefaultTableNames && columnNameResolver == DefaultColumnNames
      ensures Empty()
    {
      types := registry;
      properties := registeredProperties;
      dialect := SQLServer;
      encapsulation := Quote("", "");
      identitySql := "";
      pagedListSql := "";
      tableNameResolver := DefaultTableNames;
      columnNameResolver := DefaultColumnNames;
      tableNames := map[];
      columnNames := map[];
      idPropertiesCache := map[];
      scaffoldableCache := map[];
      allPropertiesCache := map[];
      updateableCache := map[];
      namedStringCache := map[];
      new;
      assert Empty() && Valid();
      SetDialect(SQLServer);
    }

    /** GetDialect: the name of the current dialect, which no other dialect reports. */
    function GetDialect(): (name: string)
      reads this
      ensures forall d: Dialect :: DialectName(d) == name <==> d == dialect
    {
      DialectName(dialect)
    }

    /** SetDialect: sets the dialect and its quoting, identity query and paging template; no cache changes. */
    method SetDialect(d: Dialect)
      modifies this`dialect, this`encapsulation, this`identitySql, this`pagedListSql, this`pagedPieces
      ensures ProfileValid() && dialect == d && GetDialect() == DialectName(d)
      ensures encapsulation == QuoteOf(d) && identitySql == IdentitySqlOf(d)
      ensures pagedListSql == PagedListSqlOf(d) && pagedPieces == PagedPieces(d)
    {
      dialect := d;
      encapsulation := QuoteOf(d);
      identitySql := IdentitySqlOf(d);
      pagedPieces := PagedPieces(d);
      pagedListSql := PagedListSqlOf(d);
    }

    method SetTableNameResolver(resolver: TableNameResolver)
      modifies this`tableNameResolver
      ensures tableNameResolver == resolver
    {
      tableNameResolver := resolver;
    }

    method SetColumnNameResolver(resolver: ColumnNameResolver)
      modifies this`columnNameResolver
      ensures columnNameResolver == resolver
    {
      columnNameResolver := resolver;
    }

    /**
     * GetTableName: the cached name of the type, or on a miss the current
     * resolver's name, stored under the type.
     */
    method GetTableName(t: ModelType) returns (name: string)
      modifies this`tableNames
      ensures t.fullName in tableNames && name == tableNames[t.fullName]
      ensures tableNames == old(tableNames)[t.fullName := name] && Extends(old(tableNames), tableNames)
      ensures t.fullName in old(tableNames) ==> name == old(tableNames)[t.fullName]
      ensures t.fullName !in old(tableNames) ==> name == ResolveTableName(tableNameResolver, encapsulation, t)
    {
      if t.fullName in tableNames {
        name := tableNames[t.fullName];
        return;
      }
      name := ResolveTableName(tableNameResolver, encapsulation, t);
      tableNames := tableNames[t.fullName := name];
    }

    /**
     * GetColumnName: the cached name of the property, or on a miss the current
     * resolver's name, stored under "{DeclaringType}.{Name}".
     */
    method GetColumnName(f: Field) returns (name: string)
      modifies this`columnNames
      ensures ColumnKey(f) in columnNames && name == columnNames[ColumnKey(f)]
      ensures columnNames == old(columnNames)[ColumnKey(f) := name] && Extends(old(columnNames), columnNames)
      ensures ColumnKey(f) in old(columnNames) ==> name == old(columnNames)[ColumnKey(f)]
      ensures ColumnKey(f) !in old(columnNames) ==> name == ResolveColumnName(columnNameResolver, encapsulation, f)
      ensures Registered(f) ==> ResolvedSince(old(columnNames), columnNames)
    {
      var key := ColumnKey(f);
      if key in columnNames {
        name := columnNames[key];
        return;
      }
      name := ResolveColumnName(columnNameResolver, encapsulation, f);
      columnNames := columnNames[key := name];
    }

    /**
     * Once looked up, a table or column name is fixed: changing the dialect and
     * both resolvers between two lookups does not change what they return.
     */
    method NamesSurviveReconfiguration(t: ModelType, f: Field, d: Dialect,
                                       tables: TableNameResolver, columns: ColumnNameResolver)
      returns (tableBefore: string, tableAfter: string, columnBefore: string, columnAfter: string)
      modifies this`tableNames, this`columnNames, this`dialect, this`encapsulation, this`identitySql,
               this`pagedListSql, this`pagedPieces, this`tableNameResolver, this`columnNameResolver
      ensures tableAfter == tableBefore && columnAfter == columnBefore
      ensures tableNameResolver == tables && columnNameResolver == columns && dialect == d
    {
      tableBefore := GetTableName(t);
      columnBefore := GetColumnName(f);
      SetDialect(d);
      SetTableNameResolver(tables);
      SetColumnNameResolver(columns);
      tableAfter := GetTableName(t);
      columnAfter := GetColumnName(f);
    }

    /** GetIdProperties (both overloads share the cache): the identity properties of the type. */
    method GetIdProperties(t: ModelType) returns (ids: seq<Field>)
      requires IdCacheValid() && Declared(t)
      modifies this`idPropertiesCache
      ensures IdCacheValid()
      ensures ids == IdProperties(t.fields)
      ensures idPropertiesCache == old(idPropertiesCache)[t.fullName := ids]
      ensures Extends(old(idPropertiesCache), idPropertiesCache)
    {
      var compute := () => IdProperties(t.fields);
      var r := Fetch(idPropertiesCache, t.fullName, compute);
      FetchExtends(idPropertiesCache, t.fullName, compute);
      assert r.value == IdProperties(t.fields);
      idPropertiesCache := r.cache;
      ids := r.value;
      assert IdCacheValid();
    }

    /** GetScaffoldableProperties: the scaffoldable properties of the type. */
    method GetScaffoldableProperties(t: ModelType) returns (props: seq<Field>)
      requires ScaffoldableCacheValid() && Declared(t)
      modifies this`scaffoldableCache
      ensures ScaffoldableCacheValid()
      ensures props == Scaffoldable(t.fields)
      ensures scaffoldableCache == old(scaffoldableCache)[t.fullName := props]
      ensures Extends(old(scaffoldableCache), scaffoldableCache)
    {
      var compute := () => Scaffoldable(t.fields);
      var r := Fetch(scaffoldableCache, t.fullName, compute);
      FetchExtends(scaffoldableCache, t.fullName, compute);
      assert r.value == Scaffoldable(t.fields);
      scaffoldableCache := r.cache;
      props := r.value;
      assert ScaffoldableCacheValid();
    }

    /**
     * GetUpdateableProperties: the updateable subset of the static type's
     * scaffoldable properties, cached under the static and the runtime type
     * name; a miss goes through GetScaffoldableProperties of the static type.
     */
    method GetUpdateableProperties(staticType: ModelType, runtimeType: ModelType) returns (props: seq<Field>)
      requires ScaffoldableCacheValid() && UpdateableCacheValid() && UpdateableKeysDistinct()
      requires Declared(staticType) && Declared(runtimeType)
      modifies this`updateableCache, this`scaffoldableCache
      ensures ScaffoldableCacheValid() && UpdateableCacheValid()
      ensures props == Updateable(Scaffoldable(staticType.fields))
      ensures updateableCache == old(updateableCache)[UpdateableKey(staticType, runtimeType) := props]
      ensures Extends(old(updateableCache), updateableCache) && Extends(old(scaffoldableCache), scaffoldableCache)
      ensures UpdateableKey(staticType, runtimeType) in old(updateableCache) ==> scaffoldableCache == old(scaffoldableCache)
      ensures UpdateableKey(staticType, runtimeType) !in old(updateableCache) ==>
        scaffoldableCache == old(scaffoldableCache)[staticType.fullName := Scaffoldable(staticType.fields)]
    {
      var key := UpdateableKey(staticType, runtimeType);
      assert types[staticType.fullName] == staticType && types[runtimeType.fullName] == runtimeType;
      if key in updateableCache {
        props := updateableCache[key];
        assert updateableCache == old(updateableCache)[key := props];
        return;
      }
      var scaffoldable := GetScaffoldableProperties(staticType);
      props := Updateable(scaffoldable);
      updateableCache := updateableCache[key := props];
      forall n, m | n in types && m in types && n + m in updateableCache
        ensures updateableCache[n + m] == Updateable(Scaffoldable(types[n].fields))
      {
        if n + m == key {
          assert PairKey(n, m) == PairKey(staticType.fullName, runtimeType.fullName);
        }
      }
    }

    /** GetAllProperties: the properties of the object's runtime type; none without an object. */
    method GetAllProperties(conditions: Option<Record>) returns (props: seq<Field>)
      requires TypesValid() && AllPropertiesCacheValid() && (conditions.Some? ==> Declared(conditions.value.runtimeType))
      modifies this`allPropertiesCache
      ensures AllPropertiesCacheValid()
      ensures props == WhereProperties(conditions)
      ensures allPropertiesCache == old(allPropertiesCache)[AllPropertiesKey(conditions) := props]
      ensures Extends(old(allPropertiesCache), allPropertiesCache)
    {
      var key := AllPropertiesKey(conditions);
      var fields := if conditions.Some? then conditions.value.runtimeType.fields else [];
      if conditions.Some? {
        var n := conditions.value.runtimeType.fullName;
        assert key == ObjectTypeName + n && n in types;
      } else {
        assert key == ObjectTypeName;
      }
      var compute := () => fields;
      var r := Fetch(allPropertiesCache, key, compute);
      FetchExtends(allPropertiesCache, key, compute);
      if conditions.Some? {
        forall n | n in types && ObjectTypeName + n == key ensures n == conditions.value.runtimeType.fullName {
          PrefixedKeyInjective(ObjectTypeName, n, conditions.value.runtimeType.fullName);
        }
      } else {
        forall n | n in types ensures ObjectTypeName + n != key {
          assert |ObjectTypeName + n| > |key|;
        }
      }
      allPropertiesCache := r.cache;
      props := r.value;
    }

    /** The properties a fragment is rendered for, and those a WHERE predicate may match, are registered. */
    ghost predicate LayoutRegistered(l: Layout, fs: seq<Field>)
    {
      AllRegistered(fs) && (l.Conditions? ==> AllRegistered(l.source))
    }

    /** The property whose column name an item uses is registered. */
    lemma TargetRegistered(l: Layout, fs: seq<Field>, f: Field)
      requires LayoutRegistered(l, fs) && f in fs
      ensures Registered(Target(l, f))
    {
    }

    /** The column name an item of `f` shows, looked up through GetColumnName when the layout uses one. */
    method ItemColumn(l: Layout, fs: seq<Field>, f: Field, ghost start: map<string, string>) returns (col: string)
      requires LayoutRegistered(l, fs) && f in fs
      requires Extends(start, columnNames) && ResolvedBy(properties, columnNameResolver, encapsulation, start, columnNames)
      modifies this`columnNames
      ensures Extends(old(columnNames), columnNames)
      ensures Extends(start, columnNames) && ResolvedBy(properties, columnNameResolver, encapsulation, start, columnNames)
      ensures UsesColumn(l) ==> ColumnKey(Target(l, f)) in columnNames && col == columnNames[ColumnKey(Target(l, f))]
      ensures !UsesColumn(l) ==> col == "" && columnNames == old(columnNames)
    {
      col := "";
      if UsesColumn(l) {
        TargetRegistered(l, fs, f);
        col := GetColumnName(Target(l, f));
        assert ResolvedSince(start, old(columnNames));
        ResolvedSinceTrans(start, old(columnNames), columnNames);
      }
    }

    /**
     * One iteration of the append loop, for the property at `i`: when the
     * layout emits it, its item and the separator; `emits` says whether it did.
     */
    method AppendNext(l: Layout, fs: seq<Field>, i: nat, ghost emitted: seq<Field>, ghost start: map<string, string>)
      returns (piece: string, emits: bool, ghost next: seq<Field>)
      requires LayoutRegistered(l, fs) && i < |fs| && emitted == Emitted(l, fs[..i]) && Named(l, emitted, columnNames)
      requires Extends(start, columnNames) && ResolvedBy(properties, columnNameResolver, encapsulation, start, columnNames)
      modifies this`columnNames
      ensures Extends(start, columnNames) && ResolvedBy(properties, columnNameResolver, encapsulation, start, columnNames)
      ensures emits == Emits(l, fs[i]) && next == Emitted(l, fs[..i + 1]) && |next| == |emitted| + (if emits then 1 else 0)
      ensures Named(l, next, columnNames)
      ensures Appended(Items(l, next, columnNames), Sep(l)) == Appended(Items(l, emitted, old(columnNames)), Sep(l)) + piece
    {
      var f := fs[i];
      assert fs[..i + 1] == fs[..i] + [f];
      EmittedSnoc(l, fs[..i], f);
      emits := Emits(l, f);
      if emits {
        piece := AppendEmitted(l, fs, f, emitted, start);
        next := emitted + [f];
      } else {
        piece, next := "", emitted;
      }
    }

    /** The item of an emitted property and the separator. */
    method AppendEmitted(l: Layout, fs: seq<Field>, f: Field, ghost emitted: seq<Field>, ghost start: map<string, string>)
      returns (piece: string)
      requires LayoutRegistered(l, fs) && f in fs && Named(l, emitted, columnNames)
      requires Extends(start, columnNames) && ResolvedBy(properties, columnNameResolver, encapsulation, start, columnNames)
      modifies this`columnNames
      ensures Extends(start, columnNames) && ResolvedBy(properties, columnNameResolver, encapsulation, start, columnNames)
      ensures Named(l, emitted + [f], columnNames)
      ensures Appended(Items(l, emitted + [f], columnNames), Sep(l)) == Appended(Items(l, emitted, old(columnNames)), Sep(l)) + piece
    {
      var col := ItemColumn(l, fs, f, start);
      AppendStep(l, emitted, f, old(columnNames), columnNames, col);
      piece := Item(l, f, col) + Sep(l);
    }

    /**
     * The append half of the fragment builders' loops: for every emitted
     * property its item and the separator, looking the column name up through
     * GetColumnName; `count` is the number of items appended.
     */
    method AppendEach(l: Layout, fs: seq<Field>) returns (sb: string, count: nat)
      requires LayoutRegistered(l, fs)
      modifies this`columnNames
      ensures Extends(old(columnNames), columnNames) && ResolvedSince(old(columnNames), columnNames)
      ensures Named(l, Emitted(l, fs), columnNames)
      ensures sb == Appended(Items(l, Emitted(l, fs), columnNames), Sep(l)) && count == |Emitted(l, fs)|
    {
      sb := "";
      count := 0;
      ghost var emitted: seq<Field> := [];
      for i := 0 to |fs|
        invariant Extends(old(columnNames), columnNames)
        invariant ResolvedBy(properties, columnNameResolver, encapsulation, old(columnNames), columnNames)
        invariant emitted == Emitted(l, fs[..i]) && count == |emitted|
        invariant Named(l, emitted, columnNames)
        invariant sb == Appended(Items(l, emitted, columnNames), Sep(l))
      {
        var piece, emits;
        piece, emits, emitted := AppendNext(l, fs, i, emitted, old(columnNames));
        sb := sb + piece;
        if emits {
          count := count + 1;
        }
      }
      assert fs[..|fs|] == fs;
    }

    /** The whole loop: append every item, then remove the last separator if anything was appended. */
    method AppendItems(l: Layout, fs: seq<Field>) returns (text: string)
      requires LayoutRegistered(l, fs)
      modifies this`columnNames
      ensures Extends(old(columnNames), columnNames) && ResolvedSince(old(columnNames), columnNames)
      ensures Named(l, Emitted(l, fs), columnNames) && text == Fragment(l, fs, columnNames)
    {
      var sb, count := AppendEach(l, fs);
      FinishAppend(l, fs, columnNames);
      if count != 0 {
        sb := sb[..|sb| - |Sep(l)|];
      }
      text := sb;
    }

    /** BuildSelect: the cached select list of the type, rendered from `props` on a miss. */
    method BuildSelect(t: ModelType, props: seq<Field>) returns (text: string)
      requires AllRegistered(props)
      modifies this`columnNames, this`namedStringCache
      ensures Extends(old(columnNames), columnNames) && ResolvedSince(old(columnNames), columnNames)
      ensures namedStringCache == old(namedStringCache)[SelectKey(t) := text]
      ensures CachedFragment(old(namedStringCache), namedStringCache, columnNames, SelectKey(t), SelectList(encapsulation), props)
    {
      var key := SelectKey(t);
      if key in namedStringCache {
        text := namedStringCache[key];
        return;
      }
      text := AppendItems(SelectList(encapsulation), props);
      namedStringCache := namedStringCache[key := text];
    }

    /**
     * BuildUpdateSet: the cached SET list of the static type, rendered on a miss
     * from the updateable properties GetUpdateableProperties finds for the entity.
     */
    method BuildUpdateSet(t: ModelType, runtimeType: ModelType) returns (text: string)
      requires ScaffoldableCacheValid() && UpdateableCacheValid() && UpdateableKeysDistinct()
      requires Declared(t) && Declared(runtimeType)
      modifies this`columnNames, this`namedStringCache, this`updateableCache, this`scaffoldableCache
      ensures ScaffoldableCacheValid() && UpdateableCacheValid()
      ensures Extends(old(columnNames), columnNames) && ResolvedSince(old(columnNames), columnNames)
      ensures Extends(old(updateableCache), updateableCache) && Extends(old(scaffoldableCache), scaffoldableCache)
      ensures namedStringCache == old(namedStringCache)[UpdateSetKey(t) := text]
      ensures CachedFragment(old(namedStringCache), namedStringCache, columnNames, UpdateSetKey(t), SetList,
                             Updateable(Scaffoldable(t.fields)))
    {
      var key := UpdateSetKey(t);
      if key in namedStringCache {
        text := namedStringCache[key];
        return;
      }
      var props := GetUpdateableProperties(t, runtimeType);
      SubsetsRegistered(t.fields);
      text := AppendItems(SetList, props);
      namedStringCache := namedStringCache[key := text];
    }

    /** BuildInsertParameters: the cached insert column list, rendered from the scaffoldable properties on a miss. */
    method BuildInsertParameters(t: ModelType) returns (text: string)
      requires ScaffoldableCacheValid() && Declared(t)
      modifies this`columnNames, this`namedStringCache, this`scaffoldableCache
      ensures ScaffoldableCacheValid()
      ensures Extends(old(columnNames), columnNames) && ResolvedSince(old(columnNames), columnNames) && Extends(old(scaffoldableCache), scaffoldableCache)
      ensures namedStringCache == old(namedStringCache)[InsertParametersKey(t) := text]
      ensures CachedFragment(old(namedStringCache), namedStringCache, columnNames, InsertParametersKey(t), ColumnList,
                             Scaffoldable(t.fields))
    {
      var key := InsertParametersKey(t);
      if key in namedStringCache {
        text := namedStringCache[key];
        return;
      }
      var props := GetScaffoldableProperties(t);
      SubsetsRegistered(t.fields);
      text := AppendItems(ColumnList, props);
      namedStringCache := namedStringCache[key := text];
    }

    /** BuildInsertValues: the cached insert value list, rendered from the scaffoldable properties on a miss. */
    method BuildInsertValues(t: ModelType) returns (text: string)
      requires ScaffoldableCacheValid() && Declared(t)
      modifies this`columnNames, this`namedStringCache, this`scaffoldableCache
      ensures ScaffoldableCacheValid()
      ensures Extends(old(columnNames), columnNames) && ResolvedSince(old(columnNames), columnNames) && Extends(old(scaffoldableCache), scaffoldableCache)
      ensures namedStringCache == old(namedStringCache)[InsertValuesKey(t) := text]
      ensures CachedFragment(old(namedStringCache), namedStringCache, columnNames, InsertValuesKey(t), ValueList,
                             Scaffoldable(t.fields))
    {
      var key := InsertValuesKey(t);
      if key in namedStringCache {
        text := namedStringCache[key];
        return;
      }
      var props := GetScaffoldableProperties(t);
      SubsetsRegistered(t.fields);
      text := AppendItems(ValueList, props);
      namedStringCache := namedStringCache[key := text];
    }

    /**
     * BuildWhere: one predicate per property, matched by name against the
     * type's scaffoldable properties; not cached.
     */
    method BuildWhere(t: ModelType, props: seq<Field>, conditions: Option<Record>) returns (text: string)
      requires ScaffoldableCacheValid() && Declared(t) && AllRegistered(props)
      modifies this`columnNames, this`scaffoldableCache
      ensures ScaffoldableCacheValid()
      ensures Extends(old(columnNames), columnNames) && ResolvedSince(old(columnNames), columnNames) && Extends(old(scaffoldableCache), scaffoldableCache)
      ensures Named(Conditions(Scaffoldable(t.fields), conditions), Emitted(Conditions(Scaffoldable(t.fields), conditions), props), columnNames)
      ensures text == Fragment(Conditions(Scaffoldable(t.fields), conditions), props, columnNames)
    {
      var source := GetScaffoldableProperties(t);
      SubsetsRegistered(t.fields);
      text := AppendItems(Conditions(source, conditions), props);
    }

    /** The select list of the type, BuildSelect over its scaffoldable properties. */
    method ScaffoldSelect(t: ModelType) returns (sel: string)
      requires ScaffoldableCacheValid() && Declared(t)
      modifies this`scaffoldableCache, this`columnNames, this`namedStringCache
      ensures ScaffoldableCacheValid()
      ensures Extends(old(scaffoldableCache), scaffoldableCache)
      ensures Extends(old(columnNames), columnNames) && ResolvedSince(old(columnNames), columnNames) && Extends(old(namedStringCache), namedStringCache)
      ensures CachedFragment(old(namedStringCache), namedStringCache, columnNames, SelectKey(t), SelectList(encapsulation),
                             Scaffoldable(t.fields))
      ensures sel == namedStringCache[SelectKey(t)]
    {
      var scaffoldable := GetScaffoldableProperties(t);
      SubsetsRegistered(t.fields);
      sel := BuildSelect(t, scaffoldable);
    }

    /**
     * The head shared by the select statements: "Select <select list> from <table>",
     * the table name through GetTableName and the select list through BuildSelect
     * over the scaffoldable properties.
     */
    method SelectFrom(t: ModelType) returns (head: string)
      requires ScaffoldableCacheValid() && Declared(t)
      modifies this`tableNames, this`scaffoldableCache, this`columnNames, this`namedStringCache
      ensures ScaffoldableCacheValid()
      ensures Extends(old(tableNames), tableNames) && Extends(old(scaffoldableCache), scaffoldableCache)
      ensures Extends(old(columnNames), columnNames) && ResolvedSince(old(columnNames), columnNames) && Extends(old(namedStringCache), namedStringCache)
      ensures FetchedAs(old(tableNames), tableNames, t.fullName, ResolveTableName(tableNameResolver, encapsulation, t))
      ensures CachedFragment(old(namedStringCache), namedStringCache, columnNames, SelectKey(t), SelectList(encapsulation),
                             Scaffoldable(t.fields))
      ensures head == "Select " + namedStringCache[SelectKey(t)] + " from " + tableNames[t.fullName]
    {
      var name := GetTableName(t);
      var sel := ScaffoldSelect(t);
      head := "Select " + sel + " from " + name;
    }

    /**
     * The identity predicates "col = @name", separated by " and", and the
     * parameters bound for them, as Get and Delete by id build them.
     */
    method IdClause(ids: seq<Field>, id: Value) returns (r: Result<Query>)
      requires AllRegistered(ids)
      modifies this`columnNames
      ensures Extends(old(columnNames), columnNames) && ResolvedSince(old(columnNames), columnNames)
      ensures Named(IdPredicates, Emitted(IdPredicates, ids), columnNames)
      ensures r.Ok? <==> IdBindable(ids, id)
      ensures r.Err? ==> r.error == NullReference
      ensures r.Ok? ==> r.value.sql == Fragment(IdPredicates, ids, columnNames) && BindsIds(ids, id, r.value.parameters)
    {
      var preds := AppendItems(IdPredicates, ids);
      EmittedEvery(IdPredicates, ids);
      var parms := BindIdParameters(ids, id);
      if parms.Err? {
        return Err(parms.error);
      }
      r := Ok(Query(preds, parms.value));
    }

    /**
     * BuildGetQuery: "Select <select list> from <table> where <id predicates>"
     * with the id bound to the identity parameters; a type without identity
     * properties is refused before any SQL is built.
     */
    method BuildGetQuery(t: ModelType, id: Value) returns (r: Result<Query>)
      requires IdCacheValid() && ScaffoldableCacheValid() && Declared(t)
      modifies this`idPropertiesCache, this`tableNames, this`scaffoldableCache, this`columnNames, this`namedStringCache
      ensures IdCacheValid() && ScaffoldableCacheValid()
      ensures Extends(old(idPropertiesCache), idPropertiesCache) && Extends(old(tableNames), tableNames)
      ensures Extends(old(scaffoldableCache), scaffoldableCache) && Extends(old(columnNames), columnNames) && ResolvedSince(old(columnNames), columnNames)
      ensures Extends(old(namedStringCache), namedStringCache)
      ensures IdProperties(t.fields) == [] ==> r == Err(ArgumentError(GetNeedsKey))
      ensures IdProperties(t.fields) == [] ==>
        tableNames == old(tableNames) && columnNames == old(columnNames) && namedStringCache == old(namedStringCache)
      ensures IdProperties(t.fields) != [] ==> (r.Ok? <==> IdBindable(IdProperties(t.fields), id))
      ensures IdProperties(t.fields) != [] && r.Err? ==> r.error == NullReference
      ensures r.Ok? ==>
        var ids := IdProperties(t.fields);
        && FetchedAs(old(tableNames), tableNames, t.fullName, ResolveTableName(tableNameResolver, encapsulation, t))
        && CachedFragment(old(namedStringCache), namedStringCache, columnNames, SelectKey(t), SelectList(encapsulation),
                          Scaffoldable(t.fields))
        && Named(IdPredicates, Emitted(IdPredicates, ids), columnNames)
        && r.value.sql == "Select " + namedStringCache[SelectKey(t)] + " from " + tableNames[t.fullName]
                          + " where " + Fragment(IdPredicates, ids, columnNames)
        && BindsIds(ids, id, r.value.parameters)
    {
      var ids := GetIdProperties(t);
      if ids == [] {
        return Err(ArgumentError(GetNeedsKey));
      }
      var head := SelectFrom(t);
      ghost var namesAfterSelect := columnNames;
      SubsetsRegistered(t.fields);
      var clause := IdClause(ids, id);
      CachedFragmentGrows(old(namedStringCache), namedStringCache, namesAfterSelect, namedStringCache, columnNames,
                          SelectKey(t), SelectList(encapsulation), Scaffoldable(t.fields));
      if clause.Err? {
        return Err(clause.error);
      }
      r := Ok(Query(head + " where " + clause.value.sql, clause.value.parameters));
    }

    /**
     * The optional WHERE part of the statements built from a conditions object:
     * the object's properties through GetAllProperties, and when there are any,
     * " where " and BuildWhere over them, given `passed` as the object.
     */
    method WhereFrom(t: ModelType, conditions: Option<Record>, passed: Option<Record>) returns (text: string)
      requires ScaffoldableCacheValid() && AllPropertiesCacheValid() && TypesValid() && Declared(t)
      requires conditions.Some? ==> Declared(conditions.value.runtimeType)
      modifies this`allPropertiesCache, this`scaffoldableCache, this`columnNames
      ensures ScaffoldableCacheValid() && AllPropertiesCacheValid()
      ensures Extends(old(allPropertiesCache), allPropertiesCache) && Extends(old(scaffoldableCache), scaffoldableCache)
      ensures Extends(old(columnNames), columnNames) && ResolvedSince(old(columnNames), columnNames)
      ensures Named(Conditions(Scaffoldable(t.fields), passed), Emitted(Conditions(Scaffoldable(t.fields), passed), WhereProperties(conditions)), columnNames)
      ensures text == WherePart(Scaffoldable(t.fields), passed, WhereProperties(conditions), columnNames)
    {
      var whereProps := GetAllProperties(conditions);
      if whereProps == [] {
        EmittedEvery(Conditions(Scaffoldable(t.fields), passed), whereProps);
        return "";
      }
      var predicates := BuildWhere(t, whereProps, passed);
      text := " where " + predicates;
    }

    /**
     * BuildGetListQuery (conditions object): "Select <select list> from <table>"
     * and, when the object has properties, " where " and one predicate per
     * property, testing for null where the object's value is null.
     */
    method BuildGetListQuery(t: ModelType, conditions: Option<Record>) returns (r: Result<string>)
      requires IdCacheValid() && ScaffoldableCacheValid() && AllPropertiesCacheValid() && TypesValid() && Declared(t) && (conditions.Some? ==> Declared(conditions.value.runtimeType))
      modifies this`idPropertiesCache, this`tableNames, this`scaffoldableCache, this`columnNames,
               this`namedStringCache, this`allPropertiesCache
      ensures IdCacheValid() && ScaffoldableCacheValid() && AllPropertiesCacheValid()
      ensures Extends(old(idPropertiesCache), idPropertiesCache) && Extends(old(tableNames), tableNames)
      ensures Extends(old(scaffoldableCache), scaffoldableCache) && Extends(old(columnNames), columnNames) && ResolvedSince(old(columnNames), columnNames)
      ensures Extends(old(namedStringCache), namedStringCache) && Extends(old(allPropertiesCache), allPropertiesCache)
      ensures IdProperties(t.fields) == [] ==> r == Err(ArgumentError(ListNeedsKey))
      ensures IdProperties(t.fields) == [] ==>
        tableNames == old(tableNames) && columnNames == old(columnNames) && namedStringCache == old(namedStringCache)
      ensures IdProperties(t.fields) != [] ==> r.Ok?
      ensures r.Ok? ==>
        var source := Scaffoldable(t.fields);
        && FetchedAs(old(tableNames), tableNames, t.fullName, ResolveTableName(tableNameResolver, encapsulation, t))
        && CachedFragment(old(namedStringCache), namedStringCache, columnNames, SelectKey(t), SelectList(encapsulation), source)
        && Named(Conditions(source, conditions), Emitted(Conditions(source, conditions), WhereProperties(conditions)), columnNames)
        && r.value == "Select " + namedStringCache[SelectKey(t)] + " from " + tableNames[t.fullName]
                      + WherePart(source, conditions, WhereProperties(conditions), columnNames)
    {
      var ids := GetIdProperties(t);
      if ids == [] {
        return Err(ArgumentError(ListNeedsKey));
      }
      var head := SelectFrom(t);
      ghost var namesAfterSelect := columnNames;
      var where := WhereFrom(t, conditions, conditions);
      CachedFragmentGrows(old(namedStringCache), namedStringCache, namesAfterSelect, namedStringCache, columnNames,
                          SelectKey(t), SelectList(encapsulation), Scaffoldable(t.fields));
      r := Ok(head + where);
    }

    /**
     * BuildGetListQuery (conditions text): "Select <select list> from <table> "
     * followed by the caller's text as given (a null text is the empty string).
     */
    method BuildGetListQueryText(t: ModelType, conditions: string) returns (r: Result<string>)
      requires IdCacheValid() && ScaffoldableCacheValid() && Declared(t)
      modifies this`idPropertiesCache, this`tableNames, this`scaffoldableCache, this`columnNames, this`namedStringCache
      ensures IdCacheValid() && ScaffoldableCacheValid()
      ensures Extends(old(idPropertiesCache), idPropertiesCache) && Extends(old(tableNames), tableNames)
      ensures Extends(old(scaffoldableCache), scaffoldableCache) && Extends(old(columnNames), columnNames) && ResolvedSince(old(columnNames), columnNames)
      ensures Extends(old(namedStringCache), namedStringCache)
      ensures IdProperties(t.fields) == [] ==> r == Err(ArgumentError(ListNeedsKey))
      ensures IdProperties(t.fields) == [] ==>
        tableNames == old(tableNames) && columnNames == old(columnNames) && namedStringCache == old(namedStringCache)
      ensures IdProperties(t.fields) != [] ==> r.Ok?
      ensures r.Ok? ==>
        && FetchedAs(old(tableNames), tableNames, t.fullName, ResolveTableName(tableNameResolver, encapsulation, t))
        && CachedFragment(old(namedStringCache), namedStringCache, columnNames, SelectKey(t), SelectList(encapsulation),
                          Scaffoldable(t.fields))
        && r.value == "Select " + namedStringCache[SelectKey(t)] + " from " + tableNames[t.fullName] + " " + conditions
    {
      var ids := GetIdProperties(t);
      if ids == [] {
        return Err(ArgumentError(ListNeedsKey));
      }
      var head := SelectFrom(t);
      r := Ok(head + " " + conditions);
    }

    /**
     * BuildRecordCountQuery (conditions object): "Select count(1) from <table>"
     * and the optional WHERE part; no object is passed to BuildWhere.
     */
    method BuildRecordCountQuery(t: ModelType, conditions: Option<Record>) returns (sql: string)
      requires ScaffoldableCacheValid() && AllPropertiesCacheValid() && TypesValid() && Declared(t) && (conditions.Some? ==> Declared(conditions.value.runtimeType))
      modifies this`tableNames, this`scaffoldableCache, this`columnNames, this`allPropertiesCache
      ensures ScaffoldableCacheValid() && AllPropertiesCacheValid()
      ensures Extends(old(tableNames), tableNames) && Extends(old(scaffoldableCache), scaffoldableCache)
      ensures Extends(old(columnNames), columnNames) && ResolvedSince(old(columnNames), columnNames) && Extends(old(allPropertiesCache), allPropertiesCache)
      ensures FetchedAs(old(tableNames), tableNames, t.fullName, ResolveTableName(tableNameResolver, encapsulation, t))
      ensures Named(Conditions(Scaffoldable(t.fields), None), Emitted(Conditions(Scaffoldable(t.fields), None), WhereProperties(conditions)), columnNames)
      ensures sql == "Select count(1) from " + tableNames[t.fullName]
                     + WherePart(Scaffoldable(t.fields), None, WhereProperties(conditions), columnNames)
    {
      var name := GetTableName(t);
      var where := WhereFrom(t, conditions, None);
      sql := "Select count(1) from " + name + where;
    }

    /** BuildRecordCountQuery (conditions text): "Select count(1) from <table> " and the caller's text. */
    method BuildRecordCountQueryText(t: ModelType, conditions: string) returns (sql: string)
      modifies this`tableNames
      ensures Extends(old(tableNames), tableNames)
      ensures FetchedAs(old(tableNames), tableNames, t.fullName, ResolveTableName(tableNameResolver, encapsulation, t))
      ensures sql == "Select count(1) from " + tableNames[t.fullName] + " " + conditions
    {
      var name := GetTableName(t);
      sql := "Select count(1) from " + name + " " + conditions;
    }

    /**
     * BuildDeleteListQuery (conditions object): "Delete from <table>" and the
     * optional WHERE part; no object is passed to BuildWhere.
     */
    method BuildDeleteListQuery(t: ModelType, conditions: Option<Record>) returns (sql: string)
      requires ScaffoldableCacheValid() && AllPropertiesCacheValid() && TypesValid() && Declared(t) && (conditions.Some? ==> Declared(conditions.value.runtimeType))
      modifies this`tableNames, this`scaffoldableCache, this`columnNames, this`allPropertiesCache
      ensures ScaffoldableCacheValid() && AllPropertiesCacheValid()
      ensures Extends(old(tableNames), tableNames) && Extends(old(scaffoldableCache), scaffoldableCache)
      ensures Extends(old(columnNames), columnNames) && ResolvedSince(old(columnNames), columnNames) && Extends(old(allPropertiesCache), allPropertiesCache)
      ensures FetchedAs(old(tableNames), tableNames, t.fullName, ResolveTableName(tableNameResolver, encapsulation, t))
      ensures Named(Conditions(Scaffoldable(t.fields), None), Emitted(Conditions(Scaffoldable(t.fields), None), WhereProperties(conditions)), columnNames)
      ensures sql == "Delete from " + tableNames[t.fullName]
                     + WherePart(Scaffoldable(t.fields), None, WhereProperties(conditions), columnNames)
    {
      var name := GetTableName(t);
      var where := WhereFrom(t, conditions, None);
      sql := "Delete from " + name + where;
    }

    /**
     * BuildDeleteListQuery (conditions text): refuses an empty text and a text
     * whose lower-case form does not contain "where"; otherwise
     * "Delete from <table> " and the text as given.
     */
    method BuildDeleteListQueryText(t: ModelType, conditions: string) returns (r: Result<string>)
      modifies this`tableNames
      ensures Extends(old(tableNames), tableNames)
      ensures conditions == "" ==> r == Err(ArgumentError(DeleteListNeedsWhere))
      ensures conditions != "" && !Contains(ToLower(conditions), "where") ==> r == Err(ArgumentError(DeleteListNeedsKeyword))
      ensures r.Err? ==> tableNames == old(tableNames)
      ensures r.Ok? <==> conditions != "" && Contains(ToLower(conditions), "where")
      ensures r.Ok? ==>
        && FetchedAs(old(tableNames), tableNames, t.fullName, ResolveTableName(tableNameResolver, encapsulation, t))
        && r.value == "Delete from " + tableNames[t.fullName] + " " + conditions
    {
      if conditions == "" {
        return Err(ArgumentError(DeleteListNeedsWhere));
      }
      if !Contains(ToLower(conditions), "where") {
        return Err(ArgumentError(DeleteListNeedsKeyword));
      }
      var name := GetTableName(t);
      r := Ok("Delete from " + name + " " + conditions);
    }

    /**
     * The values BuildGetListPagedQuery substitutes, fetched in its order: the
     * table name, the first identity column when no order-by is given, then the
     * select list.
     */
    method PagedValues(t: ModelType, ids: seq<Field>, orderBy: string) returns (sel: string, name: string, usedOrderBy: string)
      requires ScaffoldableCacheValid() && Declared(t) && ids != [] && AllRegistered(ids)
      modifies this`tableNames, this`scaffoldableCache, this`columnNames, this`namedStringCache
      ensures ScaffoldableCacheValid()
      ensures Extends(old(tableNames), tableNames) && Extends(old(scaffoldableCache), scaffoldableCache)
      ensures Extends(old(columnNames), columnNames) && ResolvedSince(old(columnNames), columnNames) && Extends(old(namedStringCache), namedStringCache)
      ensures FetchedAs(old(tableNames), tableNames, t.fullName, ResolveTableName(tableNameResolver, encapsulation, t))
      ensures CachedFragment(old(namedStringCache), namedStringCache, columnNames, SelectKey(t), SelectList(encapsulation),
                             Scaffoldable(t.fields))
      ensures sel == namedStringCache[SelectKey(t)] && name == tableNames[t.fullName]
      ensures orderBy != "" ==> usedOrderBy == orderBy
      ensures orderBy == "" ==>
        && FetchedAs(old(columnNames), columnNames, ColumnKey(ids[0]), ResolveColumnName(columnNameResolver, encapsulation, ids[0]))
        && usedOrderBy == columnNames[ColumnKey(ids[0])]
    {
      name := GetTableName(t);
      usedOrderBy := orderBy;
      ghost var namesBefore := columnNames;
      if orderBy == "" {
        assert Registered(ids[0]);
        usedOrderBy := GetColumnName(ids[0]);
      }
      ghost var namesAtSelect := columnNames;
      sel := ScaffoldSelect(t);
      if orderBy == "" {
        FetchedAsGrows(namesBefore, namesAtSelect, columnNames, ColumnKey(ids[0]),
                       ResolveColumnName(columnNameResolver, encapsulation, ids[0]));
      }
    }

    /** The paging template is the text of its pieces, and those are well formed. */
    ghost predicate TemplateValid()
      reads this`pagedListSql, this`pagedPieces
    {
      pagedListSql == Render(pagedPieces) && WellFormed(pagedPieces)
    }

    /** Under the profile SetDialect installs the template is well formed and never empty. */
    lemma ProfileTemplate()
      requires ProfileValid()
      ensures TemplateValid() && pagedListSql != ""
    {
      PagedPiecesWellFormed(dialect);
      PagedListSqlRendered(dialect);
      PagedListSqlNonEmpty(dialect);
    }

    /**
     * BuildGetListPagedQuery: refuses a dialect without a paging template, a
     * page number below 1 and a type without identity properties, in that
     * order; an empty order-by becomes the first identity column, which the
     * caller's variable then holds; every placeholder of the template is
     * replaced, the offset being (pageNumber - 1) * rowsPerPage.
     */
    method BuildGetListPagedQuery(t: ModelType, pageNumber: int, rowsPerPage: int, conditions: string, orderBy: string)
      returns (r: Result<string>, usedOrderBy: string)
      requires IdCacheValid() && ScaffoldableCacheValid() && Declared(t)
      modifies this`idPropertiesCache, this`tableNames, this`scaffoldableCache, this`columnNames, this`namedStringCache
      ensures IdCacheValid() && ScaffoldableCacheValid()
      ensures Extends(old(idPropertiesCache), idPropertiesCache) && Extends(old(tableNames), tableNames)
      ensures Extends(old(scaffoldableCache), scaffoldableCache) && Extends(old(columnNames), columnNames) && ResolvedSince(old(columnNames), columnNames)
      ensures Extends(old(namedStringCache), namedStringCache)
      ensures pagedListSql == "" ==> r == Err(GeneralError(PagingUnsupported))
      ensures pagedListSql != "" && pageNumber < 1 ==> r == Err(GeneralError(PageTooSmall))
      ensures pagedListSql != "" && pageNumber >= 1 && IdProperties(t.fields) == [] ==> r == Err(ArgumentError(ListNeedsKey))
      ensures r.Ok? <==> pagedListSql != "" && pageNumber >= 1 && IdProperties(t.fields) != []
      ensures r.Err? ==>
        && usedOrderBy == orderBy
        && tableNames == old(tableNames) && columnNames == old(columnNames) && namedStringCache == old(namedStringCache)
      ensures r.Ok? ==>
        var ids := IdProperties(t.fields);
        && FetchedAs(old(tableNames), tableNames, t.fullName, ResolveTableName(tableNameResolver, encapsulation, t))
        && CachedFragment(old(namedStringCache), namedStringCache, columnNames, SelectKey(t), SelectList(encapsulation),
                          Scaffoldable(t.fields))
        && (orderBy != "" ==> usedOrderBy == orderBy)
        && (orderBy == "" ==>
              && FetchedAs(old(columnNames), columnNames, ColumnKey(ids[0]), ResolveColumnName(columnNameResolver, encapsulation, ids[0]))
              && usedOrderBy == columnNames[ColumnKey(ids[0])])
        && r.value == PagedQuery(pagedListSql, namedStringCache[SelectKey(t)], tableNames[t.fullName],
                                 pageNumber, rowsPerPage, usedOrderBy, conditions)
      ensures r.Ok? && TemplateValid() &&
              '{' !in namedStringCache[SelectKey(t)] && '{' !in tableNames[t.fullName] && '{' !in usedOrderBy && '{' !in conditions ==>
        && r.value == Render(Bind(pagedPieces, namedStringCache[SelectKey(t)], tableNames[t.fullName],
                                  pageNumber, rowsPerPage, usedOrderBy, conditions))
        && '{' !in r.value
    {
      usedOrderBy := orderBy;
      if pagedListSql == "" {
        return Err(GeneralError(PagingUnsupported)), usedOrderBy;
      }
      if pageNumber < 1 {
        return Err(GeneralError(PageTooSmall)), usedOrderBy;
      }
      var ids := GetIdProperties(t);
      if ids == [] {
        return Err(ArgumentError(ListNeedsKey)), usedOrderBy;
      }
      var sel, name;
      SubsetsRegistered(t.fields);
      sel, name, usedOrderBy := PagedValues(t, ids, orderBy);
      r := Ok(PagedQuery(pagedListSql, sel, name, pageNumber, rowsPerPage, usedOrderBy, conditions));
      if TemplateValid() && '{' !in sel && '{' !in name && '{' !in usedOrderBy && '{' !in conditions {
        PagedQuerySubstitutes(pagedPieces, sel, name, pageNumber, rowsPerPage, usedOrderBy, conditions);
      }
    }

    /**
     * "update <table> set <SET list>": the table of the entity's runtime type,
     * the SET list of the static type through BuildUpdateSet.
     */
    method UpdateHead(t: ModelType, runtimeType: ModelType) returns (head: string)
      requires ScaffoldableCacheValid() && UpdateableCacheValid() && UpdateableKeysDistinct()
      requires Declared(t) && Declared(runtimeType)
      modifies this`tableNames, this`columnNames, this`namedStringCache, this`updateableCache, this`scaffoldableCache
      ensures ScaffoldableCacheValid() && UpdateableCacheValid()
      ensures Extends(old(tableNames), tableNames) && Extends(old(columnNames), columnNames) && ResolvedSince(old(columnNames), columnNames)
      ensures Extends(old(updateableCache), updateableCache) && Extends(old(scaffoldableCache), scaffoldableCache)
      ensures Extends(old(namedStringCache), namedStringCache)
      ensures FetchedAs(old(tableNames), tableNames, runtimeType.fullName,
                        ResolveTableName(tableNameResolver, encapsulation, runtimeType))
      ensures CachedFragment(old(namedStringCache), namedStringCache, columnNames, UpdateSetKey(t), SetList,
                             Updateable(Scaffoldable(t.fields)))
      ensures head == "update " + tableNames[runtimeType.fullName] + " set " + namedStringCache[UpdateSetKey(t)]
    {
      var name := GetTableName(runtimeType);
      var setList := BuildUpdateSet(t, runtimeType);
      head := "update " + name + " set " + setList;
    }

    /** The WHERE predicates of an update; the SET list already cached stays as it was. */
    method UpdateWhere(t: ModelType, ids: seq<Field>, e: Record, ghost before: map<string, string>) returns (predicates: string)
      requires ScaffoldableCacheValid() && Declared(t) && AllRegistered(ids)
      requires CachedFragment(before, namedStringCache, columnNames, UpdateSetKey(t), SetList, Updateable(Scaffoldable(t.fields)))
      modifies this`columnNames, this`scaffoldableCache
      ensures ScaffoldableCacheValid()
      ensures Extends(old(columnNames), columnNames) && ResolvedSince(old(columnNames), columnNames) && Extends(old(scaffoldableCache), scaffoldableCache)
      ensures CachedFragment(before, namedStringCache, columnNames, UpdateSetKey(t), SetList, Updateable(Scaffoldable(t.fields)))
      ensures var where := Conditions(Scaffoldable(t.fields), Some(e));
        Named(where, Emitted(where, ids), columnNames) && predicates == Fragment(where, ids, columnNames)
    {
      ghost var names := columnNames;
      predicates := BuildWhere(t, ids, Some(e));
      CachedFragmentGrows(before, namedStringCache, names, namedStringCache, columnNames,
                          UpdateSetKey(t), SetList, Updateable(Scaffoldable(t.fields)));
    }

    /**
     * BuildUpdateQuery<TEntity>: "update <table> set <SET list> where <predicates>".
     * The table and the identity properties come from the entity's runtime type;
     * the SET list and the properties the predicates are matched against come
     * from the static type `t`; the entity is the conditions object. A null
     * entity has no runtime type name, and the identity cache refuses that key.
     */
    method BuildUpdateQuery(t: ModelType, entity: Option<Record>) returns (r: Result<string>)
      requires IdCacheValid() && ScaffoldableCacheValid() && UpdateableCacheValid() && UpdateableKeysDistinct()
      requires Declared(t) && (entity.Some? ==> Declared(entity.value.runtimeType))
      modifies this`idPropertiesCache, this`tableNames, this`columnNames, this`namedStringCache,
               this`updateableCache, this`scaffoldableCache
      ensures IdCacheValid() && ScaffoldableCacheValid() && UpdateableCacheValid()
      ensures Extends(old(idPropertiesCache), idPropertiesCache) && Extends(old(tableNames), tableNames)
      ensures Extends(old(columnNames), columnNames) && ResolvedSince(old(columnNames), columnNames) && Extends(old(namedStringCache), namedStringCache)
      ensures Extends(old(updateableCache), updateableCache) && Extends(old(scaffoldableCache), scaffoldableCache)
      ensures entity.None? ==> r == Err(ArgumentNull) && idPropertiesCache == old(idPropertiesCache)
      ensures entity.None? || IdProperties(entity.value.runtimeType.fields) == [] ==>
        && tableNames == old(tableNames) && columnNames == old(columnNames) && namedStringCache == old(namedStringCache)
        && scaffoldableCache == old(scaffoldableCache) && updateableCache == old(updateableCache)
      ensures entity.Some? && IdProperties(entity.value.runtimeType.fields) == [] ==> r == Err(ArgumentError(EntityNeedsKey))
      ensures entity.Some? && IdProperties(entity.value.runtimeType.fields) != [] ==> r.Ok?
      ensures r.Ok? ==>
        var e := entity.value;
        var rt := e.runtimeType;
        var ids := IdProperties(rt.fields);
        var where := Conditions(Scaffoldable(t.fields), Some(e));
        && FetchedAs(old(tableNames), tableNames, rt.fullName, ResolveTableName(tableNameResolver, encapsulation, rt))
        && CachedFragment(old(namedStringCache), namedStringCache, columnNames, UpdateSetKey(t), SetList,
                          Updateable(Scaffoldable(t.fields)))
        && Named(where, Emitted(where, ids), columnNames)
        && r.value == "update " + tableNames[rt.fullName] + " set " + namedStringCache[UpdateSetKey(t)]
                      + " where " + Fragment(where, ids, columnNames)
    {
      if entity.None? {
        return Err(ArgumentNull);
      }
      var e := entity.value;
      var ids := GetIdProperties(e.runtimeType);
      if ids == [] {
        return Err(ArgumentError(EntityNeedsKey));
      }
      var head := UpdateHead(t, e.runtimeType);
      SubsetsRegistered(e.runtimeType.fields);
      var predicates := UpdateWhere(t, ids, e, old(namedStringCache));
      r := Ok(head + " where " + predicates);
    }

    /**
     * BuildDeleteQuery<T> (entity): "delete from <table> where <predicates>".
     * The table and the identity properties come from the entity's runtime type,
     * the properties the predicates are matched against from the static type `t`;
     * the entity is the conditions object; a null entity is refused as for update.
     */
    method BuildDeleteQuery(t: ModelType, entity: Option<Record>) returns (r: Result<string>)
      requires IdCacheValid() && ScaffoldableCacheValid() && Declared(t) && (entity.Some? ==> Declared(entity.value.runtimeType))
      modifies this`idPropertiesCache, this`tableNames, this`columnNames, this`scaffoldableCache
      ensures IdCacheValid() && ScaffoldableCacheValid()
      ensures Extends(old(idPropertiesCache), idPropertiesCache) && Extends(old(tableNames), tableNames)
      ensures Extends(old(columnNames), columnNames) && ResolvedSince(old(columnNames), columnNames) && Extends(old(scaffoldableCache), scaffoldableCache)
      ensures entity.None? ==> r == Err(ArgumentNull) && idPropertiesCache == old(idPropertiesCache)
      ensures entity.None? || IdProperties(entity.value.runtimeType.fields) == [] ==>
        tableNames == old(tableNames) && columnNames == old(columnNames) && scaffoldableCache == old(scaffoldableCache)
      ensures entity.Some? && IdProperties(entity.value.runtimeType.fields) == [] ==> r == Err(ArgumentError(EntityNeedsKey))
      ensures entity.Some? && IdProperties(entity.value.runtimeType.fields) != [] ==> r.Ok?
      ensures r.Ok? ==>
        var e := entity.value;
        var rt := e.runtimeType;
        var ids := IdProperties(rt.fields);
        var where := Conditions(Scaffoldable(t.fields), Some(e));
        && FetchedAs(old(tableNames), tableNames, rt.fullName, ResolveTableName(tableNameResolver, encapsulation, rt))
        && Named(where, Emitted(where, ids), columnNames)
        && r.value == "delete from " + tableNames[rt.fullName] + " where " + Fragment(where, ids, columnNames)
    {
      if entity.None? {
        return Err(ArgumentNull);
      }
      var e := entity.value;
      var ids := GetIdProperties(e.runtimeType);
      if ids == [] {
        return Err(ArgumentError(EntityNeedsKey));
      }
      var name := GetTableName(e.runtimeType);
      SubsetsRegistered(e.runtimeType.fields);
      var predicates := BuildWhere(t, ids, Some(e));
      r := Ok("delete from " + name + " where " + predicates);
    }

    /**
     * BuildDeleteQuery (id): "Delete from <table> where <id predicates>" with
     * the id bound as for Get.
     */
    method BuildDeleteByIdQuery(t: ModelType, id: Value) returns (r: Result<Query>)
      requires IdCacheValid() && Declared(t)
      modifies this`idPropertiesCache, this`tableNames, this`columnNames
      ensures IdCacheValid()
      ensures Extends(old(idPropertiesCache), idPropertiesCache) && Extends(old(tableNames), tableNames)
      ensures Extends(old(columnNames), columnNames) && ResolvedSince(old(columnNames), columnNames)
      ensures IdProperties(t.fields) == [] ==> r == Err(ArgumentError(DeleteNeedsKey))
      ensures IdProperties(t.fields) == [] ==> tableNames == old(tableNames) && columnNames == old(columnNames)
      ensures IdProperties(t.fields) != [] ==> (r.Ok? <==> IdBindable(IdProperties(t.fields), id))
      ensures IdProperties(t.fields) != [] && r.Err? ==> r.error == NullReference
      ensures IdProperties(t.fields) != [] ==>
        FetchedAs(old(tableNames), tableNames, t.fullName, ResolveTableName(tableNameResolver, encapsulation, t))
      ensures r.Ok? ==>
        var ids := IdProperties(t.fields);
        && Named(IdPredicates, Emitted(IdPredicates, ids), columnNames)
        && r.value.sql == "Delete from " + tableNames[t.fullName] + " where " + Fragment(IdPredicates, ids, columnNames)
        && BindsIds(ids, id, r.value.parameters)
    {
      var ids := GetIdProperties(t);
      if ids == [] {
        return Err(ArgumentError(DeleteNeedsKey));
      }
      var name := GetTableName(t);
      SubsetsRegistered(t.fields);
      var clause := IdClause(ids, id);
      if clause.Err? {
        return Err(clause.error);
      }
      r := Ok(Query("Delete from " + name + " where " + clause.value.sql, clause.value.parameters));
    }

    /**
     * "insert into <table> (<columns>) values (<parameters>)": the table of the
     * runtime type, the two lists of the static type through their cached builders.
     */
    method InsertStatement(t: ModelType, runtimeType: ModelType) returns (sql: string)
      requires ScaffoldableCacheValid() && Declared(t)
      modifies this`tableNames, this`columnNames, this`namedStringCache, this`scaffoldableCache
      ensures ScaffoldableCacheValid()
      ensures Extends(old(tableNames), tableNames) && Extends(old(scaffoldableCache), scaffoldableCache)
      ensures Extends(old(columnNames), columnNames) && ResolvedSince(old(columnNames), columnNames) && Extends(old(namedStringCache), namedStringCache)
      ensures FetchedAs(old(tableNames), tableNames, runtimeType.fullName,
                        ResolveTableName(tableNameResolver, encapsulation, runtimeType))
      ensures CachedFragment(old(namedStringCache), namedStringCache, columnNames, InsertParametersKey(t), ColumnList,
                             Scaffoldable(t.fields))
      ensures CachedFragment(old(namedStringCache), namedStringCache, columnNames, InsertValuesKey(t), ValueList,
                             Scaffoldable(t.fields))
      ensures sql == "insert into " + tableNames[runtimeType.fullName] + " (" + namedStringCache[InsertParametersKey(t)]
                     + ") values (" + namedStringCache[InsertValuesKey(t)] + ")"
    {
      var name := GetTableName(runtimeType);
      ghost var cacheBefore := namedStringCache;
      var columns := BuildInsertParameters(t);
      ghost var cacheMid, namesMid := namedStringCache, columnNames;
      var values := BuildInsertValues(t);
      CachedFragmentGrows(cacheBefore, cacheMid, namesMid, namedStringCache, columnNames,
                          InsertParametersKey(t), ColumnList, Scaffoldable(t.fields));
      sql := "insert into " + name + " (" + columns + ") values (" + values + ")";
    }

    /**
     * The key half of BuildInsertQuery: a Guid key is read, replaced by a
     * sequential Guid when it is Guid.Empty (which fails without a set
     * accessor), and selected back; an int or long key whose value converts to 0
     * appends the dialect's identity query; any other key is predefined. Returns
     * the statement's ending and whether the key is predefined.
     */
    method InsertKey(entity: Entity, keyType: ClrType, keyProperty: Field, random: GuidBytes, time: Moment)
      returns (r: Result<(string, bool)>)
      modifies entity`values
      ensures var key := ValueOf(old(entity.values), keyProperty.name);
        && (r.Ok? <==> KeyReadable(keyType, key) && KeyWritable(keyType, key, keyProperty.hasSetter))
        && (r.Err? ==> r.error == InsertKeyError(keyType, key, keyProperty.hasSetter) && entity.values == old(entity.values))
        && (r.Ok? ==> entity.values == WrittenBack(old(entity.values), keyProperty.name, keyType, Stamped(random, time)))
        && (r.Ok? ==> r.value == (KeySuffix(keyType, key, Stamped(random, time), identitySql), !UsesIdentity(keyType, key)))
    {
      var keyName := keyProperty.name;
      var suffix := "";
      var predefined := false;
      var key := ValueOf(entity.values, keyName);
      if keyType == Guid {
        if !key.GuidValue? {
          return Err(if key == Null then NullReference else InvalidCast);
        }
        if key.g == EmptyGuid {
          var generated := SequentialGuid(random, time);
          if !keyProperty.hasSetter {
            return Err(ArgumentError(NoSetter));
          }
          entity.values := entity.values[keyName := GuidValue(generated)];
          assert entity.values == WrittenBack(old(entity.values), keyName, keyType, Stamped(random, time));
        } else {
          predefined := true;
        }
        suffix := ";select '" + GuidString(ValueOf(entity.values, keyName).g) + "' as id";
        assert ValueOf(entity.values, keyName) == GuidValue(InsertedGuid(key.g, Stamped(random, time)));
      }
      if keyType == Int || keyType == Long {
        var n := ToInt64(key);
        if n.Err? {
          return Err(n.error);
        }
        if n.value == 0 {
          assert suffix == "";
          suffix := ";" + identitySql;
        } else {
          predefined := true;
        }
      } else {
        predefined := true;
      }
      r := Ok((suffix, predefined));
    }

    /**
     * BuildInsertQuery<TKey, TEntity>: refuses a null entity (whose runtime type
     * name the identity cache refuses as a key), an entity whose runtime type has
     * no identity properties and a key type outside the accepted ones before any
     * SQL is built; otherwise the insert statement (table of the runtime type,
     * lists of the static type `t`) followed by what the first identity property
     * calls for. The statement's lookups are cached even when the key half fails.
     */
    method BuildInsertQuery(t: ModelType, entity: Entity?, keyType: ClrType, random: GuidBytes, time: Moment)
      returns (r: Result<Insertion>)
      requires IdCacheValid() && ScaffoldableCacheValid() && Declared(t) && (entity != null ==> Declared(entity.runtimeType))
      modifies this`idPropertiesCache, this`tableNames, this`columnNames, this`namedStringCache, this`scaffoldableCache,
               entity
      ensures IdCacheValid() && ScaffoldableCacheValid()
      ensures Extends(old(idPropertiesCache), idPropertiesCache) && Extends(old(tableNames), tableNames)
      ensures Extends(old(columnNames), columnNames) && ResolvedSince(old(columnNames), columnNames) && Extends(old(namedStringCache), namedStringCache)
      ensures Extends(old(scaffoldableCache), scaffoldableCache)
      ensures entity == null ==>
        && r == Err(ArgumentNull) && idPropertiesCache == old(idPropertiesCache)
        && tableNames == old(tableNames) && columnNames == old(columnNames) && namedStringCache == old(namedStringCache)
        && scaffoldableCache == old(scaffoldableCache)
      ensures entity != null ==>
        var ids := IdProperties(entity.runtimeType.fields);
        var kt := Unwrap(keyType);
        && (ids == [] ==> r == Err(ArgumentError(InsertNeedsKey)))
        && (ids != [] && !IsKeyType(kt) ==> r == Err(GeneralError(InvalidReturnType)))
        && (ids == [] || !IsKeyType(kt) ==>
              && tableNames == old(tableNames) && columnNames == old(columnNames)
              && namedStringCache == old(namedStringCache) && scaffoldableCache == old(scaffoldableCache)
              && entity.values == old(entity.values))
      ensures entity != null ==>
        var rt := entity.runtimeType;
        var ids := IdProperties(rt.fields);
        var kt := Unwrap(keyType);
        ids != [] && IsKeyType(kt) ==>
          var key := ValueOf(old(entity.values), ids[0].name);
          && FetchedAs(old(tableNames), tableNames, rt.fullName, ResolveTableName(tableNameResolver, encapsulation, rt))
          && CachedFragment(old(namedStringCache), namedStringCache, columnNames, InsertParametersKey(t), ColumnList,
                            Scaffoldable(t.fields))
          && CachedFragment(old(namedStringCache), namedStringCache, columnNames, InsertValuesKey(t), ValueList,
                            Scaffoldable(t.fields))
          && (r.Ok? <==> KeyReadable(kt, key) && KeyWritable(kt, key, ids[0].hasSetter))
          && (r.Err? ==> r.error == InsertKeyError(kt, key, ids[0].hasSetter) && entity.values == old(entity.values))
          && (r.Ok? ==> entity.values == WrittenBack(old(entity.values), ids[0].name, kt, Stamped(random, time)))
      ensures r.Ok? ==>
        var rt := entity.runtimeType;
        var kt := Unwrap(keyType);
        var key := ValueOf(old(entity.values), IdProperties(rt.fields)[0].name);
        var statement := "insert into " + tableNames[rt.fullName] + " (" + namedStringCache[InsertParametersKey(t)]
                         + ") values (" + namedStringCache[InsertValuesKey(t)] + ")";
        r.value == Insertion(statement + KeySuffix(kt, key, Stamped(random, time), identitySql), !UsesIdentity(kt, key), kt)
    {
      if entity == null {
        return Err(ArgumentNull);
      }
      var rt := entity.runtimeType;
      var ids := GetIdProperties(rt);
      if ids == [] {
        return Err(ArgumentError(InsertNeedsKey));
      }
      var kt := Unwrap(keyType);
      if !IsKeyType(kt) {
        return Err(GeneralError(InvalidReturnType));
      }
      var statement := InsertStatement(t, rt);
      var key := InsertKey(entity, kt, ids[0], random, time);
      if key.Err? {
        return Err(key.error);
      }
      r := Ok(Insertion(statement + key.value.0, key.value.1, kt));
    }

    /** The table name of `t` and the column name of `f` are cached as given. */
    ghost predicate Holds(t: ModelType, f: Field, table: string, column: string)
      reads this`tableNames, this`columnNames
    {
      && t.fullName in tableNames && tableNames[t.fullName] == table
      && ColumnKey(f) in columnNames && columnNames[ColumnKey(f)] == column
    }

    /**
     * Once looked up, a table or column name is fixed across statements: building
     * the reading and list statements for another type `u` between two lookups
     * does not change what they return.
     */
    method NamesSurviveQueries(t: ModelType, f: Field, u: ModelType, id: Value, conditions: string)
      returns (tableBefore: string, tableAfter: string, columnBefore: string, columnAfter: string)
      requires IdCacheValid() && ScaffoldableCacheValid() && AllPropertiesCacheValid() && TypesValid() && Declared(u)
      modifies this`idPropertiesCache, this`tableNames, this`scaffoldableCache, this`columnNames,
               this`namedStringCache, this`allPropertiesCache
      ensures tableAfter == tableBefore && columnAfter == columnBefore
    {
      tableBefore := GetTableName(t);
      columnBefore := GetColumnName(f);
      var s, orderBy := BuildGetListPagedQuery(u, 1, 10, conditions, "");
      assert Holds(t, f, tableBefore, columnBefore);
      var q := BuildGetQuery(u, id);
      assert Holds(t, f, tableBefore, columnBefore);
      s := BuildGetListQuery(u, None);
      assert Holds(t, f, tableBefore, columnBefore);
      s := BuildGetListQueryText(u, conditions);
      assert Holds(t, f, tableBefore, columnBefore);
      tableAfter := GetTableName(t);
      columnAfter := GetColumnName(f);
    }

    /** The same for the record count and delete-list statements. */
    method NamesSurviveCountsAndDeletes(t: ModelType, f: Field, u: ModelType, conditions: string)
      returns (tableBefore: string, tableAfter: string, columnBefore: string, columnAfter: string)
      requires ScaffoldableCacheValid() && AllPropertiesCacheValid() && TypesValid() && Declared(u)
      modifies this`tableNames, this`scaffoldableCache, this`columnNames, this`allPropertiesCache
      ensures tableAfter == tableBefore && columnAfter == columnBefore
    {
      tableBefore := GetTableName(t);
      columnBefore := GetColumnName(f);
      var sql := BuildRecordCountQuery(u, None);
      assert Holds(t, f, tableBefore, columnBefore);
      sql := BuildRecordCountQueryText(u, conditions);
      assert Holds(t, f, tableBefore, columnBefore);
      sql := BuildDeleteListQuery(u, None);
      assert Holds(t, f, tableBefore, columnBefore);
      var s := BuildDeleteListQueryText(u, conditions);
      assert Holds(t, f, tableBefore, columnBefore);
      tableAfter := GetTableName(t);
      columnAfter := GetColumnName(f);
    }

    /**
     * The same for the update and delete statements built from an entity object,
     * whether or not the object is null.
     */
    method NamesSurviveEntityStatements(t: ModelType, f: Field, u: ModelType, entity: Option<Record>)
      returns (tableBefore: string, tableAfter: string, columnBefore: string, columnAfter: string)
      requires IdCacheValid() && ScaffoldableCacheValid() && UpdateableCacheValid() && UpdateableKeysDistinct()
      requires Declared(u) && (entity.Some? ==> Declared(entity.value.runtimeType))
      modifies this`idPropertiesCache, this`tableNames, this`scaffoldableCache, this`columnNames,
               this`namedStringCache, this`updateableCache
      ensures tableAfter == tableBefore && columnAfter == columnBefore
    {
      tableBefore := GetTableName(t);
      columnBefore := GetColumnName(f);
      var s := BuildUpdateQuery(u, entity);
      assert Holds(t, f, tableBefore, columnBefore);
      s := BuildDeleteQuery(u, entity);
      assert Holds(t, f, tableBefore, columnBefore);
      tableAfter := GetTableName(t);
      columnAfter := GetColumnName(f);
    }

    /**
     * The same for delete by id and for insert, whether the insert succeeds, fails
     * on its key or is given a null entity.
     */
    method NamesSurviveKeyStatements(t: ModelType, f: Field, u: ModelType, id: Value,
                                     entity: Entity?, keyType: ClrType, random: GuidBytes, time: Moment)
      returns (tableBefore: string, tableAfter: string, columnBefore: string, columnAfter: string)
      requires IdCacheValid() && ScaffoldableCacheValid() && Declared(u) && (entity != null ==> Declared(entity.runtimeType))
      modifies this`idPropertiesCache, this`tableNames, this`scaffoldableCache, this`columnNames,
               this`namedStringCache, entity
      ensures tableAfter == tableBefore && columnAfter == columnBefore
    {
      tableBefore := GetTableName(t);
      columnBefore := GetColumnName(f);
      var q := BuildDeleteByIdQuery(u, id);
      assert Holds(t, f, tableBefore, columnBefore);
      var ins := BuildInsertQuery(u, entity, keyType, random, time);
      assert Holds(t, f, tableBefore, columnBefore);
      tableAfter := GetTableName(t);
      columnAfter := GetColumnName(f);
    }
  }

  /** A model `class User { int Id; string Name; }`: its two properties and the type. */
  function DemoId(): Field
  {
    Field("Id", "User", Int, false, false, None, None, false, false, false, false, None, true)
  }

  function DemoName(): Field
  {
    Field("Name", "User", String, false, false, None, None, false, false, false, false, None, true)
  }

  function DemoUser(): ModelType
  {
    ModelType("User", "User", None, [DemoId(), DemoName()])
  }

  /** The demo properties by their ColumnNames keys. */
  function DemoProperties(): map<string, Field>
  {
    map["User.Id" := DemoId(), "User.Name" := DemoName()]
  }

  /** A filter over two properties keeps each one it accepts, in order. */
  lemma FilterPair(a: Field, b: Field, keep: Field -> bool)
    ensures Filter([a, b], keep) == (if keep(a) then [a] else []) + (if keep(b) then [b] else [])
  {
    assert [a, b][1..] == [b];
    assert [b][1..] == [];
  }

  lemma EmittedPair(l: Layout, a: Field, b: Field)
    ensures Emitted(l, [a, b]) == (if Emits(l, a) then [a] else []) + (if Emits(l, b) then [b] else [])
  {
    assert [a, b][1..] == [b];
    assert [b][1..] == [];
  }

  /** Which demo properties each filter keeps, and their cache keys. */
  lemma DemoShapes()
    ensures ColumnKey(DemoId()) == "User.Id" && ColumnKey(DemoName()) == "User.Name"
    ensures Scaffoldable(DemoUser().fields) == [DemoId(), DemoName()]
    ensures IdProperties(DemoUser().fields) == [DemoId()]
    ensures Emitted(SelectList(Quote("[", "]")), [DemoId(), DemoName()]) == [DemoId(), DemoName()]
    ensures Emitted(IdPredicates, [DemoId()]) == [DemoId()]
  {
    var fs := [DemoId(), DemoName()];
    assert IsSimpleType(Int) && IsSimpleType(String);
    FilterPair(DemoId(), DemoName(), NotUneditable);
    FilterPair(DemoId(), DemoName(), SimpleOrEditable);
    assert IsIdName("Id") && !IsIdName("Name");
    FilterPair(DemoId(), DemoName(), IsKey);
    FilterPair(DemoId(), DemoName(), HasIdName);
    EmittedPair(SelectList(Quote("[", "]")), DemoId(), DemoName());
  }

  /** Column names resolved for the demo properties by the default resolver under SQL Server quoting. */
  lemma DemoColumns(columns: map<string, string>)
    requires "User.Id" in columns && "User.Name" in columns
    requires forall k {:trigger columns[k]} | k in columns ::
      k in DemoProperties() && columns[k] == ResolveColumnName(DefaultColumnNames, Quote("[", "]"), DemoProperties()[k])
    ensures columns["User.Id"] == "[Id]" && columns["User.Name"] == "[Name]"
  {
    assert columns["User.Id"] == DefaultColumnName(Quote("[", "]"), DemoId());
    assert columns["User.Name"] == DefaultColumnName(Quote("[", "]"), DemoName());
  }

  lemma ItemsPair(l: Layout, a: Field, b: Field, names: map<string, string>)
    requires Named(l, [a, b], names)
    ensures Named(l, [a], names) && Named(l, [b], names)
    ensures Items(l, [a, b], names) == [ItemOf(l, a, names), ItemOf(l, b, names)]
  {
    assert [a, b][1..] == [b];
  }

  /** The select list rendered from those column names. */
  lemma DemoSelectList(columns: map<string, string>)
    requires "User.Id" in columns && "User.Name" in columns
    requires columns["User.Id"] == "[Id]" && columns["User.Name"] == "[Name]"
    ensures Named(SelectList(Quote("[", "]")), [DemoId(), DemoName()], columns)
    ensures Fragment(SelectList(Quote("[", "]")), [DemoId(), DemoName()], columns) == "[Id],[Name]"
  {
    DemoShapes();
    var l := SelectList(Quote("[", "]"));
    ItemsPair(l, DemoId(), DemoName(), columns);
    assert ItemOf(l, DemoId(), columns) == "[Id]";
    assert ItemOf(l, DemoName(), columns) == "[Name]";
    assert Join(["[Id]", "[Name]"], ",") == "[Id]" + "," + Join(["[Name]"], ",");
  }

  /** The id predicate rendered from those column names. */
  lemma DemoIdPredicate(columns: map<string, string>)
    requires "User.Id" in columns && columns["User.Id"] == "[Id]"
    ensures Named(IdPredicates, [DemoId()], columns)
    ensures Fragment(IdPredicates, [DemoId()], columns) == "[Id] = @Id"
  {
    DemoShapes();
    assert Items(IdPredicates, [DemoId()], columns) == [ItemOf(IdPredicates, DemoId(), columns)];
    assert ItemOf(IdPredicates, DemoId(), columns) == "[Id]" + " = @" + "Id";
  }

  /** The Get text put together from the rendered parts. */
  lemma DemoGetSql(select: string, table: string, where: string)
    requires select == "[Id],[Name]" && table == "[User]" && where == "[Id] = @Id"
    ensures "Select " + select + " from " + table + " where " + where
         == "Select [Id],[Name] from [User] where [Id] = @Id"
  {
    assert "Select " + select == "Select [Id],[Name]";
    assert "Select [Id],[Name]" + " from " == "Select [Id],[Name] from ";
    assert "Select [Id],[Name] from " + table == "Select [Id],[Name] from [User]";
    assert "Select [Id],[Name] from [User]" + " where " == "Select [Id],[Name] from [User] where ";
    assert "Select [Id],[Name] from [User] where " + where == "Select [Id],[Name] from [User] where [Id] = @Id";
  }

  /**
   * What Get's contract says about the caches when they were empty, for the demo
   * type: the resolved table name, the select list and the id predicate rendered
   * from resolved column names.
   */
  lemma DemoGetParts(tables: map<string, string>, columns: map<string, string>, fragments: map<string, string>)
    requires FetchedAs(map[], tables, "User", ResolveTableName(DefaultTableNames, Quote("[", "]"), DemoUser()))
    requires CachedFragment(map[], fragments, columns, SelectKey(DemoUser()), SelectList(Quote("[", "]")), Scaffoldable(DemoUser().fields))
    requires Named(IdPredicates, Emitted(IdPredicates, IdProperties(DemoUser().fields)), columns)
    requires forall k {:trigger columns[k]} | k in columns ::
      k in DemoProperties() && columns[k] == ResolveColumnName(DefaultColumnNames, Quote("[", "]"), DemoProperties()[k])
    ensures tables["User"] == "[User]"
    ensures fragments[SelectKey(DemoUser())] == "[Id],[Name]"
    ensures Named(IdPredicates, Emitted(IdPredicates, IdProperties(DemoUser().fields)), columns)
    ensures Fragment(IdPredicates, IdProperties(DemoUser().fields), columns) == "[Id] = @Id"
  {
    DemoShapes();
    assert "User.Id" in columns;
    assert "User.Name" in columns by {
      assert DemoName() in Emitted(SelectList(Quote("[", "]")), Scaffoldable(DemoUser().fields));
    }
    DemoColumns(columns);
    DemoSelectList(columns);
    DemoIdPredicate(columns);
    assert tables["User"] == Encapsulate(Quote("[", "]"), "User");
  }

  /** The static state as first initialised, with the demo type and its properties the program's own. */
  method DemoCrud() returns (c: SimpleCrud)
    ensures fresh(c) && c.IdCacheValid() && c.ScaffoldableCacheValid() && c.Declared(DemoUser()) && c.Empty()
    ensures c.encapsulation == Quote("[", "]") && c.properties == DemoProperties()
    ensures c.tableNameResolver == DefaultTableNames && c.columnNameResolver == DefaultColumnNames
  {
    DemoShapes();
    c := new SimpleCrud(map["User" := DemoUser()], DemoProperties());
  }

  /**
   * Get on fresh caches: with the default resolvers and SQL Server quoting, the
   * table, every column name and the id predicate are the resolved ones.
   */
  method GetOnFreshCaches() returns (r: Result<Query>)
    ensures r.Ok? && r.value.sql == "Select [Id],[Name] from [User] where [Id] = @Id"
  {
    var u := DemoUser();
    DemoShapes();
    var c := DemoCrud();
    r := c.BuildGetQuery(u, IntValue(7));
    DemoGetParts(c.tableNames, c.columnNames, c.namedStringCache);
    DemoGetSql(c.namedStringCache[SelectKey(u)], c.tableNames[u.fullName], Fragment(IdPredicates, IdProperties(u.fields), c.columnNames));
  }
}
