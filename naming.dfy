/**
 * Table and column naming: the default resolvers, which quote the type and
 * property names with the current dialect's format unless a [Table] or
 * [Column] attribute overrides them, and the resolvers a caller may install.
 */
module Naming {
  import opened Wrappers
  import opened Metadata
  import opened Dialects

  /** ITableNameResolver: the default TableNameResolver or one supplied through SetTableNameResolver. */
  datatype TableNameResolver = DefaultTableNames | CustomTableNames(resolveTable: ModelType -> string)

  /** IColumnNameResolver: the default ColumnNameResolver or one supplied through SetColumnNameResolver. */
  datatype ColumnNameResolver = DefaultColumnNames | CustomColumnNames(resolveColumn: Field -> string)

  /**
   * TableNameResolver.ResolveTableName: the quoted class name; with a [Table]
   * attribute its quoted name, prefixed by the quoted schema and a dot when the
   * schema is not empty.
   */
  function DefaultTableName(q: Quote, t: ModelType): (r: string)
    ensures t.table.None? ==> r == Encapsulate(q, t.name)
    ensures t.table.Some? && t.table.value.schema == "" ==> r == Encapsulate(q, t.table.value.name)
    ensures t.table.Some? && t.table.value.schema != "" ==>
      r == Encapsulate(q, t.table.value.schema) + "." + Encapsulate(q, t.table.value.name)
  {
    match t.table
    case None => Encapsulate(q, t.name)
    case Some(attr) =>
      var tableName := Encapsulate(q, attr.name);
      if attr.schema != "" then Encapsulate(q, attr.schema) + "." + tableName else tableName
  }

  /** ColumnNameResolver.ResolveColumnName: the quoted [Column] name if there is one, else the quoted property name. */
  function DefaultColumnName(q: Quote, f: Field): (r: string)
    ensures f.column.Some? ==> r == Encapsulate(q, f.column.value)
    ensures f.column.None? ==> r == Encapsulate(q, f.name)
  {
    if f.column.Some? then Encapsulate(q, f.column.value) else Encapsulate(q, f.name)
  }

  function ResolveTableName(resolver: TableNameResolver, q: Quote, t: ModelType): string
  {
    match resolver
    case DefaultTableNames => DefaultTableName(q, t)
    case CustomTableNames(resolve) => resolve(t)
  }

  function ResolveColumnName(resolver: ColumnNameResolver, q: Quote, f: Field): string
  {
    match resolver
    case DefaultColumnNames => DefaultColumnName(q, f)
    case CustomColumnNames(resolve) => resolve(f)
  }

  /** The ColumnNames cache key: "{DeclaringType}.{Name}". */
  function ColumnKey(f: Field): string
  {
    f.declaringType + "." + f.name
  }

  /**
   * The default table name determines the table a type maps to: two unqualified
   * types get the same name only when their table words agree.
   */
  lemma DefaultTableNameInjective(q: Quote, s: ModelType, t: ModelType)
    requires s.table.None? || s.table.value.schema == ""
    requires t.table.None? || t.table.value.schema == ""
    requires DefaultTableName(q, s) == DefaultTableName(q, t)
    ensures (if s.table.Some? then s.table.value.name else s.name) == (if t.table.Some? then t.table.value.name else t.name)
  {
    EncapsulateInjective(q, if s.table.Some? then s.table.value.name else s.name, if t.table.Some? then t.table.value.name else t.name);
  }

  /** Two properties with default column names collide only if they name the same column word. */
  lemma DefaultColumnNameInjective(q: Quote, f: Field, g: Field)
    requires DefaultColumnName(q, f) == DefaultColumnName(q, g)
    ensures (if f.column.Some? then f.column.value else f.name) == (if g.column.Some? then g.column.value else g.name)
  {
    EncapsulateInjective(q, if f.column.Some? then f.column.value else f.name, if g.column.Some? then g.column.value else g.name);
  }
}
