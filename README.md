# Dapper.SimpleCRUD statement builders in Dafny

This project models the SQL generation core of Dapper.SimpleCRUD. SimpleCRUD is a set of
static extension methods that turn a model class and its attributes into SQL text: SELECT,
INSERT, UPDATE, DELETE and COUNT statements, and a paged SELECT. The model covers:

- **Property classification.** Which properties are simple, scaffoldable, identity,
  updateable or insertable (`Classifier`).
- **Dialect profile.** The four profiles `SetDialect` installs: the quoting format, the
  identity query and the paging template (`Dialects`).
- **Name resolvers.** The default table and column name resolvers, and resolvers a caller
  supplies (`Naming`).
- **Memo caches.** These are only ever added to (`Memo`).
- **Fragments.** The lists and predicates the builders render from a property list, by
  appending each item and its separator and then removing the last separator (`Fragments`).
- **Paging template.** Placeholder substitution through ordinal `String.Replace`
  (`Templates`).
- **Key generation.** `SequentialGuid` and the text a Guid takes inside the insert statement
  (`Guids`).
- **Key conversion.** `Convert.ToInt64`, as applied to an int or long key (`Conversions`).
- **LINQ helpers.** `LinqExtensions.Except` and `Intersect` (`Linq`).
- **Static state and builders.** The static state (dialect, quoting, identity query, paging
  template, resolvers, the seven caches) and every statement builder, as the class
  `Crud.SimpleCrud` (`Crud`).

The source mutates its static state in place. In the model, one `SimpleCrud` object holds
that state. Its methods carry `modifies` clauses naming the fields they may change. Their
`ensures` clauses state each result in terms of the specification functions of the other
modules, and the lemmas there prove what those functions promise.

Reflection is replaced by explicit descriptors:

- **`Metadata.Field`** is a property: its name, declaring type and CLR type tag, plus the
  attribute flags `Key`, `Required`, `Editable(b)`, `ReadOnly(b)`, `IgnoreSelect`,
  `IgnoreInsert`, `IgnoreUpdate`, `NotMapped` and `Column(name)`, and whether it has a setter.
- **`Metadata.ModelType`** is a class: its full name, short name, `Table` attribute, and
  properties in declaration order.
- **`Metadata.Record`** is an object's runtime type and its property values.

The entity builders (Insert, Update, Delete of an entity) take the generic argument's
static type as a separate `ModelType`. The runtime type gives the table name and the
identity properties; the static type gives the column lists, the fragment cache keys and
the properties the WHERE predicates are matched against, as in the source.
A null entity is an absent `Record` (update, delete) or a null `Entity` (insert). Its
type name is null, and the identity cache refuses a null key with `ArgumentNullException`
(`ArgumentNull` in the model) before any cache changes.

The statement builders return their SQL text, and for Get and Delete by id also the
parameter map they bind. Every builder also promises that each cache it may modify only
grows, so a name looked up once is the name every later statement uses, and that every
column name it adds to the column name cache is the current resolver's name for the
property its key denotes. In .NET the key `{DeclaringType}.{Name}` names one property of
the program; the model records that correspondence as the ghost map `properties`, given to
the constructor together with the program's types, and a builder is called only with
properties registered under their keys, as every property reflection returns is.

## Model

| member | source | states |
|---|---|---|
| Classifier.SubsequenceTrans | Dapper.SimpleCRUD/SimpleCRUD.cs:954-966 | a subsequence of a subsequence is a subsequence, so subsets filtered from subsets keep the declaration order |
| Classifier.FilterMembers | Dapper.SimpleCRUD/SimpleCRUD.cs:914-916 | `Where` keeps exactly the elements satisfying the predicate, each kept element satisfies it, and the result is an order-preserving subsequence |
| Classifier.SimpleTypeRule | Dapper.SimpleCRUD/SimpleCRUD.cs:1259-1285 | a type is simple exactly when, after unwrapping `Nullable`, it is neither a class nor a nested `Nullable` (every listed primitive and every enum is simple) |
| Classifier.ScaffoldableMembers | Dapper.SimpleCRUD/SimpleCRUD.cs:912-917 | a property is scaffoldable iff it is not `Editable(false)` and is either simple-typed or `Editable(true)`; declaration order is kept |
| Classifier.IdPropertiesMembers | Dapper.SimpleCRUD/SimpleCRUD.cs:979-983 | the identity properties are the `Key` properties when there are any, otherwise the properties named Id in any case, in declaration order |
| Classifier.IdPropertiesEmpty | Dapper.SimpleCRUD/SimpleCRUD.cs:979-983 | the identity list is empty iff no property is `Key` and none is named Id |
| Classifier.UpdateableMembers | Dapper.SimpleCRUD/SimpleCRUD.cs:954-968 | a property is updateable iff it is scaffoldable, not named Id, not `Key`, not `ReadOnly(true)`, not `IgnoreUpdate` and not `NotMapped`; order kept |
| Classifier.UpdateableExcludesIdentity | Dapper.SimpleCRUD/SimpleCRUD.cs:954-983 | no updateable property is an identity property of its type |
| Classifier.InsertFieldsMembers | Dapper.SimpleCRUD/SimpleCRUD.cs:880-891 | the inserted properties are exactly the scaffoldable ones that none of the three skip rules excludes, in order |
| Classifier.DatabaseKeyNotInserted | Dapper.SimpleCRUD/SimpleCRUD.cs:848-851 | a database-generated key (a non-Guid, non-string `Key` without `Required`) is never inserted |
| Classifier.DerivedSubsetsKeepOrder | Dapper.SimpleCRUD/SimpleCRUD.cs:954-966 | the updateable and the insertable properties are subsequences of the declared properties |
| Memo.Fetch | Dapper.SimpleCRUD/SimpleCRUD.cs:46-56 | on a hit, the stored value and an unchanged cache; on a miss, the value logic's result, stored under the key with every other entry unchanged |
| Memo.FetchExtends | Dapper.SimpleCRUD/SimpleCRUD.cs:46-56 | a fetch adds at most its own key and never changes an existing entry |
| Memo.FetchStable | Dapper.SimpleCRUD/SimpleCRUD.cs:46-56 | once a key is fetched, every later fetch of it returns the same value and leaves the cache alone, whatever value logic it is given and whatever was added in between |
| Memo.FetchedAsGrows | Dapper.SimpleCRUD/SimpleCRUD.cs:1009-1020 | later additions to a cache keep an entry as it was fetched |
| Memo.ExtendsTrans | Dapper.SimpleCRUD/SimpleCRUD.cs:46-56 | growing a cache twice still keeps every entry of the first |
| Dialects.Encapsulate | Dapper.SimpleCRUD/SimpleCRUD.cs:1022-1025 | the quoted word is the format's prefix, then the word, then the suffix |
| Dialects.EncapsulateInjective | Dapper.SimpleCRUD/SimpleCRUD.cs:1022-1025 | quoting is injective: the word can be read back from its quoted form |
| Dialects.QuoteIdentifiesDialect | Dapper.SimpleCRUD/SimpleCRUD.cs:97-126 | MySQL quotes with backticks, SQL Server with brackets, PostgreSQL and SQLite with double quotes, and no other dialect uses the same quoting |
| Dialects.PagedPiecesWellFormed | Dapper.SimpleCRUD/SimpleCRUD.cs:97-126 | every `{` in each dialect's paging template opens one of the seven placeholders |
| Dialects.PagedListSqlRendered | Dapper.SimpleCRUD/SimpleCRUD.cs:97-126 | the template text each dialect installs is the rendering of its template pieces |
| Dialects.PagedListSqlNonEmpty | Dapper.SimpleCRUD/SimpleCRUD.cs:97-126 | every dialect installs a non-empty paging template |
| Dialects.DialectNameInjective | Dapper.SimpleCRUD/SimpleCRUD.cs:88-91 | distinct dialects report distinct names |
| Dialects.PagedQueryComplete | Dapper.SimpleCRUD/SimpleCRUD.cs:353-359 | for every dialect, when the select list, table name, order-by and where clause contain no `{`, the Replace chain equals the simultaneous substitution of all seven placeholders and leaves no `{` behind |
| Naming.DefaultTableName | Dapper.SimpleCRUD/SimpleCRUD.cs:1068-1091 | the quoted class name; with a `Table` attribute, its quoted name, schema-qualified as `schema.name` when the schema is non-empty |
| Naming.DefaultTableNameInjective | Dapper.SimpleCRUD/SimpleCRUD.cs:1068-1091 | two unqualified types get the same default table name only when their table words agree |
| Naming.DefaultColumnName | Dapper.SimpleCRUD/SimpleCRUD.cs:1096-1108 | the quoted `Column` name when there is one, otherwise the quoted property name |
| Naming.DefaultColumnNameInjective | Dapper.SimpleCRUD/SimpleCRUD.cs:1096-1108 | two properties get the same default column name only when they name the same column word |
| Text.JoinSnoc | Dapper.SimpleCRUD/SimpleCRUD.cs:829-832 | joining one more item adds exactly the separator and the item |
| Text.AppendedSnoc | Dapper.SimpleCRUD/SimpleCRUD.cs:824-830 | each loop iteration appends its item and the separator to the builder |
| Text.TrimmedAppendedIsJoin | Dapper.SimpleCRUD/SimpleCRUD.cs:831-832 | after appending item plus separator for every item, removing the last separator leaves the join: no trailing separator |
| Text.ReplaceAbsent | Dapper.SimpleCRUD/SimpleCRUD.cs:353-359 | `Replace` leaves a text alone when the pattern's first character does not occur in it |
| Text.ReplaceSkipsPrefix | Dapper.SimpleCRUD/SimpleCRUD.cs:353-359 | a leading stretch without the pattern's first character is copied unchanged, and replacement resumes after it |
| Text.ReplaceAtStart | Dapper.SimpleCRUD/SimpleCRUD.cs:353-359 | an occurrence at the start is swapped for the replacement, and the scan resumes after it |
| Text.ToLower | Dapper.SimpleCRUD/SimpleCRUD.cs:651 | the lower-case text has the same length, and each character is lowered independently |
| Text.WrapInt32 | Dapper.SimpleCRUD/SimpleCRUD.cs:359 | unchecked 32-bit arithmetic: the result is the one 32-bit value congruent to the input modulo 2^32, so in-range values are unchanged |
| Templates.RenderConcat | Dapper.SimpleCRUD/SimpleCRUD.cs:353-359 | the text of concatenated template pieces is the concatenation of their texts |
| Templates.WellFormedConcat | Dapper.SimpleCRUD/SimpleCRUD.cs:353-359 | concatenating well-formed templates gives a well-formed template |
| Templates.Fill | Dapper.SimpleCRUD/SimpleCRUD.cs:353-359 | filling a placeholder turns each of its occurrences into the value and leaves every other piece as it is |
| Templates.HoleNameInjective | Dapper.SimpleCRUD/SimpleCRUD.cs:353-359 | distinct placeholders have distinct names |
| Templates.ReplaceFillsHole | Dapper.SimpleCRUD/SimpleCRUD.cs:353-359 | on a well-formed template, `Replace` of a placeholder's token replaces exactly that placeholder's occurrences; a value without `{` keeps the template well formed |
| Templates.NoHolesNoBrace | Dapper.SimpleCRUD/SimpleCRUD.cs:353-359 | a well-formed template whose placeholders are all filled contains no `{` |
| Templates.SubstitutedHasNoHoles | Dapper.SimpleCRUD/SimpleCRUD.cs:353-359 | the seven substitutions together leave no placeholder |
| Templates.SubstitutedIsBind | Dapper.SimpleCRUD/SimpleCRUD.cs:353-359 | seven substitutions in sequence equal one simultaneous substitution of all seven values |
| Templates.PageOffset | Dapper.SimpleCRUD/SimpleCRUD.cs:359 | the offset is the 32-bit value congruent to `(pageNumber - 1) * rowsPerPage` modulo 2^32: the product itself when it fits, its wrapped value when it overflows |
| Templates.PagedQuerySubstitutes | Dapper.SimpleCRUD/SimpleCRUD.cs:353-359 | on a well-formed template, when the select list, table name, order-by and where clause contain no `{`, the Replace chain equals the simultaneous substitution and the result has no `{` |
| Templates.PagedQueryRescansValues | Dapper.SimpleCRUD/SimpleCRUD.cs:353-359 | the chain also rewrites placeholders inside values it substituted earlier: a where clause ending in `{Offset}` gets the offset written into it, while the simultaneous substitution keeps it, so the two differ |
| Fragments.EmittedSnoc | Dapper.SimpleCRUD/SimpleCRUD.cs:783-793 | one more property adds its item exactly when the fragment's skip rule lets it through |
| Fragments.EmittedInsertFields | Dapper.SimpleCRUD/SimpleCRUD.cs:841-900 | the insert column list and the insert value list emit exactly the insertable properties |
| Fragments.EmittedEvery | Dapper.SimpleCRUD/SimpleCRUD.cs:804-830 | the SET list, the id predicates and the WHERE predicates emit one item per given property |
| Fragments.EmittedMembers | Dapper.SimpleCRUD/SimpleCRUD.cs:783-787 | a fragment emits exactly the given properties it does not skip |
| Fragments.MatchByName | Dapper.SimpleCRUD/SimpleCRUD.cs:811-823 | the matching model property has the given name; there is none exactly when no model property has that name |
| Fragments.MatchByNameIsFirst | Dapper.SimpleCRUD/SimpleCRUD.cs:811-823 | the match is the first model property with that name, because the search loop breaks at the first hit |
| Fragments.Target | Dapper.SimpleCRUD/SimpleCRUD.cs:820 | the property a predicate is rendered for keeps the name of the given one |
| Fragments.ItemsSnoc | Dapper.SimpleCRUD/SimpleCRUD.cs:824-829 | rendering one more property appends exactly its item |
| Fragments.ItemsFrame | Dapper.SimpleCRUD/SimpleCRUD.cs:1009-1020 | items rendered from column names already cached stay the same after later lookups |
| Fragments.AppendStep | Dapper.SimpleCRUD/SimpleCRUD.cs:824-829 | one loop iteration (its column looked up, its item and the separator appended) keeps the builder equal to the appended items |
| Fragments.FinishAppend | Dapper.SimpleCRUD/SimpleCRUD.cs:773-774 | after the loop, removing the separator when something was emitted leaves the separator join of the emitted items |
| Fragments.SelectListFragment | Dapper.SimpleCRUD/SimpleCRUD.cs:780-797 | the select list holds one item per property without `IgnoreSelect` or `NotMapped`: its column, plus ` as ` and the quoted property name when the column is renamed; items are joined by `,` |
| Fragments.UpdateSetFragment | Dapper.SimpleCRUD/SimpleCRUD.cs:765-777 | the SET list is `col = @Name` for every updateable property, joined by `, ` |
| Fragments.IdPredicatesFragment | Dapper.SimpleCRUD/SimpleCRUD.cs:181-185 | the id predicates are `col = @Name` per identity property, joined by ` and`, with no space after `and` |
| Fragments.InsertListsCorrespond | Dapper.SimpleCRUD/SimpleCRUD.cs:841-900 | the column and value lists have equal length, and the k-th column is the column of the property whose `@Name` is the k-th value |
| Fragments.ConditionItem | Dapper.SimpleCRUD/SimpleCRUD.cs:804-828 | a WHERE predicate uses the matching model property's column; it is `col is null` iff an object was supplied, the name matches and its value is null or DBNull; otherwise it is `col = @Name` |
| Fragments.ConditionFragment | Dapper.SimpleCRUD/SimpleCRUD.cs:799-833 | the WHERE text is one predicate per given property, joined by ` and ` with no trailing separator |
| Fragments.NoNullTestWithoutObject | Dapper.SimpleCRUD/SimpleCRUD.cs:816 | without a conditions object, every predicate is `col = @Name` |
| Fragments.InsertTrimAsWritten | Dapper.SimpleCRUD/SimpleCRUD.cs:862-863 | the trim as written fails iff there are scaffoldable properties but none is inserted; otherwise it yields the joined list |
| Fragments.InsertTrimFailsForIdOnlyModel | Dapper.SimpleCRUD/SimpleCRUD.cs:896-897 | for a model whose only property is an int `Id`, the trim as written fails, while the corrected list is empty |
| Fragments.ConditionsWithoutObjectAsWritten | Dapper.SimpleCRUD/SimpleCRUD.cs:815 | as written, a condition on a model property with no object fails on the null target; the corrected rule renders `col = @Name` |
| Fragments.CachedFragmentGrows | Dapper.SimpleCRUD/SimpleCRUD.cs:65-78 | a cached fragment keeps its text through later additions to the caches |
| Fragments.ParameterNames | Dapper.SimpleCRUD/SimpleCRUD.cs:187-194 | every identity property's `@Name` is a parameter name |
| Fragments.IdObjectParametersBind | Dapper.SimpleCRUD/SimpleCRUD.cs:192-193 | the parameters bound from an id object are exactly the `@Name` of each identity property, each bound to the object's value for that property |
| Fragments.BindIdParameters | Dapper.SimpleCRUD/SimpleCRUD.cs:187-194 | binds one identity property to the id itself; with several, binds each `@Name` to the id object's property of that name; fails with a null reference exactly when the id cannot supply them |
| Guids.LowByte | Dapper.SimpleCRUD/SimpleCRUD.cs:1036 | the unchecked byte cast keeps the low eight bits |
| Guids.Stamped | Dapper.SimpleCRUD/SimpleCRUD.cs:1036-1041 | bytes 3, 2, 1, 0, 5, 4 hold the low bytes of year, month, day, hour, minute and second; bytes 6 to 15 stay random |
| Guids.SequentialGuid | Dapper.SimpleCRUD/SimpleCRUD.cs:1031-1043 | the array update yields exactly the stamped Guid |
| Guids.GuidString | Dapper.SimpleCRUD/SimpleCRUD.cs:450 | the text form has 36 characters with dashes at positions 8, 13, 18 and 23 |
| Guids.SequentialGuidTextStartsWithTime | Dapper.SimpleCRUD/SimpleCRUD.cs:1036-1041 | a sequential Guid's text starts with the hex of year, month, day and hour, then a dash, then minute and second |
| Guids.SameSecondSamePrefix | Dapper.SimpleCRUD/SimpleCRUD.cs:1031-1043 | two sequential Guids stamped with the same time share their first 13 characters of text |
| Linq.Matches | Dapper.SimpleCRUD/SimpleCRUD.cs:1290-1298 | the match count is at most the length of `second`, and it is zero iff nothing matches |
| Linq.KeepWithMatches | Dapper.SimpleCRUD/SimpleCRUD.cs:1290-1298 | keeps exactly the elements of `first` with the given match count, as a subsequence of `first` in which each kept element occurs as often as in `first` |
| Linq.Except | Dapper.SimpleCRUD/SimpleCRUD.cs:1290-1293 | keeps exactly the elements of `first` that match no element of `second`, in their order and with their duplicates |
| Linq.Intersect | Dapper.SimpleCRUD/SimpleCRUD.cs:1295-1298 | keeps exactly the elements of `first` whose match count is one, in their order and with their duplicates |
| Linq.MatchesOne | Dapper.SimpleCRUD/SimpleCRUD.cs:1295-1298 | a match count of one means exactly one index matches |
| Linq.ExceptIntersectDisjoint | Dapper.SimpleCRUD/SimpleCRUD.cs:1290-1298 | no element is in both results, and together they are no longer than `first` |
| Conversions.DigitsValueOfNatToString | Dapper.SimpleCRUD/SimpleCRUD.cs:453 | reading back the decimal digits of a number gives the number |
| Conversions.ParseIntegerOfIntToString | Dapper.SimpleCRUD/SimpleCRUD.cs:453 | parsing an integer's decimal text gives the integer |
| Conversions.ToInt64 | Dapper.SimpleCRUD/SimpleCRUD.cs:453 | null converts to 0; an integer converts to itself iff it fits in 64 bits; DBNull, Guids and objects are invalid casts; every success is in the 64-bit range |
| Conversions.ToInt64OfText | Dapper.SimpleCRUD/SimpleCRUD.cs:453 | the text of a 64-bit integer converts back to that integer |
| Crud.PrefixedKeyInjective | Dapper.SimpleCRUD/SimpleCRUD.cs:904 | the all-properties cache key (the static type name followed by the runtime type name) determines the runtime type name |
| Crud.InsertKeyPolicy | Dapper.SimpleCRUD/SimpleCRUD.cs:405-460 | the identity query is appended iff the key is an int or long whose value converts to 0, and exactly then Insert returns the selected id instead of the entity's key; a Guid key is always selected back as `;select '<guid>' as id`; every other key appends nothing |
| Crud.SimpleCrud.constructor | Dapper.SimpleCRUD/SimpleCRUD.cs:19-35 | the static initialiser over the program's types and properties: default resolvers, empty caches, the SQL Server profile, every cache invariant established |
| Crud.SimpleCrud.GetDialect | Dapper.SimpleCRUD/SimpleCRUD.cs:88-91 | the name of the current dialect, which identifies it: no other dialect reports that name |
| Crud.SimpleCrud.SetDialect | Dapper.SimpleCRUD/SimpleCRUD.cs:97-126 | installs the dialect with its quoting, identity query and paging template; caches and resolvers unchanged |
| Crud.SimpleCrud.SetTableNameResolver | Dapper.SimpleCRUD/SimpleCRUD.cs:132-135 | installs the table name resolver and changes nothing else |
| Crud.SimpleCrud.SetColumnNameResolver | Dapper.SimpleCRUD/SimpleCRUD.cs:141-144 | installs the column name resolver and changes nothing else |
| Crud.SimpleCrud.GetTableName | Dapper.SimpleCRUD/SimpleCRUD.cs:997-1007 | on a hit, the cached name; on a miss, the current resolver's name, stored under the type with no other entry changed |
| Crud.SimpleCrud.GetColumnName | Dapper.SimpleCRUD/SimpleCRUD.cs:1009-1020 | on a hit, the cached name; on a miss, the current resolver's name, stored under `{DeclaringType}.{Name}` with no other entry changed, so for a registered property the new entry is the resolver's name for the property its key denotes |
| Crud.SimpleCrud.ResolvedSinceTrans | Dapper.SimpleCRUD/SimpleCRUD.cs:1009-1020 | when two successive stretches of lookups only add resolved column names, so does the two together |
| Crud.SimpleCrud.ColumnResolved | Dapper.SimpleCRUD/SimpleCRUD.cs:1009-1020 | after lookups that only add resolved names, a registered property's cached column name is the one held before, or on a miss the current resolver's name for that property |
| Crud.SimpleCrud.NamesSurviveReconfiguration | Dapper.SimpleCRUD/SimpleCRUD.cs:997-1020 | a looked-up table or column name is returned again unchanged after `SetDialect` and both resolver swaps |
| Crud.SimpleCrud.NamesSurviveQueries | Dapper.SimpleCRUD/SimpleCRUD.cs:46-56 | a looked-up table or column name is returned again unchanged after building the paged, Get and GetList (both overloads) statements for any other type |
| Crud.SimpleCrud.NamesSurviveCountsAndDeletes | Dapper.SimpleCRUD/SimpleCRUD.cs:46-56 | the same across the RecordCount (both overloads) and DeleteList (both overloads) statements |
| Crud.SimpleCrud.NamesSurviveEntityStatements | Dapper.SimpleCRUD/SimpleCRUD.cs:46-56 | the same across the update and delete-by-entity statements, null entity included |
| Crud.SimpleCrud.NamesSurviveKeyStatements | Dapper.SimpleCRUD/SimpleCRUD.cs:46-56 | the same across delete by id and insert, whether the insert succeeds, fails on its key or gets a null entity |
| Crud.SimpleCrud.GetIdProperties | Dapper.SimpleCRUD/SimpleCRUD.cs:972-983 | the identity properties of the type, through the shared identity cache, keeping that cache consistent |
| Crud.SimpleCrud.GetScaffoldableProperties | Dapper.SimpleCRUD/SimpleCRUD.cs:912-917 | the scaffoldable properties of the type, through its cache |
| Crud.SimpleCrud.GetUpdateableProperties | Dapper.SimpleCRUD/SimpleCRUD.cs:952-968 | the updateable subset of the static type's scaffoldable properties, cached under the static type name followed by the runtime type name; only a miss consults (and may fill) the scaffoldable cache for the static type |
| Crud.SimpleCrud.GetAllProperties | Dapper.SimpleCRUD/SimpleCRUD.cs:903-908 | the runtime type's properties, or none without an object, cached under the static type name plus the runtime type name |
| Crud.SimpleCrud.AppendEach | Dapper.SimpleCRUD/SimpleCRUD.cs:880-895 | the loop leaves every emitted item followed by its separator, and counts the emitted items; every column name it caches on a miss is the current column name resolver's name for the property its key denotes |
| Crud.SimpleCrud.AppendItems | Dapper.SimpleCRUD/SimpleCRUD.cs:769-774 | append-then-trim yields the fragment: the emitted items joined by the separator; every column name it caches on a miss is the current column name resolver's name for the property its key denotes |
| Crud.SimpleCrud.BuildSelect | Dapper.SimpleCRUD/SimpleCRUD.cs:780-797 | the cached select list of the type, or on a miss the rendered one stored under `FullName_BuildSelect`; every column name it caches on a miss is the current column name resolver's name for the property its key denotes |
| Crud.SimpleCrud.BuildUpdateSet | Dapper.SimpleCRUD/SimpleCRUD.cs:765-777 | the cached SET list of the static type, or on a miss the SET list of its updateable properties, stored under `FullName_BuildUpdateSet` of the static type; every column name it caches on a miss is the current column name resolver's name for the property its key denotes |
| Crud.SimpleCrud.BuildInsertParameters | Dapper.SimpleCRUD/SimpleCRUD.cs:874-900 | the cached insert column list, or on a miss the column list of the inserted properties; every column name it caches on a miss is the current column name resolver's name for the property its key denotes |
| Crud.SimpleCrud.BuildInsertValues | Dapper.SimpleCRUD/SimpleCRUD.cs:841-866 | the cached insert value list, or on a miss the `@Name` list of the inserted properties; every column name it caches on a miss is the current column name resolver's name for the property its key denotes |
| Crud.SimpleCrud.BuildWhere | Dapper.SimpleCRUD/SimpleCRUD.cs:799-833 | the WHERE predicates of the given properties against the type's scaffoldable properties and the given object; every column name it caches on a miss is the current column name resolver's name for the property its key denotes |
| Crud.SimpleCrud.BuildGetQuery | Dapper.SimpleCRUD/SimpleCRUD.cs:166-199 | refuses a type without identity properties before any lookup; otherwise `Select <list> from <table> where <id predicates>` with the id parameters bound, failing iff the id cannot supply them; every column name it caches on a miss is the current column name resolver's name for the property its key denotes |
| Crud.GetOnFreshCaches | Dapper.SimpleCRUD/SimpleCRUD.cs:166-199 | for a class `User` with properties `Id` and `Name`, on freshly initialised state, Get builds exactly `Select [Id],[Name] from [User] where [Id] = @Id` |
| Crud.SimpleCrud.BuildGetListQuery | Dapper.SimpleCRUD/SimpleCRUD.cs:220-245 | refuses a type without identity properties; otherwise `Select <list> from <table>`, plus ` where ` and the predicates when the object has properties; every cache it touches only grows; every column name it caches on a miss is the current column name resolver's name for the property its key denotes |
| Crud.SimpleCrud.BuildGetListQueryText | Dapper.SimpleCRUD/SimpleCRUD.cs:269-289 | refuses a type without identity properties; otherwise `Select <list> from <table> ` followed by the caller's text; every cache it touches only grows; every column name it caches on a miss is the current column name resolver's name for the property its key denotes |
| Crud.SimpleCrud.BuildRecordCountQuery | Dapper.SimpleCRUD/SimpleCRUD.cs:744-762 | `Select count(1) from <table>` plus the optional WHERE part, with no object passed to BuildWhere; every cache it touches only grows; every column name it caches on a miss is the current column name resolver's name for the property its key denotes |
| Crud.SimpleCrud.BuildRecordCountQueryText | Dapper.SimpleCRUD/SimpleCRUD.cs:710-722 | `Select count(1) from <table> ` followed by the caller's text; every cache it touches only grows |
| Crud.SimpleCrud.BuildDeleteListQuery | Dapper.SimpleCRUD/SimpleCRUD.cs:628-645 | `Delete from <table>` plus the optional WHERE part, with no object passed to BuildWhere; every cache it touches only grows; every column name it caches on a miss is the current column name resolver's name for the property its key denotes |
| Crud.SimpleCrud.BuildDeleteListQueryText | Dapper.SimpleCRUD/SimpleCRUD.cs:647-664 | refuses an empty text, and a text whose lower-case form lacks `where`; succeeds iff neither applies, with exactly `Delete from <table> <text>`; every cache it touches only grows |
| Crud.SimpleCrud.ProfileTemplate | Dapper.SimpleCRUD/SimpleCRUD.cs:97-126 | under any installed profile, the paging template is well formed, is the text of its pieces, and is non-empty |
| Crud.SimpleCrud.BuildGetListPagedQuery | Dapper.SimpleCRUD/SimpleCRUD.cs:330-364 | refuses an empty template, then a page below 1, then a type without identity properties, and succeeds iff none applies; an empty order-by becomes the first identity column; the result is the Replace chain over the template, which equals the simultaneous substitution of all placeholders when the substituted values contain no `{`; every cache it touches only grows; every column name it caches on a miss is the current column name resolver's name for the property its key denotes |
| Crud.SimpleCrud.BuildUpdateQuery | Dapper.SimpleCRUD/SimpleCRUD.cs:487-507 | refuses a null entity with ArgumentNullException (its null type name is refused as a cache key by `GetIdProperties(object)`, lines 972-975) before any cache changes, then an entity whose runtime type has no identity properties; otherwise `update <table> set <SET list> where <predicates>`, with the table and the identity properties of the runtime type, the SET list and the matched properties of the static type, and the entity as the object; every cache it touches only grows; every column name it caches on a miss is the current column name resolver's name for the property its key denotes |
| Crud.SimpleCrud.BuildDeleteQuery | Dapper.SimpleCRUD/SimpleCRUD.cs:529-547 | refuses a null entity with ArgumentNullException (its null type name is refused as a cache key by `GetIdProperties(object)`, lines 972-975) before any cache changes, then an entity whose runtime type has no identity properties; otherwise `delete from <table> where <predicates>`, with the table and the identity properties of the runtime type, the matched properties of the static type, and the entity as the object; every cache it touches only grows; every column name it caches on a miss is the current column name resolver's name for the property its key denotes |
| Crud.SimpleCrud.BuildDeleteByIdQuery | Dapper.SimpleCRUD/SimpleCRUD.cs:570-604 | refuses a type without identity properties; otherwise the table name is fetched, and `Delete from <table> where <id predicates>` is built with the id bound as for Get; every cache it touches only grows; every column name it caches on a miss is the current column name resolver's name for the property its key denotes |
| Crud.SimpleCrud.InsertKey | Dapper.SimpleCRUD/SimpleCRUD.cs:438-460 | reads the key as its type demands; an empty Guid is replaced by the sequential Guid and written back, which fails with an ArgumentException when the key property has no setter; returns the statement's ending and whether the key is predefined |
| Crud.SimpleCrud.BuildInsertQuery | Dapper.SimpleCRUD/SimpleCRUD.cs:412-464 | refuses a null entity with ArgumentNullException (its null type name is refused as a cache key by `GetIdProperties(object)`, lines 972-975) before any cache changes, then a runtime type without identity properties, then an unaccepted key type, before any SQL or write-back; otherwise the table name and both lists are fetched into their caches even when the key half then fails, and the result is `insert into <table> (<columns>) values (<values>)` with the table of the runtime type and the two lists of the static type, followed by the key ending its policy prescribes; a failed key read or write-back is reported with the entity unchanged; every cache it touches only grows; every column name it caches on a miss is the current column name resolver's name for the property its key denotes |

## Left out

- Query execution is not modelled: `connection.Query`, `Execute`, `ExecuteScalar`, the public `Get`/`Insert`/`Update`/… wrappers, transactions and timeouts. These are calls into Dapper and the database; the model stops at the SQL text and the parameters.
- Dapper's `DynamicParameters` is modelled as a map from parameter name to value.
- Reflection and `dynamic` attribute probing are replaced by the `Field` and `ModelType` descriptors. This includes the `RuntimeBinderException` catch for a `Table` attribute without `Schema`, which the model treats as an empty schema.
- `ConcurrentDictionary` thread safety is not modelled. The caches are sequential maps, and `AddOrUpdate` after a miss is a plain insertion.
- `Debugger.IsAttached` and `Trace.WriteLine` output are left out. They do not affect the SQL.
- `Guid.NewGuid()` and `DateTime.Now` are parameters of `SequentialGuid` and `BuildInsertQuery`. Nothing is claimed about ordering or uniqueness.
- float, double and decimal appear only as type tags for the simple-type test.
- The `TableNames` cache is keyed by the type's `FullName` rather than by the `Type` object. This assumes distinct model types have distinct full names.
- The `ColumnNames` cache is keyed by `{DeclaringType}.{Name}`. The model takes each such key to name one property of the program (the ghost map `properties`), and the builders require the properties they render to be registered under their keys.
- Crud.SimpleCrud.GetUpdateableProperties: the cache is keyed by the static type name followed by the runtime type name, as in the source. The model assumes that no two pairs of registered type names run together into the same key (`PairKeysDistinct`); the source would then return one pair's list for the other.
- Dialects.PagedQueryComplete: the equality with the simultaneous substitution is promised only when the substituted values contain no `{`. Otherwise a later Replace also rewrites a placeholder inside an earlier value, as PagedQueryRescansValues shows.
- Crud.SimpleCrud.BuildGetListPagedQuery: the result is always the Replace chain; its equality with the simultaneous substitution is promised only for values without `{`.
- Templates.PagedQuerySubstitutes: promised only for values without `{`, for the same reason; PagedQueryRescansValues exhibits the difference for a where clause that contains `{Offset}`.
- A null string, such as a null `orderby` or null condition text, is modelled as the empty string. `String.IsNullOrEmpty` treats the two alike.
- Crud.SimpleCrud.BuildWhere: `propertyToUse.CanRead` is taken as true. Every property the model describes has a getter.
- Conversions.ToInt64: a string key is parsed as an optionally signed run of ASCII decimal digits. It does not model surrounding white space, culture-specific signs or digits, or `IConvertible` types beyond integers and strings.
- Text.ToLower: only lowers ASCII letters. It does not model culture-specific case mapping, which can only add matches for "where" with non-ASCII look-alikes.
- Text.IsIdName: compares ASCII letters case-insensitively, as `OrdinalIgnoreCase` does for an ASCII pattern such as "Id".
- The statement builders require only the part of the cache invariant for the caches they read or fill. `Valid()` is their conjunction, and each builder preserves the part it touches.
- Crud.SimpleCrud.BuildGetListQuery: the column names come from one growing cache. The model fixes the order of lookups (select list first, then the WHERE predicates), as the source performs them.
- Dialects.PagedListSqlOf: the paging template text is written as a concatenation of its parts, and proved equal to the rendering of its pieces. The full texts installed at lines 103-122 are quoted in its doc comment.

## Findings

| source | as written | input that shows it | evidently intended | confidence | as-written member | corrected member |
|---|---|---|---|---|---|---|
| Dapper.SimpleCRUD/SimpleCRUD.cs:862-863 | The insert value list (and the column list at 896-897) removes the last two characters whenever the scaffoldable list is non-empty, even when every property was skipped and the builder is empty | a model whose only property is `int Id` (scaffoldable, skipped as an identity): `StringBuilder.Remove(-2, 2)` throws | trim only when an item was emitted, giving an empty list | not executed | Fragments.InsertTrimFailsForIdOnlyModel | Crud.SimpleCrud.AppendItems |
| Dapper.SimpleCRUD/SimpleCRUD.cs:815 | BuildWhere reads the property's value from the conditions object before testing whether an object was given; DeleteList and RecordCount with a conditions object pass none (lines 639, 756) | RecordCount with conditions `new { Name = "x" }` on a model with a `Name` property: the value is read from a null target, which throws | without an object, render `col = @Name` without reading any value | not executed | Fragments.ConditionsWithoutObjectAsWritten | Fragments.NoNullTestWithoutObject |
