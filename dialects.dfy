/**
 * The four database dialect profiles: the identifier quoting, the SQL that
 * fetches the identity generated by an insert, and the paged-list template.
 */
module Dialects {
  import opened Text
  import opened Templates

  datatype Dialect = SQLServer | PostgreSQL | SQLite | MySQL

  /** A quoting format "{prefix}{0}{suffix}", such as [{0}] or `{0}`. */
  datatype Quote = Quote(prefix: string, suffix: string)

  /** Encapsulate: string.Format of the current quoting format with one word. */
  function Encapsulate(q: Quote, word: string): (r: string)
    ensures |r| == |q.prefix| + |word| + |q.suffix|
    ensures r[..|q.prefix|] == q.prefix
    ensures r[|q.prefix|..|r| - |q.suffix|] == word
    ensures r[|r| - |q.suffix|..] == q.suffix
  {
    q.prefix + word + q.suffix
  }

  /** Quoting loses nothing: the bare word can be read back from the quoted one. */
  lemma EncapsulateInjective(q: Quote, a: string, b: string)
    requires Encapsulate(q, a) == Encapsulate(q, b)
    ensures a == b
  {
    var r := Encapsulate(q, a);
    assert a == r[|q.prefix|..|r| - |q.suffix|];
  }

  /*
   * Each paging template is kept twice: as pieces, over which the placeholder
   * substitution is proved, and as the text SetDialect stores, written with the
   * same literals and tokens so that the two can be shown equal part by part.
   */

  /** "Select {SelectColumns} from {TableName} {WhereClause}", the head of the PostgreSQL, SQLite and MySQL templates. */
  function ListHead(): (ps: seq<Piece>)
    ensures WellFormed(ps)
  {
    [Lit("Select "), Hole(SelectColumns), Lit(" from "), Hole(TableName), Lit(" "), Hole(WhereClause)]
  }

  function ListHeadText(): string
  {
    "Select " + (Token(SelectColumns) + (" from " + (Token(TableName) + (" " + Token(WhereClause)))))
  }

  /** " Order By {OrderBy} LIMIT " */
  function ListOrder(): (ps: seq<Piece>)
    ensures WellFormed(ps)
  {
    [Lit(" Order By "), Hole(OrderBy), Lit(" LIMIT ")]
  }

  function ListOrderText(): string
  {
    " Order By " + (Token(OrderBy) + " LIMIT ")
  }

  /** "{RowsPerPage} OFFSET (({PageNumber}-1) * {RowsPerPage})", the PostgreSQL and SQLite row range. */
  function OffsetLimit(): (ps: seq<Piece>)
    ensures WellFormed(ps)
  {
    [Hole(RowsPerPage), Lit(" OFFSET (("), Hole(PageNumber), Lit("-1) * "), Hole(RowsPerPage), Lit(")")]
  }

  function OffsetLimitText(): string
  {
    Token(RowsPerPage) + (" OFFSET ((" + (Token(PageNumber) + ("-1) * " + (Token(RowsPerPage) + ")"))))
  }

  /** "{Offset},{RowsPerPage}", the MySQL row range. */
  function MySqlLimit(): (ps: seq<Piece>)
    ensures WellFormed(ps)
  {
    [Hole(Offset), Lit(","), Hole(RowsPerPage)]
  }

  function MySqlLimitText(): string
  {
    Token(Offset) + ("," + Token(RowsPerPage))
  }

  /** "SELECT * FROM (SELECT ROW_NUMBER() OVER(ORDER BY " */
  function SqlServerInner(): (ps: seq<Piece>)
    ensures WellFormed(ps)
  {
    [Lit("SELECT * FROM (SELECT "), Lit("ROW_NUMBER() OVER(ORDER BY ")]
  }

  function SqlServerInnerText(): string
  {
    "SELECT * FROM (SELECT " + "ROW_NUMBER() OVER(ORDER BY "
  }

  /** "{OrderBy}) AS PagedNumber, {SelectColumns} FROM {TableName} {WhereClause}" */
  function SqlServerSource(): (ps: seq<Piece>)
    ensures WellFormed(ps)
  {
    [Hole(OrderBy), Lit(") AS PagedNumber, "), Hole(SelectColumns), Lit(" FROM "), Hole(TableName), Lit(" "),
     Hole(WhereClause)]
  }

  function SqlServerSourceText(): string
  {
    Token(OrderBy) + (") AS PagedNumber, " + (Token(SelectColumns) + (" FROM " + (Token(TableName) + (" "
      + Token(WhereClause))))))
  }

  /** ") AS u WHERE PagedNUMBER BETWEEN (({PageNumber}-1) * {RowsPerPage}" */
  function SqlServerLower(): (ps: seq<Piece>)
    ensures WellFormed(ps)
  {
    [Lit(") AS u WHERE "), Lit("PagedNUMBER BETWEEN (("), Hole(PageNumber), Lit("-1) * "), Hole(RowsPerPage)]
  }

  function SqlServerLowerText(): string
  {
    ") AS u WHERE " + ("PagedNUMBER BETWEEN ((" + (Token(PageNumber) + ("-1) * " + Token(RowsPerPage))))
  }

  /** " + 1) AND ({PageNumber} * {RowsPerPage})" */
  function SqlServerUpper(): (ps: seq<Piece>)
    ensures WellFormed(ps)
  {
    [Lit(" + 1) AND ("), Hole(PageNumber), Lit(" * "), Hole(RowsPerPage), Lit(")")]
  }

  function SqlServerUpperText(): string
  {
    " + 1) AND (" + (Token(PageNumber) + (" * " + (Token(RowsPerPage) + ")")))
  }

  /** The shared parts of the PostgreSQL, SQLite and MySQL templates render to their text. */
  lemma ListPartsRendered()
    ensures Render(ListHead()) == ListHeadText() && Render(ListOrder()) == ListOrderText()
  {
  }

  /** The two row ranges render to their text. */
  lemma LimitPartsRendered()
    ensures Render(OffsetLimit()) == OffsetLimitText() && Render(MySqlLimit()) == MySqlLimitText()
  {
  }

  /** The inner query of the SQL Server template renders to its text. */
  lemma SqlServerQueryRendered()
    ensures Render(SqlServerInner()) == SqlServerInnerText() && Render(SqlServerSource()) == SqlServerSourceText()
  {
  }

  /** The row range of the SQL Server template renders to its text. */
  lemma SqlServerRangeRendered()
    ensures Render(SqlServerLower()) == SqlServerLowerText() && Render(SqlServerUpper()) == SqlServerUpperText()
  {
  }

  /** The paged-list template of each dialect, as pieces. */
  function PagedPieces(d: Dialect): seq<Piece>
  {
    match d
    case MySQL => ListHead() + ListOrder() + MySqlLimit()
    case SQLServer => SqlServerInner() + SqlServerSource() + SqlServerLower() + SqlServerUpper()
    case _ => ListHead() + ListOrder() + OffsetLimit()
  }

  /**
   * The paged-list template SetDialect installs, as text:
   * PostgreSQL and SQLite "Select {SelectColumns} from {TableName} {WhereClause} Order By {OrderBy} LIMIT {RowsPerPage} OFFSET (({PageNumber}-1) * {RowsPerPage})",
   * MySQL "Select {SelectColumns} from {TableName} {WhereClause} Order By {OrderBy} LIMIT {Offset},{RowsPerPage}",
   * SQL Server "SELECT * FROM (SELECT ROW_NUMBER() OVER(ORDER BY {OrderBy}) AS PagedNumber, {SelectColumns} FROM {TableName} {WhereClause}) AS u WHERE PagedNUMBER BETWEEN (({PageNumber}-1) * {RowsPerPage} + 1) AND ({PageNumber} * {RowsPerPage})".
   */
  function PagedListSqlOf(d: Dialect): string
  {
    match d
    case MySQL => ListHeadText() + ListOrderText() + MySqlLimitText()
    case SQLServer => SqlServerInnerText() + SqlServerSourceText() + SqlServerLowerText() + SqlServerUpperText()
    case _ => ListHeadText() + ListOrderText() + OffsetLimitText()
  }

  /** Every '{' of a paging template opens a placeholder. */
  lemma PagedPiecesWellFormed(d: Dialect)
    ensures WellFormed(PagedPieces(d))
  {
    match d
    case MySQL =>
      WellFormedConcat(ListHead(), ListOrder());
      WellFormedConcat(ListHead() + ListOrder(), MySqlLimit());
    case SQLServer =>
      var inner, source, lower, upper := SqlServerInner(), SqlServerSource(), SqlServerLower(), SqlServerUpper();
      WellFormedConcat(inner, source);
      WellFormedConcat(inner + source, lower);
      WellFormedConcat(inner + source + lower, upper);
    case _ =>
      WellFormedConcat(ListHead(), ListOrder());
      WellFormedConcat(ListHead() + ListOrder(), OffsetLimit());
  }

  /** The MySQL template text renders from its pieces. */
  lemma MySqlRendered()
    ensures PagedListSqlOf(MySQL) == Render(PagedPieces(MySQL))
  {
    ListPartsRendered();
    LimitPartsRendered();
    RenderConcat(ListHead(), ListOrder());
    RenderConcat(ListHead() + ListOrder(), MySqlLimit());
  }

  /** The PostgreSQL and SQLite template text renders from its pieces. */
  lemma OffsetRendered(d: Dialect)
    requires d == PostgreSQL || d == SQLite
    ensures PagedListSqlOf(d) == Render(PagedPieces(d))
  {
    ListPartsRendered();
    LimitPartsRendered();
    RenderConcat(ListHead(), ListOrder());
    RenderConcat(ListHead() + ListOrder(), OffsetLimit());
  }

  /** The SQL Server template text renders from its pieces. */
  lemma SqlServerRendered()
    ensures PagedListSqlOf(SQLServer) == Render(PagedPieces(SQLServer))
  {
    SqlServerQueryRendered();
    SqlServerRangeRendered();
    var inner, source, lower, upper := SqlServerInner(), SqlServerSource(), SqlServerLower(), SqlServerUpper();
    RenderConcat(inner, source);
    RenderConcat(inner + source, lower);
    RenderConcat(inner + source + lower, upper);
  }

  /** The stored template text is the rendering of the dialect's pieces. */
  lemma PagedListSqlRendered(d: Dialect)
    ensures PagedListSqlOf(d) == Render(PagedPieces(d))
  {
    match d
    case MySQL => MySqlRendered();
    case SQLServer => SqlServerRendered();
    case _ => OffsetRendered(d);
  }

  /** The quoting format SetDialect installs: "[{0}]", "`{0}`" or "\"{0}\"". */
  function QuoteOf(d: Dialect): Quote
  {
    match d
    case SQLServer => Quote("[", "]")
    case MySQL => Quote("`", "`")
    case _ => Quote("\"", "\"")
  }

  /** The query SetDialect installs for reading the generated identity. */
  function IdentitySqlOf(d: Dialect): string
  {
    match d
    case PostgreSQL => "SELECT LASTVAL() AS id"
    case SQLite => "SELECT LAST_INSERT_ROWID() AS id"
    case MySQL => "SELECT LAST_INSERT_ID() AS id"
    case SQLServer => "SELECT CAST(SCOPE_IDENTITY()  AS BIGINT) AS [id]"
  }

  /** Only MySQL quotes with backticks and only SQL Server with brackets; the others use double quotes. */
  lemma QuoteIdentifiesDialect(d: Dialect)
    ensures d == MySQL <==> QuoteOf(d) == Quote("`", "`")
    ensures d == SQLServer <==> QuoteOf(d) == Quote("[", "]")
    ensures d == PostgreSQL || d == SQLite <==> QuoteOf(d) == Quote("\"", "\"")
  {
  }

  /** Every paging template is non-empty, so no dialect of this version refuses GetListPaged. */
  lemma PagedListSqlNonEmpty(d: Dialect)
    ensures PagedListSqlOf(d) != ""
  {
  }

  /** GetDialect: the enum member's name. */
  function DialectName(d: Dialect): (r: string)
  {
    match d
    case SQLServer => "SQLServer"
    case PostgreSQL => "PostgreSQL"
    case SQLite => "SQLite"
    case MySQL => "MySQL"
  }

  /** Distinct dialects report distinct names, so GetDialect identifies the active profile. */
  lemma DialectNameInjective(d1: Dialect, d2: Dialect)
    requires DialectName(d1) == DialectName(d2)
    ensures d1 == d2
  {
  }

  /**
   * For every dialect the Replace chain of BuildGetListPagedQuery performs a
   * simultaneous substitution of the seven placeholders and leaves none behind.
   */
  lemma PagedQueryComplete(d: Dialect, selectColumns: string, tableName: string, pageNumber: int,
                           rowsPerPage: int, orderBy: string, whereClause: string)
    requires '{' !in selectColumns && '{' !in tableName && '{' !in orderBy && '{' !in whereClause
    ensures PagedQuery(PagedListSqlOf(d), selectColumns, tableName, pageNumber, rowsPerPage, orderBy, whereClause)
         == Render(Bind(PagedPieces(d), selectColumns, tableName, pageNumber, rowsPerPage, orderBy, whereClause))
    ensures '{' !in PagedQuery(PagedListSqlOf(d), selectColumns, tableName, pageNumber, rowsPerPage, orderBy, whereClause)
  {
    PagedPiecesWellFormed(d);
    PagedListSqlRendered(d);
    PagedQuerySubstitutes(PagedPieces(d), selectColumns, tableName, pageNumber, rowsPerPage, orderBy, whereClause);
  }
}
