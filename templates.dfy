/**
 * Paged-list templates: literal text with {Name} placeholders, and the chain of
 * String.Replace calls that BuildGetListPagedQuery runs over them.
 */
module Templates {
  import opened Text

  datatype Placeholder = SelectColumns | TableName | PageNumber | RowsPerPage | OrderBy | WhereClause | Offset

  function HoleName(h: Placeholder): (r: string)
    ensures '{' !in r && '}' !in r
  {
    match h
    case SelectColumns => "SelectColumns"
    case TableName => "TableName"
    case PageNumber => "PageNumber"
    case RowsPerPage => "RowsPerPage"
    case OrderBy => "OrderBy"
    case WhereClause => "WhereClause"
    case Offset => "Offset"
  }

  /** The placeholder as it is written in a template, e.g. "{OrderBy}". */
  function Token(h: Placeholder): string
  {
    "{" + HoleName(h) + "}"
  }

  datatype Piece = Lit(text: string) | Hole(h: Placeholder)

  function Render(ps: seq<Piece>): string
  {
    if |ps| == 0 then ""
    else (match ps[0] case Lit(t) => t case Hole(h) => Token(h)) + Render(ps[1..])
  }

  lemma {:induction false} RenderConcat(a: seq<Piece>, b: seq<Piece>)
    ensures Render(a + b) == Render(a) + Render(b)
    decreases |a|
  {
    if |a| == 0 {
      assert a + b == b;
    } else {
      assert (a + b)[1..] == a[1..] + b;
      RenderConcat(a[1..], b);
    }
  }

  /** No literal contains '{', so every '{' of the rendering opens a placeholder. */
  predicate WellFormed(ps: seq<Piece>)
  {
    forall i | 0 <= i < |ps| :: ps[i].Lit? ==> '{' !in ps[i].text
  }

  lemma WellFormedConcat(a: seq<Piece>, b: seq<Piece>)
    requires WellFormed(a) && WellFormed(b)
    ensures WellFormed(a + b)
  {
    forall i | 0 <= i < |a + b| && (a + b)[i].Lit?
      ensures '{' !in (a + b)[i].text
    {
      if i >= |a| { assert (a + b)[i] == b[i - |a|]; }
    }
  }

  /** Substitute `value` for every occurrence of placeholder `h`. */
  function Fill(ps: seq<Piece>, h: Placeholder, value: string): (r: seq<Piece>)
    ensures |r| == |ps|
    ensures forall i | 0 <= i < |ps| :: r[i] == if ps[i] == Hole(h) then Lit(value) else ps[i]
  {
    if |ps| == 0 then [] else [if ps[0] == Hole(h) then Lit(value) else ps[0]] + Fill(ps[1..], h, value)
  }

  predicate NoHoles(ps: seq<Piece>)
  {
    forall i | 0 <= i < |ps| :: ps[i].Lit?
  }

  /** "{n}" followed by anything does not start with "{name}" when n != name. */
  lemma OtherHoleDoesNotMatch(n: string, name: string, rest: string)
    requires n != name && '}' !in n && '}' !in name
    ensures var s := "{" + n + "}" + rest; var p := "{" + name + "}";
      |s| < |p| || s[..|p|] != p
  {
    var s := "{" + n + "}" + rest;
    var p := "{" + name + "}";
    if |n| < |name| {
      assert s[|n| + 1] == '}' && name[|n|] in name;
    } else if |name| < |n| {
      assert p[|name| + 1] == '}' && n[|name|] in n;
    } else {
      var k :| 0 <= k < |n| && n[k] != name[k];
      assert s[k + 1] == n[k] && p[k + 1] == name[k];
    }
  }

  lemma HoleNameInjective(h: Placeholder, other: Placeholder)
    requires h != other
    ensures HoleName(h) != HoleName(other)
  {
  }

  lemma ReplaceOtherToken(n: string, name: string, rest: string, value: string)
    requires n != name && '{' !in n && '}' !in n && '}' !in name
    ensures Replace("{" + n + "}" + rest, "{" + name + "}", value) == "{" + n + "}" + Replace(rest, "{" + name + "}", value)
  {
    var s := "{" + n + "}" + rest;
    var p := "{" + name + "}";
    OtherHoleDoesNotMatch(n, name, rest);
    assert s[1..] == (n + "}") + rest;
    assert '{' !in n + "}";
    ReplaceSkipsPrefix(n + "}", rest, p, value);
    assert "{" + n + "}" + Replace(rest, p, value) == [s[0]] + ((n + "}") + Replace(rest, p, value));
  }

  /** Replacing one placeholder's token skips over a different placeholder. */
  lemma ReplaceOtherHole(h: Placeholder, other: Placeholder, rest: string, value: string)
    requires h != other
    ensures Replace(Token(other) + rest, Token(h), value) == Token(other) + Replace(rest, Token(h), value)
  {
    HoleNameInjective(h, other);
    ReplaceOtherToken(HoleName(other), HoleName(h), rest, value);
  }

  lemma WellFormedTail(ps: seq<Piece>)
    requires |ps| > 0 && WellFormed(ps)
    ensures WellFormed(ps[1..])
  {
    forall i | 0 <= i < |ps| - 1 ensures ps[1..][i] == ps[i + 1] { }
  }

  /** One step of ReplaceFillsHole: the first piece, given the rest is done. */
  lemma ReplaceFillsFirst(ps: seq<Piece>, h: Placeholder, value: string)
    requires |ps| > 0 && WellFormed(ps)
    requires Replace(Render(ps[1..]), Token(h), value) == Render(Fill(ps[1..], h, value))
    ensures Replace(Render(ps), Token(h), value) == Render(Fill(ps, h, value))
  {
    var rest := Render(ps[1..]);
    assert Fill(ps, h, value)[1..] == Fill(ps[1..], h, value);
    match ps[0]
    case Lit(t) =>
      assert '{' !in t;
      ReplaceSkipsPrefix(t, rest, Token(h), value);
    case Hole(other) =>
      if other == h {
        ReplaceAtStart(rest, Token(h), value);
      } else {
        ReplaceOtherHole(h, other, rest, value);
      }
  }

  /**
   * On a well-formed template, String.Replace of a placeholder's token is exactly
   * the substitution of that placeholder; a value without '{' keeps it well-formed.
   */
  lemma {:induction false} ReplaceFillsHole(ps: seq<Piece>, h: Placeholder, value: string)
    requires WellFormed(ps)
    ensures Replace(Render(ps), Token(h), value) == Render(Fill(ps, h, value))
    ensures '{' !in value ==> WellFormed(Fill(ps, h, value))
  {
    if |ps| > 0 {
      WellFormedTail(ps);
      ReplaceFillsHole(ps[1..], h, value);
      ReplaceFillsFirst(ps, h, value);
    }
  }

  /** A template with no placeholders left renders to text without '{'. */
  lemma {:induction false} NoHolesNoBrace(ps: seq<Piece>)
    requires WellFormed(ps) && NoHoles(ps)
    ensures '{' !in Render(ps)
  {
    if |ps| > 0 {
      assert ps[0].Lit? && '{' !in ps[0].text;
      WellFormedTail(ps);
      assert NoHoles(ps[1..]) by {
        forall i | 0 <= i < |ps| - 1 ensures ps[1..][i] == ps[i + 1] { }
      }
      NoHolesNoBrace(ps[1..]);
    }
  }

  /** The row offset of a page: (pageNumber - 1) * rowsPerPage in unchecked 32-bit arithmetic. */
  function PageOffset(pageNumber: int, rowsPerPage: int): (r: int)
    ensures -0x8000_0000 <= r < 0x8000_0000
    ensures -0x8000_0000 <= (pageNumber - 1) * rowsPerPage < 0x8000_0000 ==> r == (pageNumber - 1) * rowsPerPage
    ensures ((pageNumber - 1) * rowsPerPage - r) % 0x1_0000_0000 == 0
  {
    WrapInt32((pageNumber - 1) * rowsPerPage)
  }

  /** The placeholder substitution chain of BuildGetListPagedQuery, in its order. */
  function PagedQuery(template: string, selectColumns: string, tableName: string, pageNumber: int,
                      rowsPerPage: int, orderBy: string, whereClause: string): string
  {
    var q1 := Replace(template, Token(SelectColumns), selectColumns);
    var q2 := Replace(q1, Token(TableName), tableName);
    var q3 := Replace(q2, Token(PageNumber), IntToString(pageNumber));
    var q4 := Replace(q3, Token(RowsPerPage), IntToString(rowsPerPage));
    var q5 := Replace(q4, Token(OrderBy), orderBy);
    var q6 := Replace(q5, Token(WhereClause), whereClause);
    Replace(q6, Token(Offset), IntToString(PageOffset(pageNumber, rowsPerPage)))
  }

  /** The template once every placeholder has its value. */
  function Substituted(ps: seq<Piece>, selectColumns: string, tableName: string, pageNumber: int,
                       rowsPerPage: int, orderBy: string, whereClause: string): seq<Piece>
  {
    var p1 := Fill(ps, SelectColumns, selectColumns);
    var p2 := Fill(p1, TableName, tableName);
    var p3 := Fill(p2, PageNumber, IntToString(pageNumber));
    var p4 := Fill(p3, RowsPerPage, IntToString(rowsPerPage));
    var p5 := Fill(p4, OrderBy, orderBy);
    var p6 := Fill(p5, WhereClause, whereClause);
    Fill(p6, Offset, IntToString(PageOffset(pageNumber, rowsPerPage)))
  }

  /** Every placeholder left in `ps` is one of `hs`. */
  predicate HolesAmong(ps: seq<Piece>, hs: set<Placeholder>)
  {
    forall i | 0 <= i < |ps| :: ps[i].Hole? ==> ps[i].h in hs
  }

  lemma FillRemovesHole(ps: seq<Piece>, h: Placeholder, value: string, hs: set<Placeholder>)
    requires HolesAmong(ps, hs)
    ensures HolesAmong(Fill(ps, h, value), hs - {h})
  {
  }

  lemma SubstitutedHasNoHoles(ps: seq<Piece>, selectColumns: string, tableName: string, pageNumber: int,
                              rowsPerPage: int, orderBy: string, whereClause: string)
    ensures NoHoles(Substituted(ps, selectColumns, tableName, pageNumber, rowsPerPage, orderBy, whereClause))
  {
    var all := {SelectColumns, TableName, PageNumber, RowsPerPage, OrderBy, WhereClause, Offset};
    assert HolesAmong(ps, all) by {
      forall i | 0 <= i < |ps| && ps[i].Hole? ensures ps[i].h in all {
        match ps[i].h
        case SelectColumns =>
        case TableName =>
        case PageNumber =>
        case RowsPerPage =>
        case OrderBy =>
        case WhereClause =>
        case Offset =>
      }
    }
    var p1 := Fill(ps, SelectColumns, selectColumns);
    FillRemovesHole(ps, SelectColumns, selectColumns, all);
    var s1 := all - {SelectColumns};
    var p2 := Fill(p1, TableName, tableName);
    FillRemovesHole(p1, TableName, tableName, s1);
    var s2 := s1 - {TableName};
    var p3 := Fill(p2, PageNumber, IntToString(pageNumber));
    FillRemovesHole(p2, PageNumber, IntToString(pageNumber), s2);
    var s3 := s2 - {PageNumber};
    var p4 := Fill(p3, RowsPerPage, IntToString(rowsPerPage));
    FillRemovesHole(p3, RowsPerPage, IntToString(rowsPerPage), s3);
    var s4 := s3 - {RowsPerPage};
    var p5 := Fill(p4, OrderBy, orderBy);
    FillRemovesHole(p4, OrderBy, orderBy, s4);
    var s5 := s4 - {OrderBy};
    var p6 := Fill(p5, WhereClause, whereClause);
    FillRemovesHole(p5, WhereClause, whereClause, s5);
    var s6 := s5 - {WhereClause};
    var p7 := Fill(p6, Offset, IntToString(PageOffset(pageNumber, rowsPerPage)));
    FillRemovesHole(p6, Offset, IntToString(PageOffset(pageNumber, rowsPerPage)), s6);
    assert s6 - {Offset} == {};
  }

  /** The text BuildGetListPagedQuery substitutes for each placeholder. */
  function HoleValue(h: Placeholder, selectColumns: string, tableName: string, pageNumber: int,
                     rowsPerPage: int, orderBy: string, whereClause: string): string
  {
    match h
    case SelectColumns => selectColumns
    case TableName => tableName
    case PageNumber => IntToString(pageNumber)
    case RowsPerPage => IntToString(rowsPerPage)
    case OrderBy => orderBy
    case WhereClause => whereClause
    case Offset => IntToString(PageOffset(pageNumber, rowsPerPage))
  }

  function BindPiece(p: Piece, selectColumns: string, tableName: string, pageNumber: int,
                     rowsPerPage: int, orderBy: string, whereClause: string): Piece
  {
    match p
    case Lit(t) => Lit(t)
    case Hole(h) => Lit(HoleValue(h, selectColumns, tableName, pageNumber, rowsPerPage, orderBy, whereClause))
  }

  /** Simultaneous substitution: every placeholder replaced by its value at once. */
  function Bind(ps: seq<Piece>, selectColumns: string, tableName: string, pageNumber: int,
                rowsPerPage: int, orderBy: string, whereClause: string): (r: seq<Piece>)
    ensures |r| == |ps|
  {
    if |ps| == 0 then []
    else [BindPiece(ps[0], selectColumns, tableName, pageNumber, rowsPerPage, orderBy, whereClause)]
         + Bind(ps[1..], selectColumns, tableName, pageNumber, rowsPerPage, orderBy, whereClause)
  }

  lemma {:induction false} BindAt(ps: seq<Piece>, selectColumns: string, tableName: string, pageNumber: int,
                                  rowsPerPage: int, orderBy: string, whereClause: string, i: int)
    requires 0 <= i < |ps|
    ensures Bind(ps, selectColumns, tableName, pageNumber, rowsPerPage, orderBy, whereClause)[i]
         == BindPiece(ps[i], selectColumns, tableName, pageNumber, rowsPerPage, orderBy, whereClause)
    decreases i
  {
    if i > 0 {
      BindAt(ps[1..], selectColumns, tableName, pageNumber, rowsPerPage, orderBy, whereClause, i - 1);
    }
  }

  /**
   * Seven Fills in sequence give the same pieces as one simultaneous
   * substitution: a filled placeholder becomes a literal, which later Fills leave alone.
   */
  lemma SubstitutedIsBind(ps: seq<Piece>, selectColumns: string, tableName: string, pageNumber: int,
                          rowsPerPage: int, orderBy: string, whereClause: string)
    ensures Substituted(ps, selectColumns, tableName, pageNumber, rowsPerPage, orderBy, whereClause)
         == Bind(ps, selectColumns, tableName, pageNumber, rowsPerPage, orderBy, whereClause)
  {
    var s := Substituted(ps, selectColumns, tableName, pageNumber, rowsPerPage, orderBy, whereClause);
    var b := Bind(ps, selectColumns, tableName, pageNumber, rowsPerPage, orderBy, whereClause);
    forall i | 0 <= i < |ps| ensures s[i] == b[i] {
      BindAt(ps, selectColumns, tableName, pageNumber, rowsPerPage, orderBy, whereClause, i);
    }
  }

  lemma DigitsHaveNoBrace(n: int)
    ensures '{' !in IntToString(n)
  {
    var r := IntToString(n);
    if n < 0 {
      assert r == "-" + NatToString(-n);
      assert forall i | 0 <= i < |r| :: r[i] == '-' || '0' <= r[i] <= '9';
    }
  }

  /**
   * The Replace chain also rewrites placeholders inside values it substituted
   * earlier: a WHERE clause ending in "{Offset}" gets the offset written into
   * it, where the simultaneous substitution keeps it verbatim.
   */
  lemma PagedQueryRescansValues(lit: string, pageNumber: int, rowsPerPage: int)
    requires '{' !in lit
    ensures PagedQuery(Render([Hole(WhereClause)]), "", "", pageNumber, rowsPerPage, "", lit + Token(Offset))
         == lit + IntToString(PageOffset(pageNumber, rowsPerPage))
    ensures Render(Bind([Hole(WhereClause)], "", "", pageNumber, rowsPerPage, "", lit + Token(Offset)))
         == lit + Token(Offset)
    ensures PagedQuery(Render([Hole(WhereClause)]), "", "", pageNumber, rowsPerPage, "", lit + Token(Offset))
         != Render(Bind([Hole(WhereClause)], "", "", pageNumber, rowsPerPage, "", lit + Token(Offset)))
  {
    var w := lit + Token(Offset);
    var offset := IntToString(PageOffset(pageNumber, rowsPerPage));
    WhereChain(pageNumber, rowsPerPage, w);
    OffsetAfterPrefix(lit, offset);
    BindWhereOnly(pageNumber, rowsPerPage, w);
    DigitsHaveNoBrace(PageOffset(pageNumber, rowsPerPage));
    assert w[|lit|] == '{';
    assert (lit + offset)[|lit|] == offset[0] && offset[0] in offset;
  }

  /** The first six Replaces turn the one-hole WHERE template into the WHERE clause itself. */
  lemma WhereChain(pageNumber: int, rowsPerPage: int, w: string)
    ensures var q0 := Render([Hole(WhereClause)]);
      var q1 := Replace(q0, Token(SelectColumns), "");
      var q2 := Replace(q1, Token(TableName), "");
      var q3 := Replace(q2, Token(PageNumber), IntToString(pageNumber));
      var q4 := Replace(q3, Token(RowsPerPage), IntToString(rowsPerPage));
      var q5 := Replace(q4, Token(OrderBy), "");
      Replace(q5, Token(WhereClause), w) == w
  {
    var ps := [Hole(WhereClause)];
    assert Render(ps) == Token(WhereClause) + Render([]);
    FillAbsent(ps, SelectColumns, "");
    FillAbsent(ps, TableName, "");
    FillAbsent(ps, PageNumber, IntToString(pageNumber));
    FillAbsent(ps, RowsPerPage, IntToString(rowsPerPage));
    FillAbsent(ps, OrderBy, "");
    assert Token(WhereClause) == Token(WhereClause) + "";
    ReplaceAtStart("", Token(WhereClause), w);
    assert w == w + "";
  }

  /** A text that ends in "{Offset}" gets the offset in its place. */
  lemma OffsetAfterPrefix(lit: string, offset: string)
    requires '{' !in lit
    ensures Replace(lit + Token(Offset), Token(Offset), offset) == lit + offset
  {
    assert lit + Token(Offset) == lit + (Token(Offset) + "");
    ReplaceSkipsPrefix(lit, Token(Offset) + "", Token(Offset), offset);
    ReplaceAtStart("", Token(Offset), offset);
    assert Replace("", Token(Offset), offset) == "";
    assert offset + "" == offset;
  }

  /** The simultaneous substitution renders the one-hole WHERE template as the WHERE clause. */
  lemma BindWhereOnly(pageNumber: int, rowsPerPage: int, w: string)
    ensures Render(Bind([Hole(WhereClause)], "", "", pageNumber, rowsPerPage, "", w)) == w
  {
    var ps := [Hole(WhereClause)];
    assert Bind(ps, "", "", pageNumber, rowsPerPage, "", w) == [Lit(w)] + Bind([], "", "", pageNumber, rowsPerPage, "", w);
    assert Render([Lit(w)]) == w + Render([]);
  }

  /** A Replace of a token the one-hole WHERE template does not hold leaves it as it is. */
  lemma FillAbsent(ps: seq<Piece>, h: Placeholder, value: string)
    requires ps == [Hole(WhereClause)] && h != WhereClause
    ensures Replace(Render(ps), Token(h), value) == Render(ps)
  {
    ReplaceFillsHole(ps, h, value);
    assert Fill(ps, h, value) == ps;
  }

  /**
   * On a well-formed template the Replace chain performs exactly the seven
   * substitutions; when the values bring no '{', nothing of the form {X} is left.
   */
  lemma PagedQuerySubstitutes(ps: seq<Piece>, selectColumns: string, tableName: string, pageNumber: int,
                              rowsPerPage: int, orderBy: string, whereClause: string)
    requires WellFormed(ps)
    requires '{' !in selectColumns && '{' !in tableName && '{' !in orderBy && '{' !in whereClause
    ensures PagedQuery(Render(ps), selectColumns, tableName, pageNumber, rowsPerPage, orderBy, whereClause)
         == Render(Bind(ps, selectColumns, tableName, pageNumber, rowsPerPage, orderBy, whereClause))
    ensures '{' !in PagedQuery(Render(ps), selectColumns, tableName, pageNumber, rowsPerPage, orderBy, whereClause)
  {
    var offset := IntToString(PageOffset(pageNumber, rowsPerPage));
    DigitsHaveNoBrace(pageNumber);
    DigitsHaveNoBrace(rowsPerPage);
    DigitsHaveNoBrace(PageOffset(pageNumber, rowsPerPage));
    var p1 := Fill(ps, SelectColumns, selectColumns);
    ReplaceFillsHole(ps, SelectColumns, selectColumns);
    var p2 := Fill(p1, TableName, tableName);
    ReplaceFillsHole(p1, TableName, tableName);
    var p3 := Fill(p2, PageNumber, IntToString(pageNumber));
    ReplaceFillsHole(p2, PageNumber, IntToString(pageNumber));
    var p4 := Fill(p3, RowsPerPage, IntToString(rowsPerPage));
    ReplaceFillsHole(p3, RowsPerPage, IntToString(rowsPerPage));
    var p5 := Fill(p4, OrderBy, orderBy);
    ReplaceFillsHole(p4, OrderBy, orderBy);
    var p6 := Fill(p5, WhereClause, whereClause);
    ReplaceFillsHole(p5, WhereClause, whereClause);
    ReplaceFillsHole(p6, Offset, offset);
    SubstitutedHasNoHoles(ps, selectColumns, tableName, pageNumber, rowsPerPage, orderBy, whereClause);
    NoHolesNoBrace(Fill(p6, Offset, offset));
    SubstitutedIsBind(ps, selectColumns, tableName, pageNumber, rowsPerPage, orderBy, whereClause);
  }
}
