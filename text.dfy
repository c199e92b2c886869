/** String helpers: separator joins, ordinal replacement, case folding and number formatting. */
module Text {

  /** `items` joined by `sep`, with no separator after the last item. */
  function Join(items: seq<string>, sep: string): (r: string)
    ensures |items| == 1 ==> r == items[0]
  {
    if |items| == 0 then ""
    else if |items| == 1 then items[0]
    else items[0] + sep + Join(items[1..], sep)
  }

  /** Joining one more item adds the separator and the item: the join never ends in a separator it added. */
  lemma {:induction false} JoinSnoc(items: seq<string>, x: string, sep: string)
    requires |items| > 0
    ensures Join(items + [x], sep) == Join(items, sep) + sep + x
    decreases |items|
  {
    if |items| == 1 {
      assert (items + [x])[1..] == [x];
    } else {
      assert (items + [x])[1..] == items[1..] + [x];
      JoinSnoc(items[1..], x, sep);
    }
  }

  /** What an append loop leaves in a builder: every item followed by `sep`. */
  function Appended(items: seq<string>, sep: string): (r: string)
  {
    if |items| == 0 then "" else items[0] + sep + Appended(items[1..], sep)
  }

  lemma {:induction false} AppendedLength(items: seq<string>, sep: string)
    requires |items| > 0
    ensures |Appended(items, sep)| >= |sep|
  {
  }

  lemma {:induction false} AppendedSnoc(items: seq<string>, x: string, sep: string)
    ensures Appended(items + [x], sep) == Appended(items, sep) + x + sep
  {
    if |items| == 0 {
      assert items + [x] == [x];
    } else {
      assert (items + [x])[1..] == items[1..] + [x];
      AppendedSnoc(items[1..], x, sep);
    }
  }

  /**
   * Appending item+separator for every item and then removing the last |sep|
   * characters yields exactly the separator join: no trailing separator.
   */
  lemma {:induction false} TrimmedAppendedIsJoin(items: seq<string>, sep: string)
    requires |items| > 0
    ensures |Appended(items, sep)| >= |sep|
    ensures Appended(items, sep)[..|Appended(items, sep)| - |sep|] == Join(items, sep)
  {
    var a := Appended(items, sep);
    if |items| == 1 {
      assert a == items[0] + sep + "";
    } else {
      TrimmedAppendedIsJoin(items[1..], sep);
      var rest := Appended(items[1..], sep);
      assert a == (items[0] + sep) + rest;
      assert a[..|a| - |sep|] == (items[0] + sep) + rest[..|rest| - |sep|];
    }
  }

  /** Does `sub` occur in `s` starting at `i`? */
  predicate OccursAt(s: string, sub: string, i: nat)
  {
    i + |sub| <= |s| && s[i..i + |sub|] == sub
  }

  /** Ordinal substring test (String.Contains). */
  predicate Contains(s: string, sub: string)
  {
    exists i: nat :: i <= |s| && OccursAt(s, sub, i)
  }

  lemma ContainsAt(s: string, sub: string, i: nat)
    requires OccursAt(s, sub, i)
    ensures Contains(s, sub)
  {
  }

  /**
   * Ordinal String.Replace: scans left to right, replaces every non-overlapping
   * occurrence of `pattern` and does not rescan the inserted text.
   */
  function Replace(s: string, pattern: string, replacement: string): (r: string)
    requires |pattern| > 0
    decreases |s|
  {
    if |s| < |pattern| then s
    else if s[..|pattern|] == pattern then replacement + Replace(s[|pattern|..], pattern, replacement)
    else [s[0]] + Replace(s[1..], pattern, replacement)
  }

  /** A pattern that does not occur at all leaves the text as it is. */
  lemma {:induction false} ReplaceAbsent(s: string, pattern: string, replacement: string)
    requires |pattern| > 0 && pattern[0] !in s
    ensures Replace(s, pattern, replacement) == s
  {
    if |s| >= |pattern| {
      assert s[..|pattern|][0] == s[0];
      assert forall c | c in s[1..] :: c in s;
      ReplaceAbsent(s[1..], pattern, replacement);
    }
  }

  /**
   * A leading stretch that does not contain the pattern's first character is
   * copied unchanged and replacement continues after it.
   */
  lemma {:induction false} ReplaceSkipsPrefix(lit: string, rest: string, pattern: string, replacement: string)
    requires |pattern| > 0 && pattern[0] !in lit
    ensures Replace(lit + rest, pattern, replacement) == lit + Replace(rest, pattern, replacement)
  {
    if |lit| > 0 {
      var s := lit + rest;
      assert s[0] == lit[0];
      assert s[1..] == lit[1..] + rest;
      if |s| >= |pattern| {
        assert s[..|pattern|][0] == lit[0];
      }
      assert forall c | c in lit[1..] :: c in lit;
      ReplaceSkipsPrefix(lit[1..], rest, pattern, replacement);
    } else {
      assert lit + rest == rest;
    }
  }

  /** A pattern at the very start is swapped for the replacement. */
  lemma ReplaceAtStart(rest: string, pattern: string, replacement: string)
    requires |pattern| > 0
    ensures Replace(pattern + rest, pattern, replacement) == replacement + Replace(rest, pattern, replacement)
  {
    var s := pattern + rest;
    assert s[..|pattern|] == pattern;
    assert s[|pattern|..] == rest;
  }

  /** Lower-casing of ASCII letters; other characters are left as they are. */
  function ToLower(s: string): (r: string)
    ensures |r| == |s|
    ensures forall i | 0 <= i < |s| :: r[i] == LowerChar(s[i])
  {
    if |s| == 0 then "" else [LowerChar(s[0])] + ToLower(s[1..])
  }

  function LowerChar(c: char): char
  {
    if 'A' <= c <= 'Z' then (c as int + 32) as char else c
  }

  /** String.Equals(name, "Id", StringComparison.OrdinalIgnoreCase), on ASCII letters. */
  predicate IsIdName(name: string)
  {
    |name| == 2 && (name[0] == 'I' || name[0] == 'i') && (name[1] == 'D' || name[1] == 'd')
  }

  function DigitChar(d: nat): (c: char)
    requires d < 10
    ensures '0' <= c <= '9'
  {
    ('0' as int + d) as char
  }

  /** Decimal digits of a natural number, most significant first. */
  function NatToString(n: nat): (r: string)
    ensures |r| > 0
    ensures forall i | 0 <= i < |r| :: '0' <= r[i] <= '9'
  {
    if n < 10 then [DigitChar(n)] else NatToString(n / 10) + [DigitChar(n % 10)]
  }

  /** Int32.ToString() in the invariant culture. */
  function IntToString(n: int): (r: string)
    ensures |r| > 0
    ensures (r[0] == '-') <==> n < 0
  {
    if n < 0 then "-" + NatToString(-n) else NatToString(n)
  }

  function HexDigit(d: nat): (c: char)
    requires d < 16
  {
    if d < 10 then DigitChar(d) else ('a' as int + d - 10) as char
  }

  /** Two lower-case hex digits of a byte value. */
  function Hex2(b: nat): (r: string)
    requires b < 256
    ensures |r| == 2
  {
    [HexDigit(b / 16), HexDigit(b % 16)]
  }

  /** The value of a 32-bit two's-complement int after unchecked arithmetic. */
  function WrapInt32(x: int): (r: int)
    ensures -0x8000_0000 <= r < 0x8000_0000
    ensures -0x8000_0000 <= x < 0x8000_0000 ==> r == x
    ensures (x - r) % 0x1_0000_0000 == 0
  {
    var m := x % 0x1_0000_0000;
    if m >= 0x8000_0000 then m - 0x1_0000_0000 else m
  }
}
