/**
 * Convert.ToInt64 over a property value, as BuildInsertQuery applies it to an
 * int or long key: a null object converts to 0, an integer to itself when it
 * fits in 64 bits, and a string is parsed as an optionally signed decimal
 * numeral.
 */
module Conversions {
  import opened Wrappers
  import opened Text
  import opened Metadata

  const Int64Min := -0x8000_0000_0000_0000
  const Int64Max := 0x7FFF_FFFF_FFFF_FFFF

  function DigitValue(c: char): (d: nat)
    requires '0' <= c <= '9'
    ensures d < 10 && DigitChar(d) == c
  {
    c as int - '0' as int
  }

  /** The value of a non-empty run of decimal digits, most significant first; None for anything else. */
  function DigitsValue(s: string): (r: Option<nat>)
    decreases |s|
  {
    if |s| == 0 || !('0' <= s[|s| - 1] <= '9') then None
    else if |s| == 1 then Some(DigitValue(s[0]))
    else match DigitsValue(s[..|s| - 1])
      case None => None
      case Some(v) => Some(v * 10 + DigitValue(s[|s| - 1]))
  }

  /** Reading back the digits NatToString writes gives the number. */
  lemma {:induction false} DigitsValueOfNatToString(n: nat)
    ensures DigitsValue(NatToString(n)) == Some(n)
    decreases n
  {
    var s := NatToString(n);
    if n >= 10 {
      assert s[..|s| - 1] == NatToString(n / 10);
      DigitsValueOfNatToString(n / 10);
    }
  }

  /** An optionally signed decimal numeral; None when the text is not one. */
  function ParseInteger(s: string): (r: Option<int>)
  {
    var signed := |s| > 0 && (s[0] == '-' || s[0] == '+');
    var digits := if signed then DigitsValue(s[1..]) else DigitsValue(s);
    if digits.None? then None
    else
      var magnitude: int := digits.value;
      Some(if signed && s[0] == '-' then -magnitude else magnitude)
  }

  /** ParseInteger reads back every integer's decimal text. */
  lemma ParseIntegerOfIntToString(n: int)
    ensures ParseInteger(IntToString(n)) == Some(n)
  {
    var s := IntToString(n);
    if n < 0 {
      assert s[1..] == NatToString(-n);
      DigitsValueOfNatToString(-n);
    } else {
      DigitsValueOfNatToString(n);
      assert s[0] != '-' && s[0] != '+';
    }
  }

  /** Convert.ToInt64(object) of a property value. */
  function ToInt64(v: Value): (r: Result<int>)
    ensures r.Ok? ==> Int64Min <= r.value <= Int64Max
    ensures v == Null ==> r == Ok(0)
    ensures v.IntValue? ==> (r.Ok? <==> Int64Min <= v.i <= Int64Max) && (r.Ok? ==> r.value == v.i)
    ensures v.DbNull? || v.GuidValue? || v.Composite? ==> r == Err(InvalidCast)
  {
    match v
    case Null => Ok(0)
    case IntValue(i) => if Int64Min <= i <= Int64Max then Ok(i) else Err(Overflow)
    case TextValue(s) =>
      (match ParseInteger(s)
       case None => Err(FormatError)
       case Some(n) => if Int64Min <= n <= Int64Max then Ok(n) else Err(Overflow))
    case _ => Err(InvalidCast)
  }

  /** The text of a 64-bit integer converts back to that integer. */
  lemma ToInt64OfText(n: int)
    requires Int64Min <= n <= Int64Max
    ensures ToInt64(TextValue(IntToString(n))) == Ok(n)
  {
    ParseIntegerOfIntToString(n);
  }
}
