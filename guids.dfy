/**
 * SequentialGuid: a random Guid whose first six bytes are overwritten with the
 * low bytes of the current local time, and the "D" text form a Guid takes
 * when it is concatenated into the insert statement.
 */
module Guids {
  import opened Text
  import opened Metadata

  /** The DateTime.Now fields SequentialGuid reads. */
  datatype Moment = Moment(year: nat, month: nat, day: nat, hour: nat, minute: nat, second: nat)

  /** The unchecked (byte) conversion of a non-negative int: its low eight bits. */
  function LowByte(n: nat): (b: byte)
    ensures b as int == n % 256
  {
    (n % 256) as byte
  }

  /**
   * The bytes of SequentialGuid, with Guid.NewGuid().ToByteArray() and
   * DateTime.Now given as inputs: bytes 3, 2, 1, 0, 5, 4 take the low bytes of
   * year, month, day, hour, minute and second; bytes 6 to 15 stay random.
   */
  function Stamped(random: GuidBytes, time: Moment): (g: GuidBytes)
    ensures g[3] == LowByte(time.year) && g[2] == LowByte(time.month) && g[1] == LowByte(time.day)
    ensures g[0] == LowByte(time.hour) && g[5] == LowByte(time.minute) && g[4] == LowByte(time.second)
    ensures g[6..] == random[6..]
  {
    [LowByte(time.hour), LowByte(time.day), LowByte(time.month), LowByte(time.year),
     LowByte(time.second), LowByte(time.minute)] + random[6..]
  }

  /** SequentialGuid: copies the random bytes into an array and overwrites the first six. */
  method SequentialGuid(random: GuidBytes, time: Moment) returns (g: GuidBytes)
    ensures g == Stamped(random, time)
  {
    var bytes := new byte[16];
    var k := 0;
    while k < 16
      invariant 0 <= k <= 16
      invariant bytes[..k] == random[..k]
    {
      bytes[k] := random[k];
      k := k + 1;
    }
    bytes[3] := LowByte(time.year);
    bytes[2] := LowByte(time.month);
    bytes[1] := LowByte(time.day);
    bytes[0] := LowByte(time.hour);
    bytes[5] := LowByte(time.minute);
    bytes[4] := LowByte(time.second);
    g := bytes[..];
    var s := Stamped(random, time);
    forall i | 0 <= i < 16 ensures g[i] == s[i] {
      if i >= 6 {
        assert bytes[..16][i] == random[..16][i];
        assert s[i] == s[6..][i - 6];
      }
    }
  }

  /** Two lower-case hex digits per byte, in the given order. */
  function HexBytes(bs: seq<byte>): (r: string)
    ensures |r| == 2 * |bs|
  {
    if |bs| == 0 then "" else Hex2(bs[0] as nat) + HexBytes(bs[1..])
  }

  /**
   * Guid.ToString(): 8-4-4-4-12 hex digits; the first three groups are the
   * little-endian fields (bytes 3..0, 5..4, 7..6), the last two bytes 8..15 in order.
   */
  function GuidString(g: GuidBytes): (r: string)
    ensures |r| == 36
    ensures r[8] == '-' && r[13] == '-' && r[18] == '-' && r[23] == '-'
  {
    HexBytes([g[3], g[2], g[1], g[0]]) + "-" + HexBytes([g[5], g[4]]) + "-" + HexBytes([g[7], g[6]]) + "-"
      + HexBytes(g[8..10]) + "-" + HexBytes(g[10..])
  }

  /** The text of two bytes is their two hex pairs. */
  lemma HexBytesOfTwo(a: byte, b: byte)
    ensures HexBytes([a, b]) == Hex2(a as nat) + Hex2(b as nat)
  {
    assert [a, b][1..] == [b];
    assert [b][1..] == [];
    assert HexBytes([b]) == Hex2(b as nat) + "";
  }

  /** The text of four bytes is their four hex pairs. */
  lemma HexBytesOfFour(a: byte, b: byte, c: byte, d: byte)
    ensures HexBytes([a, b, c, d]) == Hex2(a as nat) + Hex2(b as nat) + Hex2(c as nat) + Hex2(d as nat)
  {
    assert [a, b, c, d][1..] == [b, c, d];
    assert [b, c, d][1..] == [c, d];
    HexBytesOfTwo(c, d);
  }

  /**
   * The text of a sequential Guid starts with the hex of year, month, day and
   * hour and continues after the first dash with minute and second: Guids made
   * within the same second share their first 13 characters whatever the random bytes.
   */
  lemma SequentialGuidTextStartsWithTime(g: GuidBytes, time: Moment)
    requires g[3] == LowByte(time.year) && g[2] == LowByte(time.month) && g[1] == LowByte(time.day)
    requires g[0] == LowByte(time.hour) && g[5] == LowByte(time.minute) && g[4] == LowByte(time.second)
    ensures GuidString(g)[..13] ==
      Hex2(time.year % 256) + Hex2(time.month % 256) + Hex2(time.day % 256) + Hex2(time.hour % 256) + "-"
      + Hex2(time.minute % 256) + Hex2(time.second % 256)
  {
    var head := HexBytes([g[3], g[2], g[1], g[0]]);
    HexBytesOfFour(g[3], g[2], g[1], g[0]);
    var mid := HexBytes([g[5], g[4]]);
    HexBytesOfTwo(g[5], g[4]);
    var s := GuidString(g);
    assert s == (head + "-" + mid) + ("-" + HexBytes([g[7], g[6]]) + "-" + HexBytes(g[8..10]) + "-" + HexBytes(g[10..]));
    assert |head + "-" + mid| == 13;
  }

  /** Two Guids made within the same second have the same first 13 characters of text. */
  lemma SameSecondSamePrefix(a: GuidBytes, b: GuidBytes, time: Moment)
    requires a[3] == LowByte(time.year) && a[2] == LowByte(time.month) && a[1] == LowByte(time.day)
    requires a[0] == LowByte(time.hour) && a[5] == LowByte(time.minute) && a[4] == LowByte(time.second)
    requires b[3] == LowByte(time.year) && b[2] == LowByte(time.month) && b[1] == LowByte(time.day)
    requires b[0] == LowByte(time.hour) && b[5] == LowByte(time.minute) && b[4] == LowByte(time.second)
    ensures GuidString(a)[..13] == GuidString(b)[..13]
  {
    SequentialGuidTextStartsWithTime(a, time);
    SequentialGuidTextStartsWithTime(b, time);
  }
}
