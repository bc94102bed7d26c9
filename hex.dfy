/**
  The text `MiNetServer.ByteArrayToString` makes of a byte array: the
  bytes between braces, each written `0x` and two lower-case hexadecimal
  digits and followed by a comma, as in `{0x01,0xa0,}`. `Parse` reads that
  text back.
 */
module HexFormat {
  import opened Protocol

  /** The digit `AppendFormat`'s `x2` format writes for a value below 16. */
  function HexDigit(n: int): (c: char)
    requires 0 <= n < 16
  {
    if n < 10 then ('0' as int + n) as char else ('a' as int + n - 10) as char
  }

  /** `AppendFormat("0x{0:x2},", b)` for one byte. */
  function ByteText(b: byte): (r: string)
    ensures |r| == 5
  {
    "0x" + [HexDigit(b as int / 16), HexDigit(b as int % 16)] + ","
  }

  /** The text of all bytes, one after the other, as the loop appends them. */
  function Body(ba: seq<byte>): (r: string)
    ensures |r| == 5 * |ba|
    decreases |ba|
  {
    if ba == [] then "" else Body(ba[..|ba| - 1]) + ByteText(ba[|ba| - 1])
  }

  /** The whole string `ByteArrayToString` returns. */
  function Formatted(ba: seq<byte>): string {
    "{" + Body(ba) + "}"
  }

  // ----- reading the text back -----

  function DigitValue(c: char): (r: Option<int>)
    ensures r.Some? ==> 0 <= r.value < 16
  {
    if '0' <= c <= '9' then Some(c as int - '0' as int)
    else if 'a' <= c <= 'f' then Some(c as int - 'a' as int + 10)
    else None
  }

  /** The byte one five-character group `0xhh,` stands for. */
  function ParseByte(t: string): Option<byte>
    requires |t| == 5
  {
    if t[0] == '0' && t[1] == 'x' && t[4] == ',' && DigitValue(t[2]).Some? && DigitValue(t[3]).Some? then
      Some((16 * DigitValue(t[2]).value + DigitValue(t[3]).value) as byte)
    else None
  }

  function ParseBody(t: string): Option<seq<byte>>
    decreases |t|
  {
    if t == [] then Some([])
    else if |t| < 5 then None
    else match (ParseBody(t[..|t| - 5]), ParseByte(t[|t| - 5..]))
      case (Some(init), Some(last)) => Some(init + [last])
      case _ => None
  }

  function Parse(t: string): Option<seq<byte>> {
    if |t| >= 2 && t[0] == '{' && t[|t| - 1] == '}' then ParseBody(t[1..|t| - 1]) else None
  }

  lemma ByteTextParses(b: byte)
    ensures ParseByte(ByteText(b)) == Some(b)
  {
    var t := ByteText(b);
    var hi, lo := b as int / 16, b as int % 16;
    assert t[2] == HexDigit(hi) && t[3] == HexDigit(lo);
    assert DigitValue(HexDigit(hi)) == Some(hi);
    assert DigitValue(HexDigit(lo)) == Some(lo);
  }

  lemma {:induction false} BodyParses(ba: seq<byte>)
    ensures ParseBody(Body(ba)) == Some(ba)
    decreases |ba|
  {
    if ba != [] {
      var init, last := ba[..|ba| - 1], ba[|ba| - 1];
      var t := Body(ba);
      assert t == Body(init) + ByteText(last);
      assert t[..|t| - 5] == Body(init);
      assert t[|t| - 5..] == ByteText(last);
      BodyParses(init);
      ByteTextParses(last);
      assert init + [last] == ba;
    }
  }

  /** The formatted text determines the bytes: `Parse` undoes `Formatted`. */
  lemma FormattedParses(ba: seq<byte>)
    ensures Parse(Formatted(ba)) == Some(ba)
  {
    var t := Formatted(ba);
    assert t[1..|t| - 1] == Body(ba);
    BodyParses(ba);
  }

  /** Different byte arrays never print the same. */
  lemma FormattedIsInjective(a: seq<byte>, b: seq<byte>)
    requires Formatted(a) == Formatted(b)
    ensures a == b
  {
    FormattedParses(a);
    FormattedParses(b);
  }
}
