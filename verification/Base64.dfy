/** The standard Base64 alphabet with padding, section 4 of RFC 4648. */
module Base64 {

  import opened Wrappers

  type Byte = n: nat | n < 256

  function Symbol(i: nat): char
    requires i < 64
  {
    if i < 26 then 'A' + i as char
    else if i < 52 then 'a' + (i - 26) as char
    else if i < 62 then '0' + (i - 52) as char
    else if i == 62 then '+' else '/'
  }

  function Digit(c: char): Option<nat> {
    if 'A' <= c <= 'Z' then Some(c as nat - 'A' as nat)
    else if 'a' <= c <= 'z' then Some(c as nat - 'a' as nat + 26)
    else if '0' <= c <= '9' then Some(c as nat - '0' as nat + 52)
    else if c == '+' then Some(62)
    else if c == '/' then Some(63)
    else None
  }

  function Encode(bytes: seq<Byte>): string {
    if bytes == [] then ""
    else if |bytes| == 1 then [Symbol(bytes[0] / 4), Symbol(bytes[0] % 4 * 16), '=', '=']
    else if |bytes| == 2 then
      [Symbol(bytes[0] / 4), Symbol(bytes[0] % 4 * 16 + bytes[1] / 16), Symbol(bytes[1] % 16 * 4), '=']
    else
      [Symbol(bytes[0] / 4), Symbol(bytes[0] % 4 * 16 + bytes[1] / 16),
       Symbol(bytes[1] % 16 * 4 + bytes[2] / 64), Symbol(bytes[2] % 64)] + Encode(bytes[3..])
  }

  /** The bytes of one group of four symbols; padding may only end the text. */
  function DecodeGroup(a: char, b: char, c: char, d: char, last: bool): Option<seq<Byte>> {
    if Digit(a).None? || Digit(b).None? then None
    else
      var x, y := Digit(a).value, Digit(b).value;
      if x >= 64 || y >= 64 then None
      else if c == '=' then (if d == '=' && last then Some([x * 4 + y / 16]) else None)
      else if Digit(c).None? || Digit(c).value >= 64 then None
      else
        var z := Digit(c).value;
        if d == '=' then (if last then Some([x * 4 + y / 16, y % 16 * 16 + z / 4]) else None)
        else if Digit(d).None? || Digit(d).value >= 64 then None
        else Some([x * 4 + y / 16, y % 16 * 16 + z / 4, z % 4 * 64 + Digit(d).value])
  }

  function Decode(text: string): Option<seq<Byte>>
    decreases |text|
  {
    if text == "" then Some([])
    else if |text| < 4 then None
    else
      var group, rest := DecodeGroup(text[0], text[1], text[2], text[3], |text| == 4), Decode(text[4..]);
      if group.None? || rest.None? then None else Some(group.value + rest.value)
  }

  lemma DigitOfSymbol(i: nat)
    requires i < 64
    ensures Digit(Symbol(i)) == Some(i) && Symbol(i) != '='
  {}

  lemma OneByte(x: Byte)
    ensures DecodeGroup(Symbol(x / 4), Symbol(x % 4 * 16), '=', '=', true) == Some([x])
  {
    DigitOfSymbol(x / 4);
    DigitOfSymbol(x % 4 * 16);
    assert x / 4 * 4 + x % 4 * 16 / 16 == x;
  }

  lemma TwoBytes(x: Byte, y: Byte)
    ensures DecodeGroup(Symbol(x / 4), Symbol(x % 4 * 16 + y / 16), Symbol(y % 16 * 4), '=', true) == Some([x, y])
  {
    var b, c := x % 4 * 16 + y / 16, y % 16 * 4;
    DigitOfSymbol(x / 4);
    DigitOfSymbol(b);
    DigitOfSymbol(c);
    assert x / 4 * 4 + b / 16 == x;
    assert b % 16 * 16 + c / 4 == y;
  }

  lemma ThreeBytes(x: Byte, y: Byte, z: Byte, last: bool)
    ensures DecodeGroup(Symbol(x / 4), Symbol(x % 4 * 16 + y / 16), Symbol(y % 16 * 4 + z / 64), Symbol(z % 64), last) == Some([x, y, z])
  {
    var b, c, d := x % 4 * 16 + y / 16, y % 16 * 4 + z / 64, z % 64;
    DigitOfSymbol(x / 4);
    DigitOfSymbol(b);
    DigitOfSymbol(c);
    DigitOfSymbol(d);
    assert x / 4 * 4 + b / 16 == x;
    assert b % 16 * 16 + c / 4 == y;
    assert c % 4 * 64 + d == z;
  }

  lemma {:induction false} RoundTrip(bytes: seq<Byte>)
    ensures Decode(Encode(bytes)) == Some(bytes)
    decreases |bytes|
  {
    hide DecodeGroup, Symbol, Digit;
    if bytes != [] {
      var text := Encode(bytes);
      if |bytes| == 1 {
        OneByte(bytes[0]);
        assert text[4..] == "" && [bytes[0]] + [] == bytes;
      } else if |bytes| == 2 {
        TwoBytes(bytes[0], bytes[1]);
        assert text[4..] == "" && [bytes[0], bytes[1]] + [] == bytes;
      } else {
        ThreeBytes(bytes[0], bytes[1], bytes[2], |text| == 4);
        RoundTrip(bytes[3..]);
        assert text[4..] == Encode(bytes[3..]);
        assert bytes == [bytes[0], bytes[1], bytes[2]] + bytes[3..];
      }
    }
  }
}
