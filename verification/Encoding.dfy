/** Text and byte encodings: UTF-8, lower-case hexadecimal, and base64 with the
    standard and the URL-safe alphabet (sections 4 and 5 of RFC 4648). */
module Encoding {
  import opened Base
  import opened Text

  // ---- UTF-8 --------------------------------------------------------------------------

  predicate IsAscii(s: string) { forall c :: c in s ==> c as int < 128 }

  function Utf8Char(c: char): Bytes {
    var n := c as int;
    if n < 0x80 then [n as Byte]
    else if n < 0x800 then [(0xC0 + n / 0x40) as Byte, (0x80 + n % 0x40) as Byte]
    else if n < 0x10000 then
      [(0xE0 + n / 0x1000) as Byte, (0x80 + n / 0x40 % 0x40) as Byte, (0x80 + n % 0x40) as Byte]
    else
      [(0xF0 + n / 0x40000) as Byte, (0x80 + n / 0x1000 % 0x40) as Byte,
       (0x80 + n / 0x40 % 0x40) as Byte, (0x80 + n % 0x40) as Byte]
  }

  function Utf8(s: string): Bytes {
    if s == [] then [] else Utf8Char(s[0]) + Utf8(s[1..])
  }

  lemma {:induction false} Utf8OfAscii(s: string)
    requires IsAscii(s)
    ensures |Utf8(s)| == |s| && forall i :: 0 <= i < |s| ==> Utf8(s)[i] as int == s[i] as int
  {
    if s != [] {
      assert s[0] in s;
      forall c | c in s[1..] ensures c as int < 128 { assert c in s; }
      Utf8OfAscii(s[1..]);
    }
  }

  lemma {:induction false} Utf8Append(a: string, b: string)
    ensures Utf8(a + b) == Utf8(a) + Utf8(b)
  {
    if a == [] {
      assert a + b == b;
    } else {
      assert (a + b)[1..] == a[1..] + b;
      Utf8Append(a[1..], b);
    }
  }

  lemma AsciiInjective(a: string, b: string)
    requires IsAscii(a) && IsAscii(b) && Utf8(a) == Utf8(b)
    ensures a == b
  {
    Utf8OfAscii(a);
    Utf8OfAscii(b);
    forall i | 0 <= i < |a| ensures a[i] == b[i] {
      assert Utf8(a)[i] as int == a[i] as int && Utf8(b)[i] as int == b[i] as int;
    }
  }

  // ---- hexadecimal ---------------------------------------------------------------------

  function HexDigit(d: nat): char
    requires d < 16
  {
    if d < 10 then ('0' as int + d) as char else ('a' as int + d - 10) as char
  }

  predicate IsHexChar(c: char) { '0' <= c <= '9' || 'a' <= c <= 'f' || 'A' <= c <= 'F' }

  function LowerChar(c: char): char { if 'A' <= c <= 'Z' then (c as int + 32) as char else c }

  function Lower(s: string): string { seq(|s|, i requires 0 <= i < |s| => LowerChar(s[i])) }

  function Hex(b: Bytes): (s: string)
    ensures |s| == 2 * |b|
    ensures forall c :: c in s ==> IsHexChar(c) && LowerChar(c) == c
  {
    if b == [] then "" else [HexDigit(b[0] as nat / 16), HexDigit(b[0] as nat % 16)] + Hex(b[1..])
  }

  lemma {:induction false} HexInjective(a: Bytes, b: Bytes)
    requires Hex(a) == Hex(b)
    ensures a == b
  {
    assert |a| == |b|;
    if a != [] {
      assert Hex(a)[0] == HexDigit(a[0] as nat / 16) && Hex(a)[1] == HexDigit(a[0] as nat % 16);
      assert Hex(b)[0] == HexDigit(b[0] as nat / 16) && Hex(b)[1] == HexDigit(b[0] as nat % 16);
      assert Hex(a)[2..] == Hex(a[1..]) && Hex(b)[2..] == Hex(b[1..]);
      HexInjective(a[1..], b[1..]);
    }
  }

  // ---- base64 ------------------------------------------------------------------------------

  function Symbol(v: nat): (c: char)
    requires v < 64
    ensures Value(c) == Some(v) && c != '='
  {
    if v < 26 then ('A' as int + v) as char
    else if v < 52 then ('a' as int + v - 26) as char
    else if v < 62 then ('0' as int + v - 52) as char
    else if v == 62 then '+' else '/'
  }

  function Value(c: char): (v: Option<nat>)
    ensures v.Some? ==> v.value < 64
  {
    if 'A' <= c <= 'Z' then Some(c as int - 'A' as int)
    else if 'a' <= c <= 'z' then Some(c as int - 'a' as int + 26)
    else if '0' <= c <= '9' then Some(c as int - '0' as int + 52)
    else if c == '+' then Some(62)
    else if c == '/' then Some(63)
    else None
  }

  /** The symbols without padding. */
  function Base64Data(b: Bytes): string {
    if |b| == 0 then ""
    else if |b| == 1 then [Symbol(b[0] as nat / 4), Symbol(b[0] as nat % 4 * 16)]
    else if |b| == 2 then
      [Symbol(b[0] as nat / 4), Symbol(b[0] as nat % 4 * 16 + b[1] as nat / 16), Symbol(b[1] as nat % 16 * 4)]
    else
      [Symbol(b[0] as nat / 4), Symbol(b[0] as nat % 4 * 16 + b[1] as nat / 16),
       Symbol(b[1] as nat % 16 * 4 + b[2] as nat / 64), Symbol(b[2] as nat % 64)] + Base64Data(b[3..])
  }

  lemma {:induction false} DataSymbols(b: Bytes)
    ensures forall i :: 0 <= i < |Base64Data(b)| ==> Value(Base64Data(b)[i]).Some?
    decreases |b|
  {
    if |b| > 2 { DataSymbols(b[3..]); }
  }

  lemma {:induction false} DataLength(b: Bytes)
    ensures |Base64Data(b)| == |b| / 3 * 4 + (if |b| % 3 == 0 then 0 else |b| % 3 + 1)
    decreases |b|
  {
    if |b| > 2 { DataLength(b[3..]); }
  }

  function Repeat(c: char, n: nat): (s: string)
    ensures |s| == n && forall i :: 0 <= i < n ==> s[i] == c
  {
    seq(n, i => c)
  }

  /** Padding to a multiple of four. */
  function Padded(s: string): (r: string)
    ensures |r| % 4 == 0 && s <= r
  {
    s + Repeat('=', (4 - |s| % 4) % 4)
  }

  function Base64(b: Bytes): string { Padded(Base64Data(b)) }

  function ToUrl(s: string): string {
    seq(|s|, i requires 0 <= i < |s| => if s[i] == '+' then '-' else if s[i] == '/' then '_' else s[i])
  }

  function FromUrl(s: string): string {
    seq(|s|, i requires 0 <= i < |s| => if s[i] == '-' then '+' else if s[i] == '_' then '/' else s[i])
  }

  function Base64Url(b: Bytes): string { ToUrl(Base64(b)) }

  /** The bytes of one group of symbols. */
  function Triple(v0: nat, v1: nat, v2: nat, v3: nat): Bytes
    requires v0 < 64 && v1 < 64 && v2 < 64 && v3 < 64
  {
    [(v0 * 4 + v1 / 16) as Byte, (v1 % 16 * 16 + v2 / 4) as Byte, (v2 % 4 * 64 + v3) as Byte]
  }

  /** Strict decoding: groups of four symbols, the last one possibly padded. */
  function Base64Decode(s: string): Option<Bytes> {
    if s == [] then Some([])
    else if |s| < 4 || Value(s[0]).None? || Value(s[1]).None? then None
    else
      var v0, v1 := Value(s[0]).value, Value(s[1]).value;
      if |s| == 4 && s[2] == '=' && s[3] == '=' then Some([(v0 * 4 + v1 / 16) as Byte])
      else if Value(s[2]).None? then None
      else
        var v2 := Value(s[2]).value;
        if |s| == 4 && s[3] == '=' then Some([(v0 * 4 + v1 / 16) as Byte, (v1 % 16 * 16 + v2 / 4) as Byte])
        else if Value(s[3]).None? then None
        else
          var rest := Base64Decode(s[4..]);
          if rest.None? then None else Some(Triple(v0, v1, v2, Value(s[3]).value) + rest.value)
  }

  lemma PaddedGroup(a: string, b: string)
    requires |a| % 4 == 0
    ensures Padded(a + b) == a + Padded(b)
  {
    assert (|a| + |b|) % 4 == |b| % 4;
  }

  lemma GroupRoundTrip(x: Byte, y: Byte, z: Byte)
    ensures Triple(x as nat / 4, x as nat % 4 * 16 + y as nat / 16, y as nat % 16 * 4 + z as nat / 64, z as nat % 64)
         == [x, y, z]
  {
  }

  lemma OneByte(x: Byte)
    ensures Base64([x]) == [Symbol(x as nat / 4), Symbol(x as nat % 4 * 16), '=', '=']
    ensures Base64Decode(Base64([x])) == Some([x])
  {
    assert Repeat('=', 2) == ['=', '='];
    assert Base64Data([x]) == [Symbol(x as nat / 4), Symbol(x as nat % 4 * 16)];
  }

  lemma TwoBytes(x: Byte, y: Byte)
    ensures Base64([x, y]) ==
              [Symbol(x as nat / 4), Symbol(x as nat % 4 * 16 + y as nat / 16), Symbol(y as nat % 16 * 4), '=']
    ensures Base64Decode(Base64([x, y])) == Some([x, y])
  {
    assert Repeat('=', 1) == ['='];
  }

  lemma ThreeBytes(x: Byte, y: Byte, z: Byte, rest: Bytes)
    ensures Base64([x, y, z] + rest) ==
              [Symbol(x as nat / 4), Symbol(x as nat % 4 * 16 + y as nat / 16),
               Symbol(y as nat % 16 * 4 + z as nat / 64), Symbol(z as nat % 64)] + Base64(rest)
  {
    var b := [x, y, z] + rest;
    assert b[3..] == rest;
    PaddedGroup(
      [Symbol(x as nat / 4), Symbol(x as nat % 4 * 16 + y as nat / 16),
       Symbol(y as nat % 16 * 4 + z as nat / 64), Symbol(z as nat % 64)], Base64Data(rest));
  }

  /** A full group decodes on its own. */
  lemma DecodeGroup(v0: nat, v1: nat, v2: nat, v3: nat, rest: string)
    requires v0 < 64 && v1 < 64 && v2 < 64 && v3 < 64 && Base64Decode(rest).Some?
    ensures Base64Decode([Symbol(v0), Symbol(v1), Symbol(v2), Symbol(v3)] + rest)
         == Some(Triple(v0, v1, v2, v3) + Base64Decode(rest).value)
  {
    var s := [Symbol(v0), Symbol(v1), Symbol(v2), Symbol(v3)] + rest;
    assert s[4..] == rest;
  }

  /** Decoding undoes encoding. */
  lemma {:induction false} Base64RoundTrip(b: Bytes)
    ensures Base64Decode(Base64(b)) == Some(b)
    decreases |b|
  {
    if |b| == 0 {
      assert Base64(b) == "";
    } else if |b| == 1 {
      OneByte(b[0]);
      assert b == [b[0]];
    } else if |b| == 2 {
      TwoBytes(b[0], b[1]);
      assert b == [b[0], b[1]];
    } else {
      var x, y, z, rest := b[0], b[1], b[2], b[3..];
      assert b == [x, y, z] + rest;
      ThreeBytes(x, y, z, rest);
      Base64RoundTrip(rest);
      DecodeGroup(x as nat / 4, x as nat % 4 * 16 + y as nat / 16, y as nat % 16 * 4 + z as nat / 64,
                  z as nat % 64, Base64(rest));
      GroupRoundTrip(x, y, z);
    }
  }

  /** Only symbols and padding decode. */
  lemma {:induction false} DecodesAlphabet(s: string)
    requires Base64Decode(s).Some?
    ensures forall c :: c in s ==> Value(c).Some? || c == '='
    decreases |s|
  {
    if s != [] {
      if |s| > 4 { DecodesAlphabet(s[4..]); }
      assert s == s[..4] + s[4..];
      assert s[..4] == [s[0], s[1], s[2], s[3]];
    }
  }

  lemma Base64Chars(b: Bytes)
    ensures forall c :: c in Base64(b) ==> Value(c).Some? || c == '='
  {
    DataSymbols(b);
    var data := Base64Data(b);
    forall c | c in Base64(b) ensures Value(c).Some? || c == '=' {
      var i :| 0 <= i < |Base64(b)| && Base64(b)[i] == c;
      if i < |data| { assert Base64(b)[i] == data[i]; }
    }
  }

  /** The URL-safe form read with the standard alphabet either fails or, having
      no special symbol, is the standard form; translated it always is. */
  lemma UrlForm(b: Bytes)
    ensures FromUrl(Base64Url(b)) == Base64(b)
    ensures Base64Decode(Base64Url(b)).Some? ==> Base64Url(b) == Base64(b)
  {
    var s, u := Base64(b), Base64Url(b);
    Base64Chars(b);
    forall i | 0 <= i < |s| ensures FromUrl(u)[i] == s[i] { assert s[i] in s; }
    if Base64Decode(u).Some? {
      DecodesAlphabet(u);
      forall i | 0 <= i < |s| ensures u[i] == s[i] { assert u[i] in u; }
    }
  }
}
