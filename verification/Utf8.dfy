/** UTF-8 (section 3 of RFC 3629), as `str.encode("utf-8")` writes it, with a strict
    decoder. */
module Utf8 {
  import opened Json

  type Byte = n: int | 0 <= n < 256

  function EncodeChar(c: char): seq<Byte> {
    var n := c as int;
    if n < 0x80 then [n]
    else if n < 0x800 then [0xc0 + n / 64, 0x80 + n % 64]
    else if n < 0x10000 then [0xe0 + n / 4096, 0x80 + n / 64 % 64, 0x80 + n % 64]
    else [0xf0 + n / 262144, 0x80 + n / 4096 % 64, 0x80 + n / 64 % 64, 0x80 + n % 64]
  }

  function Encode(s: string): (b: seq<Byte>)
    ensures |b| >= |s|
  {
    if s == "" then [] else EncodeChar(s[0]) + Encode(s[1..])
  }

  predicate Continues(b: Byte) {
    0x80 <= b < 0xc0
  }

  /** The bits of a byte under its marker. */
  function Payload(b: Byte, marker: int): int {
    b as int - marker
  }

  /** The code point at the front and the number of bytes it takes; no overlong form,
      no surrogate, nothing beyond U+10FFFF. */
  function DecodeChar(b: seq<Byte>): Option<(char, nat)> {
    if b == [] then None
    else if b[0] < 0x80 then Some((b[0] as char, 1))
    else if |b| >= 2 && 0xc0 <= b[0] < 0xe0 && Continues(b[1]) then
      var n := Payload(b[0], 0xc0) * 64 + Payload(b[1], 0x80);
      if n < 0x80 then None else Some((n as char, 2))
    else if |b| >= 3 && 0xe0 <= b[0] < 0xf0 && Continues(b[1]) && Continues(b[2]) then
      var n := Payload(b[0], 0xe0) * 4096 + Payload(b[1], 0x80) * 64 + Payload(b[2], 0x80);
      if n < 0x800 || 0xd800 <= n < 0xe000 then None else Some((n as char, 3))
    else if |b| >= 4 && 0xf0 <= b[0] < 0xf8 && Continues(b[1]) && Continues(b[2]) && Continues(b[3]) then
      var n := Payload(b[0], 0xf0) * 262144 + Payload(b[1], 0x80) * 4096 + Payload(b[2], 0x80) * 64 + Payload(b[3], 0x80);
      if n < 0x10000 || n >= 0x110000 then None else Some((n as char, 4))
    else None
  }

  function Decode(b: seq<Byte>): Option<string> {
    if b == [] then Some("")
    else
      match DecodeChar(b)
      case None => None
      case Some((c, n)) =>
        if n == 0 || n > |b| then None
        else
          match Decode(b[n..])
          case None => None
          case Some(s) => Some([c] + s)
  }

  lemma CharDecodes(c: char, rest: seq<Byte>)
    ensures DecodeChar(EncodeChar(c) + rest) == Some((c, |EncodeChar(c)|))
  {
    var n := c as int;
    if 0x800 <= n < 0x10000 {
      ThreeDigits(n);
    } else if n >= 0x10000 {
      FourDigits(n);
    }
  }

  lemma ThreeDigits(n: nat)
    ensures n / 4096 * 4096 + n / 64 % 64 * 64 + n % 64 == n
  {
    assert n / 64 / 64 == n / 4096;
    assert n / 64 == n / 64 / 64 * 64 + n / 64 % 64;
  }

  lemma FourDigits(n: nat)
    ensures n / 262144 * 262144 + n / 4096 % 64 * 4096 + n / 64 % 64 * 64 + n % 64 == n
  {
    ThreeDigits(n);
    assert n / 4096 / 64 == n / 262144;
    assert n / 4096 == n / 4096 / 64 * 64 + n / 4096 % 64;
  }

  lemma {:induction false} DecodeInvertsEncode(s: string)
    ensures Decode(Encode(s)) == Some(s)
  {
    if s != "" {
      hide EncodeChar, DecodeChar;
      var rest := Encode(s[1..]);
      CharDecodes(s[0], rest);
      CharNotEmpty(s[0]);
      DecodeInvertsEncode(s[1..]);
      assert (EncodeChar(s[0]) + rest)[|EncodeChar(s[0])|..] == rest;
      assert [s[0]] + s[1..] == s;
    }
  }

  lemma CharNotEmpty(c: char)
    ensures 1 <= |EncodeChar(c)| <= 4
  {
  }
}
