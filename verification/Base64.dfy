/** Base64 with padding (section 4 of RFC 4648), as `base64.b64encode` writes it. */
module Base64 {
  import opened Json
  import opened Utf8

  predicate IsSymbol(c: char) {
    'A' <= c <= 'Z' || 'a' <= c <= 'z' || '0' <= c <= '9' || c == '+' || c == '/'
  }

  function Symbol(n: int): (c: char)
    requires 0 <= n < 64
    ensures IsSymbol(c)
  {
    if n < 26 then 'A' + n as char
    else if n < 52 then 'a' + (n - 26) as char
    else if n < 62 then '0' + (n - 52) as char
    else if n == 62 then '+'
    else '/'
  }

  function SymbolValue(c: char): (n: int)
    requires IsSymbol(c)
    ensures 0 <= n < 64
  {
    if 'A' <= c <= 'Z' then (c - 'A') as int
    else if 'a' <= c <= 'z' then (c - 'a') as int + 26
    else if '0' <= c <= '9' then (c - '0') as int + 52
    else if c == '+' then 62
    else 63
  }

  function Symbols(ns: seq<int>): string
    requires forall i :: 0 <= i < |ns| ==> 0 <= ns[i] < 64
  {
    seq(|ns|, i requires 0 <= i < |ns| => Symbol(ns[i]))
  }

  /** Three bytes as four six-bit numbers. */
  function Split(a: Byte, b: Byte, c: Byte): (ns: seq<int>)
    ensures |ns| == 4 && forall i :: 0 <= i < 4 ==> 0 <= ns[i] < 64
  {
    [a / 4, a % 4 * 16 + b / 16, b % 16 * 4 + c / 64, c % 64]
  }

  function Encode(b: seq<Byte>): string {
    if b == [] then ""
    else if |b| == 1 then var s := Symbols(Split(b[0], 0, 0)); [s[0], s[1], '=', '=']
    else if |b| == 2 then var s := Symbols(Split(b[0], b[1], 0)); [s[0], s[1], s[2], '=']
    else Symbols(Split(b[0], b[1], b[2])) + Encode(b[3..])
  }

  /** Four symbols as three bytes. */
  function Join(p: char, q: char, r: char, t: char): seq<Byte>
    requires IsSymbol(p) && IsSymbol(q) && IsSymbol(r) && IsSymbol(t)
  {
    [SymbolValue(p) * 4 + SymbolValue(q) / 16,
     SymbolValue(q) % 16 * 16 + SymbolValue(r) / 4,
     SymbolValue(r) % 4 * 64 + SymbolValue(t)]
  }

  /** Groups of four symbols; padding only at the end, over zero bits. */
  function Decode(s: string): Option<seq<Byte>> {
    if s == "" then Some([])
    else if |s| < 4 || !IsSymbol(s[0]) || !IsSymbol(s[1]) then None
    else if |s| == 4 && s[2] == '=' && s[3] == '=' then Some(Join(s[0], s[1], 'A', 'A')[..1])
    else if !IsSymbol(s[2]) then None
    else if |s| == 4 && s[3] == '=' then Some(Join(s[0], s[1], s[2], 'A')[..2])
    else if !IsSymbol(s[3]) then None
    else
      match Decode(s[4..])
      case None => None
      case Some(rest) => Some(Join(s[0], s[1], s[2], s[3]) + rest)
  }

  lemma SymbolInverts(n: int)
    requires 0 <= n < 64
    ensures SymbolValue(Symbol(n)) == n && Symbol(n) != '='
  {
  }

  lemma SixBits(a: Byte, b: Byte, c: Byte)
    ensures var ns := Split(a, b, c);
            && ns[0] * 4 + ns[1] / 16 == a
            && ns[1] % 16 * 16 + ns[2] / 4 == b
            && ns[2] % 4 * 64 + ns[3] == c
  {
  }

  lemma JoinInvertsSplit(a: Byte, b: Byte, c: Byte)
    ensures var s := Symbols(Split(a, b, c)); Join(s[0], s[1], s[2], s[3]) == [a, b, c]
  {
    hide Symbol, SymbolValue, Split, IsSymbol;
    var ns := Split(a, b, c);
    SymbolInverts(ns[0]);
    SymbolInverts(ns[1]);
    SymbolInverts(ns[2]);
    SymbolInverts(ns[3]);
    SixBits(a, b, c);
  }

  /** Decoding gives back every byte string. */
  lemma {:induction false} DecodeInvertsEncode(b: seq<Byte>)
    ensures Decode(Encode(b)) == Some(b)
  {
    hide Encode, Decode;
    if b == [] {
      NoByte();
    } else if |b| == 1 {
      OneByte(b[0]);
      assert b == [b[0]];
    } else if |b| == 2 {
      TwoBytes(b[0], b[1]);
      assert b == [b[0], b[1]];
    } else if |b| >= 3 {
      DecodeInvertsEncode(b[3..]);
      GroupDecodes(b);
      assert b == [b[0], b[1], b[2]] + b[3..];
    }
  }

  lemma OneByte(a: Byte)
    ensures Decode(Encode([a])) == Some([a])
  {
    var s := Symbols(Split(a, 0, 0));
    assert s[2] == s[3] == 'A' by { ZeroSymbol(); }
    JoinInvertsSplit(a, 0, 0);
    ZeroSymbol();
    hide Join, IsSymbol, Symbol, Split;
    assert Join(s[0], s[1], 'A', 'A')[..1] == [a];
  }

  lemma TwoBytes(a: Byte, b: Byte)
    ensures Decode(Encode([a, b])) == Some([a, b])
  {
    var s := Symbols(Split(a, b, 0));
    assert s[3] == 'A' by { ZeroSymbol(); }
    JoinInvertsSplit(a, b, 0);
    ZeroSymbol();
    hide Join, IsSymbol, Symbol, Split;
    assert Join(s[0], s[1], s[2], 'A')[..2] == [a, b];
  }

  lemma ZeroSymbol()
    ensures Symbol(0) == 'A' && IsSymbol('A') && !IsSymbol('=')
  {
  }

  lemma NoByte()
    ensures Decode(Encode([])) == Some([])
  {
  }

  lemma GroupDecodes(b: seq<Byte>)
    requires |b| >= 3
    requires Decode(Encode(b[3..])) == Some(b[3..])
    ensures Decode(Encode(b)) == Some([b[0], b[1], b[2]] + b[3..])
  {
    var s := Symbols(Split(b[0], b[1], b[2]));
    JoinInvertsSplit(b[0], b[1], b[2]);
    SymbolInverts(Split(b[0], b[1], b[2])[2]);
    SymbolInverts(Split(b[0], b[1], b[2])[3]);
    hide Join, Symbol, IsSymbol, SymbolValue, Split;
    assert (s + Encode(b[3..]))[4..] == Encode(b[3..]);
  }

  lemma {:induction false} EncodesToSymbols(b: seq<Byte>)
    ensures forall i :: 0 <= i < |Encode(b)| ==> IsSymbol(Encode(b)[i]) || Encode(b)[i] == '='
  {
    if |b| >= 3 {
      EncodesToSymbols(b[3..]);
    }
  }

  /** The alphabet of the standard, by code point: capitals, small letters, digits, plus,
      slash. */
  lemma SymbolExact(n: int)
    requires 0 <= n < 64
    ensures Symbol(n) as int ==
            if n < 26 then 65 + n else if n < 52 then 97 + n - 26 else if n < 62 then 48 + n - 52 else if n == 62 then 43 else 47
  {
  }

  /** Three bytes are one number of 24 bits, cut into four of 6. */
  lemma SplitExact(a: Byte, b: Byte, c: Byte)
    ensures var ns := Split(a, b, c);
            ((ns[0] * 64 + ns[1]) * 64 + ns[2]) * 64 + ns[3] == (a * 256 + b) * 256 + c
  {
  }

  /** Whole groups of four, the last one padded for the bytes that are missing. */
  lemma {:induction false} EncodedShape(b: seq<Byte>)
    ensures |Encode(b)| == (|b| + 2) / 3 * 4
    ensures forall i :: 0 <= i < |Encode(b)| ==> (Encode(b)[i] == '=' <==> |Encode(b)| - i <= (3 - |b| % 3) % 3)
  {
    hide Symbol, Split, IsSymbol;
    if |b| > 0 {
      SymbolsAreNotPadding();
    }
    if |b| >= 3 {
      EncodedShape(b[3..]);
      assert |b[3..]| % 3 == |b| % 3;
    }
  }

  lemma SymbolsAreNotPadding()
    ensures forall n :: 0 <= n < 64 ==> Symbol(n) != '='
  {
  }
}
