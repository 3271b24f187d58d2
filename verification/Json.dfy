/** JSON values, the text `json.dumps` writes for them, and the reader behind
    `json.loads` and `raw_decode`.

    A Python dict is a sequence of fields in insertion order. Numbers are
    integers. Text is a sequence of Unicode scalar values. */
module Json {

  datatype Option<+T> = None | Some(value: T)

  datatype Field = Field(key: string, value: Json)

  datatype Json =
    | Null
    | Bool(b: bool)
    | Int(n: int)
    | Str(s: string)
    | Arr(items: seq<Json>)
    | Obj(fields: seq<Field>)

  /** The options of `json.dumps` that the program varies. */
  datatype Style = Style(ascii: bool, spaced: bool)

  // separators=(",", ":"), ensure_ascii=False
  const COMPACT := Style(false, false)
  // separators=(",", ":"), ensure_ascii=True
  const COMPACT_ASCII := Style(true, false)
  // plain json.dumps
  const DEFAULT := Style(true, true)

  predicate DistinctKeys(fs: seq<Field>) {
    forall i, j :: 0 <= i < j < |fs| ==> fs[i].key != fs[j].key
  }

  /** A value Python can hold: no dict has a key twice. */
  predicate WellFormed(j: Json)
    decreases j, 1
  {
    match j
    case Arr(items) => forall i :: 0 <= i < |items| ==> WellFormed(items[i])
    case Obj(fields) => DistinctKeys(fields) && forall i :: 0 <= i < |fields| ==> WellFormed(fields[i].value)
    case _ => true
  }

  // ---------------------------------------------------------------- integers

  function Digit(n: nat): char
    requires n < 10
  {
    '0' + n as char
  }

  predicate IsDigit(c: char) {
    '0' <= c <= '9'
  }

  function DigitValue(c: char): nat
    requires IsDigit(c)
  {
    (c - '0') as int
  }

  function Decimal(n: nat): string {
    if n < 10 then [Digit(n)] else Decimal(n / 10) + [Digit(n % 10)]
  }

  function DecimalInt(n: int): string {
    if n < 0 then "-" + Decimal(-n) else Decimal(n)
  }

  function DigitPrefix(s: string): (n: nat)
    ensures n <= |s|
    ensures forall i :: 0 <= i < n ==> IsDigit(s[i])
  {
    if s == "" || !IsDigit(s[0]) then 0 else 1 + DigitPrefix(s[1..])
  }

  function DecimalValue(s: string): nat
    requires forall i :: 0 <= i < |s| ==> IsDigit(s[i])
  {
    if s == "" then 0 else 10 * DecimalValue(s[..|s| - 1]) + DigitValue(s[|s| - 1])
  }

  // -------------------------------------------------------------- characters

  function HexDigit(n: nat): char
    requires n < 16
  {
    if n < 10 then '0' + n as char else 'a' + (n - 10) as char
  }

  function Hex4(n: nat): string
    requires n < 0x10000
  {
    [HexDigit(n / 4096), HexDigit(n / 256 % 16), HexDigit(n / 16 % 16), HexDigit(n % 16)]
  }

  predicate IsHex(c: char) {
    '0' <= c <= '9' || 'a' <= c <= 'f' || 'A' <= c <= 'F'
  }

  function HexValue(c: char): (n: nat)
    requires IsHex(c)
    ensures n < 16
  {
    if '0' <= c <= '9' then (c - '0') as int
    else if 'a' <= c <= 'f' then (c - 'a') as int + 10
    else (c - 'A') as int + 10
  }

  /** One UTF-16 code unit as `\uXXXX`. */
  function Unit(n: nat): string
    requires n < 0x10000
  {
    "\\u" + Hex4(n)
  }

  /** The letter of a two-character escape, for the characters that have one. */
  function ShortEscape(c: char): Option<char> {
    match c
    case '\"' => Some('\"')
    case '\\' => Some('\\')
    case '\n' => Some('n')
    case '\r' => Some('r')
    case '\t' => Some('t')
    case '\U{0c}' => Some('f')
    case '\U{08}' => Some('b')
    case _ => None
  }

  function Escape(ascii: bool, c: char): string {
    match ShortEscape(c)
    case Some(letter) => ['\\', letter]
    case None =>
      if c < ' ' || (ascii && c > '~') then Units(c) else [c]
  }

  /** A character as one UTF-16 unit or as a surrogate pair. */
  function Units(c: char): string {
    if c as int < 0x10000 then Unit(c as int)
    else Unit(0xd800 + (c as int - 0x10000) / 0x400) + Unit(0xdc00 + (c as int - 0x10000) % 0x400)
  }

  function EscapeAll(ascii: bool, s: string): string {
    if s == "" then "" else Escape(ascii, s[0]) + EscapeAll(ascii, s[1..])
  }

  function Quote(ascii: bool, s: string): string {
    "\"" + EscapeAll(ascii, s) + "\""
  }

  // ----------------------------------------------------------------- printing

  function ItemSeparator(st: Style): string {
    if st.spaced then ", " else ","
  }

  function KeySeparator(st: Style): string {
    if st.spaced then ": " else ":"
  }

  function Print(st: Style, j: Json): string
    decreases j, 1
  {
    match j
    case Null => "null"
    case Bool(b) => if b then "true" else "false"
    case Int(n) => DecimalInt(n)
    case Str(s) => Quote(st.ascii, s)
    case Arr(items) => "[" + PrintItems(st, items) + "]"
    case Obj(fields) => "{" + PrintFields(st, fields) + "}"
  }

  function PrintItems(st: Style, items: seq<Json>): string
    decreases items, 0
  {
    if items == [] then ""
    else Print(st, items[0]) + (if |items| == 1 then "" else ItemSeparator(st) + PrintItems(st, items[1..]))
  }

  function PrintFields(st: Style, fields: seq<Field>): string
    decreases fields, 0
  {
    if fields == [] then ""
    else
      PrintField(st, fields[0]) + (if |fields| == 1 then "" else ItemSeparator(st) + PrintFields(st, fields[1..]))
  }

  function PrintField(st: Style, f: Field): string
    decreases f, 0
  {
    Quote(st.ascii, f.key) + KeySeparator(st) + Print(st, f.value)
  }

  // ------------------------------------------------------------------ reading

  /** What a scanner returns: a value and the text after it, or a failure. */
  datatype Scan<+T> = Fail | Got(value: T, rest: string)

  function SkipSpace(s: string): (r: string)
    ensures |r| <= |s|
  {
    if s != "" && (s[0] == ' ' || s[0] == '\t' || s[0] == '\n' || s[0] == '\r') then SkipSpace(s[1..]) else s
  }

  function ReadUnit(s: string): (r: Scan<nat>)
    ensures r.Got? ==> |r.rest| < |s| && r.value < 0x10000
  {
    if |s| >= 4 && IsHex(s[0]) && IsHex(s[1]) && IsHex(s[2]) && IsHex(s[3]) then
      Got(4096 * HexValue(s[0]) + 256 * HexValue(s[1]) + 16 * HexValue(s[2]) + HexValue(s[3]), s[4..])
    else Fail
  }

  /** The character after `\u`: one unit, or a surrogate pair. An unpaired
      surrogate is no Unicode scalar value and is not modelled. */
  function ReadUnicode(s: string): (r: Scan<char>)
    ensures r.Got? ==> |r.rest| < |s|
  {
    match ReadUnit(s)
    case Fail => Fail
    case Got(hi, rest) =>
      if hi < 0xd800 || hi >= 0xe000 then Got(hi as char, rest)
      else if hi < 0xdc00 && |rest| >= 2 && rest[0] == '\\' && rest[1] == 'u' then
        match ReadUnit(rest[2..])
        case Fail => Fail
        case Got(lo, rest') =>
          if 0xdc00 <= lo < 0xe000 then Got((0x10000 + 0x400 * (hi - 0xd800) + (lo - 0xdc00)) as char, rest') else Fail
      else Fail
  }

  function Unescape(letter: char): Option<char> {
    match letter
    case '\"' => Some('\"')
    case '\\' => Some('\\')
    case '/' => Some('/')
    case 'b' => Some('\U{08}')
    case 'f' => Some('\U{0c}')
    case 'n' => Some('\n')
    case 'r' => Some('\r')
    case 't' => Some('\t')
    case _ => None
  }

  /** One character of a string body, escapes undone. */
  function ReadChar(s: string): (r: Scan<char>)
    ensures r.Got? ==> |r.rest| < |s|
  {
    if s == "" || s[0] < ' ' || s[0] == '\"' then Fail
    else if s[0] != '\\' then Got(s[0], s[1..])
    else if |s| < 2 then Fail
    else if s[1] == 'u' then ReadUnicode(s[2..])
    else
      match Unescape(s[1])
      case None => Fail
      case Some(c) => Got(c, s[2..])
  }

  /** The body of a string, up to and including the closing quote. */
  function ReadString(s: string): (r: Scan<string>)
    ensures r.Got? ==> |r.rest| < |s|
    decreases |s|
  {
    if s != "" && s[0] == '\"' then Got("", s[1..])
    else
      match ReadChar(s)
      case Fail => Fail
      case Got(c, rest) =>
        match ReadString(rest)
        case Fail => Fail
        case Got(t, rest') => Got([c] + t, rest')
  }

  function ReadNat(s: string): (r: Scan<nat>)
    ensures r.Got? ==> |r.rest| < |s|
  {
    var n := DigitPrefix(s);
    var k := if n > 0 && s[0] == '0' then 1 else n;
    if k == 0 then Fail
    // A fraction or an exponent makes a float, which is not modelled.
    else if k < |s| && (s[k] == '.' || s[k] == 'e' || s[k] == 'E') then Fail
    else Got(DecimalValue(s[..k]), s[k..])
  }

  /** `scan_once`: one value at the start of the text. */
  function Read(s: string): (r: Scan<Json>)
    ensures r.Got? ==> |r.rest| < |s|
    decreases |s|, 0
  {
    if s == "" then Fail
    else
      match s[0]
      case '\"' => ReadStr(s[1..])
      case '[' => ReadArr(SkipSpace(s[1..]))
      case '{' => ReadObj(SkipSpace(s[1..]))
      case 'n' => if "null" <= s then Got(Null, s[4..]) else Fail
      case 't' => if "true" <= s then Got(Bool(true), s[4..]) else Fail
      case 'f' => if "false" <= s then Got(Bool(false), s[5..]) else Fail
      case '-' => ReadInt(-1, s[1..])
      case _ => ReadInt(1, s)
  }

  function ReadInt(sign: int, s: string): (r: Scan<Json>)
    ensures r.Got? ==> |r.rest| < |s|
  {
    match ReadNat(s)
    case Fail => Fail
    case Got(n, rest) => Got(Int(sign * n), rest)
  }

  function ReadStr(s: string): (r: Scan<Json>)
    ensures r.Got? ==> |r.rest| < |s|
  {
    match ReadString(s)
    case Fail => Fail
    case Got(t, rest) => Got(Str(t), rest)
  }

  /** An array after its opening bracket and blanks. */
  function ReadArr(s: string): (r: Scan<Json>)
    ensures r.Got? ==> |r.rest| < |s|
    decreases |s|, 2
  {
    if s != "" && s[0] == ']' then Got(Arr([]), s[1..])
    else
      match ReadItems(s)
      case Fail => Fail
      case Got(items, rest) => Got(Arr(items), rest)
  }

  /** An object after its opening brace and blanks. */
  function ReadObj(s: string): (r: Scan<Json>)
    ensures r.Got? ==> |r.rest| < |s|
    decreases |s|, 2
  {
    if s != "" && s[0] == '}' then Got(Obj([]), s[1..])
    else
      match ReadFields(s)
      case Fail => Fail
      case Got(fields, rest) => Got(Obj(ToDict(fields)), rest)
  }

  /** The items of a non-empty array, through the closing bracket. */
  function ReadItems(s: string): (r: Scan<seq<Json>>)
    ensures r.Got? ==> |r.rest| < |s|
    decreases |s|, 1
  {
    match Read(s)
    case Fail => Fail
    case Got(j, rest) =>
      var t := SkipSpace(rest);
      if t == "" then Fail
      else if t[0] == ']' then Got([j], t[1..])
      else if t[0] != ',' then Fail
      else
        match ReadItems(SkipSpace(t[1..]))
        case Fail => Fail
        case Got(js, rest') => Got([j] + js, rest')
  }

  /** The fields of a non-empty object in text order, through the closing brace. */
  function ReadFields(s: string): (r: Scan<seq<Field>>)
    ensures r.Got? ==> |r.rest| < |s|
    decreases |s|, 1
  {
    if s == "" || s[0] != '\"' then Fail
    else
      match ReadString(s[1..])
      case Fail => Fail
      case Got(key, rest) =>
        var t := SkipSpace(rest);
        if t == "" || t[0] != ':' then Fail
        else
          match Read(SkipSpace(t[1..]))
          case Fail => Fail
          case Got(value, rest') =>
            var u := SkipSpace(rest');
            if u == "" then Fail
            else if u[0] == '}' then Got([Field(key, value)], u[1..])
            else if u[0] != ',' then Fail
            else
              match ReadFields(SkipSpace(u[1..]))
              case Fail => Fail
              case Got(fs, rest'') => Got([Field(key, value)] + fs, rest'')
  }

  /** Building a dict from pairs: a repeated key keeps its first position and its
      last value. */
  function ToDict(fs: seq<Field>): seq<Field> {
    if fs == [] then [] else Put(ToDict(fs[..|fs| - 1]), fs[|fs| - 1])
  }

  function Put(fs: seq<Field>, f: Field): seq<Field> {
    if fs == [] then [f]
    else if fs[0].key == f.key then [f] + fs[1..]
    else [fs[0]] + Put(fs[1..], f)
  }

  /** `json.loads`: one value with only blank text around it. */
  function Loads(s: string): Option<Json> {
    match Read(SkipSpace(s))
    case Fail => None
    case Got(j, rest) => if SkipSpace(rest) == "" then Some(j) else None
  }
}
