/** The JSON grammar (RFC 8259) without fractions and exponents: what its texts are, and
    the value each of them stands for. */
module JsonGrammar {
  import opened Json

  // ------------------------------------------------------------------ the grammar

  /** How one character of a string is written: as it is, by a letter after a backslash,
      by one code, or by a pair of surrogate codes. */
  datatype Piece =
    | Raw(c: char)
    | Short(letter: char, c: char)
    | Coded(hex: string, c: char)
    | Paired(hi: string, lo: string, c: char)

  /** A JSON text with all its blanks and spellings. */
  datatype Tree =
    | NullWord
    | TrueWord
    | FalseWord
    | Number(minus: bool, digits: string, n: int)
    | Quoted(pieces: seq<Piece>)
    | EmptyList(space: string)
    | List(items: seq<Item>)
    | EmptyDict(space: string)
    | Dict(members: seq<Member>)

  datatype Item = Item(before: string, tree: Tree, after: string)

  datatype Member = Member(before: string, key: seq<Piece>, gap: string, space: string, tree: Tree, after: string)

  predicate Space(c: char) {
    c == ' ' || c == '\t' || c == '\n' || c == '\r'
  }

  predicate IsBlank(s: string) {
    s == "" || (Space(s[0]) && IsBlank(s[1..]))
  }

  predicate HexWorth(c: char, v: nat) {
    || ('0' <= c <= '9' && v == (c - '0') as int)
    || ('a' <= c <= 'f' && v == (c - 'a') as int + 10)
    || ('A' <= c <= 'F' && v == (c - 'A') as int + 10)
  }

  /** Four hexadecimal digits of this value. */
  ghost predicate HexCode(s: string, n: nat) {
    |s| == 4 && exists a: nat, b: nat, c: nat, d: nat ::
      && HexWorth(s[0], a) && HexWorth(s[1], b) && HexWorth(s[2], c) && HexWorth(s[3], d)
      && n == 4096 * a + 256 * b + 16 * c + d
  }

  predicate Letter(letter: char, c: char) {
    || ((letter == '\"' || letter == '\\' || letter == '/') && c == letter)
    || (letter == 'b' && c as int == 8) || (letter == 't' && c as int == 9) || (letter == 'n' && c as int == 10)
    || (letter == 'f' && c as int == 12) || (letter == 'r' && c as int == 13)
  }

  ghost predicate Surrogates(hi: string, lo: string, c: char, h: nat, l: nat) {
    && HexCode(hi, h) && 0xd800 <= h < 0xdc00 && HexCode(lo, l) && 0xdc00 <= l < 0xe000
    && c as int == 0x10000 + 0x400 * (h - 0xd800) + (l - 0xdc00)
  }

  ghost predicate GoodPiece(p: Piece) {
    match p
    case Raw(c) => c as int >= 32 && c != '\"' && c != '\\'
    case Short(letter, c) => Letter(letter, c)
    case Coded(hex, c) => HexCode(hex, c as int)
    case Paired(hi, lo, c) => exists h, l :: Surrogates(hi, lo, c, h, l)
  }

  ghost predicate GoodPieces(ps: seq<Piece>) {
    ps == [] || (GoodPiece(ps[0]) && GoodPieces(ps[1..]))
  }

  function PieceText(p: Piece): string {
    match p
    case Raw(c) => [c]
    case Short(letter, _) => ['\\', letter]
    case Coded(hex, _) => "\\u" + hex
    case Paired(hi, lo, _) => "\\u" + hi + "\\u" + lo
  }

  function PiecesText(ps: seq<Piece>): string {
    if ps == [] then "" else PieceText(ps[0]) + PiecesText(ps[1..])
  }

  function PiecesValue(ps: seq<Piece>): string {
    if ps == [] then "" else [ps[0].c] + PiecesValue(ps[1..])
  }

  /** No superfluous zero in front. */
  ghost predicate GoodDigits(digits: string) {
    && digits != "" && (forall i :: 0 <= i < |digits| ==> IsDigit(digits[i]))
    && (|digits| > 1 ==> digits[0] != '0')
  }

  ghost predicate Good(t: Tree)
    decreases t, 1
  {
    match t
    case Number(_, digits, n) => GoodDigits(digits) && n == DecimalValue(digits)
    case Quoted(ps) => GoodPieces(ps)
    case EmptyList(space) => IsBlank(space)
    case List(items) => items != [] && GoodItems(items)
    case EmptyDict(space) => IsBlank(space)
    case Dict(members) => members != [] && GoodMembers(members)
    case _ => true
  }

  ghost predicate GoodItem(item: Item)
    decreases item, 0
  {
    IsBlank(item.before) && IsBlank(item.after) && Good(item.tree)
  }

  ghost predicate GoodItems(items: seq<Item>)
    decreases items, 0
  {
    items == [] || (GoodItem(items[0]) && GoodItems(items[1..]))
  }

  ghost predicate GoodMember(m: Member)
    decreases m, 0
  {
    IsBlank(m.before) && GoodPieces(m.key) && IsBlank(m.gap) && IsBlank(m.space) && Good(m.tree) && IsBlank(m.after)
  }

  ghost predicate GoodMembers(ms: seq<Member>)
    decreases ms, 0
  {
    ms == [] || (GoodMember(ms[0]) && GoodMembers(ms[1..]))
  }

  function TreeText(t: Tree): string
    decreases t, 1
  {
    match t
    case NullWord => "null"
    case TrueWord => "true"
    case FalseWord => "false"
    case Number(minus, digits, _) => (if minus then "-" else "") + digits
    case Quoted(ps) => "\"" + PiecesText(ps) + "\""
    case EmptyList(space) => "[" + space + "]"
    case List(items) => "[" + ItemsText(items) + "]"
    case EmptyDict(space) => "{" + space + "}"
    case Dict(members) => "{" + MembersText(members) + "}"
  }

  function ItemText(item: Item): string
    decreases item, 0
  {
    item.before + TreeText(item.tree) + item.after
  }

  function ItemsText(items: seq<Item>): string
    decreases items, 0
  {
    if items == [] then ""
    else ItemText(items[0]) + (if |items| == 1 then "" else "," + ItemsText(items[1..]))
  }

  function MemberText(m: Member): string
    decreases m, 0
  {
    m.before + "\"" + PiecesText(m.key) + "\"" + m.gap + ":" + m.space + TreeText(m.tree) + m.after
  }

  function MembersText(ms: seq<Member>): string
    decreases ms, 0
  {
    if ms == [] then ""
    else MemberText(ms[0]) + (if |ms| == 1 then "" else "," + MembersText(ms[1..]))
  }

  /** The value a text stands for. */
  function Meaning(t: Tree): Json
    decreases t, 1
  {
    match t
    case NullWord => Null
    case TrueWord => Bool(true)
    case FalseWord => Bool(false)
    case Number(minus, _, n) => if minus then Int(-n) else Int(n)
    case Quoted(ps) => Str(PiecesValue(ps))
    case EmptyList(_) => Arr([])
    case List(items) => Arr(ItemsValue(items))
    case EmptyDict(_) => Obj([])
    case Dict(ms) => Obj(ToDict(MembersValue(ms)))
  }

  function ItemsValue(items: seq<Item>): seq<Json>
    decreases items, 0
  {
    if items == [] then [] else [Meaning(items[0].tree)] + ItemsValue(items[1..])
  }

  function MembersValue(ms: seq<Member>): seq<Field>
    decreases ms, 0
  {
    if ms == [] then [] else [Field(PiecesValue(ms[0].key), Meaning(ms[0].tree))] + MembersValue(ms[1..])
  }

  /** What may stand after a value: a number must not go on. */
  ghost predicate MayEnd(t: Tree, rest: string) {
    t.Number? && rest != "" ==>
      rest[0] != '.' && rest[0] != 'e' && rest[0] != 'E' && (t.digits == "0" || !IsDigit(rest[0]))
  }

  /** The text begins with a JSON text of this value, and goes on with the rest. */
  ghost predicate Begins(s: string, t: Tree, j: Json, rest: string) {
    Good(t) && Meaning(t) == j && MayEnd(t, rest) && s == TreeText(t) + rest
  }

  /** A JSON text with blanks around it. */
  ghost predicate IsTextOf(s: string, j: Json, before: string, t: Tree, after: string) {
    IsBlank(before) && IsBlank(after) && Good(t) && Meaning(t) == j && s == before + TreeText(t) + after
  }
}
